/** The fleet repair scheduler (fleetqox/repair_scheduler.py): a multiple-choice knapsack
    solved by dynamic programming over (used bytes, admitted count) with dominance pruning,
    proved optimal against all selections. */
module RepairScheduler {
  import opened Wrappers
  import opened Numbers
  import Sorting

  datatype RepairPath = RepairPath(id: string, latencyMs: real, loss: real, failureDomain: string,
                                   utilization: real)

  datatype Demand = Demand(demandId: string, payloadBytes: int, remainingDeadlineMs: real)

  datatype RepairOption = RepairOption(paths: seq<RepairPath>, cost: nat, success: real,
                                       latencyMs: real, utility: real)

  datatype Config = Config(capacityBytes: nat, maxAdmitted: Option<int>, maxPaths: nat,
                           requireDiversity: bool, minExpectedSuccess: real)

  /** Utility of repairing a demand with given success, latency and path count. */
  type Utility = (Demand, real, real, nat) -> real

  // ---------------------------------------------------------------- the reference

  /** For each demand an index into its options, or -1 to defer it. */
  type Selection = seq<int>

  datatype Tally = Tally(bytes: nat, admitted: nat, utility: real)

  ghost predicate ValidSelection(options: seq<seq<RepairOption>>, sel: Selection) {
    |sel| <= |options| && forall i :: 0 <= i < |sel| ==> -1 <= sel[i] < |options[i]|
  }

  function Add(t: Tally, options: seq<RepairOption>, pick: int): Tally
    requires -1 <= pick < |options|
  {
    if pick < 0 then t
    else Tally(t.bytes + options[pick].cost, t.admitted + 1, t.utility + options[pick].utility)
  }

  ghost function TallyOf(options: seq<seq<RepairOption>>, sel: Selection): Tally
    requires ValidSelection(options, sel)
    decreases |sel|
  {
    if sel == [] then Tally(0, 0, 0.0)
    else Add(TallyOf(options, sel[..|sel| - 1]), options[|sel| - 1], sel[|sel| - 1])
  }

  /** Within byte capacity and, if anything is admitted at all, within the admission limit. */
  predicate Fits(capacity: nat, limit: Option<int>, t: Tally) {
    t.bytes <= capacity && (t.admitted == 0 || limit.None? || t.admitted <= limit.value)
  }

  ghost predicate Feasible(options: seq<seq<RepairOption>>, capacity: nat, limit: Option<int>, sel: Selection) {
    ValidSelection(options, sel) && |sel| == |options| && Fits(capacity, limit, TallyOf(options, sel))
  }

  /** More utility, then more admitted repairs, then fewer bytes. */
  predicate Beats(a: Tally, b: Tally) {
    || a.utility > b.utility
    || (a.utility == b.utility && (a.admitted > b.admitted || (a.admitted == b.admitted && a.bytes < b.bytes)))
  }

  ghost predicate Optimal(options: seq<seq<RepairOption>>, capacity: nat, limit: Option<int>, sel: Selection) {
    && Feasible(options, capacity, limit, sel)
    && forall other {:trigger Feasible(options, capacity, limit, other)} ::
         Feasible(options, capacity, limit, other) ==> !Beats(TallyOf(options, other), TallyOf(options, sel))
  }

  // ---------------------------------------------------------------- the table

  datatype Key = Key(bytes: nat, admitted: nat)
  datatype Value = Value(utility: real, selected: Selection)
  type States = map<Key, Value>

  /** Python's order on tuples of integers. */
  predicate TupleLess(a: seq<int>, b: seq<int>) {
    if b == [] then false
    else if a == [] then true
    else if a[0] != b[0] then a[0] < b[0]
    else TupleLess(a[1..], b[1..])
  }

  predicate Greater(a: Value, b: Value) {
    a.utility > b.utility || (a.utility == b.utility && TupleLess(b.selected, a.selected))
  }

  function KeepState(states: States, key: Key, v: Value): (r: States)
    ensures key in r && r[key].utility >= v.utility
    ensures forall k :: k in r ==> (k in states && r[k] == states[k]) || (k == key && r[k] == v)
    ensures forall k :: k in states ==> k in r && r[k].utility >= states[k].utility
  {
    if key !in states || Greater(v, states[key]) then states[key := v] else states
  }

  ghost predicate SoundEntry(options: seq<seq<RepairOption>>, capacity: nat, limit: Option<int>, n: nat, k: Key,
                             v: Value)
  {
    && |v.selected| == n && ValidSelection(options, v.selected)
    && TallyOf(options, v.selected) == Tally(k.bytes, k.admitted, v.utility)
    && Fits(capacity, limit, TallyOf(options, v.selected))
  }

  /** Every table entry is a real selection with the tally its key says. */
  ghost predicate Sound(options: seq<seq<RepairOption>>, capacity: nat, limit: Option<int>, n: nat, states: States) {
    forall k {:trigger SoundEntry(options, capacity, limit, n, k, states[k])} :: k in states ==>
      SoundEntry(options, capacity, limit, n, k, states[k])
  }

  /** `later` has every key of `earlier`, with no less utility. */
  ghost predicate Improves(earlier: States, later: States) {
    forall k :: k in earlier ==> k in later && later[k].utility >= earlier[k].utility
  }

  lemma KeepSound(options: seq<seq<RepairOption>>, capacity: nat, limit: Option<int>, n: nat, states: States, k: Key,
                  v: Value)
    requires Sound(options, capacity, limit, n, states) && SoundEntry(options, capacity, limit, n, k, v)
    ensures Sound(options, capacity, limit, n, KeepState(states, k, v)) && Improves(states, KeepState(states, k, v))
  {
    var r := KeepState(states, k, v);
    forall l | l in r ensures SoundEntry(options, capacity, limit, n, l, r[l]) {
      assert l in states ==> SoundEntry(options, capacity, limit, n, l, states[l]);
    }
  }

  /** Some entry admits as many, uses no more bytes and has no less utility. */
  ghost predicate Covered(states: States, t: Tally) {
    exists k :: k in states && k.admitted == t.admitted && k.bytes <= t.bytes && states[k].utility >= t.utility
  }

  ghost predicate Complete(options: seq<seq<RepairOption>>, capacity: nat, limit: Option<int>, n: nat, states: States) {
    forall sel {:trigger ValidSelection(options, sel)} ::
      ValidSelection(options, sel) && |sel| == n && Fits(capacity, limit, TallyOf(options, sel)) ==>
        Covered(states, TallyOf(options, sel))
  }

  ghost function EntryTally(states: States, k: Key): Tally
    requires k in states
  {
    Tally(k.bytes, k.admitted, states[k].utility)
  }

  ghost predicate CoversAll(states: States, kept: States) {
    forall k {:trigger EntryTally(states, k)} :: k in states ==> Covered(kept, EntryTally(states, k))
  }

  function Extended(k: Key, v: Value, options: seq<RepairOption>, pick: int): (Key, Value)
    requires -1 <= pick < |options|
  {
    var t := Add(Tally(k.bytes, k.admitted, v.utility), options, pick);
    (Key(t.bytes, t.admitted), Value(t.utility, v.selected + [pick]))
  }

  /** The extension of entry `k` by `pick`, if it fits, is matched or bettered under its key. */
  ghost predicate Reached(states: States, next: States, options: seq<RepairOption>, capacity: nat,
                          limit: Option<int>, k: Key, pick: int)
    requires k in states && -1 <= pick < |options|
  {
    var e := Extended(k, states[k], options, pick);
    Fits(capacity, limit, Tally(e.0.bytes, e.0.admitted, e.1.utility)) ==>
      e.0 in next && next[e.0].utility >= e.1.utility
  }

  ghost predicate AllReached(states: States, next: States, options: seq<RepairOption>, capacity: nat,
                             limit: Option<int>, k: Key, upto: int)
    requires k in states && upto <= |options|
  {
    forall pick {:trigger Reached(states, next, options, capacity, limit, k, pick)} ::
      -1 <= pick < upto ==> Reached(states, next, options, capacity, limit, k, pick)
  }

  lemma ReachedImproves(states: States, next: States, later: States, options: seq<RepairOption>, capacity: nat,
                        limit: Option<int>, k: Key, upto: int)
    requires k in states && upto <= |options| && Improves(next, later)
    requires AllReached(states, next, options, capacity, limit, k, upto)
    ensures AllReached(states, later, options, capacity, limit, k, upto)
  {
    forall pick | -1 <= pick < upto ensures Reached(states, later, options, capacity, limit, k, pick) {
      assert Reached(states, next, options, capacity, limit, k, pick);
    }
  }

  lemma TallyExtends(options: seq<seq<RepairOption>>, sel: Selection, pick: int)
    requires ValidSelection(options, sel) && |sel| < |options| && -1 <= pick < |options[|sel|]|
    ensures ValidSelection(options, sel + [pick])
    ensures TallyOf(options, sel + [pick]) == Add(TallyOf(options, sel), options[|sel|], pick)
  {
    assert (sel + [pick])[..|sel|] == sel;
  }

  lemma ExtendedSound(options: seq<seq<RepairOption>>, capacity: nat, limit: Option<int>, n: nat, k: Key, v: Value,
                      pick: int)
    requires n < |options| && SoundEntry(options, capacity, limit, n, k, v) && -1 <= pick < |options[n]|
    ensures var e := Extended(k, v, options[n], pick);
      Fits(capacity, limit, Tally(e.0.bytes, e.0.admitted, e.1.utility)) ==>
        SoundEntry(options, capacity, limit, n + 1, e.0, e.1)
  {
    TallyExtends(options, v.selected, pick);
  }

  ghost predicate RowReached(states: States, next: States, options: seq<RepairOption>, capacity: nat,
                             limit: Option<int>, done: set<Key>)
    requires done <= states.Keys
  {
    forall k {:trigger AllReached(states, next, options, capacity, limit, k, |options|)} ::
      k in done ==> AllReached(states, next, options, capacity, limit, k, |options|)
  }

  /** One row of the table: defer the demand, or take one of its options if that fits. */
  method ExtendRow(options: seq<seq<RepairOption>>, capacity: nat, limit: Option<int>, n: nat, states: States)
    returns (next: States)
    requires n < |options| && Sound(options, capacity, limit, n, states)
    ensures Sound(options, capacity, limit, n + 1, next)
    ensures RowReached(states, next, options[n], capacity, limit, states.Keys)
  {
    next := map[];
    var todo := states.Keys;
    while todo != {}
      invariant todo <= states.Keys
      invariant Sound(options, capacity, limit, n + 1, next)
      invariant RowReached(states, next, options[n], capacity, limit, states.Keys - todo)
      decreases |todo|
    {
      var k :| k in todo;
      ghost var before, done := next, states.Keys - todo;
      next := ExtendEntry(options, capacity, limit, n, states, next, k);
      todo := todo - {k};
      forall l | l in states.Keys - todo
        ensures AllReached(states, next, options[n], capacity, limit, l, |options[n]|)
      {
        if l in done {
          assert AllReached(states, before, options[n], capacity, limit, l, |options[n]|);
          ReachedImproves(states, before, next, options[n], capacity, limit, l, |options[n]|);
        }
      }
    }
  }

  method ExtendEntry(options: seq<seq<RepairOption>>, capacity: nat, limit: Option<int>, n: nat, states: States,
                     next0: States, k: Key) returns (next: States)
    requires n < |options| && Sound(options, capacity, limit, n, states) && k in states
    requires Sound(options, capacity, limit, n + 1, next0)
    ensures Sound(options, capacity, limit, n + 1, next) && Improves(next0, next)
    ensures AllReached(states, next, options[n], capacity, limit, k, |options[n]|)
  {
    var v := states[k];
    assert SoundEntry(options, capacity, limit, n, k, v);
    ExtendedSound(options, capacity, limit, n, k, v, -1);
    KeepSound(options, capacity, limit, n + 1, next0, k, Value(v.utility, v.selected + [-1]));
    next := KeepState(next0, k, Value(v.utility, v.selected + [-1]));
    for j := 0 to |options[n]|
      invariant Sound(options, capacity, limit, n + 1, next) && Improves(next0, next)
      invariant AllReached(states, next, options[n], capacity, limit, k, j)
    {
      var option := options[n][j];
      var nextUsed, nextAdmitted := k.bytes + option.cost, k.admitted + 1;
      ExtendedSound(options, capacity, limit, n, k, v, j);
      if nextUsed <= capacity && (limit.None? || nextAdmitted <= limit.value) {
        var key, value := Key(nextUsed, nextAdmitted), Value(v.utility + option.utility, v.selected + [j]);
        KeepSound(options, capacity, limit, n + 1, next, key, value);
        ReachedImproves(states, next, KeepState(next, key, value), options[n], capacity, limit, k, j);
        next := KeepState(next, key, value);
      }
      assert Reached(states, next, options[n], capacity, limit, k, j);
    }
  }

  /** Costs are never negative, so a selection that fits has only prefixes that fit. */
  lemma PrefixFits(options: seq<seq<RepairOption>>, capacity: nat, limit: Option<int>, sel: Selection)
    requires ValidSelection(options, sel) && sel != [] && Fits(capacity, limit, TallyOf(options, sel))
    ensures ValidSelection(options, sel[..|sel| - 1])
    ensures Fits(capacity, limit, TallyOf(options, sel[..|sel| - 1]))
  {
  }

  lemma RowComplete(options: seq<seq<RepairOption>>, capacity: nat, limit: Option<int>, n: nat,
                    states: States, next: States)
    requires n < |options| && Complete(options, capacity, limit, n, states)
    requires RowReached(states, next, options[n], capacity, limit, states.Keys)
    ensures Complete(options, capacity, limit, n + 1, next)
  {
    forall sel | ValidSelection(options, sel) && |sel| == n + 1 && Fits(capacity, limit, TallyOf(options, sel))
      ensures Covered(next, TallyOf(options, sel))
    {
      var init, pick := sel[..n], sel[n];
      PrefixFits(options, capacity, limit, sel);
      assert ValidSelection(options, init);
      var t := TallyOf(options, init);
      var k :| k in states && k.admitted == t.admitted && k.bytes <= t.bytes && states[k].utility >= t.utility;
      assert AllReached(states, next, options[n], capacity, limit, k, |options[n]|);
      assert Reached(states, next, options[n], capacity, limit, k, pick);
      assert Extended(k, states[k], options[n], pick).0 in next;
    }
  }

  // ---------------------------------------------------------------- pruning

  /** The order of `_pareto_prune`: by admitted count, then by bytes. */
  predicate KeyLess(a: Key, b: Key) {
    a.admitted < b.admitted || (a.admitted == b.admitted && a.bytes < b.bytes)
  }

  method LeastKey(keys: set<Key>) returns (least: Key)
    requires keys != {}
    ensures least in keys && forall k :: k in keys ==> k == least || KeyLess(least, k)
  {
    least :| least in keys;
    var todo := keys - {least};
    while todo != {}
      invariant todo <= keys && least in keys
      invariant forall k :: k in keys && k !in todo ==> k == least || KeyLess(least, k)
      decreases |todo|
    {
      var k :| k in todo;
      if KeyLess(k, least) { least := k; }
      todo := todo - {k};
    }
  }

  const TOLERANCE: real := 0.000000000001

  ghost predicate BestKept(best: map<nat, real>, kept: States) {
    forall a {:trigger HasBest(best[a], kept, a)} :: a in best ==> HasBest(best[a], kept, a)
  }

  ghost predicate HasBest(utility: real, kept: States, a: nat) {
    exists k :: k in kept && k.admitted == a && kept[k].utility == utility
  }

  /** Everything looked at precedes what is left ... */
  ghost predicate InOrder(states: States, todo: set<Key>) {
    todo <= states.Keys && forall k, l :: k in states && k !in todo && l in todo ==> KeyLess(k, l)
  }

  ghost predicate KeptFrom(states: States, todo: set<Key>, kept: States) {
    forall k :: k in kept ==> k in states && k !in todo && kept[k] == states[k]
  }

  /** ... and is covered by what was kept. */
  ghost predicate CoveredSoFar(states: States, todo: set<Key>, kept: States) {
    forall k {:trigger EntryTally(states, k)} :: k in states && k !in todo ==> Covered(kept, EntryTally(states, k))
  }

  ghost predicate PrunedSoFar(states: States, todo: set<Key>, best: map<nat, real>, kept: States) {
    InOrder(states, todo) && KeptFrom(states, todo, kept) && BestKept(best, kept) && CoveredSoFar(states, todo, kept)
  }

  method ParetoPrune(states: States) returns (result: States)
    ensures forall k :: k in result ==> k in states && result[k] == states[k]
    ensures CoversAll(states, result)
  {
    result := map[];
    var bestByAdmitted: map<nat, real> := map[];
    var todo := states.Keys;
    while todo != {}
      invariant PrunedSoFar(states, todo, bestByAdmitted, result)
      decreases |todo|
    {
      var key := LeastKey(todo);
      var value := states[key];
      if key.admitted in bestByAdmitted && value.utility + TOLERANCE < bestByAdmitted[key.admitted] {
        DropStep(states, todo, bestByAdmitted, result, key);
      } else {
        var best := if key.admitted in bestByAdmitted && bestByAdmitted[key.admitted] > value.utility
                    then bestByAdmitted[key.admitted] else value.utility;
        KeepStep(states, todo, bestByAdmitted, result, key, best);
        bestByAdmitted := bestByAdmitted[key.admitted := best];
        result := result[key := value];
      }
      todo := todo - {key};
    }
  }

  /** A dropped entry is beaten on utility by a kept one with as many repairs and fewer bytes. */
  lemma DropStep(states: States, todo: set<Key>, best: map<nat, real>, kept: States, key: Key)
    requires PrunedSoFar(states, todo, best, kept) && key in todo
    requires forall k :: k in todo ==> k == key || KeyLess(key, k)
    requires key.admitted in best && states[key].utility < best[key.admitted]
    ensures PrunedSoFar(states, todo - {key}, best, kept)
  {
    assert HasBest(best[key.admitted], kept, key.admitted);
    var w :| w in kept && w.admitted == key.admitted && kept[w].utility == best[key.admitted];
    assert KeyLess(w, key) && Covered(kept, EntryTally(states, key));
  }

  lemma KeepStep(states: States, todo: set<Key>, best: map<nat, real>, kept: States, key: Key, utility: real)
    requires PrunedSoFar(states, todo, best, kept) && key in todo
    requires forall k :: k in todo ==> k == key || KeyLess(key, k)
    requires utility == states[key].utility || (key.admitted in best && utility == best[key.admitted])
    ensures PrunedSoFar(states, todo - {key}, best[key.admitted := utility], kept[key := states[key]])
  {
    BestStep(best, kept, key, states[key], utility);
    CoverStep(states, todo, kept, key);
  }

  lemma CoverStep(states: States, todo: set<Key>, kept: States, key: Key)
    requires CoveredSoFar(states, todo, kept) && key in states && key !in kept
    ensures CoveredSoFar(states, todo - {key}, kept[key := states[key]])
  {
    var kept' := kept[key := states[key]];
    forall k | k in states && k !in todo - {key} ensures Covered(kept', EntryTally(states, k)) {
      if k == key {
        assert key in kept';
      } else {
        assert Covered(kept, EntryTally(states, k));
        CoveredByMore(kept, key, states[key], EntryTally(states, k));
      }
    }
  }

  lemma BestStep(best: map<nat, real>, kept: States, key: Key, value: Value, utility: real)
    requires BestKept(best, kept) && key !in kept
    requires utility == value.utility || (key.admitted in best && utility == best[key.admitted])
    ensures BestKept(best[key.admitted := utility], kept[key := value])
  {
    var kept', best' := kept[key := value], best[key.admitted := utility];
    forall a | a in best' ensures HasBest(best'[a], kept', a) {
      if a == key.admitted && utility == value.utility {
        assert key in kept';
      } else {
        assert HasBest(best[a], kept, a);
        var w :| w in kept && w.admitted == a && kept[w].utility == best[a];
        assert w in kept';
      }
    }
  }

  lemma CoveredByMore(kept: States, key: Key, value: Value, t: Tally)
    requires Covered(kept, t) && key !in kept
    ensures Covered(kept[key := value], t)
  {
    var w :| w in kept && w.admitted == t.admitted && w.bytes <= t.bytes && kept[w].utility >= t.utility;
    assert w in kept[key := value];
  }

  lemma PruneComplete(options: seq<seq<RepairOption>>, capacity: nat, limit: Option<int>, n: nat,
                      states: States, pruned: States)
    requires Complete(options, capacity, limit, n, states) && CoversAll(states, pruned)
    ensures Complete(options, capacity, limit, n, pruned)
  {
    forall sel | ValidSelection(options, sel) && |sel| == n && Fits(capacity, limit, TallyOf(options, sel))
      ensures Covered(pruned, TallyOf(options, sel))
    {
      var t := TallyOf(options, sel);
      var k :| k in states && k.admitted == t.admitted && k.bytes <= t.bytes && states[k].utility >= t.utility;
      assert Covered(pruned, EntryTally(states, k));
      var l :| l in pruned && l.admitted == k.admitted && l.bytes <= k.bytes && pruned[l].utility >= states[k].utility;
    }
  }

  // ---------------------------------------------------------------- the final choice

  function Negated(s: seq<int>): (r: seq<int>)
    ensures |r| == |s| && forall i :: 0 <= i < |s| ==> r[i] == -s[i]
  {
    seq(|s|, i requires 0 <= i < |s| => -s[i])
  }

  /** The key of the final `max`: utility, admitted, fewer bytes, then smaller option indexes. */
  predicate Preferred(ka: Key, a: Value, kb: Key, b: Value) {
    var ta, tb := Tally(ka.bytes, ka.admitted, a.utility), Tally(kb.bytes, kb.admitted, b.utility);
    Beats(ta, tb) || (!Beats(tb, ta) && TupleLess(Negated(b.selected), Negated(a.selected)))
  }

  method PickBest(states: States) returns (best: Key)
    requires states.Keys != {}
    ensures best in states
    ensures forall k :: k in states ==>
              !Beats(Tally(k.bytes, k.admitted, states[k].utility),
                     Tally(best.bytes, best.admitted, states[best].utility))
  {
    best :| best in states;
    var todo := states.Keys - {best};
    while todo != {}
      invariant todo <= states.Keys && best in states
      invariant forall k :: k in states && k !in todo ==>
                  !Beats(Tally(k.bytes, k.admitted, states[k].utility),
                         Tally(best.bytes, best.admitted, states[best].utility))
      decreases |todo|
    {
      var k :| k in todo;
      if Preferred(k, states[k], best, states[best]) { best := k; }
      todo := todo - {k};
    }
  }

  /** The dynamic program: its selection is feasible, and no feasible selection has more
      utility, or as much with more repairs, or as much with as many and fewer bytes. */
  method Solve(options: seq<seq<RepairOption>>, capacity: nat, limit: Option<int>) returns (sel: Selection)
    ensures Optimal(options, capacity, limit, sel)
  {
    var states := map[Key(0, 0) := Value(0.0, [])];
    FirstRow(options, capacity, limit);
    for n := 0 to |options|
      invariant Sound(options, capacity, limit, n, states)
      invariant Complete(options, capacity, limit, n, states)
    {
      var next := ExtendRow(options, capacity, limit, n, states);
      RowComplete(options, capacity, limit, n, states, next);
      states := ParetoPrune(next);
      PruneComplete(options, capacity, limit, n + 1, next, states);
      forall k | k in states ensures SoundEntry(options, capacity, limit, n + 1, k, states[k]) {
        assert SoundEntry(options, capacity, limit, n + 1, k, next[k]);
      }
    }
    DeferAllFits(options, capacity, limit);
    var best := PickBest(states);
    sel := states[best].selected;
    BestIsOptimal(options, capacity, limit, states, best);
  }

  lemma FirstRow(options: seq<seq<RepairOption>>, capacity: nat, limit: Option<int>)
    ensures var states := map[Key(0, 0) := Value(0.0, [])];
      Sound(options, capacity, limit, 0, states) && Complete(options, capacity, limit, 0, states)
  {
    var states := map[Key(0, 0) := Value(0.0, [])];
    forall sel | ValidSelection(options, sel) && |sel| == 0 ensures Covered(states, TallyOf(options, sel)) {
      assert Key(0, 0) in states;
    }
  }

  lemma BestIsOptimal(options: seq<seq<RepairOption>>, capacity: nat, limit: Option<int>, states: States, best: Key)
    requires Sound(options, capacity, limit, |options|, states) && Complete(options, capacity, limit, |options|, states)
    requires best in states
    requires forall k :: k in states ==>
               !Beats(Tally(k.bytes, k.admitted, states[k].utility),
                      Tally(best.bytes, best.admitted, states[best].utility))
    ensures Optimal(options, capacity, limit, states[best].selected)
  {
    assert SoundEntry(options, capacity, limit, |options|, best, states[best]);
    forall other | Feasible(options, capacity, limit, other)
      ensures !Beats(TallyOf(options, other), TallyOf(options, states[best].selected))
    {
      var t := TallyOf(options, other);
      assert Covered(states, t);
      var k :| k in states && k.admitted == t.admitted && k.bytes <= t.bytes && states[k].utility >= t.utility;
    }
  }

  lemma DeferAllFits(options: seq<seq<RepairOption>>, capacity: nat, limit: Option<int>)
    ensures Feasible(options, capacity, limit, seq(|options|, _ => -1))
  {
    DeferredTally(options, |options|);
  }

  lemma {:induction false} DeferredTally(options: seq<seq<RepairOption>>, n: nat)
    requires n <= |options|
    ensures ValidSelection(options, seq(n, _ => -1)) && TallyOf(options, seq(n, _ => -1)) == Tally(0, 0, 0.0)
  {
    if n > 0 {
      DeferredTally(options, n - 1);
      assert seq(n, _ => -1)[..n - 1] == seq(n - 1, _ => -1);
    }
  }

  // ---------------------------------------------------------------- options and decisions

  datatype Result<+T> = Ok(value: T) | Invalid(reason: string)

  function Clip01(x: real): (r: real)
    ensures 0.0 <= r <= 1.0 && (0.0 <= x <= 1.0 ==> r == x)
  {
    if x < 0.0 then 0.0 else if x > 1.0 then 1.0 else x
  }

  function PathRisk(path: RepairPath, demand: Demand): real {
    4.0 * Clip01(path.loss)
    + 2.0 * MaxReal(0.0, path.latencyMs / MaxReal(1.0, demand.remainingDeadlineMs))
    + Clip01(path.utilization)
  }

  function RiskOrder(demand: Demand): (RepairPath, RepairPath) -> bool {
    (a, b) => PathRisk(a, demand) <= PathRisk(b, demand)
  }

  function Ranked(paths: seq<RepairPath>, demand: Demand): (r: seq<RepairPath>)
    ensures multiset(r) == multiset(paths)
    ensures |r| == |paths|
  {
    Sorting.Sorted(paths, RiskOrder(demand))
  }

  /** Paths are tried from the least risky on, equally risky ones in the order given. */
  lemma RankedByRisk(paths: seq<RepairPath>, demand: Demand)
    ensures forall i, j :: 0 <= i < j < |paths| ==>
              PathRisk(Ranked(paths, demand)[i], demand) <= PathRisk(Ranked(paths, demand)[j], demand)
    ensures forall path :: Sorting.Stable(paths, path, RiskOrder(demand))
  {
    var leq := RiskOrder(demand);
    forall a, b ensures Sorting.Comparable(leq, a, b) {}
    forall a, b, c ensures Sorting.Chained(leq, a, b, c) {}
    Sorting.SortedAscends(paths, leq);
    forall path ensures Sorting.Stable(paths, path, leq) { Sorting.SortedIsStable(paths, path, leq); }
  }

  const IdOrder := (a: Demand, b: Demand) => Sorting.AtMost(a.demandId, b.demandId)

  /** Demands are scheduled in the order of their ids. */
  function InIdOrder(demands: seq<Demand>): (r: seq<Demand>)
    ensures multiset(r) == multiset(demands)
    ensures |r| == |demands|
  {
    Sorting.Sorted(demands, IdOrder)
  }

  lemma OneInOrder(demand: Demand)
    ensures InIdOrder([demand]) == [demand]
  {
    Sorting.SortedSnoc([], demand, IdOrder);
    assert [] + [demand] == [demand];
  }

  lemma IdsAscend(demands: seq<Demand>)
    ensures forall i, j :: 0 <= i < j < |demands| ==>
              Sorting.AtMost(InIdOrder(demands)[i].demandId, InIdOrder(demands)[j].demandId)
    ensures forall demand :: Sorting.Stable(demands, demand, IdOrder)
  {
    forall a, b ensures Sorting.Comparable(IdOrder, a, b) { Sorting.AtMostTotal(a.demandId, b.demandId); }
    forall a, b, c ensures Sorting.Chained(IdOrder, a, b, c) {
      if IdOrder(a, b) && IdOrder(b, c) { Sorting.AtMostTransitive(a.demandId, b.demandId, c.demandId); }
    }
    Sorting.SortedAscends(demands, IdOrder);
    forall demand ensures Sorting.Stable(demands, demand, IdOrder) { Sorting.SortedIsStable(demands, demand, IdOrder); }
  }

  predicate Diverse(cfg: Config, first: RepairPath, second: RepairPath) {
    cfg.requireDiversity && first.failureDomain != "" ==> second.failureDomain != first.failureDomain
  }

  function FirstDiverse(cfg: Config, first: RepairPath, rest: seq<RepairPath>): (r: Option<RepairPath>)
    ensures r.Some? ==> r.value in rest && Diverse(cfg, first, r.value)
    ensures r.None? ==> forall p :: p in rest ==> !Diverse(cfg, first, p)
  {
    if rest == [] then None
    else if Diverse(cfg, first, rest[0]) then Some(rest[0])
    else FirstDiverse(cfg, first, rest[1..])
  }

  function Candidates(cfg: Config, ranked: seq<RepairPath>): seq<seq<RepairPath>>
    requires ranked != []
  {
    var second := if cfg.maxPaths > 1 then FirstDiverse(cfg, ranked[0], ranked[1..]) else None;
    [[ranked[0]]] + if second.Some? then [[ranked[0], second.value]] else []
  }

  function LossProduct(paths: seq<RepairPath>): real {
    if paths == [] then 1.0 else Clip01(paths[0].loss) * LossProduct(paths[1..])
  }

  function LeastLatency(paths: seq<RepairPath>): real
    requires paths != []
  {
    var first := MaxReal(0.0, paths[0].latencyMs);
    if |paths| == 1 then first
    else var rest := LeastLatency(paths[1..]); if first <= rest then first else rest
  }

  function OptionsFrom(cfg: Config, utility: Utility, demand: Demand, candidates: seq<seq<RepairPath>>)
    : (r: seq<RepairOption>)
    requires demand.payloadBytes > 0 && forall i :: 0 <= i < |candidates| ==> candidates[i] != []
    ensures forall o :: o in r ==> o.paths in candidates && o.cost == demand.payloadBytes * |o.paths|
                                   && o.success >= cfg.minExpectedSuccess
  {
    if candidates == [] then []
    else
      var paths := candidates[0];
      var success := 1.0 - LossProduct(paths);
      var rest := OptionsFrom(cfg, utility, demand, candidates[1..]);
      if success < cfg.minExpectedSuccess then rest
      else
        var latency := LeastLatency(paths);
        [RepairOption(paths, demand.payloadBytes * |paths|, success, latency,
                      utility(demand, success, latency, |paths|))] + rest
  }

  function OptionsOf(cfg: Config, utility: Utility, demand: Demand, paths: seq<RepairPath>): (r: seq<RepairOption>)
    requires demand.payloadBytes > 0 && paths != []
    ensures forall o :: o in r ==>
      && 1 <= |o.paths| <= 2 && o.cost == demand.payloadBytes * |o.paths|
      && (|o.paths| == 2 ==> cfg.maxPaths > 1 && Diverse(cfg, o.paths[0], o.paths[1]))
  {
    OptionsFrom(cfg, utility, demand, Candidates(cfg, Ranked(paths, demand)))
  }

  datatype Decision = Decision(demandId: string, repair: bool, paths: seq<RepairPath>, allocatedBytes: nat,
                               utility: real)

  function Decide(demand: Demand, options: seq<RepairOption>, pick: int): Decision
    requires -1 <= pick < |options|
  {
    if pick < 0 then Decision(demand.demandId, false, [], 0, 0.0)
    else Decision(demand.demandId, true, options[pick].paths, options[pick].cost, options[pick].utility)
  }

  ghost function DecisionTally(ds: seq<Decision>): Tally {
    if ds == [] then Tally(0, 0, 0.0)
    else
      var t, d := DecisionTally(ds[..|ds| - 1]), ds[|ds| - 1];
      if d.repair then Tally(t.bytes + d.allocatedBytes, t.admitted + 1, t.utility + d.utility) else t
  }

  ghost predicate Implements(demands: seq<Demand>, table: seq<seq<RepairOption>>, sel: Selection, ds: seq<Decision>) {
    && |ds| == |demands| == |table| == |sel| && ValidSelection(table, sel)
    && forall i :: 0 <= i < |ds| ==> ds[i] == Decide(demands[i], table[i], sel[i])
  }

  /** The decisions spend exactly what the selection was tallied at. */
  lemma {:induction false} DecisionsTally(demands: seq<Demand>, table: seq<seq<RepairOption>>, sel: Selection,
                                          ds: seq<Decision>)
    requires Implements(demands, table, sel, ds)
    ensures DecisionTally(ds) == TallyOf(table, sel)
  {
    if ds != [] {
      var n := |ds| - 1;
      DecisionsTally(demands[..n], table[..n], sel[..n], ds[..n]);
      ShorterTable(table, sel[..n], n);
    }
  }

  lemma {:induction false} ShorterTable(table: seq<seq<RepairOption>>, sel: Selection, n: nat)
    requires n <= |table| && |sel| <= n && ValidSelection(table[..n], sel)
    ensures ValidSelection(table, sel) && TallyOf(table, sel) == TallyOf(table[..n], sel)
  {
    if sel != [] { ShorterTable(table, sel[..|sel| - 1], n); }
  }

  ghost predicate TableFor(cfg: Config, utility: Utility, demands: seq<Demand>, paths: seq<RepairPath>,
                           table: seq<seq<RepairOption>>)
  {
    && |table| == |demands|
    && forall i :: 0 <= i < |table| ==>
         demands[i].payloadBytes > 0 && paths != [] && table[i] == OptionsOf(cfg, utility, demands[i], paths)
  }

  ghost predicate OptimalSchedule(cfg: Config, demands: seq<Demand>, table: seq<seq<RepairOption>>, ds: seq<Decision>) {
    exists sel :: Optimal(table, cfg.capacityBytes, cfg.maxAdmitted, sel) && Implements(demands, table, sel, ds)
  }

  predicate AllHavePayload(demands: seq<Demand>) { forall i :: 0 <= i < |demands| ==> demands[i].payloadBytes > 0 }

  method BuildTable(cfg: Config, utility: Utility, demands: seq<Demand>, paths: seq<RepairPath>)
    returns (r: Result<seq<seq<RepairOption>>>)
    requires demands == [] || paths != []
    ensures r.Ok? <==> AllHavePayload(demands)
    ensures r.Ok? ==> TableFor(cfg, utility, demands, paths, r.value)
  {
    var table := [];
    for i := 0 to |demands|
      invariant |table| == i && forall j :: 0 <= j < i ==> demands[j].payloadBytes > 0
      invariant forall j :: 0 <= j < i ==> table[j] == OptionsOf(cfg, utility, demands[j], paths)
    {
      if demands[i].payloadBytes <= 0 { return Invalid("repair payload_bytes must be positive"); }
      table := table + [OptionsOf(cfg, utility, demands[i], paths)];
    }
    r := Ok(table);
  }

  method DecideAll(demands: seq<Demand>, table: seq<seq<RepairOption>>, sel: Selection) returns (ds: seq<Decision>)
    requires |demands| == |table| == |sel| && ValidSelection(table, sel)
    ensures Implements(demands, table, sel, ds)
  {
    ds := [];
    for i := 0 to |demands|
      invariant |ds| == i && forall j :: 0 <= j < i ==> ds[j] == Decide(demands[j], table[j], sel[j])
    {
      ds := ds + [Decide(demands[i], table[i], sel[i])];
    }
  }

  lemma PayloadsInAnyOrder(demands: seq<Demand>, ordered: seq<Demand>)
    requires multiset(demands) == multiset(ordered) && AllHavePayload(demands)
    ensures AllHavePayload(ordered)
  {
    forall i | 0 <= i < |ordered| ensures ordered[i].payloadBytes > 0 {
      assert ordered[i] in multiset(ordered);
      assert ordered[i] in demands;
    }
  }

  /** A schedule is refused exactly for a demand without paths or without a payload; otherwise
      it takes the demands in the order of their ids and carries out an optimal selection from
      the generated options, within capacity. */
  method Schedule(cfg: Config, utility: Utility, demands: seq<Demand>, paths: seq<RepairPath>)
    returns (r: Result<seq<Decision>>, table: seq<seq<RepairOption>>)
    ensures r.Ok? <==> (demands == [] || paths != []) && AllHavePayload(demands)
    ensures r.Ok? ==> var ordered := InIdOrder(demands);
                      TableFor(cfg, utility, ordered, paths, table) && OptimalSchedule(cfg, ordered, table, r.value)
    ensures r.Ok? ==> DecisionTally(r.value).bytes <= cfg.capacityBytes
  {
    var ordered := InIdOrder(demands);
    table := [];
    if ordered != [] && paths == [] { return Invalid("at least one repair path is required"), table; }
    var built := BuildTable(cfg, utility, ordered, paths);
    if AllHavePayload(demands) { PayloadsInAnyOrder(demands, ordered); }
    if AllHavePayload(ordered) { PayloadsInAnyOrder(ordered, demands); }
    if built.Invalid? { return Invalid(built.reason), table; }
    table := built.value;
    var sel := Solve(table, cfg.capacityBytes, cfg.maxAdmitted);
    var decisions := DecideAll(ordered, table, sel);
    DecisionsTally(ordered, table, sel, decisions);
    r := Ok(decisions);
  }
}
