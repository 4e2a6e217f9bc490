/** The robot-budget passes of fleetqox/control_plane.py: several passes rewrite one map of flow
    decisions while a running counter of sent bytes is carried along.

    Pressures, deficits and the transform candidates of a flow are inputs; strings that only
    explain a decision are not part of it.
 */
module RobotBudget {
  import opened Wrappers
  import opened Collections
  import opened Numbers
  import opened FlowModel

  // Opaque ordered identifiers.
  type FlowId = nat
  type RobotId = nat

  datatype Action = Send | SendCompacted | SendDegraded | SendIntent | SendSupervisoryIntent | Defer | Drop
  datatype Kind = Raw | Degraded | SemanticDelta | SupervisoryIntent | ControlIntent

  /** One way to put a flow on this link, with its feasibility certificate. */
  datatype Transform = Transform(kind: Kind, action: Action, bytes: nat, feasible: bool, risk: real, slack: real)

  datatype Flow = Flow(id: FlowId, robot: RobotId, kind: FlowClass, options: seq<Transform>, slack: real)

  datatype Decision = Decision(flow: FlowId, action: Action, priority: real, bytes: nat, slack: real)

  datatype Robot = Robot(service: real, total: real, deadlineDeficit: real, controlActionDeficit: real)

  datatype Config = Config(
    capacity: nat, rtt: real,
    minFloorPressure: real, nAware: bool, nAwareMinRobots: int, nAwarePressure: real,
    lift: bool, liftMinDeficit: real, liftMinRtt: real,
    shedStart: real, shedMaxFraction: real, maxPressure: real, debtGain: real, debtMaxFraction: real,
    firewall: bool, tail: nat -> real)

  predicate IsControl(c: FlowClass) { c == Safety || c == Control }
  predicate Sheds(c: FlowClass) { c == State || Defers(c) }
  predicate Defers(c: FlowClass) { c == Perception || c == HumanQoe || c == Debug || c == Bulk }
  predicate SentBy(a: Action) { a != Defer && a != Drop }
  predicate Sent(d: Decision) { SentBy(d.action) }
  function SentBytes(d: Decision): nat { if Sent(d) then d.bytes else 0 }

  type Decisions = map<FlowId, Decision>
  type Flows = map<FlowId, Flow>

  predicate Keyed(ds: Decisions) { forall f :: f in ds ==> ds[f].flow == f }
  predicate KeyedFlows(flows: Flows) { forall f :: f in flows ==> flows[f].id == f }

  // ---------------------------------------------------------------- the true total

  ghost function SentTotal(ds: Decisions): nat {
    if ds == map[] then 0
    else
      var f :| f in ds;
      SentBytes(ds[f]) + SentTotal(ds - {f})
  }

  lemma {:induction false} TotalWithout(ds: Decisions, f: FlowId)
    requires f in ds
    ensures SentTotal(ds) == SentBytes(ds[f]) + SentTotal(ds - {f})
    decreases |ds|
  {
    var g :| g in ds && SentTotal(ds) == SentBytes(ds[g]) + SentTotal(ds - {g});
    if g != f {
      TotalWithout(ds - {g}, f);
      TotalWithout(ds - {f}, g);
      assert ds - {g} - {f} == ds - {f} - {g};
    }
  }

  function BytesAt(ds: Decisions, f: FlowId): nat { if f in ds then SentBytes(ds[f]) else 0 }

  /** Rewriting one decision moves the total by the difference of its sent bytes. */
  lemma TotalAfter(ds: Decisions, f: FlowId, d: Decision)
    ensures SentTotal(ds[f := d]) + BytesAt(ds, f) == SentTotal(ds) + SentBytes(d)
  {
    var after := ds[f := d];
    TotalWithout(after, f);
    if f in ds {
      TotalWithout(ds, f);
      assert after - {f} == ds - {f};
    } else {
      assert after - {f} == ds;
    }
  }

  function Only(ds: Decisions, s: set<FlowId>): Decisions { map f | f in s && f in ds :: ds[f] }

  lemma OnlyWithout(ds: Decisions, s: set<FlowId>, f: FlowId)
    requires f in s && f in ds
    ensures SentTotal(Only(ds, s)) == SentBytes(ds[f]) + SentTotal(Only(ds, s - {f}))
  {
    TotalWithout(Only(ds, s), f);
    assert Only(ds, s) - {f} == Only(ds, s - {f});
  }

  // ---------------------------------------------------------------- what every pass keeps

  /** A control flow that was sent stays sent; any other known flow only loses bytes; unknown
      flows are untouched; new entries are control flows. */
  predicate FlowKept(flows: Flows, a: Decisions, b: Decisions, f: FlowId) {
    if f in a then
      && f in b
      && (f !in flows ==> b[f] == a[f])
      && (f in flows && IsControl(flows[f].kind) ==> (Sent(a[f]) ==> Sent(b[f])))
      && (f in flows && !IsControl(flows[f].kind) ==> SentBytes(b[f]) <= SentBytes(a[f]) && (Sent(b[f]) ==> Sent(a[f])))
    else f in b ==> f in flows && IsControl(flows[f].kind)
  }

  ghost predicate Kept(flows: Flows, a: Decisions, b: Decisions) {
    forall f {:trigger FlowKept(flows, a, b, f)} :: FlowKept(flows, a, b, f)
  }

  lemma KeptTrans(flows: Flows, a: Decisions, b: Decisions, c: Decisions)
    requires Kept(flows, a, b) && Kept(flows, b, c)
    ensures Kept(flows, a, c)
  {
    forall f ensures FlowKept(flows, a, c, f) {
      assert FlowKept(flows, a, b, f) && FlowKept(flows, b, c, f);
    }
  }

  lemma KeptSelf(flows: Flows, a: Decisions)
    ensures Kept(flows, a, a)
  {
  }

  /** Rewriting one flow the way the passes do. */
  lemma KeptOne(flows: Flows, a: Decisions, f: FlowId, d: Decision)
    requires f in flows
    requires IsControl(flows[f].kind) ==> Sent(d)
    requires !IsControl(flows[f].kind) ==> f in a && SentBytes(d) <= SentBytes(a[f]) && (Sent(d) ==> Sent(a[f]))
    ensures Kept(flows, a, a[f := d])
  {
  }

  // ---------------------------------------------------------------- choosing a transform

  predicate Cheaper(a: Transform, b: Transform, rank: Kind -> int) {
    || a.bytes < b.bytes
    || (a.bytes == b.bytes && a.risk < b.risk)
    || (a.bytes == b.bytes && a.risk == b.risk && rank(a.kind) < rank(b.kind))
  }

  /** The first cheapest usable option: fewest bytes, then least risk, then preferred kind. */
  function Cheapest(options: seq<Transform>, usable: Transform -> bool, rank: Kind -> int): (r: Option<Transform>)
    ensures r.Some? ==> r.value in options && usable(r.value)
    ensures forall o :: o in options && usable(o) ==> r.Some? && !Cheaper(o, r.value, rank)
  {
    if options == [] then None
    else
      var n := |options| - 1;
      var r := Cheapest(options[..n], usable, rank);
      if usable(options[n]) && (r.None? || Cheaper(options[n], r.value, rank)) then Some(options[n]) else r
  }

  predicate Timelier(a: Transform, b: Transform) { a.risk < b.risk || (a.risk == b.risk && a.bytes < b.bytes) }

  function Timeliest(options: seq<Transform>, usable: Transform -> bool): (r: Option<Transform>)
    ensures r.Some? ==> r.value in options && usable(r.value)
    ensures forall o :: o in options && usable(o) ==> r.Some? && !Timelier(o, r.value)
  {
    if options == [] then None
    else
      var n := |options| - 1;
      var r := Timeliest(options[..n], usable);
      if usable(options[n]) && (r.None? || Timelier(options[n], r.value)) then Some(options[n]) else r
  }

  function FloorRank(k: Kind): int {
    match k
    case ControlIntent => 0
    case SupervisoryIntent => 1
    case SemanticDelta => 2
    case Degraded => 3
    case Raw => 4
  }

  function PressureRank(k: Kind): int {
    match k
    case Degraded => 0
    case SemanticDelta => 1
    case SupervisoryIntent => 2
    case ControlIntent => 3
    case Raw => 4
  }

  function Deferred(d: Decision, slack: real): Decision { d.(action := Defer, bytes := 0, slack := slack) }

  /** `_control_floor_decision`. */
  function FloorDecision(c: Flow, pressure: real): (r: Option<Decision>)
    ensures r.Some? ==> r.value.flow == c.id && Sent(r.value)
  {
    var best := Cheapest(c.options, (o: Transform) => o.feasible && SentBy(o.action), FloorRank);
    if best.None? then None
    else Some(Decision(c.id, best.value.action, 1000.0 + 100.0 * pressure, best.value.bytes, best.value.slack))
  }

  /** `_control_deadline_horizon_decision`. */
  function LiftDecision(c: Flow, deficit: real, d: Decision): (r: Option<Decision>)
    ensures r.Some? ==> r.value.flow == c.id && Sent(r.value)
  {
    var best := Timeliest(c.options, (o: Transform) => o.feasible && o.kind == SupervisoryIntent && SentBy(o.action));
    if best.None? then None
    else Some(Decision(c.id, best.value.action, MaxReal(d.priority, 100.0 + 100.0 * deficit), best.value.bytes,
                       best.value.slack))
  }

  /** `_pressure_shaped_decision`: a smaller form, or a deferral where the class allows it. */
  function ShapedDecision(c: Flow, d: Decision, pressure: real): (r: Option<Decision>)
    requires d.flow == c.id && Sent(d)
    ensures r.Some? ==> r.value.flow == c.id && SentBytes(r.value) <= SentBytes(d)
  {
    var best := Cheapest(c.options, (o: Transform) => o.feasible && SentBy(o.action) && o.bytes < d.bytes,
                         PressureRank);
    if best.Some? then
      Some(Decision(c.id, best.value.action, MaxReal(d.priority, 100.0 + pressure), best.value.bytes, best.value.slack))
    else if Defers(c.kind) then Some(Deferred(d, 0.0))
    else None
  }

  /** The firewall's replacement for a decision whose tail does not fit its slack. */
  function FirewallDecision(cfg: Config, c: Flow, d: Decision): (r: Decision)
    requires d.flow == c.id && Sent(d)
    ensures r.flow == c.id && SentBytes(r) <= SentBytes(d)
    ensures Sent(r) ==> cfg.tail(r.bytes) <= c.slack
  {
    var best := Cheapest(c.options,
                         (o: Transform) => SentBy(o.action) && o.bytes < MaxInt(1, d.bytes)
                             && cfg.tail(o.bytes) <= c.slack,
                         PressureRank);
    if best.Some? then
      Decision(c.id, best.value.action, MaxReal(d.priority, 100.0), best.value.bytes,
               c.slack - cfg.tail(best.value.bytes))
    else Deferred(d, c.slack - cfg.tail(MaxInt(1, d.bytes)))
  }

  // ---------------------------------------------------------------- picking in order

  /** Order in which sent non-control flows give up their bytes. */
  predicate ReclaimBefore(a: Decision, b: Decision) {
    a.priority < b.priority || (a.priority == b.priority && a.bytes <= b.bytes)
  }

  predicate FirstToReclaim(ds: Decisions, todo: set<FlowId>, f: FlowId) {
    f in todo && forall g :: g in todo && g in ds && f in ds ==> ReclaimBefore(ds[f], ds[g])
  }

  lemma {:induction false} HasFirstToReclaim(ds: Decisions, todo: set<FlowId>)
    requires todo != {} && forall f :: f in todo ==> f in ds
    ensures exists f :: FirstToReclaim(ds, todo, f)
    decreases |todo|
  {
    var a := Element(todo);
    var rest := todo - {a};
    if rest == {} {
      assert todo == {a};
      assert FirstToReclaim(ds, todo, a);
    } else {
      HasFirstToReclaim(ds, rest);
      var b :| FirstToReclaim(ds, rest, b);
      assert forall g :: g in todo ==> g == a || g in rest;
      assert FirstToReclaim(ds, todo, if ReclaimBefore(ds[a], ds[b]) then a else b);
    }
  }

  predicate Reclaimable(flows: Flows, ds: Decisions, f: FlowId) {
    f in ds && Sent(ds[f]) && f in flows && !IsControl(flows[f].kind)
  }

  predicate Gone(todo: set<FlowId>, all: set<FlowId>, f: FlowId) { f in all && f !in todo }

  predicate FreedFlow(before: Decisions, after: Decisions, all: set<FlowId>, todo: set<FlowId>, f: FlowId) {
    f in before ==> f in after && after[f] == if Gone(todo, all, f) then Deferred(before[f], 0.0) else before[f]
  }

  predicate InOrder(before: Decisions, all: set<FlowId>, todo: set<FlowId>, f: FlowId, g: FlowId) {
    Gone(todo, all, f) && g in todo && f in before && g in before ==> ReclaimBefore(before[f], before[g])
  }

  /** A reclaim under way: of the flows `all` it may take, `todo` are still untouched. */
  ghost predicate Freeing(flows: Flows, before: Decisions, after: Decisions, all: set<FlowId>, todo: set<FlowId>) {
    && Keyed(after) && after.Keys == before.Keys && todo <= all
    && (forall f :: f in all ==> Reclaimable(flows, before, f))
    && (forall f {:trigger FreedFlow(before, after, all, todo, f)} :: FreedFlow(before, after, all, todo, f))
    && (forall f, g {:trigger InOrder(before, all, todo, f, g)} :: InOrder(before, all, todo, f, g))
    && Kept(flows, before, after)
  }

  lemma FreeOne(flows: Flows, before: Decisions, after: Decisions, all: set<FlowId>, todo: set<FlowId>, f: FlowId)
    requires Freeing(flows, before, after, all, todo) && FirstToReclaim(before, todo, f)
    requires f in after && after[f] == before[f]
    ensures Freeing(flows, before, after[f := Deferred(before[f], 0.0)], all, todo - {f})
  {
    var d := Deferred(before[f], 0.0);
    var next, left := after[f := d], todo - {f};
    forall g ensures FreedFlow(before, next, all, left, g) { assert FreedFlow(before, after, all, todo, g); }
    forall g, h ensures InOrder(before, all, left, g, h) { assert InOrder(before, all, todo, g, h); }
    KeptOne(flows, after, f, d);
    KeptTrans(flows, before, after, next);
  }

  /** The outcome: `freed` flows were deferred, in order, and nothing else changed. */
  predicate ReclaimedAs(flows: Flows, before: Decisions, after: Decisions, freed: set<FlowId>) {
    && after.Keys == before.Keys
    && (forall f :: f in freed ==> Reclaimable(flows, before, f))
    && (forall f :: f in before ==> after[f] == if f in freed then Deferred(before[f], 0.0) else before[f])
    && (forall f, g :: f in freed && g in before && g !in freed && Reclaimable(flows, before, g) ==>
          ReclaimBefore(before[f], before[g]))
  }

  /** No sent flow is left that could give up its bytes. */
  ghost predicate Full(flows: Flows, ds: Decisions) {
    forall f {:trigger Reclaimable(flows, ds, f)} :: !Reclaimable(flows, ds, f)
  }

  lemma NothingFreed(flows: Flows, before: Decisions, after: Decisions, freed: set<FlowId>)
    requires Full(flows, before) && ReclaimedAs(flows, before, after, freed)
    ensures after == before
  {
    assert forall f :: f in freed ==> Reclaimable(flows, before, f);
  }

  lemma FullStays(flows: Flows, a: Decisions, b: Decisions)
    requires Full(flows, a) && Kept(flows, a, b)
    ensures Full(flows, b)
  {
    forall f ensures !Reclaimable(flows, b, f) { assert !Reclaimable(flows, a, f) && FlowKept(flows, a, b, f); }
  }

  lemma FreeingDone(flows: Flows, before: Decisions, after: Decisions, all: set<FlowId>, todo: set<FlowId>)
    requires Freeing(flows, before, after, all, todo)
    requires forall f :: Reclaimable(flows, before, f) ==> f in all
    ensures ReclaimedAs(flows, before, after, all - todo)
  {
    forall f | f in before ensures after[f] == if f in all - todo then Deferred(before[f], 0.0) else before[f] {
      assert FreedFlow(before, after, all, todo, f);
    }
    forall f, g | f in all - todo && g in before && g !in all - todo && Reclaimable(flows, before, g)
      ensures ReclaimBefore(before[f], before[g])
    {
      assert InOrder(before, all, todo, f, g);
    }
  }

  predicate SameAt(a: Decisions, b: Decisions, f: FlowId) { (f in a <==> f in b) && (f in a ==> a[f] == b[f]) }

  /** No control flow outside `except` changes. */
  ghost predicate ControlsSame(flows: Flows, a: Decisions, b: Decisions, except: set<FlowId>) {
    forall f {:trigger SameAt(a, b, f)} :: f in flows && IsControl(flows[f].kind) && f !in except ==> SameAt(a, b, f)
  }

  lemma ControlsSameExcept(flows: Flows, a: Decisions, b: Decisions, d: Decision)
    requires ControlsSame(flows, a, b, {})
    ensures ControlsSame(flows, a, b[d.flow := d], {d.flow})
  {
    forall f | f in flows && IsControl(flows[f].kind) && f != d.flow ensures SameAt(a, b[d.flow := d], f) {
      assert SameAt(a, b, f);
    }
  }

  /** No control flow of another robot changes. */
  ghost predicate OtherRobotsSame(flows: Flows, a: Decisions, b: Decisions, robot: RobotId) {
    forall f {:trigger SameAt(a, b, f)} ::
      f in flows && IsControl(flows[f].kind) && flows[f].robot != robot ==> SameAt(a, b, f)
  }

  // ---------------------------------------------------------------- flows of one robot

  predicate Listed(flows: Flows, cs: seq<Flow>) {
    forall i :: 0 <= i < |cs| ==> cs[i].id in flows && flows[cs[i].id] == cs[i]
  }

  function ControlsOf(cs: seq<Flow>, r: RobotId): (s: seq<Flow>)
    ensures forall c :: c in s ==> c in cs && IsControl(c.kind) && c.robot == r
  {
    if cs == [] then []
    else
      var n := |cs| - 1;
      ControlsOf(cs[..n], r) + (if IsControl(cs[n].kind) && cs[n].robot == r then [cs[n]] else [])
  }

  predicate AnySent(ds: Decisions, cs: seq<Flow>) { exists i :: 0 <= i < |cs| && cs[i].id in ds && Sent(ds[cs[i].id]) }

  predicate GroupedAt(groups: map<RobotId, seq<Flow>>, cs: seq<Flow>, r: RobotId) {
    if r in groups then groups[r] == ControlsOf(cs, r) else ControlsOf(cs, r) == []
  }

  ghost predicate Grouped(groups: map<RobotId, seq<Flow>>, cs: seq<Flow>) {
    forall r {:trigger GroupedAt(groups, cs, r)} :: GroupedAt(groups, cs, r)
  }

  lemma GroupStep(groups: map<RobotId, seq<Flow>>, cs: seq<Flow>, c: Flow)
    requires Grouped(groups, cs)
    ensures Grouped(if IsControl(c.kind)
                    then groups[c.robot := (if c.robot in groups then groups[c.robot] else []) + [c]]
                    else groups, cs + [c])
  {
    var after := if IsControl(c.kind) then groups[c.robot := (if c.robot in groups then groups[c.robot] else []) + [c]]
                 else groups;
    forall r ensures GroupedAt(after, cs + [c], r) {
      assert GroupedAt(groups, cs, r);
      assert (cs + [c])[..|cs|] == cs;
    }
  }

  method GroupControls(cs: seq<Flow>) returns (groups: map<RobotId, seq<Flow>>)
    ensures Grouped(groups, cs)
  {
    groups := map[];
    for i := 0 to |cs|
      invariant Grouped(groups, cs[..i])
    {
      assert cs[..i + 1] == cs[..i] + [cs[i]];
      var c := cs[i];
      GroupStep(groups, cs[..i], c);
      if IsControl(c.kind) {
        groups := groups[c.robot := (if c.robot in groups then groups[c.robot] else []) + [c]];
      }
    }
    assert cs[..|cs|] == cs;
  }

  /** A robot is marked served at `tick` if one of its control flows is sent, else untouched. */
  predicate MarkedAt(before: map<RobotId, int>, after: map<RobotId, int>, tick: int, ds: Decisions, cs: seq<Flow>,
                     r: RobotId)
  {
    if AnySent(ds, ControlsOf(cs, r)) then r in after && after[r] == tick
    else (r in before <==> r in after) && (r in before ==> after[r] == before[r])
  }

  ghost predicate Marked(before: map<RobotId, int>, after: map<RobotId, int>, tick: int, ds: Decisions, cs: seq<Flow>) {
    forall r {:trigger MarkedAt(before, after, tick, ds, cs, r)} :: MarkedAt(before, after, tick, ds, cs, r)
  }

  lemma OthersSentSame(flows: Flows, a: Decisions, b: Decisions, cs: seq<Flow>, r: RobotId, q: RobotId)
    requires OtherRobotsSame(flows, a, b, r) && Listed(flows, cs) && q != r
    ensures AnySent(a, ControlsOf(cs, q)) <==> AnySent(b, ControlsOf(cs, q))
  {
    var own := ControlsOf(cs, q);
    forall i | 0 <= i < |own| ensures SameAt(a, b, own[i].id) {
      assert own[i] in own;
      var j :| 0 <= j < |cs| && cs[j] == own[i];
    }
  }

  lemma ListedControls(flows: Flows, cs: seq<Flow>, r: RobotId)
    requires Listed(flows, cs)
    ensures Listed(flows, ControlsOf(cs, r))
  {
    var own := ControlsOf(cs, r);
    forall i | 0 <= i < |own| ensures own[i].id in flows && flows[own[i].id] == own[i] {
      assert own[i] in own;
      var j :| 0 <= j < |cs| && cs[j] == own[i];
    }
  }

  /** A robot in `todo` has no sent control flow and is not marked; the others are settled. */
  predicate ServedAt(before: map<RobotId, int>, after: map<RobotId, int>, tick: int, ds: Decisions, cs: seq<Flow>,
                     todo: set<RobotId>, r: RobotId) {
    && (r in todo ==> !AnySent(ds, ControlsOf(cs, r)))
    && MarkedAt(before, after, tick, ds, cs, r)
  }

  ghost predicate Serving(before: map<RobotId, int>, after: map<RobotId, int>, tick: int, ds: Decisions, cs: seq<Flow>,
                          todo: set<RobotId>)
  {
    forall r {:trigger ServedAt(before, after, tick, ds, cs, todo, r)} :: ServedAt(before, after, tick, ds, cs, todo, r)
  }

  lemma ServeStart(before: map<RobotId, int>, tick: int, ds: Decisions, cs: seq<Flow>, groups: map<RobotId, seq<Flow>>,
                   todo: set<RobotId>)
    requires Grouped(groups, cs)
    requires forall r :: r in todo <==> r in groups && !AnySent(ds, groups[r])
    ensures Serving(before, before + map r | r in groups && r !in todo :: tick, tick, ds, cs, todo)
  {
    var after := before + map r | r in groups && r !in todo :: tick;
    forall r ensures ServedAt(before, after, tick, ds, cs, todo, r) { assert GroupedAt(groups, cs, r); }
  }

  lemma ServeStep(flows: Flows, before: map<RobotId, int>, after: map<RobotId, int>, tick: int,
                  ds: Decisions, ds': Decisions, cs: seq<Flow>, todo: set<RobotId>, r: RobotId)
    requires Serving(before, after, tick, ds, cs, todo) && r in todo
    requires OtherRobotsSame(flows, ds, ds', r) && Listed(flows, cs)
    ensures Serving(before, if AnySent(ds', ControlsOf(cs, r)) then after[r := tick] else after, tick, ds', cs,
                    todo - {r})
  {
    var next := if AnySent(ds', ControlsOf(cs, r)) then after[r := tick] else after;
    assert ServedAt(before, after, tick, ds, cs, todo, r);
    forall q ensures ServedAt(before, next, tick, ds', cs, todo - {r}, q) {
      assert ServedAt(before, after, tick, ds, cs, todo, q);
      if q != r { OthersSentSame(flows, ds, ds', cs, r, q); }
    }
  }

  lemma ServeEnd(before: map<RobotId, int>, after: map<RobotId, int>, tick: int, ds: Decisions, cs: seq<Flow>)
    requires Serving(before, after, tick, ds, cs, {})
    ensures Marked(before, after, tick, ds, cs)
  {
    forall r ensures MarkedAt(before, after, tick, ds, cs, r) { assert ServedAt(before, after, tick, ds, cs, {}, r); }
  }

  lemma UnsentSame(flows: Flows, a: Decisions, b: Decisions, controls: seq<Flow>)
    requires ControlsSame(flows, a, b, {}) && Listed(flows, controls)
    requires forall c :: c in controls ==> IsControl(c.kind)
    ensures AnySent(a, controls) <==> AnySent(b, controls)
  {
    forall i | 0 <= i < |controls| ensures SameAt(a, b, controls[i].id) { assert controls[i] in controls; }
  }

  /** Order of the robots without service: served longest ago, then highest pressure. */
  datatype Rank = Rank(served: int, service: real, robot: RobotId)

  function RankOf(robots: map<RobotId, Robot>, served: map<RobotId, int>, r: RobotId): Rank {
    Rank(if r in served then served[r] else -1000000, if r in robots then robots[r].service else 0.0, r)
  }

  predicate RankBefore(a: Rank, b: Rank) {
    || a.served < b.served
    || (a.served == b.served && a.service > b.service)
    || (a.served == b.served && a.service == b.service && a.robot <= b.robot)
  }

  predicate LongestWaiting(robots: map<RobotId, Robot>, served: map<RobotId, int>, s: set<RobotId>, r: RobotId) {
    r in s && forall q :: q in s ==> RankBefore(RankOf(robots, served, r), RankOf(robots, served, q))
  }

  lemma {:induction false} HasLongestWaiting(robots: map<RobotId, Robot>, served: map<RobotId, int>, s: set<RobotId>)
    requires s != {}
    ensures exists r :: LongestWaiting(robots, served, s, r)
    decreases |s|
  {
    var a := Element(s);
    var rest := s - {a};
    if rest == {} {
      assert s == {a};
      assert LongestWaiting(robots, served, s, a);
    } else {
      HasLongestWaiting(robots, served, rest);
      var b :| LongestWaiting(robots, served, rest, b);
      assert forall q :: q in s ==> q == a || q in rest;
      assert LongestWaiting(robots, served, s,
                            if RankBefore(RankOf(robots, served, a), RankOf(robots, served, b)) then a else b);
    }
  }

  predicate BetterFloor(a: Decision, b: Decision) {
    || a.bytes < b.bytes
    || (a.bytes == b.bytes && a.slack >= 0.0 > b.slack)
    || (a.bytes == b.bytes && (a.slack >= 0.0 <==> b.slack >= 0.0) && a.slack > b.slack)
    || (a.bytes == b.bytes && a.slack == b.slack && a.flow < b.flow)
  }

  /** `_n_aware_control_floor_decision`: the cheapest floor among one robot's control flows. */
  function BestFloor(cs: seq<Flow>, pressure: real): (r: Option<Decision>)
    ensures r.Some? ==> Sent(r.value) && exists i :: 0 <= i < |cs| && cs[i].id == r.value.flow
  {
    if cs == [] then None
    else
      var n := |cs| - 1;
      var r, d := BestFloor(cs[..n], pressure), FloorDecision(cs[n], pressure);
      if d.Some? && (r.None? || BetterFloor(d.value, r.value)) then d else r
  }

  function Raised(d: Decision, pressure: real): Decision {
    d.(priority := MaxReal(d.priority, 1200.0 + 100.0 * pressure))
  }

  // ---------------------------------------------------------------- shedding order

  function ClassRank(c: FlowClass): int {
    match c
    case Bulk => 0
    case Debug => 1
    case Perception => 2
    case HumanQoe => 3
    case State => 4
    case Safety => 99
    case Control => 99
    case Coordination => 99
  }

  predicate ShedBefore(flows: Flows, ds: Decisions, f: FlowId, g: FlowId)
    requires f in flows && g in flows && f in ds && g in ds
  {
    var x, y, a, b := ClassRank(flows[f].kind), ClassRank(flows[g].kind), ds[f], ds[g];
    || x < y
    || (x == y && a.priority < b.priority)
    || (x == y && a.priority == b.priority && a.bytes >= b.bytes)
  }

  /** A sent flow of this robot in a class that gives way under pressure. */
  predicate Sheddable(flows: Flows, ds: Decisions, robot: RobotId, f: FlowId) {
    f in ds && Sent(ds[f]) && f in flows && flows[f].robot == robot && Sheds(flows[f].kind)
  }

  predicate FirstToShed(flows: Flows, ds: Decisions, todo: set<FlowId>, f: FlowId)
    requires forall g :: g in todo ==> g in flows && g in ds
  {
    f in todo && forall g :: g in todo ==> ShedBefore(flows, ds, f, g)
  }

  lemma {:induction false} HasFirstToShed(flows: Flows, ds: Decisions, todo: set<FlowId>)
    requires todo != {} && forall g :: g in todo ==> g in flows && g in ds
    ensures exists f :: FirstToShed(flows, ds, todo, f)
    decreases |todo|
  {
    var a := Element(todo);
    var rest := todo - {a};
    if rest == {} {
      assert todo == {a};
      assert FirstToShed(flows, ds, todo, a);
    } else {
      HasFirstToShed(flows, ds, rest);
      var b :| FirstToShed(flows, ds, rest, b);
      assert forall g :: g in todo ==> g == a || g in rest;
      assert FirstToShed(flows, ds, todo, if ShedBefore(flows, ds, a, b) then a else b);
    }
  }

  /** What has been tried so far comes before what is left. */
  predicate ShedInOrder(flows: Flows, ds: Decisions, all: set<FlowId>, todo: set<FlowId>)
    requires forall f :: f in all ==> f in flows && f in ds
  {
    todo <= all && forall f, g :: f in all - todo && g in todo ==> ShedBefore(flows, ds, f, g)
  }

  lemma ShedNext(flows: Flows, ds: Decisions, all: set<FlowId>, todo: set<FlowId>, f: FlowId)
    requires (forall g :: g in all ==> g in flows && g in ds) && ShedInOrder(flows, ds, all, todo)
    requires FirstToShed(flows, ds, todo, f)
    ensures ShedInOrder(flows, ds, all, todo - {f})
  {
    assert all - (todo - {f}) == all - todo + {f};
  }

  /** What shaping does to one flow: its smaller form or deferral if it has one. */
  function Shaped(c: Flow, d: Decision, pressure: real): Decision
    requires d.flow == c.id && Sent(d)
  {
    var r := ShapedDecision(c, d, pressure);
    if r.Some? then r.value else d
  }

  predicate ShapedFlow(flows: Flows, before: Decisions, after: Decisions, shaped: set<FlowId>, pressure: real,
                       f: FlowId)
    requires Keyed(before) && KeyedFlows(flows)
    requires forall g :: g in shaped ==> g in flows && g in before && Sent(before[g])
  {
    f in before ==> f in after && after[f] == if f in shaped then Shaped(flows[f], before[f], pressure) else before[f]
  }

  predicate Sound(flows: Flows, before: Decisions, shaped: set<FlowId>) {
    && Keyed(before) && KeyedFlows(flows)
    && forall g :: g in shaped ==> g in flows && g in before && Sent(before[g]) && Sheds(flows[g].kind)
  }

  /** The flows in `shaped` have been shaped and nothing else has changed. */
  ghost predicate ShapedAs(flows: Flows, before: Decisions, after: Decisions, shaped: set<FlowId>, pressure: real) {
    && Sound(flows, before, shaped) && Keyed(after) && after.Keys == before.Keys
    && (forall f {:trigger ShapedFlow(flows, before, after, shaped, pressure, f)} ::
          ShapedFlow(flows, before, after, shaped, pressure, f))
    && Kept(flows, before, after)
  }

  lemma ShapeOne(flows: Flows, before: Decisions, after: Decisions, shaped: set<FlowId>, pressure: real, f: FlowId)
    requires ShapedAs(flows, before, after, shaped, pressure) && f !in shaped
    requires f in flows && f in before && Sent(before[f]) && Sheds(flows[f].kind)
    ensures var d := Shaped(flows[f], before[f], pressure);
            && after[f] == before[f]
            && ShapedAs(flows, before, after[f := d], shaped + {f}, pressure)
            && SentTotal(after[f := d]) + (before[f].bytes - SentBytes(d)) == SentTotal(after)
            && SentBytes(d) <= before[f].bytes
  {
    var d := Shaped(flows[f], before[f], pressure);
    var next := after[f := d];
    assert ShapedFlow(flows, before, after, shaped, pressure, f);
    forall g ensures ShapedFlow(flows, before, next, shaped + {f}, pressure, g) {
      assert ShapedFlow(flows, before, after, shaped, pressure, g);
    }
    TotalAfter(after, f, d);
    KeptOne(flows, after, f, d);
    KeptTrans(flows, before, after, next);
  }

  // ---------------------------------------------------------------- control flows

  function ServicePressure(robots: map<RobotId, Robot>, r: RobotId): real {
    if r in robots then robots[r].service else 0.0
  }

  /** The cheapest feasible form of a control flow whose robot is under pressure. */
  function FloorFor(robots: map<RobotId, Robot>, c: Flow): Option<Decision> {
    FloorDecision(c, ServicePressure(robots, c.robot))
  }

  /** A control flow of a robot under pressure is sent, has no feasible form, or does not fit
      even with every other flow deferred. */
  ghost predicate Floored(cfg: Config, robots: map<RobotId, Robot>, flows: Flows, ds: Decisions, total: nat, c: Flow) {
    IsControl(c.kind) && ServicePressure(robots, c.robot) >= cfg.minFloorPressure ==>
      || (c.id in ds && Sent(ds[c.id]))
      || FloorFor(robots, c).None?
      || (Full(flows, ds) && total + FloorFor(robots, c).value.bytes > cfg.capacity)
  }

  /** A control flow keeps its decision, or was unsent and gets its cheapest feasible form. */
  ghost predicate FlooredFrom(robots: map<RobotId, Robot>, flows: Flows, before: Decisions, after: Decisions,
                              f: FlowId)
  {
    f in flows && IsControl(flows[f].kind) ==>
      || SameAt(before, after, f)
      || (BytesAt(before, f) == 0 && f in after && Some(after[f]) == FloorFor(robots, flows[f]))
  }

  lemma FlooredStays(cfg: Config, robots: map<RobotId, Robot>, flows: Flows, a: Decisions, b: Decisions, total: nat,
                     total': nat, c: Flow)
    requires Floored(cfg, robots, flows, a, total, c) && Kept(flows, a, b) && c.id in flows && flows[c.id] == c
    requires Full(flows, a) ==> total' >= total
    ensures Floored(cfg, robots, flows, b, total', c)
  {
    assert FlowKept(flows, a, b, c.id);
    if Full(flows, a) { FullStays(flows, a, b); }
  }

  ghost predicate AllFloored(cfg: Config, robots: map<RobotId, Robot>, flows: Flows, ds: Decisions, total: nat,
                             cs: seq<Flow>)
  {
    forall i :: 0 <= i < |cs| ==> Floored(cfg, robots, flows, ds, total, cs[i])
  }

  ghost predicate AllFlooredFrom(robots: map<RobotId, Robot>, flows: Flows, before: Decisions, after: Decisions) {
    forall f {:trigger FlooredFrom(robots, flows, before, after, f)} :: FlooredFrom(robots, flows, before, after, f)
  }

  lemma FlooredSoFar(cfg: Config, robots: map<RobotId, Robot>, flows: Flows, a: Decisions, b: Decisions, total: nat,
                     total': nat, cs: seq<Flow>)
    requires Kept(flows, a, b) && Listed(flows, cs) && (Full(flows, a) ==> total' >= total)
    requires AllFloored(cfg, robots, flows, a, total, cs)
    ensures AllFloored(cfg, robots, flows, b, total', cs)
  {
    forall j | 0 <= j < |cs| ensures Floored(cfg, robots, flows, b, total', cs[j]) {
      FlooredStays(cfg, robots, flows, a, b, total, total', cs[j]);
    }
  }

  lemma FlooredFromStep(robots: map<RobotId, Robot>, flows: Flows, before: Decisions, a: Decisions, b: Decisions,
                        c: Flow, placed: bool)
    requires AllFlooredFrom(robots, flows, before, a)
    requires ControlsSame(flows, a, b, if placed then {c.id} else {}) && c.id in flows && flows[c.id] == c
    requires BytesAt(a, c.id) == 0 && !(c.id in a && Sent(a[c.id]))
    requires placed ==> c.id in b && Some(b[c.id]) == FloorFor(robots, c)
    ensures AllFlooredFrom(robots, flows, before, b)
  {
    forall f ensures FlooredFrom(robots, flows, before, b, f) {
      assert FlooredFrom(robots, flows, before, a, f);
      if f in flows && IsControl(flows[f].kind) && (f != c.id || !placed) { assert SameAt(a, b, f); }
    }
  }

  /** The lifted form of a sent control intent whose robot is in deadline debt, if it has one. */
  function LiftFor(cfg: Config, robots: map<RobotId, Robot>, ds: Decisions, c: Flow): Option<Decision> {
    if IsControl(c.kind) && c.robot in robots && robots[c.robot].controlActionDeficit >= cfg.liftMinDeficit
       && cfg.rtt >= cfg.liftMinRtt && c.id in ds && ds[c.id].action == SendIntent
    then LiftDecision(c, MaxReal(robots[c.robot].deadlineDeficit, robots[c.robot].controlActionDeficit), ds[c.id])
    else None
  }

  /** A control flow keeps its decision or gets its lifted form; an intent that could be lifted
      keeps its own only when no other flow has bytes left to give. */
  ghost predicate Lifted(cfg: Config, robots: map<RobotId, Robot>, flows: Flows, before: Decisions, after: Decisions,
                         c: Flow)
  {
    IsControl(c.kind) ==>
      if cfg.lift && LiftFor(cfg, robots, before, c).Some? then
        || (c.id in after && after[c.id] == LiftFor(cfg, robots, before, c).value)
        || (SameAt(before, after, c.id) && Full(flows, after))
      else SameAt(before, after, c.id)
  }

  lemma LiftedStays(cfg: Config, robots: map<RobotId, Robot>, flows: Flows, before: Decisions, a: Decisions,
                    b: Decisions, c: Flow, except: set<FlowId>)
    requires Lifted(cfg, robots, flows, before, a, c) && Kept(flows, a, b) && ControlsSame(flows, a, b, except)
    requires c.id in flows && flows[c.id] == c && c.id !in except
    ensures Lifted(cfg, robots, flows, before, b, c)
  {
    if IsControl(c.kind) {
      assert SameAt(a, b, c.id);
      if Full(flows, a) { FullStays(flows, a, b); }
    }
  }

  /** Lifting candidate `i` leaves those before it lifted and those behind it as they were. */
  lemma LiftedSoFar(cfg: Config, robots: map<RobotId, Robot>, flows: Flows, before: Decisions, a: Decisions,
                    b: Decisions, cs: seq<Flow>, i: nat, placed: bool)
    requires i < |cs| && Listed(flows, cs) && DistinctFlows(cs) && Kept(flows, a, b)
    requires ControlsSame(flows, a, b, if placed then {cs[i].id} else {})
    requires forall j :: 0 <= j < i ==> Lifted(cfg, robots, flows, before, a, cs[j])
    requires forall j :: i <= j < |cs| && IsControl(cs[j].kind) ==> SameAt(before, a, cs[j].id)
    ensures forall j :: 0 <= j < i ==> Lifted(cfg, robots, flows, before, b, cs[j])
    ensures forall j :: i < j < |cs| && IsControl(cs[j].kind) ==> SameAt(before, b, cs[j].id)
  {
    var except := if placed then {cs[i].id} else {};
    forall j | 0 <= j < i ensures Lifted(cfg, robots, flows, before, b, cs[j]) {
      LiftedStays(cfg, robots, flows, before, a, b, cs[j], except);
    }
    forall j | i < j < |cs| && IsControl(cs[j].kind) ensures SameAt(before, b, cs[j].id) {
      assert SameAt(a, b, cs[j].id);
    }
  }

  lemma ControlsSameTrans(flows: Flows, a: Decisions, b: Decisions, c: Decisions)
    requires ControlsSame(flows, a, b, {}) && ControlsSame(flows, b, c, {})
    ensures ControlsSame(flows, a, c, {})
  {
    forall f | f in flows && IsControl(flows[f].kind) ensures SameAt(a, c, f) {
      assert SameAt(a, b, f) && SameAt(b, c, f);
    }
  }

  lemma ShapedControls(flows: Flows, before: Decisions, after: Decisions, shaped: set<FlowId>, pressure: real)
    requires ShapedAs(flows, before, after, shaped, pressure)
    ensures ControlsSame(flows, before, after, {})
  {
    forall f | f in flows && IsControl(flows[f].kind) ensures SameAt(before, after, f) {
      assert ShapedFlow(flows, before, after, shaped, pressure, f);
    }
  }

  /** What the passes leave of the control flows: `floored` are the decisions after the floor.
      A flow of a robot under pressure was sent by then, has no feasible form, or did not fit
      with everything else deferred; later passes change it only by lifting it. */
  ghost predicate Answered(cfg: Config, robots: map<RobotId, Robot>, flows: Flows, floored: Decisions, after: Decisions,
                           c: Flow)
  {
    Floored(cfg, robots, flows, floored, SentTotal(floored), c) && Lifted(cfg, robots, flows, floored, after, c)
  }

  lemma AnsweredStays(cfg: Config, robots: map<RobotId, Robot>, flows: Flows, floored: Decisions, a: Decisions,
                      b: Decisions, cs: seq<Flow>)
    requires Kept(flows, a, b) && ControlsSame(flows, a, b, {}) && Listed(flows, cs)
    requires forall i :: 0 <= i < |cs| ==> Answered(cfg, robots, flows, floored, a, cs[i])
    ensures forall i :: 0 <= i < |cs| ==> Answered(cfg, robots, flows, floored, b, cs[i])
  {
    forall i | 0 <= i < |cs| ensures Answered(cfg, robots, flows, floored, b, cs[i]) {
      LiftedStays(cfg, robots, flows, floored, a, b, cs[i], {});
    }
  }

  /** In the end a control flow of a robot at or above the floor pressure is sent, has no feasible
      form, or did not fit at its turn, and then every flow that could be deferred is deferred. */
  lemma ServedInTheEnd(cfg: Config, robots: map<RobotId, Robot>, flows: Flows, floored: Decisions, after: Decisions,
                       c: Flow)
    requires Answered(cfg, robots, flows, floored, after, c) && Kept(flows, floored, after)
    requires c.id in flows && flows[c.id] == c && IsControl(c.kind)
    requires ServicePressure(robots, c.robot) >= cfg.minFloorPressure
    ensures || (c.id in after && Sent(after[c.id]))
            || FloorFor(robots, c).None?
            || (Full(flows, after) && SentTotal(floored) + FloorFor(robots, c).value.bytes > cfg.capacity)
  {
    assert FlowKept(flows, floored, after, c.id);
    if Full(flows, floored) { FullStays(flows, floored, after); }
  }

  // ---------------------------------------------------------------- the passes

  class RobotBudgetPasses {
    const cfg: Config
    const flows: Flows
    const robots: map<RobotId, Robot>
    var decisions: Decisions
    var lastServed: map<RobotId, int>
    var tick: int

    constructor (config: Config, specs: Flows, states: map<RobotId, Robot>, base: Decisions, served: map<RobotId, int>,
                 now: int)
      ensures cfg == config && flows == specs && robots == states && decisions == base
      ensures lastServed == served && tick == now
    {
      cfg, flows, robots, decisions, lastServed, tick := config, specs, states, base, served, now;
    }

    predicate Valid() reads this { Keyed(decisions) && KeyedFlows(flows) }

    function TotalPressure(r: RobotId): real { if r in robots then robots[r].total else 0.0 }

    /** `_reclaim_noncritical_capacity`: defer sent non-control flows, lowest priority and
        smallest first, until enough bytes are free. The result is exactly what was freed, and
        without the last flow deferred it would not have been enough. */
    method Reclaim(needed: nat) returns (reclaimed: nat, ghost freed: set<FlowId>)
      requires Valid()
      modifies this`decisions
      ensures Valid() && ReclaimedAs(flows, old(decisions), decisions, freed)
      ensures SentTotal(decisions) + reclaimed == SentTotal(old(decisions))
      ensures reclaimed >= needed || forall f :: Reclaimable(flows, old(decisions), f) ==> f in freed
      ensures freed != {} ==>
              exists f :: f in freed && f in old(decisions) && reclaimed - old(decisions)[f].bytes < needed
      ensures Kept(flows, old(decisions), decisions)
    {
      var before := decisions;
      reclaimed := 0;
      var all := set f | f in decisions && Reclaimable(flows, decisions, f);
      var todo := all;
      KeptSelf(flows, before);
      while todo != {} && reclaimed < needed
        invariant Freeing(flows, before, decisions, all, todo)
        invariant SentTotal(decisions) + reclaimed == SentTotal(before)
        invariant all - todo != {} ==>
                  exists f :: f in all - todo && f in before && reclaimed - before[f].bytes < needed
        decreases todo
      {
        HasFirstToReclaim(before, todo);
        var f :| f in todo && FirstToReclaim(before, todo, f);
        assert FreedFlow(before, decisions, all, todo, f);
        var d := decisions[f];
        TotalAfter(decisions, f, Deferred(d, 0.0));
        FreeOne(flows, before, decisions, all, todo, f);
        decisions := decisions[f := Deferred(d, 0.0)];
        reclaimed, todo := reclaimed + d.bytes, todo - {f};
        assert f in all - todo && reclaimed - before[f].bytes < needed;
      }
      freed := all - todo;
      FreeingDone(flows, before, decisions, all, todo);
    }

    /** Put decision `d` in place of the flow's own one, which sends `own` bytes, if it fits the
        link, deferring sent non-control flows first when needed. It is turned away only if it
        does not fit even with all of them deferred. */
    method Place(d: Decision, own: nat, sentTotal: nat) returns (total: nat, placed: bool)
      requires Valid() && sentTotal == SentTotal(decisions) && own == BytesAt(decisions, d.flow)
      requires d.flow in flows && IsControl(flows[d.flow].kind) && Sent(d)
      modifies this`decisions
      ensures Valid() && total == SentTotal(decisions) && Kept(flows, old(decisions), decisions)
      ensures placed ==> d.flow in decisions && decisions[d.flow] == d && total <= cfg.capacity
      ensures !placed ==> total <= sentTotal && total + d.bytes > cfg.capacity + own
                          && Full(flows, decisions)
      ensures ControlsSame(flows, old(decisions), decisions, if placed then {d.flow} else {})
      ensures own == 0 && Full(flows, old(decisions)) ==> total >= sentTotal
    {
      ghost var before := decisions;
      total := MakeRoom(d.bytes - own, sentTotal);
      ghost var mid := decisions;
      assert SameAt(before, mid, d.flow);
      placed := total + d.bytes - own <= cfg.capacity;
      if placed {
        TotalAfter(mid, d.flow, d);
        KeptOne(flows, mid, d.flow, d);
        KeptTrans(flows, before, mid, mid[d.flow := d]);
        decisions := decisions[d.flow := d];
        total := total + d.bytes - own;
        ControlsSameExcept(flows, before, mid, d);
      }
    }

    /** Defer sent non-control flows until `extra` more bytes fit, or none are left. */
    method MakeRoom(extra: int, sentTotal: nat) returns (total: nat)
      requires Valid() && sentTotal == SentTotal(decisions)
      modifies this`decisions
      ensures Valid() && total == SentTotal(decisions) <= sentTotal && Kept(flows, old(decisions), decisions)
      ensures total + extra <= cfg.capacity || Full(flows, decisions)
      ensures ControlsSame(flows, old(decisions), decisions, {})
      ensures Full(flows, old(decisions)) ==> decisions == old(decisions)
    {
      ghost var before := decisions;
      KeptSelf(flows, before);
      total := sentTotal;
      var needed: nat := MaxInt(0, total + extra - cfg.capacity);
      if needed > 0 {
        var reclaimed;
        ghost var freed;
        reclaimed, freed := Reclaim(needed);
        if Full(flows, before) { NothingFreed(flows, before, decisions, freed); }
        total := total - reclaimed;
      }
    }

    /** What serving a robot without any sent control flow puts in. */
    function ServiceDecision(controls: seq<Flow>, robot: RobotId): (r: Option<Decision>)
      ensures r.Some? ==> Sent(r.value) && exists i :: 0 <= i < |controls| && controls[i].id == r.value.flow
    {
      var pressure := MaxReal(cfg.nAwarePressure, ServicePressure(robots, robot));
      var best := BestFloor(controls, pressure);
      if best.None? then None else Some(Raised(best.value, pressure))
    }

    method ServeRobot(controls: seq<Flow>, robot: RobotId, sentTotal: nat) returns (total: nat, placed: bool)
      requires Valid() && sentTotal == SentTotal(decisions) && Listed(flows, controls) && !AnySent(decisions, controls)
      requires forall c :: c in controls ==> IsControl(c.kind) && c.robot == robot
      modifies this`decisions
      ensures Valid() && total == SentTotal(decisions) && Kept(flows, old(decisions), decisions)
      ensures total <= MaxInt(sentTotal, cfg.capacity)
      ensures AnySent(decisions, controls) == placed
      ensures OtherRobotsSame(flows, old(decisions), decisions, robot)
      ensures placed ==> var d := ServiceDecision(controls, robot);
                         d.Some? && d.value.flow in decisions && decisions[d.value.flow] == d.value
                         && ControlsSame(flows, old(decisions), decisions, {d.value.flow})
      ensures !placed ==> ControlsSame(flows, old(decisions), decisions, {})
                          && (ServiceDecision(controls, robot).None? || Full(flows, decisions))
    {
      var service := ServiceDecision(controls, robot);
      total, placed := sentTotal, false;
      KeptSelf(flows, decisions);
      if service.None? { return; }
      var d := service.value;
      ghost var i :| 0 <= i < |controls| && controls[i].id == d.flow;
      assert controls[i] in controls;
      ghost var before := decisions;
      total, placed := Place(d, 0, sentTotal);
      if !placed { UnsentSame(flows, before, decisions, controls); }
      if placed { assert controls[i].id in decisions && Sent(decisions[controls[i].id]); }
    }

    /** `_apply_n_aware_control_service_floor`: robots without any sent control flow get their
        cheapest one, those served longest ago first; `lastServed` marks exactly the robots
        with a sent control flow. */
    method ServeEveryRobot(candidates: seq<Flow>, sentTotal: nat) returns (total: nat)
      requires Valid() && sentTotal == SentTotal(decisions) && Listed(flows, candidates)
      modifies this`decisions, this`lastServed
      ensures Valid() && total == SentTotal(decisions) && Kept(flows, old(decisions), decisions)
      ensures total <= MaxInt(sentTotal, cfg.capacity)
      ensures lastServed == old(lastServed) || Marked(old(lastServed), lastServed, tick, decisions, candidates)
    {
      total := sentTotal;
      ghost var before := decisions;
      KeptSelf(flows, before);
      if !cfg.nAware { return; }
      var groups := GroupControls(candidates);
      if |groups| < MaxInt(1, cfg.nAwareMinRobots) { return; }
      ghost var waiting := lastServed;
      var todo := set r | r in groups && !AnySent(decisions, groups[r]);
      ServeStart(waiting, tick, decisions, candidates, groups, todo);
      lastServed := lastServed + map r | r in groups && r !in todo :: tick;
      var rank := lastServed;
      while todo != {}
        invariant Valid() && total == SentTotal(decisions) && Kept(flows, before, decisions)
        invariant total <= MaxInt(sentTotal, cfg.capacity) && todo <= groups.Keys
        invariant Serving(waiting, lastServed, tick, decisions, candidates, todo)
        decreases todo
      {
        HasLongestWaiting(robots, rank, todo);
        var r :| r in todo && LongestWaiting(robots, rank, todo, r);
        ghost var mid := decisions;
        assert GroupedAt(groups, candidates, r);
        assert ServedAt(waiting, lastServed, tick, mid, candidates, todo, r);
        ListedControls(flows, candidates, r);
        var placed;
        total, placed := ServeRobot(groups[r], r, total);
        KeptTrans(flows, before, mid, decisions);
        ServeStep(flows, waiting, lastServed, tick, mid, decisions, candidates, todo, r);
        if placed { lastServed := lastServed[r := tick]; }
        todo := todo - {r};
      }
      ServeEnd(waiting, lastServed, tick, decisions, candidates);
    }

    /** The floor loop of `_apply_control_service_floor`: unsent control flows of robots under
        pressure get their cheapest feasible form. */
    method FloorControls(candidates: seq<Flow>, sentTotal: nat) returns (total: nat)
      requires Valid() && sentTotal == SentTotal(decisions) && Listed(flows, candidates)
      modifies this`decisions
      ensures Valid() && total == SentTotal(decisions) && Kept(flows, old(decisions), decisions)
      ensures total <= MaxInt(sentTotal, cfg.capacity)
      ensures AllFloored(cfg, robots, flows, decisions, total, candidates)
      ensures AllFlooredFrom(robots, flows, old(decisions), decisions)
    {
      total := sentTotal;
      ghost var before := decisions;
      KeptSelf(flows, before);
      for i := 0 to |candidates|
        invariant Valid() && total == SentTotal(decisions) && Kept(flows, before, decisions)
        invariant total <= MaxInt(sentTotal, cfg.capacity)
        invariant AllFloored(cfg, robots, flows, decisions, total, candidates[..i])
        invariant AllFlooredFrom(robots, flows, before, decisions)
      {
        var c := candidates[i];
        assert candidates[..i + 1] == candidates[..i] + [c];
        if IsControl(c.kind) && ServicePressure(robots, c.robot) >= cfg.minFloorPressure
           && !(c.id in decisions && Sent(decisions[c.id])) {
          var floor := FloorFor(robots, c);
          if floor.Some? {
            ghost var mid, was := decisions, total;
            var placed;
            total, placed := Place(floor.value, 0, total);
            KeptTrans(flows, before, mid, decisions);
            FlooredSoFar(cfg, robots, flows, mid, decisions, was, total, candidates[..i]);
            FlooredFromStep(robots, flows, before, mid, decisions, c, placed);
          }
        }
      }
      assert candidates[..|candidates|] == candidates;
    }

    /** `_apply_control_deadline_horizon_lift`: sent control intents of robots in deadline debt
        move to a supervisory intent with a longer horizon. */
    method LiftDeadlines(candidates: seq<Flow>, sentTotal: nat) returns (total: nat)
      requires Valid() && sentTotal == SentTotal(decisions) && Listed(flows, candidates) && DistinctFlows(candidates)
      modifies this`decisions
      ensures Valid() && total == SentTotal(decisions) && Kept(flows, old(decisions), decisions)
      ensures total <= MaxInt(sentTotal, cfg.capacity)
      ensures forall i :: 0 <= i < |candidates| ==> Lifted(cfg, robots, flows, old(decisions), decisions, candidates[i])
    {
      total := sentTotal;
      ghost var before := decisions;
      KeptSelf(flows, before);
      if !cfg.lift { return; }
      for i := 0 to |candidates|
        invariant Valid() && total == SentTotal(decisions) && Kept(flows, before, decisions)
        invariant total <= MaxInt(sentTotal, cfg.capacity)
        invariant forall j :: 0 <= j < i ==> Lifted(cfg, robots, flows, before, decisions, candidates[j])
        invariant forall j :: i <= j < |candidates| && IsControl(candidates[j].kind) ==>
                    SameAt(before, decisions, candidates[j].id)
      {
        var c := candidates[i];
        var lifted := LiftFor(cfg, robots, decisions, c);
        assert IsControl(c.kind) ==> LiftFor(cfg, robots, decisions, c) == LiftFor(cfg, robots, before, c);
        if lifted.Some? {
          ghost var mid := decisions;
          var placed;
          total, placed := Place(lifted.value, decisions[c.id].bytes, total);
          KeptTrans(flows, before, mid, decisions);
          LiftedSoFar(cfg, robots, flows, before, mid, decisions, candidates, i, placed);
          if !placed { assert SameAt(mid, decisions, c.id); }
        }
      }
    }

    /** The share of a robot's sheddable bytes that pressure asks for. */
    function ShedTarget(robot: RobotId, pressure: real, bytes: nat): int {
      var base := MinReal(cfg.shedMaxFraction,
                          cfg.shedMaxFraction * MaxReal(0.0, pressure - cfg.shedStart)
                          / MaxReal(0.001, cfg.maxPressure - cfg.shedStart));
      var fraction := if robot in robots && robots[robot].deadlineDeficit > 0.0
                      then MinReal(cfg.debtMaxFraction, base + cfg.debtGain * robots[robot].deadlineDeficit) else base;
      (bytes as real * fraction).Floor
    }

    method BytesOf(all: set<FlowId>) returns (total: nat)
      requires forall f :: f in all ==> f in decisions && Sent(decisions[f])
      ensures total == SentTotal(Only(decisions, all))
    {
      total := 0;
      var left := all;
      while left != {}
        invariant left <= all && total + SentTotal(Only(decisions, left)) == SentTotal(Only(decisions, all))
        decreases left
      {
        var f :| f in left;
        OnlyWithout(decisions, left, f);
        total, left := total + decisions[f].bytes, left - {f};
      }
      assert Only(decisions, {}) == map[];
    }

    /** `_shape_noncritical_for_robot_pressure`: shape sheddable flows in class, priority and
        size order until the target is met or all have been tried. */
    method Shape(robot: RobotId, pressure: real) returns (freed: nat, ghost shaped: set<FlowId>)
      requires Valid()
      modifies this`decisions
      ensures Valid() && ShapedAs(flows, old(decisions), decisions, shaped, pressure)
      ensures ControlsSame(flows, old(decisions), decisions, {})
      ensures SentTotal(decisions) + freed == SentTotal(old(decisions))
      ensures forall f :: f in shaped ==> Sheddable(flows, old(decisions), robot, f)
      ensures forall f, g :: f in shaped && g !in shaped && Sheddable(flows, old(decisions), robot, g) ==>
                ShedBefore(flows, old(decisions), f, g)
      ensures pressure >= cfg.shedStart ==>
                var all := set f | f in old(decisions) && Sheddable(flows, old(decisions), robot, f);
                freed >= ShedTarget(robot, pressure, SentTotal(Only(old(decisions), all))) || shaped == all
    {
      var before := decisions;
      freed, shaped := 0, {};
      KeptSelf(flows, before);
      if pressure < cfg.shedStart { return; }
      var all := set f | f in decisions && Sheddable(flows, decisions, robot, f);
      var total := BytesOf(all);
      var target := ShedTarget(robot, pressure, total);
      freed, shaped := ShapeUntil(all, target, pressure);
      ShapedControls(flows, before, decisions, shaped, pressure);
    }

    method ShapeUntil(all: set<FlowId>, target: int, pressure: real) returns (freed: nat, ghost shaped: set<FlowId>)
      requires Valid() && Sound(flows, decisions, all)
      modifies this`decisions
      ensures ShapedAs(flows, old(decisions), decisions, shaped, pressure) && shaped <= all
      ensures SentTotal(decisions) + freed == SentTotal(old(decisions))
      ensures freed >= target || shaped == all
      ensures forall f, g :: f in shaped && g in all && g !in shaped ==> ShedBefore(flows, old(decisions), f, g)
    {
      var before := decisions;
      freed := 0;
      var todo := all;
      KeptSelf(flows, before);
      assert all - todo == {};
      while todo != {} && freed < target
        invariant todo <= all && ShapedAs(flows, before, decisions, all - todo, pressure)
        invariant ShedInOrder(flows, before, all, todo)
        invariant SentTotal(decisions) + freed == SentTotal(before)
        decreases todo
      {
        HasFirstToShed(flows, before, todo);
        var f :| f in todo && FirstToShed(flows, before, todo, f);
        assert all - todo + {f} == all - (todo - {f});
        ShedNext(flows, before, all, todo, f);
        var gain := ShapeFlow(f, pressure, before, all - todo);
        freed, todo := freed + gain, todo - {f};
      }
      shaped := all - todo;
    }

    method ShapeFlow(f: FlowId, pressure: real, ghost before: Decisions, ghost done: set<FlowId>) returns (gain: nat)
      requires Valid() && ShapedAs(flows, before, decisions, done, pressure)
      requires f !in done && f in before && Sent(before[f]) && f in flows && Sheds(flows[f].kind)
      modifies this`decisions
      ensures ShapedAs(flows, before, decisions, done + {f}, pressure)
      ensures SentTotal(decisions) + gain == SentTotal(old(decisions))
    {
      ShapeOne(flows, before, decisions, done, pressure, f);
      var d := decisions[f];
      var replacement := ShapedDecision(flows[f], d, pressure);
      if replacement.Some? {
        gain := MaxInt(0, d.bytes - replacement.value.bytes);
        decisions := decisions[f := replacement.value];
      } else {
        gain := 0;
        assert decisions[f := d] == decisions;
      }
    }

    /** Robots whose other traffic is shaped: those whose control flows needed the floor, and
        those above the shedding threshold. */
    predicate Pressured(c: Flow) {
      || (IsControl(c.kind) && ServicePressure(robots, c.robot) >= cfg.minFloorPressure)
      || TotalPressure(c.robot) >= cfg.shedStart
    }

    method PressuredRobots(candidates: seq<Flow>) returns (pressured: map<RobotId, real>)
      ensures forall r :: r in pressured ==> pressured[r] == MaxReal(0.0, TotalPressure(r))
      ensures forall r :: r in pressured <==>
              exists i :: 0 <= i < |candidates| && candidates[i].robot == r && Pressured(candidates[i])
    {
      pressured := map[];
      for i := 0 to |candidates|
        invariant forall r :: r in pressured ==> pressured[r] == MaxReal(0.0, TotalPressure(r))
        invariant forall r :: r in pressured <==>
                  exists j :: 0 <= j < i && candidates[j].robot == r && Pressured(candidates[j])
      {
        var c := candidates[i];
        if Pressured(c) { pressured := pressured[c.robot := MaxReal(0.0, TotalPressure(c.robot))]; }
      }
    }

    /** `_apply_control_service_floor`: every stage hands on the exact total of sent bytes. */
    method ApplyFloor(candidates: seq<Flow>) returns (total: nat, ghost floored: Decisions)
      requires Valid() && Listed(flows, candidates) && DistinctFlows(candidates)
      modifies this
      ensures Valid() && total == SentTotal(decisions)
      ensures Kept(flows, old(decisions), floored) && Kept(flows, floored, decisions)
      ensures total <= MaxInt(SentTotal(old(decisions)), cfg.capacity)
      ensures forall i :: 0 <= i < |candidates| ==> Answered(cfg, robots, flows, floored, decisions, candidates[i])
    {
      ghost var base := decisions;
      assert Only(base, decisions.Keys) == base;
      total := BytesSent();
      total := ServeEveryRobot(candidates, total);
      ghost var served := decisions;
      total := FloorControls(candidates, total);
      KeptTrans(flows, base, served, decisions);
      floored := decisions;
      total := LiftDeadlines(candidates, total);
      total := ShapeRobots(candidates, total, floored);
    }

    /** The shaping stage: robots under pressure give up traffic, one after the other. */
    method ShapeRobots(candidates: seq<Flow>, sentTotal: nat, ghost floored: Decisions) returns (total: nat)
      requires Valid() && sentTotal == SentTotal(decisions) && Listed(flows, candidates)
               && Kept(flows, floored, decisions)
      requires forall i :: 0 <= i < |candidates| ==> Answered(cfg, robots, flows, floored, decisions, candidates[i])
      modifies this`decisions
      ensures Valid() && total == SentTotal(decisions) <= sentTotal && Kept(flows, floored, decisions)
      ensures forall i :: 0 <= i < |candidates| ==> Answered(cfg, robots, flows, floored, decisions, candidates[i])
    {
      total := sentTotal;
      var pressured := PressuredRobots(candidates);
      var todo := pressured.Keys;
      while todo != {}
        invariant todo <= pressured.Keys && Valid() && total == SentTotal(decisions) <= sentTotal
        invariant Kept(flows, floored, decisions)
        invariant forall i :: 0 <= i < |candidates| ==> Answered(cfg, robots, flows, floored, decisions, candidates[i])
        decreases todo
      {
        HasLeast(todo);
        var r :| r in todo && IsLeast(todo, r);
        ghost var mid := decisions;
        var freed;
        ghost var shaped;
        freed, shaped := Shape(r, pressured[r]);
        KeptTrans(flows, floored, mid, decisions);
        AnsweredStays(cfg, robots, flows, floored, mid, decisions, candidates);
        total, todo := total - freed, todo - {r};
      }
    }

    /** The initial sum over the decision map. */
    method BytesSent() returns (total: nat)
      ensures total == SentTotal(decisions)
    {
      var sent := set f | f in decisions && Sent(decisions[f]);
      total := BytesOf(sent);
      OnlySent(decisions, sent);
    }

    /** `_apply_deadline_feasibility_firewall`: afterwards every sent flow of a class it guards
        fits its remaining slack. */
    method ApplyFirewall(candidates: seq<Flow>)
      requires Valid() && Listed(flows, candidates)
      modifies this`decisions
      ensures Valid() && Kept(flows, old(decisions), decisions) && SentTotal(decisions) <= SentTotal(old(decisions))
      ensures ControlsSame(flows, old(decisions), decisions, {})
      ensures cfg.firewall ==> forall i :: 0 <= i < |candidates| ==> InTime(cfg, decisions, candidates[i])
    {
      ghost var before := decisions;
      KeptSelf(flows, before);
      if !cfg.firewall { return; }
      for i := 0 to |candidates|
        invariant Valid() && Kept(flows, before, decisions) && SentTotal(decisions) <= SentTotal(before)
        invariant ControlsSame(flows, before, decisions, {})
        invariant forall j :: 0 <= j < i ==> InTime(cfg, decisions, candidates[j])
      {
        var c := candidates[i];
        if c.id in decisions && Sent(decisions[c.id]) && Sheds(c.kind) {
          var d := decisions[c.id];
          if cfg.tail(MaxInt(1, d.bytes)) > c.slack {
            var r := FirewallDecision(cfg, c, d);
            TotalAfter(decisions, c.id, r);
            KeptOne(flows, decisions, c.id, r);
            KeptTrans(flows, before, decisions, decisions[c.id := r]);
            assert ControlsSame(flows, decisions, decisions[c.id := r], {});
            ControlsSameTrans(flows, before, decisions, decisions[c.id := r]);
            decisions := decisions[c.id := r];
          }
        }
      }
    }
  }

  /** A sent flow of a guarded class meets its slack at the path's tail latency. */
  predicate InTime(cfg: Config, ds: Decisions, c: Flow) {
    c.id in ds && Sent(ds[c.id]) && Sheds(c.kind) ==>
      cfg.tail(MaxInt(1, ds[c.id].bytes)) <= c.slack || cfg.tail(ds[c.id].bytes) <= c.slack
  }

  lemma {:induction false} OnlySent(ds: Decisions, sent: set<FlowId>)
    requires sent == set f | f in ds && Sent(ds[f])
    ensures SentTotal(Only(ds, sent)) == SentTotal(ds)
    decreases |ds|
  {
    if ds == map[] {
      assert Only(ds, sent) == map[];
    } else {
      var f := Element(ds.Keys);
      var rest := ds - {f};
      TotalWithout(ds, f);
      OnlySent(rest, sent - {f});
      assert Only(rest, sent - {f}) == Only(ds, sent - {f});
      if f in sent { OnlyWithout(ds, sent, f); } else { assert sent - {f} == sent; }
    }
  }

  // ---------------------------------------------------------------- the whole schedule

  /** Decisions by flow id; a later one wins. */
  function Index(ds: seq<Decision>): (r: Decisions)
    ensures Keyed(r)
  {
    if ds == [] then map[] else Index(ds[..|ds| - 1])[ds[|ds| - 1].flow := ds[|ds| - 1]]
  }

  function FlowsOf(cs: seq<Flow>): (r: Flows)
    ensures KeyedFlows(r)
  {
    if cs == [] then map[] else FlowsOf(cs[..|cs| - 1])[cs[|cs| - 1].id := cs[|cs| - 1]]
  }

  predicate DistinctFlows(cs: seq<Flow>) { forall i, j :: 0 <= i < j < |cs| ==> cs[i].id != cs[j].id }

  lemma {:induction false} DistinctAreListed(cs: seq<Flow>)
    requires DistinctFlows(cs)
    ensures Listed(FlowsOf(cs), cs)
  {
    if cs != [] {
      var n := |cs| - 1;
      DistinctAreListed(cs[..n]);
      forall i | 0 <= i < |cs| ensures cs[i].id in FlowsOf(cs) && FlowsOf(cs)[cs[i].id] == cs[i] {
        if i < n { assert cs[..n][i] == cs[i]; }
      }
    }
  }

  ghost function SumSent(ds: seq<Decision>): nat {
    if ds == [] then 0 else SumSent(ds[..|ds| - 1]) + SentBytes(ds[|ds| - 1])
  }

  /** With one decision per flow the indexed total is the sum over the list. */
  lemma {:induction false} IndexTotal(ds: seq<Decision>)
    requires forall i, j :: 0 <= i < j < |ds| ==> ds[i].flow != ds[j].flow
    ensures SentTotal(Index(ds)) == SumSent(ds)
    ensures forall f :: f in Index(ds) <==> exists i :: 0 <= i < |ds| && ds[i].flow == f
  {
    if ds != [] {
      var n := |ds| - 1;
      IndexTotal(ds[..n]);
      TotalAfter(Index(ds[..n]), ds[n].flow, ds[n]);
      forall f ensures f in Index(ds) <==> exists i :: 0 <= i < |ds| && ds[i].flow == f {
        if i :| 0 <= i < n && ds[i].flow == f { assert ds[..n][i].flow == f; }
      }
    }
  }

  /** The budget passes over the base policy's decisions: no base decision loses its flow, no
      control flow the base sent is un-sent, other flows only lose bytes, and the total ends
      within the larger of the base total and the link capacity. Every control flow of a robot
      at or above the floor pressure is answered: sent, without a feasible form, or too large
      when its turn came, though every flow that could be deferred is deferred. */
  method Schedule(cfg: Config, candidates: seq<Flow>, robots: map<RobotId, Robot>, served: map<RobotId, int>, tick: int,
                  base: seq<Decision>)
    returns (decisions: Decisions, servedAfter: map<RobotId, int>, ghost floored: Decisions)
    requires DistinctFlows(candidates)
    ensures Keyed(decisions) && Index(base).Keys <= decisions.Keys
    ensures Kept(FlowsOf(candidates), Index(base), decisions)
    ensures Kept(FlowsOf(candidates), Index(base), floored) && Kept(FlowsOf(candidates), floored, decisions)
    ensures SentTotal(decisions) <= MaxInt(SentTotal(Index(base)), cfg.capacity)
    ensures cfg.firewall ==> forall i :: 0 <= i < |candidates| ==> InTime(cfg, decisions, candidates[i])
    ensures forall i :: 0 <= i < |candidates| ==>
              Answered(cfg, robots, FlowsOf(candidates), floored, decisions, candidates[i])
  {
    var flows := FlowsOf(candidates);
    DistinctAreListed(candidates);
    var passes := new RobotBudgetPasses(cfg, flows, robots, Index(base), served, tick);
    var total;
    total, floored := passes.ApplyFloor(candidates);
    ghost var mid := passes.decisions;
    passes.ApplyFirewall(candidates);
    decisions, servedAfter := passes.decisions, passes.lastServed;
    KeptTrans(flows, floored, mid, decisions);
    KeptTrans(flows, Index(base), floored, decisions);
    AnsweredStays(cfg, robots, flows, floored, mid, decisions, candidates);
    forall f | f in Index(base) ensures f in decisions {
      assert FlowKept(flows, Index(base), decisions, f);
    }
  }
}
