/** The talker's retransmit history (fleetqox/rmw_socket.py) and single rounds of the recovery
    loop over a lossless in-order link; module RmwLoop puts them into whole runs.
 */
module RmwRecovery {
  import opened Wrappers
  import opened Collections
  import opened RmwAck

  // ---------------------------------------------------------------- one round of the loop

  /** The requested numbers of a feedback, in the order they are retransmitted. */
  function Expand(ranges: seq<Range>): seq<int> {
    if ranges == [] then []
    else Expand(ranges[..|ranges| - 1]) + Span(ranges[|ranges| - 1].first, ranges[|ranges| - 1].last)
  }

  function Span(a: int, b: int): seq<int>
    decreases b - a
  {
    if a > b then [] else Span(a, b - 1) + [b]
  }

  /** The requested numbers still in the history. */
  function Available(requested: seq<int>, held: set<int>): seq<int> {
    if requested == [] then []
    else
      var n := |requested| - 1;
      Available(requested[..n], held) + (if requested[n] in held then [requested[n]] else [])
  }

  function Retransmitted(t: Source, held: set<int>): seq<int> { Available(Expand(MissingRanges(t)), held) }

  /** One round: everything missing and held is sent again and observed in that order. */
  function Round(t: Source, held: set<int>, window: int): Source {
    ObserveAll(t, Retransmitted(t, held), window)
  }

  function Rounds(t: Source, held: set<int>, window: int, k: nat): Source {
    if k == 0 then t else Round(Rounds(t, held, window, k - 1), held, window)
  }

  /** Numbers above the mark, not observed, that the talker could still send. */
  function Wanted(t: Source, held: set<int>): set<int> {
    if t.Fresh? then {} else set s | s in held && t.contiguous < s <= t.highest && s !in t.observed
  }

  predicate Ascending(xs: seq<int>) { forall i, j :: 0 <= i < j < |xs| ==> xs[i] < xs[j] }

  lemma {:induction false} SpanMembers(a: int, b: int)
    ensures Ascending(Span(a, b)) && forall s :: s in Span(a, b) <==> a <= s <= b
    decreases b - a
  {
    if a <= b {
      SpanMembers(a, b - 1);
      AscendingJoin(Span(a, b - 1), [b], b);
    }
  }

  lemma {:induction false} ExpandMembers(ranges: seq<Range>)
    requires Canonical(ranges)
    ensures Ascending(Expand(ranges)) && forall s :: s in Expand(ranges) <==> InSome(ranges, s)
  {
    if ranges != [] {
      var n := |ranges| - 1;
      var rest, last := ranges[..n], ranges[n];
      ExpandMembers(rest);
      SpanMembers(last.first, last.last);
      forall s ensures s in Expand(ranges) <==> InSome(ranges, s) { LastRange(ranges, s); }
      AscendingJoin(Expand(rest), Span(last.first, last.last), last.first);
    }
  }

  lemma LastRange(ranges: seq<Range>, s: int)
    requires ranges != []
    ensures InSome(ranges, s) <==> InSome(ranges[..|ranges| - 1], s) || Within(ranges[|ranges| - 1], s)
  {
    var rest := ranges[..|ranges| - 1];
    if InSome(rest, s) {
      var i :| 0 <= i < |rest| && Within(rest[i], s);
      assert Within(ranges[i], s);
    }
    if InSome(ranges, s) && !Within(ranges[|ranges| - 1], s) {
      var i :| 0 <= i < |ranges| && Within(ranges[i], s);
      assert Within(rest[i], s);
    }
  }

  lemma AscendingJoin(a: seq<int>, b: seq<int>, bound: int)
    requires Ascending(a) && Ascending(b)
    requires forall s :: s in a ==> s < bound
    requires forall s :: s in b ==> s >= bound
    ensures Ascending(a + b)
  {
    var c := a + b;
    forall i, j | 0 <= i < j < |c| ensures c[i] < c[j] {
      if j < |a| { assert a[i] < a[j]; }
      else if i >= |a| { assert b[i - |a|] < b[j - |a|]; }
      else { assert a[i] in a && b[j - |a|] in b; }
    }
  }

  lemma {:induction false} AvailableMembers(requested: seq<int>, held: set<int>)
    requires Ascending(requested)
    ensures Ascending(Available(requested, held))
    ensures forall s :: s in Available(requested, held) <==> s in requested && s in held
  {
    if requested != [] {
      var n := |requested| - 1;
      AvailableMembers(requested[..n], held);
      var rest := Available(requested[..n], held);
      if requested[n] in held {
        forall s | s in rest ensures s < requested[n] {
          var i :| 0 <= i < n && requested[i] == s;
        }
        AscendingJoin(rest, [requested[n]], requested[n]);
      }
    }
  }

  /** The retransmitted numbers are, in ascending order, exactly the wanted ones. */
  lemma RetransmittedIsWanted(t: Source, held: set<int>)
    requires t.Tracking?
    ensures Ascending(Retransmitted(t, held))
    ensures forall s :: s in Retransmitted(t, held) <==> s in Wanted(t, held)
  {
    var ranges := MissingRanges(t);
    RangesCanonical(t.contiguous, t.highest, t.observed);
    ExpandMembers(ranges);
    AvailableMembers(Expand(ranges), held);
    forall s ensures s in Retransmitted(t, held) <==> s in Wanted(t, held) {
      RangesExact(t.contiguous, t.highest, t.observed, s);
    }
  }

  /** What every tracker state satisfies between observations. */
  predicate Tidy(t: Source, window: int)
    requires t.Tracking?
  {
    t.contiguous + 1 !in t.observed && forall x :: x in t.observed ==> t.highest - window <= x <= t.highest
  }

  /** Observing numbers `rs` in ascending order, none above the highest. */
  ghost predicate Absorbed(t: Source, rs: seq<int>, r: Source, window: int)
    requires t.Tracking? && r.Tracking?
  {
    && r.highest == t.highest && r.contiguous >= t.contiguous
    && (forall x :: x in r.observed <==> (x in t.observed || (x in rs && x >= t.highest - window)))
    && (forall i :: t.contiguous < i <= r.contiguous ==> i in t.observed || i in rs)
    && r.contiguous + 1 !in t.observed && r.contiguous + 1 !in rs
  }

  lemma AbsorbOne(t: Source, rs: seq<int>, r: Source, x: int, window: int)
    requires t.Tracking? && r.Tracking? && Absorbed(t, rs, r, window) && window >= 1
    requires forall s :: s in rs ==> s < x
    requires x <= t.highest && forall y :: y in t.observed ==> y >= t.highest - window
    ensures Absorbed(t, rs + [x], Observe(r, x, window), window)
  {
    var seen := r.observed + {x};
    var c := Advanced(r.contiguous, seen);
    if c > r.contiguous { assert r.contiguous + 1 in seen; }
  }

  lemma {:induction false} AbsorbAll(t: Source, rs: seq<int>, window: int)
    requires t.Tracking? && Tidy(t, window) && window >= 1
    requires Ascending(rs) && forall s :: s in rs ==> t.contiguous < s <= t.highest
    ensures Absorbed(t, rs, ObserveAll(t, rs, window), window)
  {
    if rs != [] {
      var n := |rs| - 1;
      assert rs == rs[..n] + [rs[n]] && rs[n] in rs;
      assert forall s :: s in rs[..n] ==> s in rs;
      AbsorbAll(t, rs[..n], window);
      AbsorbOne(t, rs[..n], ObserveAll(t, rs[..n], window), rs[n], window);
    }
  }

  lemma RoundAbsorbs(t: Source, held: set<int>, window: int)
    requires t.Tracking? && Tidy(t, window) && window >= 1
    ensures Absorbed(t, Retransmitted(t, held), Round(t, held, window), window)
    ensures Tidy(Round(t, held, window), window)
  {
    RetransmittedIsWanted(t, held);
    AbsorbAll(t, Retransmitted(t, held), window);
  }

  /** After a round, what is still wanted lies below the window and behind a gap. */
  lemma StillWanted(t: Source, held: set<int>, window: int, s: int)
    requires t.Tracking? && Tidy(t, window) && window >= 1
    requires s in Wanted(Round(t, held, window), held)
    ensures var g := Round(t, held, window).contiguous + 1;
            s in held && t.contiguous < g < s < t.highest - window && g !in t.observed && g !in held
  {
    RoundAbsorbs(t, held, window);
    RetransmittedIsWanted(t, held);
  }

  /** A second round changes nothing: what it could still send only falls out again. */
  lemma SecondRoundIsIdle(t: Source, held: set<int>, window: int)
    requires t.Tracking? && Tidy(t, window) && window >= 1
    ensures var r := Round(t, held, window); Round(r, held, window) == r
  {
    var r := Round(t, held, window);
    var r2 := Round(r, held, window);
    RoundAbsorbs(t, held, window);
    RoundAbsorbs(r, held, window);
    RetransmittedIsWanted(r, held);
    forall s | s in Retransmitted(r, held)
      ensures r.contiguous + 1 < s < t.highest - window
    {
      StillWanted(t, held, window, s);
    }
    assert r2.contiguous == r.contiguous;
    assert r2.observed == r.observed;
  }

  // ---------------------------------------------------------------- when the loop ends

  /** Every held number below the window can be reached from the mark without a gap. */
  predicate NoHeldBehindGap(t: Source, held: set<int>, window: int)
    requires t.Tracking?
  {
    forall s, g :: s in held && t.contiguous < g < s < t.highest - window ==> g in t.observed || g in held
  }

  lemma RoundsAfterFirst(t: Source, held: set<int>, window: int, k: nat)
    requires t.Tracking? && Tidy(t, window) && window >= 1 && k >= 1
    ensures Rounds(t, held, window, k) == Round(t, held, window)
  {
    if k == 1 { assert Rounds(t, held, window, 0) == t; }
    else {
      RoundsAfterFirst(t, held, window, k - 1);
      SecondRoundIsIdle(t, held, window);
    }
  }

  /** After `k` rounds the talker has nothing left to send. */
  predicate DoneAfter(t: Source, held: set<int>, window: int, k: nat) {
    Rounds(t, held, window, k).Tracking? && Wanted(Rounds(t, held, window, k), held) == {}
  }

  lemma DoneAfterOne(t: Source, held: set<int>, window: int)
    requires t.Tracking? && Tidy(t, window) && window >= 1
    ensures Wanted(Round(t, held, window), held) == {} <==> NoHeldBehindGap(t, held, window)
  {
    var r := Round(t, held, window);
    RoundAbsorbs(t, held, window);
    RetransmittedIsWanted(t, held);
    if Wanted(r, held) == {} {
      forall s, g | s in held && t.contiguous < g < s < t.highest - window ensures g in t.observed || g in held {
        assert s !in Wanted(r, held);
      }
    } else {
      var s := Element(Wanted(r, held));
      StillWanted(t, held, window, s);
    }
  }

  lemma DoneIsDoneAfterOne(t: Source, held: set<int>, window: int, k: nat)
    requires t.Tracking? && Tidy(t, window) && window >= 1 && DoneAfter(t, held, window, k)
    ensures Wanted(Round(t, held, window), held) == {}
  {
    if k >= 1 {
      RoundsAfterFirst(t, held, window, k);
    } else {
      assert Rounds(t, held, window, 0) == t;
      NothingWanted(t, held, window);
    }
  }

  /** The loop leaves after some number of rounds exactly when no held number below the window
      lies behind a gap; and then one round is enough. */
  lemma LoopEndsWhen(t: Source, held: set<int>, window: int)
    requires t.Tracking? && Tidy(t, window) && window >= 1
    ensures (exists k :: DoneAfter(t, held, window, k)) <==> NoHeldBehindGap(t, held, window)
    ensures NoHeldBehindGap(t, held, window) ==> DoneAfter(t, held, window, 1)
  {
    DoneAfterOne(t, held, window);
    RoundsAfterFirst(t, held, window, 1);
    RoundAbsorbs(t, held, window);
    assert NoHeldBehindGap(t, held, window) ==> DoneAfter(t, held, window, 1);
    if exists k :: DoneAfter(t, held, window, k) {
      var k :| DoneAfter(t, held, window, k);
      DoneIsDoneAfterOne(t, held, window, k);
    }
  }

  lemma FirstIsMember(xs: seq<int>)
    ensures xs == [] || xs[0] in xs
  {
  }

  lemma NothingWanted(t: Source, held: set<int>, window: int)
    requires t.Tracking? && Wanted(t, held) == {}
    ensures Round(t, held, window) == t
  {
    RetransmittedIsWanted(t, held);
    FirstIsMember(Retransmitted(t, held));
  }

  // ---------------------------------------------------------------- consecutive sends

  /** The newest `limit` of the numbers 1..n. */
  function Newest(n: int, limit: int): (r: set<int>)
    ensures forall s :: s in r <==> (n - limit < s <= n && s >= 1)
    decreases n
  {
    if n < 1 || limit < 1 then {} else Newest(n - 1, limit - 1) + {n}
  }

  predicate Delivers(xs: seq<int>, n: int) { xs != [] && n in xs && forall x :: x in xs ==> 1 <= x <= n }

  lemma ReceivedIsTidy(xs: seq<int>, window: int)
    requires xs != [] && window >= 1
    ensures var t := ObserveAll(Fresh, xs, window); t.Tracking? && Tidy(t, window)
  {
    TrackerIsExact(xs, window);
  }

  /** A talker that sends 1, 2, 3, ... and keeps the newest `limit` of them makes the loop end
      after every delivered frame n, whatever was delivered before, exactly when its history is
      at most one longer than the listener's window. */
  lemma HistoryFitsWindow(limit: int, window: int)
    requires window >= 1 && limit >= 1
    ensures (forall xs, n {:trigger Delivers(xs, n)} ::
               Delivers(xs, n) ==> NoHeldBehindGap(ObserveAll(Fresh, xs, window), Newest(n, limit), window))
            <==> limit <= window + 1
  {
    if limit <= window + 1 {
      forall xs, n | Delivers(xs, n) ensures NoHeldBehindGap(ObserveAll(Fresh, xs, window), Newest(n, limit), window) {
        HighestDelivered(xs, n, window);
      }
    } else {
      GapForever(limit, window);
      assert Delivers([limit + 1], limit + 1);
    }
  }

  lemma HighestDelivered(xs: seq<int>, n: int, window: int)
    requires Delivers(xs, n) && window >= 1
    ensures ObserveAll(Fresh, xs, window).highest == n
  {
    TrackerIsExact(xs, window);
    var t := ObserveAll(Fresh, xs, window);
    var i :| 0 <= i < |xs| && xs[i] == n;
    assert n in Elements(xs);
    var j :| 0 <= j < |xs| && xs[j] == t.highest;
    assert xs[j] in xs;
  }

  /** With a longer history: only frame limit + 1 arrives, frame 1 is gone from the history, and
      frame 2 is retransmitted in every round and never counts as received. */
  lemma GapForever(limit: int, window: int)
    requires window >= 1 && limit >= window + 2
    ensures var t, held := ObserveAll(Fresh, [limit + 1], window), Newest(limit + 1, limit);
            && t.contiguous == 0 && !NoHeldBehindGap(t, held, window)
            && forall k: nat :: 2 in Wanted(Rounds(t, held, window, k), held)
  {
    var xs := [limit + 1];
    var t, held := ObserveAll(Fresh, xs, window), Newest(limit + 1, limit);
    assert xs[..0] == [];
    assert t == Observe(Fresh, limit + 1, window);
    assert 2 in held && 1 !in held && 1 !in t.observed;
    ReceivedIsTidy(xs, window);
    forall k: nat ensures 2 in Wanted(Rounds(t, held, window, k), held) {
      RoundAbsorbs(t, held, window);
      RetransmittedIsWanted(t, held);
      if k >= 1 { RoundsAfterFirst(t, held, window, k); }
    }
  }

  // ---------------------------------------------------------------- the talker

  datatype SentFrame = SentFrame(payload: int, sentAt: real)

  function Least(s: set<int>): (m: int)
    requires s != {}
    ensures IsLeast(s, m)
  {
    HasLeast(s);
    var m :| m in s && IsLeast(s, m);
    m
  }

  type Frames = map<int, SentFrame>

  function Unexpired(frames: Frames, now: real, horizon: real): Frames {
    map s | s in frames && now - frames[s].sentAt <= horizon :: frames[s]
  }

  /** Dropping the lowest numbers until `limit` frames are left. */
  function Capped(frames: Frames, limit: nat): Frames
    decreases |frames|
  {
    if |frames| <= limit then frames
    else
      assert frames.Keys != {};
      Capped(frames - {Least(frames.Keys)}, limit)
  }

  function Pruned(frames: Frames, now: real, horizon: real, limit: nat): Frames {
    Capped(Unexpired(frames, now, horizon), limit)
  }

  /** The frames after some were sent again at the given stamps. */
  function Resent(frames: Frames, sent: seq<int>, stamp: int -> real): Frames {
    map s | s in frames :: if s in sent then SentFrame(frames[s].payload, stamp(s)) else frames[s]
  }

  /** Capping keeps the frames with the highest numbers. */
  lemma {:induction false} CappedKeepsHighest(frames: Frames, limit: nat)
    ensures var r := Capped(frames, limit);
            && |r| == (if |frames| <= limit then |frames| else limit)
            && (forall s :: s in r ==> s in frames && r[s] == frames[s])
            && (forall s, d :: s in r && d in frames && d !in r ==> d < s)
    decreases |frames|
  {
    if |frames| > limit {
      assert frames.Keys != {};
      var least := Least(frames.Keys);
      var rest := frames - {least};
      assert rest.Keys == frames.Keys - {least};
      CappedKeepsHighest(rest, limit);
    }
  }

  lemma PruneIsPart(f: Frames, now: real, horizon: real, limit: nat)
    ensures var g := Pruned(f, now, horizon, limit);
            |g| <= limit && g.Keys <= f.Keys && forall s :: s in g ==> s in f && g[s] == f[s]
  {
    CappedKeepsHighest(Unexpired(f, now, horizon), limit);
    assert forall s :: s in Pruned(f, now, horizon, limit) ==> s in Unexpired(f, now, horizon);
  }

  /** Sending the next consecutive number, with nothing expired, leaves the newest `limit`. */
  lemma NextIsRemembered(frames: Frames, n: nat, f: SentFrame, limit: nat)
    requires limit >= 1 && frames.Keys == Newest(n, limit)
    ensures Capped(frames[n + 1 := f], limit).Keys == Newest(n + 1, limit)
  {
    var more := frames[n + 1 := f];
    NewestSize(n, limit);
    assert more.Keys == frames.Keys + {n + 1} && n + 1 !in frames.Keys;
    assert |more.Keys| == |frames.Keys| + 1;
    if n >= limit { DropsOne(more, n, limit); } else { NewestFew(n, limit); }
  }

  /** The history after sending 1..n with nothing expired. */
  function Published(n: nat, limit: nat, frame: nat -> SentFrame): Frames {
    if n == 0 then map[] else Capped(Published(n - 1, limit, frame)[n := frame(n)], limit)
  }

  lemma {:induction false} HistoryIsNewest(n: nat, limit: nat, frame: nat -> SentFrame)
    requires limit >= 1
    ensures Published(n, limit, frame).Keys == Newest(n, limit)
  {
    if n > 0 {
      HistoryIsNewest(n - 1, limit, frame);
      NextIsRemembered(Published(n - 1, limit, frame), n - 1, frame(n), limit);
    }
  }

  lemma NewestFew(n: nat, limit: nat)
    requires n < limit
    ensures Newest(n + 1, limit) == Newest(n, limit) + {n + 1}
  {
  }

  lemma CapOne(more: Frames, limit: nat)
    requires |more.Keys| == limit + 1
    ensures more.Keys != {} && Capped(more, limit).Keys == more.Keys - {Least(more.Keys)}
  {
    assert more.Keys != {};
    var least := Least(more.Keys);
    var rest := more - {least};
    assert rest.Keys == more.Keys - {least};
    assert |rest.Keys| == limit;
    assert |more| == |more.Keys| && |rest| == |rest.Keys|;
  }

  lemma LeastIs(s: set<int>, m: int)
    requires IsLeast(s, m)
    ensures s != {} && Least(s) == m
  {
  }

  lemma DropsOne(more: Frames, n: nat, limit: nat)
    requires 1 <= limit <= n && more.Keys == Newest(n, limit) + {n + 1} && |more.Keys| == limit + 1
    ensures Capped(more, limit).Keys == Newest(n + 1, limit)
  {
    CapOne(more, limit);
    LeastIs(more.Keys, n - limit + 1);
    SlideNewest(n, limit);
  }

  lemma SlideNewest(n: nat, limit: nat)
    requires 1 <= limit <= n
    ensures Newest(n, limit) + {n + 1} - {n - limit + 1} == Newest(n + 1, limit)
  {
    var a, b := Newest(n, limit) + {n + 1} - {n - limit + 1}, Newest(n + 1, limit);
    forall s ensures s in a <==> s in b {}
  }

  lemma {:induction false} NewestSize(n: int, limit: int)
    ensures |Newest(n, limit)| == if n < 1 || limit < 1 then 0 else if n < limit then n else limit
    decreases n
  {
    if n >= 1 && limit >= 1 { NewestSize(n - 1, limit - 1); }
  }

  class FleetRmwSocketTalker {
    const horizon: real
    const limit: nat
    var sent: map<StreamKey, Frames>

    constructor (recoveryHorizon: real, historyPerStream: int)
      ensures sent == map[]
      ensures limit == (if historyPerStream < 1 then 1 else historyPerStream)
      ensures horizon == if recoveryHorizon < 0.0 then 0.0 else recoveryHorizon
    {
      horizon := if recoveryHorizon < 0.0 then 0.0 else recoveryHorizon;
      limit := if historyPerStream < 1 then 1 else historyPerStream;
      sent := map[];
    }

    function FramesOf(stream: StreamKey): Frames reads this { if stream in sent then sent[stream] else map[] }
    function HeldOf(stream: StreamKey): set<int> reads this { FramesOf(stream).Keys }

    /** What one stream keeps after pruning at `now`. */
    method PruneStream(frames: Frames, now: real) returns (kept: Frames)
      ensures kept == Pruned(frames, now, horizon, limit)
    {
      var expired := set s | s in frames && now - frames[s].sentAt > horizon;
      kept := frames - expired;
      assert kept == Unexpired(frames, now, horizon);
      while |kept| > limit
        invariant Capped(kept, limit) == Pruned(frames, now, horizon, limit)
        decreases |kept|
      {
        assert kept.Keys != {};
        kept := kept - {Least(kept.Keys)};
      }
    }

    /** `_prune_sent_frames`. */
    method Prune(now: real)
      modifies this
      ensures sent.Keys == old(sent).Keys
      ensures forall k :: k in sent ==> sent[k] == Pruned(old(sent)[k], now, horizon, limit)
    {
      var todo, kept: map<StreamKey, Frames> := sent.Keys, map[];
      while todo != {}
        invariant todo <= sent.Keys && kept.Keys == sent.Keys - todo && sent == old(sent)
        invariant forall k :: k in kept ==> kept[k] == Pruned(sent[k], now, horizon, limit)
        decreases todo
      {
        var k :| k in todo;
        var frames := PruneStream(sent[k], now);
        kept, todo := kept[k := frames], todo - {k};
      }
      sent := kept;
    }

    /** `_remember_sent_frame`: stamped at `at`, pruned at a later reading. */
    method Remember(stream: StreamKey, sequence: int, payload: int, at: real, now: real)
      modifies this
      ensures var before := old(sent)[stream := old(FramesOf(stream))[sequence := SentFrame(payload, at)]];
              sent.Keys == before.Keys && forall k :: k in sent ==> sent[k] == Pruned(before[k], now, horizon, limit)
    {
      sent := sent[stream := FramesOf(stream)[sequence := SentFrame(payload, at)]];
      Prune(now);
    }

    /** Send requested frames still held, in order and at most `most` of them, and restart their
        horizon; `stop` requests were looked at. */
    method SendAgain(frames: Frames, requested: seq<int>, most: nat, stamp: int -> real)
      returns (after: Frames, retransmitted: seq<int>, missing: seq<int>, ghost stop: nat)
      ensures after == Resent(frames, retransmitted, stamp)
      ensures Served(requested, frames.Keys, most, retransmitted, missing, stop)
    {
      after, retransmitted, missing := frames, [], [];
      var i := 0;
      while i < |requested| && |retransmitted| < most
        invariant i <= |requested| && retransmitted == Available(requested[..i], frames.Keys)
        invariant |retransmitted| <= most
        invariant i > 0 ==> |Available(requested[..i - 1], frames.Keys)| < most
        invariant after == Resent(frames, retransmitted, stamp)
        invariant Unheld(requested[..i], frames.Keys, missing)
      {
        var sequence := requested[i];
        OneMoreRequest(requested, frames.Keys, missing, i);
        if sequence !in after {
          missing := missing + [sequence];
        } else {
          ResentOneMore(frames, retransmitted, sequence, stamp);
          after := after[sequence := SentFrame(after[sequence].payload, stamp(sequence))];
          retransmitted := retransmitted + [sequence];
        }
        i := i + 1;
      }
      stop := i;
    }

    /** `retransmit_from_feedback`: prune, then send what is held, up to the optional limit. */
    method Retransmit(stream: StreamKey, f: Feedback, maxFrames: Option<int>, now: real, stamp: int -> real)
      returns (retransmitted: seq<int>, missing: seq<int>, ghost stop: nat)
      modifies this
      ensures var kept := Pruned(old(FramesOf(stream)), now, horizon, limit);
              && FramesOf(stream) == Resent(kept, retransmitted, stamp)
              && Served(Expand(f.missing), kept.Keys, MostOf(maxFrames, Expand(f.missing)), retransmitted, missing,
                        stop)
      ensures sent.Keys == old(sent).Keys
      ensures forall k :: k in sent && k != stream ==> sent[k] == Pruned(old(sent)[k], now, horizon, limit)
    {
      ghost var before := FramesOf(stream);
      Prune(now);
      var kept, requested := FramesOf(stream), Expand(f.missing);
      NothingPruned(now, horizon, limit);
      assert kept == Pruned(before, now, horizon, limit);
      var after;
      after, retransmitted, missing, stop := SendAgain(kept, requested, MostOf(maxFrames, requested), stamp);
      if stream in sent { sent := sent[stream := after]; }
    }
  }

  function MostOf(maxFrames: Option<int>, requested: seq<int>): nat {
    if maxFrames.None? then |requested| else if maxFrames.value < 0 then 0 else maxFrames.value
  }

  /** `missing` names exactly the requests that are not held. */
  predicate Unheld(requested: seq<int>, held: set<int>, missing: seq<int>) {
    && (forall s :: s in missing ==> s in requested && s !in held)
    && (forall s :: s in requested && s !in held ==> s in missing)
  }

  lemma OneMoreRequest(requested: seq<int>, held: set<int>, missing: seq<int>, i: nat)
    requires i < |requested| && Unheld(requested[..i], held, missing)
    ensures var s := requested[i];
            && Available(requested[..i + 1], held) == Available(requested[..i], held) + (if s in held then [s] else [])
            && Unheld(requested[..i + 1], held, if s in held then missing else missing + [s])
  {
    assert requested[..i + 1] == requested[..i] + [requested[i]];
    assert requested[..i + 1][..i] == requested[..i];
  }

  lemma ResentOneMore(frames: Frames, sent: seq<int>, s: int, stamp: int -> real)
    requires s in frames
    ensures var f := Resent(frames, sent, stamp);
            Resent(frames, sent + [s], stamp) == f[s := SentFrame(f[s].payload, stamp(s))]
  {
  }

  /** The first `stop` requests were looked at: those held were sent again, at most `most`, the
      others reported missing; the rest is left only because `most` had been reached. */
  predicate Served(requested: seq<int>, held: set<int>, most: nat, retransmitted: seq<int>, missing: seq<int>,
                   stop: nat)
  {
    && stop <= |requested| && retransmitted == Available(requested[..stop], held)
    && |retransmitted| <= most && (stop < |requested| ==> |retransmitted| == most)
    && (stop > 0 ==> |Available(requested[..stop - 1], held)| < most)
    && Unheld(requested[..stop], held, missing)
  }

  /** Without a limit every request is looked at. */
  lemma UnlimitedServesAll(requested: seq<int>, held: set<int>, retransmitted: seq<int>, missing: seq<int>, stop: nat)
    requires Served(requested, held, |requested|, retransmitted, missing, stop)
    ensures retransmitted == Available(requested, held)
  {
    AvailableSize(requested[..stop], held);
    assert requested[..|requested|] == requested;
  }

  lemma NothingPruned(now: real, horizon: real, limit: nat)
    ensures Pruned(map[], now, horizon, limit) == map[]
  {
    assert Unexpired(map[], now, horizon) == map[];
  }

  lemma {:induction false} AvailableSize(requested: seq<int>, held: set<int>)
    ensures |Available(requested, held)| <= |requested|
  {
    if requested != [] { AvailableSize(requested[..|requested| - 1], held); }
  }

  // ---------------------------------------------------------------- serving a round

  /** When everything held is inside the window, one round leaves nothing wanted, even if more
      of the history expires meanwhile. */
  lemma RoundServesAll(t: Source, held: set<int>, later: set<int>, window: int)
    requires t.Tracking? && Tidy(t, window) && window >= 1 && later <= held
    requires forall s :: s in held ==> s <= t.contiguous || s >= t.highest - window
    ensures Wanted(Round(t, held, window), later) == {}
  {
    RoundAbsorbs(t, held, window);
    RetransmittedIsWanted(t, held);
    forall s | s in Wanted(Round(t, held, window), later) ensures false { StillWanted(t, held, window, s); }
  }
}
