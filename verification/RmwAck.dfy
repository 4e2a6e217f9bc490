/** Per-stream gap tracking and the ACK/NACK feedback built from it (fleetqox/rmw_ack.py). */
module RmwAck {

  type StreamKey = nat   // opaque: only equality matters

  /** `contiguous` and `highest` are unset until the first observation sets both. */
  datatype Source =
    | Fresh
    | Tracking(contiguous: int, highest: int, observed: set<int>)

  datatype Range = Range(first: int, last: int)

  datatype Feedback = Feedback(missing: seq<Range>, contiguous: int, highest: int, duplicate: bool, outOfOrder: bool)

  // ---------------------------------------------------------------- one observation

  function Above(s: set<int>, c: int): set<int> { set x | x in s && x > c }

  /** `_advance_contiguous`. */
  function Advanced(c: int, observed: set<int>): (r: int)
    ensures r >= c && r + 1 !in observed
    ensures forall i :: c < i <= r ==> i in observed
    decreases |Above(observed, c)|
  {
    if c + 1 !in observed then c
    else
      assert Above(observed, c) == Above(observed, c + 1) + {c + 1};
      Advanced(c + 1, observed)
  }

  /** `_trim_observed`. */
  function Trimmed(observed: set<int>, floor: int): set<int> { set x | x in observed && x >= floor }

  function MarkOf(t: Source): int { if t.Fresh? then 0 else t.contiguous }
  function HighestOf(t: Source, x: int): int { if t.Fresh? || t.highest < x then x else t.highest }
  function ObservedOf(t: Source): set<int> { if t.Fresh? then {} else t.observed }

  function Observe(t: Source, x: int, window: int): Source {
    var observed := ObservedOf(t) + {x};
    Tracking(Advanced(MarkOf(t), observed), HighestOf(t, x), Trimmed(observed, HighestOf(t, x) - window))
  }

  function ObserveAll(t: Source, xs: seq<int>, window: int): (r: Source)
    ensures r.Tracking? <==> t.Tracking? || xs != []
  {
    if xs == [] then t else Observe(ObserveAll(t, xs[..|xs| - 1], window), xs[|xs| - 1], window)
  }

  /** The tracker against the set of all numbers ever received. */
  predicate Exact(t: Source, received: set<int>, window: int)
    requires t.Tracking?
  {
    && t.highest in received && (forall x :: x in received ==> x <= t.highest)
    && t.observed == Trimmed(received, t.highest - window)
    && t.contiguous >= 0 && (forall i :: 1 <= i <= t.contiguous ==> i in received)
    && t.contiguous + 1 !in t.observed
  }

  function Elements(xs: seq<int>): set<int> { set i | 0 <= i < |xs| :: xs[i] }

  lemma ExactOneMore(before: Source, received: set<int>, x: int, window: int)
    requires before.Tracking? && Exact(before, received, window) && window >= 1
    ensures Exact(Observe(before, x, window), received + {x}, window)
  {
    var t := Observe(before, x, window);
    forall i | 1 <= i <= t.contiguous ensures i in received + {x} {
      if i > before.contiguous { assert i in before.observed + {x}; }
    }
  }

  lemma FirstIsExact(x: int, window: int)
    requires window >= 1
    ensures Exact(Observe(Fresh, x, window), {x}, window)
  {
    assert {} + {x} == {x};
  }

  lemma {:induction false} TrackerIsExact(xs: seq<int>, window: int)
    requires xs != [] && window >= 1
    ensures Exact(ObserveAll(Fresh, xs, window), Elements(xs), window)
  {
    var n := |xs| - 1;
    assert Elements(xs) == Elements(xs[..n]) + {xs[n]};
    if n > 0 {
      TrackerIsExact(xs[..n], window);
      ExactOneMore(ObserveAll(Fresh, xs[..n], window), Elements(xs[..n]), xs[n], window);
    } else {
      assert xs[..0] == [] && Elements(xs) == {xs[0]};
      FirstIsExact(xs[0], window);
    }
  }

  // ---------------------------------------------------------------- missing ranges

  /** Number `k` joins the range that ends just before it, or starts its own. */
  function Push(ranges: seq<Range>, k: int): seq<Range> {
    var n := |ranges| - 1;
    if ranges != [] && ranges[n].last + 1 == k then ranges[..n] + [Range(ranges[n].first, k)]
    else ranges + [Range(k, k)]
  }

  function Ranges(c: int, k: int, observed: set<int>): seq<Range>
    decreases k - c
  {
    if k <= c then []
    else if k in observed then Ranges(c, k - 1, observed)
    else Push(Ranges(c, k - 1, observed), k)
  }

  function MissingRanges(t: Source): seq<Range> {
    if t.Fresh? then [] else Ranges(t.contiguous, t.highest, t.observed)
  }

  /** `missing_sequence_ranges`. */
  method FindMissing(t: Source) returns (ranges: seq<Range>)
    ensures ranges == MissingRanges(t)
  {
    ranges := [];
    if t.Fresh? || t.highest <= t.contiguous { return; }
    var open, start, previous := false, 0, 0;
    for k := t.contiguous + 1 to t.highest + 1
      invariant ranges + (if open then [Range(start, previous)] else []) == Ranges(t.contiguous, k - 1, t.observed)
      invariant open ==> previous == k - 1
      invariant !open && ranges != [] ==> ranges[|ranges| - 1].last < k - 1
      invariant open && ranges != [] ==> ranges[|ranges| - 1].last < start - 1 && start <= previous
    {
      if k in t.observed {
        if open { ranges := ranges + [Range(start, previous)]; }
        open := false;
      } else {
        if !open { start := k; }
        open, previous := true, k;
      }
    }
    if open { ranges := ranges + [Range(start, previous)]; }
  }

  predicate Within(r: Range, s: int) { r.first <= s <= r.last }
  ghost predicate InSome(ranges: seq<Range>, s: int) { exists i :: 0 <= i < |ranges| && Within(ranges[i], s) }

  /** Ascending with a number between any two ranges, so they are disjoint and maximal. */
  predicate Canonical(ranges: seq<Range>) {
    && (forall i :: 0 <= i < |ranges| ==> ranges[i].first <= ranges[i].last)
    && (forall i, j :: 0 <= i < j < |ranges| ==> ranges[i].last + 1 < ranges[j].first)
  }

  lemma PushMembers(ranges: seq<Range>, k: int, s: int)
    requires Canonical(ranges)
    ensures InSome(Push(ranges, k), s) <==> InSome(ranges, s) || s == k
  {
    var n, more := |ranges| - 1, Push(ranges, k);
    if InSome(ranges, s) {
      var i :| 0 <= i < |ranges| && Within(ranges[i], s);
      assert Within(more[i], s);
    }
    if s == k { assert Within(more[|more| - 1], s); }
    if InSome(more, s) && s != k {
      var i :| 0 <= i < |more| && Within(more[i], s);
      assert Within(ranges[i], s);
    }
  }

  predicate Inside(ranges: seq<Range>, c: int, k: int) {
    forall i :: 0 <= i < |ranges| ==> c < ranges[i].first && ranges[i].last <= k
  }

  lemma PushCanonical(ranges: seq<Range>, c: int, k: int)
    requires Canonical(ranges) && Inside(ranges, c, k - 1) && c < k
    ensures Canonical(Push(ranges, k)) && Inside(Push(ranges, k), c, k)
  {
  }

  lemma {:induction false} RangesCanonical(c: int, k: int, observed: set<int>)
    ensures Canonical(Ranges(c, k, observed)) && Inside(Ranges(c, k, observed), c, k)
    decreases k - c
  {
    if k > c {
      RangesCanonical(c, k - 1, observed);
      if k !in observed { PushCanonical(Ranges(c, k - 1, observed), c, k); }
    }
  }

  lemma {:induction false} RangesExact(c: int, k: int, observed: set<int>, s: int)
    ensures InSome(Ranges(c, k, observed), s) <==> c < s <= k && s !in observed
    decreases k - c
  {
    if k > c {
      RangesExact(c, k - 1, observed, s);
      RangesCanonical(c, k - 1, observed);
      if k !in observed { PushMembers(Ranges(c, k - 1, observed), k, s); }
    }
  }

  /** After any observations, the ranges reported are ascending, disjoint and maximal, and name
      exactly the numbers above the contiguous mark, up to the highest, that were never
      received or have fallen out of the window; everything up to the mark was received. */
  lemma FeedbackIsExact(xs: seq<int>, window: int, s: int)
    requires xs != [] && window >= 1
    ensures var t := ObserveAll(Fresh, xs, window);
            && Canonical(MissingRanges(t))
            && (InSome(MissingRanges(t), s) <==>
                t.contiguous < s <= t.highest && (s !in Elements(xs) || s < t.highest - window))
            && (1 <= s <= t.contiguous ==> s in Elements(xs))
  {
    TrackerIsExact(xs, window);
    var t := ObserveAll(Fresh, xs, window);
    RangesCanonical(t.contiguous, t.highest, t.observed);
    RangesExact(t.contiguous, t.highest, t.observed, s);
  }

  // ---------------------------------------------------------------- the tracker

  class RmwAckNackTracker {
    const window: int
    var streams: map<StreamKey, Source>

    constructor (windowSize: int)
      ensures window == (if windowSize < 1 then 1 else windowSize) && streams == map[]
    {
      window := if windowSize < 1 then 1 else windowSize;
      streams := map[];
    }

    function At(stream: StreamKey): Source reads this { if stream in streams then streams[stream] else Fresh }

    method ObserveSequence(stream: StreamKey, sequence: int) returns (f: Feedback)
      modifies this
      ensures streams == old(streams)[stream := Observe(old(At(stream)), sequence, window)]
      ensures f.missing == MissingRanges(At(stream))
      ensures At(stream).Tracking? && f.contiguous == At(stream).contiguous && f.highest == At(stream).highest
      ensures f.duplicate == (sequence in ObservedOf(old(At(stream))))
      ensures f.outOfOrder == (old(At(stream)).Tracking? && sequence < old(At(stream)).highest)
    {
      var t := At(stream);
      var duplicate := sequence in ObservedOf(t);
      var outOfOrder := t.Tracking? && sequence < t.highest;
      var observed := ObservedOf(t) + {sequence};
      var highest := if t.Fresh? || t.highest < sequence then sequence else t.highest;
      var contiguous := MarkOf(t);
      while contiguous + 1 in observed
        invariant contiguous >= MarkOf(t) && Advanced(contiguous, observed) == Advanced(MarkOf(t), observed)
        decreases Advanced(MarkOf(t), observed) - contiguous
      {
        contiguous := contiguous + 1;
      }
      observed := set x | x in observed && x >= highest - window;
      var after := Tracking(contiguous, highest, observed);
      streams := streams[stream := after];
      var missing := FindMissing(after);
      f := Feedback(missing, contiguous, highest, duplicate, outOfOrder);
    }
  }
}
