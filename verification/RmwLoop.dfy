/** Whole runs of one talker and one listener (fleetqox/rmw_transport_loop.py): frames 1, 2, 3, ...
    are published, some are skipped, and every delivered one starts the recovery loop. Frames
    expire, and a retransmission restarts a frame's horizon. Clock readings never run backwards;
    a loop that goes on for ever reads later in every pass and in the end passes every bound. */
module RmwLoop {
  import opened Wrappers
  import opened Collections
  import opened RmwAck
  import opened RmwRecovery

  datatype Settings = Settings(window: int, limit: nat, horizon: real)

  /** The clamps both constructors apply. */
  predicate ValidSettings(c: Settings) { c.window >= 1 && c.limit >= 1 && c.horizon >= 0.0 }

  /** The readings of one retransmit call: when it prunes, when it sends each frame, and the
      latest of them. */
  datatype Reading = Reading(now: real, stamp: int -> real, end: real)

  ghost predicate InOrder(r: Reading, since: real) {
    && since <= r.now <= r.end
    && (forall s {:trigger r.stamp(s)} :: r.now <= r.stamp(s) <= r.end)
    && (forall a, b {:trigger r.stamp(a), r.stamp(b)} :: a <= b ==> r.stamp(a) <= r.stamp(b))
  }

  datatype Loop = Loop(heard: Source, frames: Frames, sent: nat, clock: real, draining: bool)

  function Start(clock: real): Loop { Loop(Fresh, map[], 0, clock, false) }

  function Sent(c: Settings, y: Loop, payload: int, at: real): Frames { y.frames[y.sent + 1 := SentFrame(payload, at)] }

  /** Publish the next frame, stamped at `at` and pruned at `now`; a delivered one is observed
      and starts the recovery loop. */
  function Publish(c: Settings, y: Loop, payload: int, delivered: bool, at: real, now: real): Loop {
    Loop(HeardNext(c, y.heard, y.sent + 1, delivered), Pruned(Sent(c, y, payload, at), now, c.horizon, c.limit),
         y.sent + 1, now, delivered)
  }

  function HeardNext(c: Settings, t: Source, n: int, delivered: bool): Source {
    if delivered then Observe(t, n, c.window) else t
  }

  function Kept(c: Settings, y: Loop, now: real): Frames { Pruned(y.frames, now, c.horizon, c.limit) }

  /** One pass through the body of the recovery loop; it leaves when nothing could be sent. */
  function Resend(c: Settings, y: Loop, r: Reading): Loop {
    var kept := Kept(c, y, r.now);
    var again := Retransmitted(y.heard, kept.Keys);
    if again == [] then Loop(y.heard, kept, y.sent, r.end, false)
    else Loop(Round(y.heard, kept.Keys, c.window), Resent(kept, again, r.stamp), y.sent, r.end, true)
  }

  datatype Step =
    | Send(payload: int, delivered: bool, at: real, now: real)
    | Drain(r: Reading)

  ghost predicate Possible(y: Loop, step: Step) {
    match step
    case Send(_, _, at, now) => !y.draining && y.clock <= at <= now
    case Drain(r) => y.draining && InOrder(r, y.clock)
  }

  function Next(c: Settings, y: Loop, step: Step): Loop {
    match step
    case Send(payload, delivered, at, now) => Publish(c, y, payload, delivered, at, now)
    case Drain(r) => Resend(c, y, r)
  }

  /** No frame expires at the pruning of this step. */
  predicate Lasts(c: Settings, y: Loop, step: Step) {
    match step
    case Send(payload, _, at, now) => Unexpired(Sent(c, y, payload, at), now, c.horizon) == Sent(c, y, payload, at)
    case Drain(r) => Unexpired(y.frames, r.now, c.horizon) == y.frames
  }

  /** With `lasting`, the runs in which nothing has expired. */
  ghost predicate Follows(c: Settings, y: Loop, step: Step, z: Loop, lasting: bool) {
    Possible(y, step) && z == Next(c, y, step) && (lasting ==> Lasts(c, y, step))
  }

  ghost predicate IsRun(c: Settings, states: seq<Loop>, steps: seq<Step>, lasting: bool) {
    && |states| == |steps| + 1 && states[0] == Start(states[0].clock)
    && forall i {:trigger Follows(c, states[i], steps[i], states[i + 1], lasting)} ::
         0 <= i < |steps| ==> Follows(c, states[i], steps[i], states[i + 1], lasting)
  }

  /** The recovery loop under an endless sequence of readings, `k` passes on. */
  function After(c: Settings, y: Loop, readings: nat -> Reading, k: nat): Loop {
    if k == 0 then y
    else
      var z := After(c, y, readings, k - 1);
      if z.draining then Resend(c, z, readings(k - 1)) else z
  }

  ghost predicate NextInOrder(readings: nat -> Reading, k: nat) { InOrder(readings(k + 1), readings(k).end) }

  /** Readings of endless passes that never run backwards. */
  ghost predicate Onward(clock: real, readings: nat -> Reading) {
    InOrder(readings(0), clock) && forall k {:trigger NextInOrder(readings, k)} :: NextInOrder(readings, k)
  }

  predicate Later(readings: nat -> Reading, k: nat) { readings(k).end < readings(k + 1).now }

  ghost predicate Passes(readings: nat -> Reading, bound: real) { exists k: nat :: readings(k).now > bound }

  /** A clock that moves on: between two passes, which datagrams there and back lie between, and
      past every bound. */
  ghost predicate Ticks(clock: real, readings: nat -> Reading) {
    && Onward(clock, readings)
    && (forall k {:trigger Later(readings, k)} :: Later(readings, k))
    && forall bound {:trigger Passes(readings, bound)} :: Passes(readings, bound)
  }

  ghost predicate DrainEnds(c: Settings, y: Loop, readings: nat -> Reading) {
    exists k: nat :: !After(c, y, readings, k).draining
  }

  /** The loop ends after every delivery of every run, under every clock that moves on; with
      `lasting`, after every delivery up to which nothing has expired. */
  ghost predicate EveryDrainEnds(c: Settings, lasting: bool) {
    forall states: seq<Loop>, steps, readings
      {:trigger IsRun(c, states, steps, lasting), DrainEnds(c, states[|steps|], readings)} ::
      IsRun(c, states, steps, lasting) && Ticks(states[|steps|].clock, readings) ==>
        DrainEnds(c, states[|steps|], readings)
  }

  // ---------------------------------------------------------------- what every run keeps

  function Highest(t: Source): int { if t.Fresh? then 0 else t.highest }

  predicate HeardOk(c: Settings, t: Source, sent: nat) {
    && (t.Tracking? ==> Tidy(t, c.window) && 0 <= t.contiguous <= t.highest && t.highest >= 1)
    && Highest(t) <= sent
  }

  /** The history holds numbers already sent, stamped no later than `clock`. */
  predicate HistoryOk(f: Frames, sent: nat, clock: real) {
    forall s :: s in f ==> 1 <= s <= sent && f[s].sentAt <= clock
  }

  predicate Basic(c: Settings, y: Loop) {
    && HeardOk(c, y.heard, y.sent) && HistoryOk(y.frames, y.sent, y.clock) && |y.frames| <= c.limit
    && (y.draining ==> y.heard.Tracking? && y.heard.highest == y.sent)
  }

  /** A number the listener lacks, or has not heard of yet. */
  predicate Owed(t: Source, s: int) { s > Highest(t) || (s > MarkOf(t) && s !in ObservedOf(t)) }

  /** Frame `k` is held and will not expire before `s`. */
  predicate Outlasts(f: Frames, s: int, k: int) { s in f && k in f && f[k].sentAt >= f[s].sentAt }

  /** All frames behind `s` up to `n` outlast it, except perhaps `e`. */
  ghost predicate Trailed(f: Frames, s: int, n: int, e: int) {
    forall k {:trigger Outlasts(f, s, k)} :: s < k <= n && k != e ==> Outlasts(f, s, k)
  }

  /** Every held frame is trailed by all but at most one of its successors, an owed one by all:
      the frame that may go first is the delivered one that had an owed frame sent again. */
  ghost predicate Backed(y: Loop, s: int) {
    s in y.frames ==>
      && (exists e {:trigger Trailed(y.frames, s, y.sent, e)} :: Trailed(y.frames, s, y.sent, e))
      && (Owed(y.heard, s) ==> Trailed(y.frames, s, y.sent, 0))
  }

  /** Between deliveries nothing held and heard of is owed; right after one, what is owed has
      no gap up to the frame delivered. */
  predicate Settled(y: Loop, s: int) {
    s in y.frames && Owed(y.heard, s) ==>
      if y.draining then forall k :: s < k < y.sent ==> Owed(y.heard, k) else s > Highest(y.heard)
  }

  ghost predicate Inv(c: Settings, y: Loop) {
    && Basic(c, y)
    && (forall s {:trigger Backed(y, s)} :: Backed(y, s))
    && (forall s {:trigger Settled(y, s)} :: Settled(y, s))
  }

  // ---------------------------------------------------------------- pruning

  lemma PruneOutlasts(f: Frames, now: real, horizon: real, limit: nat, s: int, k: int)
    requires Outlasts(f, s, k) && s < k && s in Pruned(f, now, horizon, limit)
    ensures Outlasts(Pruned(f, now, horizon, limit), s, k)
  {
    CappedKeepsHighest(Unexpired(f, now, horizon), limit);
  }

  lemma PruneTrailed(f: Frames, now: real, horizon: real, limit: nat, s: int, n: int, e: int)
    requires Trailed(f, s, n, e) && s in Pruned(f, now, horizon, limit)
    ensures Trailed(Pruned(f, now, horizon, limit), s, n, e)
  {
    var g := Pruned(f, now, horizon, limit);
    forall k | s < k <= n && k != e ensures Outlasts(g, s, k) {
      assert Outlasts(f, s, k);
      PruneOutlasts(f, now, horizon, limit, s, k);
    }
  }

  lemma TrailIsHeld(f: Frames, s: int, n: int, e: int)
    requires s in f && 1 <= s <= n && Trailed(f, s, n, e)
    ensures Newest(n, n - s + 1) - {e} <= f.Keys
  {
    forall k | k in Newest(n, n - s + 1) - {e} ensures k in f.Keys {
      if k > s { assert Outlasts(f, s, k); }
    }
  }

  /** A frame so old that its successors no longer fit the limit is not held. */
  lemma TrailedIsRecent(f: Frames, s: int, n: int, e: int, limit: nat)
    requires s in f && 1 <= s <= n && Trailed(f, s, n, e) && |f| <= limit
    ensures n - s <= limit
  {
    TrailIsHeld(f, s, n, e);
    NewestSize(n, n - s + 1);
    AllButOne(Newest(n, n - s + 1), e, f);
  }

  lemma AllButOne(s: set<int>, e: int, f: Frames)
    requires s - {e} <= f.Keys
    ensures |s| <= |f| + 1
  {
    SubsetSize(s - {e}, f.Keys);
    if e !in s { assert s - {e} == s; }
    assert |f| == |f.Keys|;
  }

  // ---------------------------------------------------------------- publishing

  lemma SentTrailed(c: Settings, y: Loop, payload: int, at: real, s: int, e: int)
    requires Basic(c, y) && s in y.frames && at >= y.clock && Trailed(y.frames, s, y.sent, e)
    ensures Trailed(Sent(c, y, payload, at), s, y.sent + 1, e)
  {
    var f := Sent(c, y, payload, at);
    forall k | s < k <= y.sent + 1 && k != e ensures Outlasts(f, s, k) {
      if k <= y.sent { assert Outlasts(y.frames, s, k); }
    }
  }

  /** Publishing leaves every frame as well trailed as before. */
  lemma PublishTrailed(c: Settings, y: Loop, payload: int, delivered: bool, at: real, now: real, s: int, e: int)
    requires Basic(c, y) && y.clock <= at <= now && s in y.frames && Trailed(y.frames, s, y.sent, e)
    requires s in Publish(c, y, payload, delivered, at, now).frames
    ensures Trailed(Publish(c, y, payload, delivered, at, now).frames, s, y.sent + 1, e)
  {
    SentTrailed(c, y, payload, at, s, e);
    PruneTrailed(Sent(c, y, payload, at), now, c.horizon, c.limit, s, y.sent + 1, e);
  }

  /** What a delivery makes the listener owe: nothing heard of before, if it was still inside
      the window; and nothing between an owed number and the one delivered. */
  lemma DeliveryOwes(c: Settings, t: Source, n: int, s: int)
    requires c.window >= 1 && Highest(t) < n && 0 <= MarkOf(t) <= Highest(t)
    requires t.Tracking? ==> Tidy(t, c.window)
    ensures var u := Observe(t, n, c.window);
            && u.highest == n && Tidy(u, c.window) && 0 <= u.contiguous <= n
            && (s < n && s > Highest(t) ==> Owed(u, s))
            && (s <= Highest(t) && !Owed(t, s) && s >= n - c.window ==> !Owed(u, s))
            && !Owed(u, n)
  {
    var u := Observe(t, n, c.window);
    assert u.contiguous > MarkOf(t) ==> u.contiguous in ObservedOf(t) + {n};
  }

  lemma PruneHistory(f: Frames, sent: nat, clock: real, now: real, horizon: real, limit: nat)
    requires HistoryOk(f, sent, clock) && clock <= now
    ensures HistoryOk(Pruned(f, now, horizon, limit), sent, now) && |Pruned(f, now, horizon, limit)| <= limit
  {
    PruneIsPart(f, now, horizon, limit);
  }

  lemma SentHistory(c: Settings, y: Loop, payload: int, at: real)
    requires HistoryOk(y.frames, y.sent, y.clock) && y.clock <= at
    ensures HistoryOk(Sent(c, y, payload, at), y.sent + 1, at)
  {
  }

  lemma NextHeard(c: Settings, t: Source, sent: nat, delivered: bool)
    requires ValidSettings(c) && HeardOk(c, t, sent)
    ensures var u := HeardNext(c, t, sent + 1, delivered);
            HeardOk(c, u, sent + 1) && (delivered ==> u.Tracking? && u.highest == sent + 1)
  {
    DeliveryOwes(c, t, sent + 1, 0);
  }

  lemma PublishHistory(c: Settings, y: Loop, payload: int, at: real, now: real)
    requires HistoryOk(y.frames, y.sent, y.clock) && y.clock <= at <= now
    ensures var g := Pruned(Sent(c, y, payload, at), now, c.horizon, c.limit);
            HistoryOk(g, y.sent + 1, now) && |g| <= c.limit
  {
    SentHistory(c, y, payload, at);
    PruneHistory(Sent(c, y, payload, at), y.sent + 1, at, now, c.horizon, c.limit);
  }

  lemma BasicParts(c: Settings, z: Loop)
    requires HeardOk(c, z.heard, z.sent) && HistoryOk(z.frames, z.sent, z.clock) && |z.frames| <= c.limit
    requires z.draining ==> z.heard.Tracking? && z.heard.highest == z.sent
    ensures Basic(c, z)
  {
  }

  lemma PublishKept(c: Settings, y: Loop, payload: int, delivered: bool, at: real, now: real)
    requires HistoryOk(y.frames, y.sent, y.clock) && y.clock <= at <= now
    ensures var z := Publish(c, y, payload, delivered, at, now);
            HistoryOk(z.frames, z.sent, z.clock) && |z.frames| <= c.limit
  {
    PublishHistory(c, y, payload, at, now);
  }

  lemma PublishBasic(c: Settings, y: Loop, payload: int, delivered: bool, at: real, now: real)
    requires ValidSettings(c) && Basic(c, y) && y.clock <= at <= now
    ensures Basic(c, Publish(c, y, payload, delivered, at, now))
  {
    PublishKept(c, y, payload, delivered, at, now);
    NextHeard(c, y.heard, y.sent, delivered);
    BasicParts(c, Publish(c, y, payload, delivered, at, now));
  }

  lemma SkipKeepsInv(c: Settings, y: Loop, payload: int, at: real, now: real)
    requires ValidSettings(c) && Inv(c, y) && !y.draining && y.clock <= at <= now
    ensures Inv(c, Publish(c, y, payload, false, at, now))
  {
    var z := Publish(c, y, payload, false, at, now);
    PublishBasic(c, y, payload, false, at, now);
    PruneIsPart(Sent(c, y, payload, at), now, c.horizon, c.limit);
    forall s ensures Backed(z, s) && Settled(z, s) {
      assert Backed(y, s) && Settled(y, s);
      if s in z.frames && s in y.frames {
        var e :| Trailed(y.frames, s, y.sent, e);
        PublishTrailed(c, y, payload, false, at, now, s, e);
        if Owed(y.heard, s) { PublishTrailed(c, y, payload, false, at, now, s, 0); }
      } else if s in z.frames {
        assert Trailed(z.frames, s, z.sent, 0);
      }
    }
  }

  /** When the history is no longer than the window, whatever is held at a delivery is inside it. */
  lemma HeldInWindow(c: Settings, z: Loop, s: int, e: int)
    requires c.limit <= c.window && Basic(c, z) && s in z.frames && Trailed(z.frames, s, z.sent, e)
    ensures s >= z.sent - c.window
  {
    TrailedIsRecent(z.frames, s, z.sent, e, c.limit);
  }

  lemma DeliverKeepsInv(c: Settings, y: Loop, payload: int, at: real, now: real)
    requires ValidSettings(c) && c.limit <= c.window && Inv(c, y) && !y.draining && y.clock <= at <= now
    ensures Inv(c, Publish(c, y, payload, true, at, now))
  {
    var z := Publish(c, y, payload, true, at, now);
    PublishBasic(c, y, payload, true, at, now);
    PruneIsPart(Sent(c, y, payload, at), now, c.horizon, c.limit);
    forall s ensures Backed(z, s) && Settled(z, s) {
      assert Backed(y, s) && Settled(y, s);
      DeliveryOwes(c, y.heard, z.sent, s);
      if s in z.frames && s in y.frames {
        var e :| Trailed(y.frames, s, y.sent, e);
        PublishTrailed(c, y, payload, true, at, now, s, e);
        HeldInWindow(c, z, s, e);
        if Owed(y.heard, s) {
          PublishTrailed(c, y, payload, true, at, now, s, 0);
          forall k | s < k < z.sent ensures Owed(z.heard, k) { DeliveryOwes(c, y.heard, z.sent, k); }
        }
      } else if s in z.frames {
        assert Trailed(z.frames, s, z.sent, 0);
      }
    }
  }

  // ---------------------------------------------------------------- retransmitting

  lemma KeptBasic(c: Settings, y: Loop, now: real)
    requires Basic(c, y) && y.clock <= now
    ensures HistoryOk(Kept(c, y, now), y.sent, now) && |Kept(c, y, now)| <= c.limit
    ensures forall s :: s in Kept(c, y, now) ==> s in y.frames
  {
    PruneHistory(y.frames, y.sent, y.clock, now, c.horizon, c.limit);
    PruneIsPart(y.frames, now, c.horizon, c.limit);
  }

  /** During recovery the wanted numbers are exactly the held ones that are owed. */
  lemma WantedIsOwed(c: Settings, y: Loop, now: real)
    requires Basic(c, y) && y.draining && y.clock <= now
    ensures var kept := Kept(c, y, now);
            forall s :: s in Retransmitted(y.heard, kept.Keys) <==> s in kept && Owed(y.heard, s)
  {
    KeptBasic(c, y, now);
    RetransmittedIsWanted(y.heard, Kept(c, y, now).Keys);
  }

  lemma ResendBasic(c: Settings, y: Loop, r: Reading)
    requires ValidSettings(c) && Basic(c, y) && y.draining && InOrder(r, y.clock)
    ensures Basic(c, Resend(c, y, r)) && Resend(c, y, r).sent == y.sent
    ensures Highest(Resend(c, y, r).heard) == y.sent
  {
    var kept := Kept(c, y, r.now);
    KeptBasic(c, y, r.now);
    var again := Retransmitted(y.heard, kept.Keys);
    if again != [] {
      RoundAbsorbs(y.heard, kept.Keys, c.window);
      RetransmittedIsWanted(y.heard, kept.Keys);
      RoundMark(c, y.heard, again, Round(y.heard, kept.Keys, c.window));
      ResentHistory(kept, again, r, y.sent, r.now);
    }
  }

  lemma RoundMark(c: Settings, t: Source, again: seq<int>, u: Source)
    requires t.Tracking? && u.Tracking? && Absorbed(t, again, u, c.window) && 0 <= t.contiguous <= t.highest
    requires Tidy(t, c.window) && forall s :: s in again ==> s <= t.highest
    ensures 0 <= u.contiguous <= u.highest
  {
    assert u.contiguous > t.contiguous ==> u.contiguous in t.observed || u.contiguous in again;
  }

  lemma ResentHistory(kept: Frames, again: seq<int>, r: Reading, sent: nat, now: real)
    requires HistoryOk(kept, sent, now) && InOrder(r, now)
    ensures var f := Resent(kept, again, r.stamp);
            HistoryOk(f, sent, r.end) && f.Keys == kept.Keys && |f| == |kept|
  {
    var f := Resent(kept, again, r.stamp);
    assert f.Keys == kept.Keys;
    assert |f| == |f.Keys| && |kept| == |kept.Keys|;
  }

  /** Sending again in order, with stamps no earlier than any before, keeps frames trailed. */
  lemma ResentTrailed(kept: Frames, again: seq<int>, r: Reading, sent: nat, s: int, e: int)
    requires HistoryOk(kept, sent, r.now) && InOrder(r, r.now) && s in kept
    requires s !in again ==> Trailed(kept, s, sent, e)
    requires s in again ==> forall k :: s < k < sent ==> k in again && k in kept
    ensures Trailed(Resent(kept, again, r.stamp), s, sent, if s in again then sent else e)
  {
    var f, x := Resent(kept, again, r.stamp), if s in again then sent else e;
    forall k | s < k <= sent && k != x ensures Outlasts(f, s, k) {
      if s in again {
        assert r.stamp(s) <= r.stamp(k);
      } else {
        assert Outlasts(kept, s, k);
        assert r.stamp(k) >= r.now;
      }
    }
  }

  /** One pass over a history inside the window settles everything held. */
  lemma ResendSettles(c: Settings, y: Loop, r: Reading)
    requires ValidSettings(c) && Basic(c, y) && y.draining && InOrder(r, y.clock)
    requires forall s :: s in y.frames ==> s <= y.heard.contiguous || s >= y.sent - c.window
    ensures var z := Resend(c, y, r); forall s :: s in z.frames ==> !Owed(z.heard, s)
  {
    var kept, z := Kept(c, y, r.now), Resend(c, y, r);
    KeptBasic(c, y, r.now);
    WantedIsOwed(c, y, r.now);
    ResendBasic(c, y, r);
    RoundServesAll(y.heard, kept.Keys, kept.Keys, c.window);
    var again := Retransmitted(y.heard, kept.Keys);
    FirstIsMember(again);
    forall s | s in z.frames ensures !Owed(z.heard, s) {
      assert s in kept;
      if again != [] { assert s !in Wanted(Round(y.heard, kept.Keys, c.window), kept.Keys); }
    }
  }

  lemma ResendTrails(c: Settings, y: Loop, r: Reading, s: int)
    requires ValidSettings(c) && Basic(c, y) && y.draining && InOrder(r, y.clock)
    requires Backed(y, s) && Settled(y, s) && s in Resend(c, y, r).frames
    ensures var f := Resend(c, y, r).frames; exists e {:trigger Trailed(f, s, y.sent, e)} :: Trailed(f, s, y.sent, e)
  {
    var kept, z := Kept(c, y, r.now), Resend(c, y, r);
    KeptBasic(c, y, r.now);
    WantedIsOwed(c, y, r.now);
    assert s in kept;
    var again := Retransmitted(y.heard, kept.Keys);
    var e :| Trailed(y.frames, s, y.sent, e);
    PruneTrailed(y.frames, r.now, c.horizon, c.limit, s, y.sent, e);
    if again == [] {
      assert Trailed(z.frames, s, y.sent, e);
    } else {
      if s in again {
        PruneTrailed(y.frames, r.now, c.horizon, c.limit, s, y.sent, 0);
        forall k | s < k < y.sent ensures k in again && k in kept { assert Outlasts(kept, s, k); }
      }
      ResentTrailed(kept, again, r, y.sent, s, e);
    }
  }

  lemma DrainingInWindow(c: Settings, y: Loop, s: int)
    requires c.limit <= c.window && Basic(c, y) && Backed(y, s) && s in y.frames
    ensures s >= y.sent - c.window
  {
    var e :| Trailed(y.frames, s, y.sent, e);
    HeldInWindow(c, y, s, e);
  }

  lemma ResendKeepsInv(c: Settings, y: Loop, r: Reading)
    requires ValidSettings(c) && c.limit <= c.window && Inv(c, y) && y.draining && InOrder(r, y.clock)
    ensures Inv(c, Resend(c, y, r))
    ensures forall s :: s in Resend(c, y, r).frames ==> !Owed(Resend(c, y, r).heard, s)
  {
    var z := Resend(c, y, r);
    ResendBasic(c, y, r);
    forall s | s in y.frames ensures s <= y.heard.contiguous || s >= y.sent - c.window {
      assert Backed(y, s);
      DrainingInWindow(c, y, s);
    }
    ResendSettles(c, y, r);
    forall s ensures Backed(z, s) && Settled(z, s) {
      assert Backed(y, s) && Settled(y, s);
      if s in z.frames { ResendTrails(c, y, r, s); }
    }
  }

  // ---------------------------------------------------------------- a history within the window

  lemma NextKeepsInv(c: Settings, y: Loop, step: Step)
    requires ValidSettings(c) && c.limit <= c.window && Inv(c, y) && Possible(y, step)
    ensures Inv(c, Next(c, y, step))
  {
    match step
    case Send(payload, delivered, at, now) =>
      if delivered { DeliverKeepsInv(c, y, payload, at, now); } else { SkipKeepsInv(c, y, payload, at, now); }
    case Drain(r) => ResendKeepsInv(c, y, r);
  }

  lemma {:induction false} RunKeepsInv(c: Settings, states: seq<Loop>, steps: seq<Step>, lasting: bool, k: nat)
    requires ValidSettings(c) && c.limit <= c.window && IsRun(c, states, steps, lasting) && k < |states|
    ensures Inv(c, states[k])
  {
    if k > 0 {
      var i := k - 1;
      RunKeepsInv(c, states, steps, lasting, i);
      assert Follows(c, states[i], steps[i], states[i + 1], lasting);
      NextKeepsInv(c, states[i], steps[i]);
    }
  }

  /** Once nothing held is owed, the next pass finds nothing to send. */
  lemma NothingOwedEnds(c: Settings, y: Loop, r: Reading)
    requires Basic(c, y) && y.draining && InOrder(r, y.clock)
    requires forall s :: s in y.frames ==> !Owed(y.heard, s)
    ensures !Resend(c, y, r).draining
  {
    KeptBasic(c, y, r.now);
    WantedIsOwed(c, y, r.now);
    var kept := Kept(c, y, r.now);
    assert forall s :: s in kept ==> !Owed(y.heard, s);
    assert forall s :: s !in Retransmitted(y.heard, kept.Keys);
    FirstIsMember(Retransmitted(y.heard, kept.Keys));
  }

  /** A loop that settles its history in one pass ends with the second. */
  lemma TwoPasses(c: Settings, y: Loop, readings: nat -> Reading)
    requires ValidSettings(c) && Basic(c, y) && Onward(y.clock, readings)
    requires y.draining ==> forall s :: s in Resend(c, y, readings(0)).frames ==>
               !Owed(Resend(c, y, readings(0)).heard, s)
    ensures !After(c, y, readings, 2).draining
  {
    FirstPass(c, y, readings);
    if y.draining {
      var z, k := Resend(c, y, readings(0)), 0;
      ResendBasic(c, y, readings(0));
      assert NextInOrder(readings, k);
      if z.draining { NothingOwedEnds(c, z, readings(1)); }
    }
  }

  lemma FirstPass(c: Settings, y: Loop, readings: nat -> Reading)
    ensures var z := if y.draining then Resend(c, y, readings(0)) else y;
            After(c, y, readings, 2) == if z.draining then Resend(c, z, readings(1)) else z
  {
    assert After(c, y, readings, 0) == y;
    assert After(c, y, readings, 1) == if y.draining then Resend(c, y, readings(0)) else y;
  }

  /** At any point of any run, whatever expires, the loop ends within two passes, even if the
      clock stands still. */
  lemma WithinWindowEnds(c: Settings, states: seq<Loop>, steps: seq<Step>, readings: nat -> Reading, lasting: bool)
    requires ValidSettings(c) && c.limit <= c.window && IsRun(c, states, steps, lasting)
    requires Onward(states[|steps|].clock, readings)
    ensures !After(c, states[|steps|], readings, 2).draining
  {
    var y := states[|steps|];
    RunKeepsInv(c, states, steps, lasting, |steps|);
    if y.draining { ResendKeepsInv(c, y, readings(0)); }
    TwoPasses(c, y, readings);
  }

  // ---------------------------------------------------------------- without a horizon

  lemma NextIsBasic(c: Settings, y: Loop, step: Step)
    requires ValidSettings(c) && Basic(c, y) && Possible(y, step)
    ensures Basic(c, Next(c, y, step))
  {
    match step
    case Send(payload, delivered, at, now) => PublishBasic(c, y, payload, delivered, at, now);
    case Drain(r) => ResendBasic(c, y, r);
  }

  lemma {:induction false} RunIsBasic(c: Settings, states: seq<Loop>, steps: seq<Step>, lasting: bool, k: nat)
    requires ValidSettings(c) && IsRun(c, states, steps, lasting) && k < |states|
    ensures Basic(c, states[k])
  {
    if k > 0 {
      var i := k - 1;
      RunIsBasic(c, states, steps, lasting, i);
      assert Follows(c, states[i], steps[i], states[i + 1], lasting);
      NextIsBasic(c, states[i], steps[i]);
    }
  }

  /** At horizon 0 a later pass finds the history empty. */
  lemma OlderIsGone(c: Settings, y: Loop, r: Reading)
    requires c.horizon == 0.0 && Basic(c, y) && y.draining && y.clock < r.now
    ensures !Resend(c, y, r).draining
  {
    var gone := Unexpired(y.frames, r.now, c.horizon);
    forall s | s in y.frames ensures s !in gone { assert y.frames[s].sentAt <= y.clock; }
    assert gone.Keys == {};
    assert |gone| == |gone.Keys|;
    NoneWanted(y.heard, Kept(c, y, r.now).Keys);
  }

  /** With a horizon of 0 the loop ends within two passes whatever the history, as soon as the
      second reads a later time. */
  lemma ZeroHorizonEnds(c: Settings, y: Loop, readings: nat -> Reading)
    requires ValidSettings(c) && c.horizon == 0.0 && Basic(c, y) && Ticks(y.clock, readings)
    ensures !After(c, y, readings, 2).draining
  {
    FirstPass(c, y, readings);
    if y.draining {
      var z, k := Resend(c, y, readings(0)), 0;
      ResendBasic(c, y, readings(0));
      assert Later(readings, k);
      if z.draining { OlderIsGone(c, z, readings(1)); }
    }
  }

  // ---------------------------------------------------------------- when nothing expires

  /** The history is the newest numbers, as long as nothing expires. */
  predicate Newestly(c: Settings, y: Loop) { Basic(c, y) && y.frames.Keys == Newest(y.sent, c.limit) }

  lemma LastingKeepsNewest(c: Settings, y: Loop, step: Step)
    requires ValidSettings(c) && Newestly(c, y) && Possible(y, step) && Lasts(c, y, step)
    ensures Newestly(c, Next(c, y, step))
    ensures step.Drain? ==> Kept(c, y, step.r.now) == y.frames
  {
    match step
    case Send(payload, delivered, at, now) =>
      PublishBasic(c, y, payload, delivered, at, now);
      NextIsRemembered(y.frames, y.sent, SentFrame(payload, at), c.limit);
    case Drain(r) =>
      ResendBasic(c, y, r);
      assert Resend(c, y, r).frames.Keys == Kept(c, y, r.now).Keys;
  }

  lemma {:induction false} LastingRun(c: Settings, states: seq<Loop>, steps: seq<Step>, k: nat)
    requires ValidSettings(c) && IsRun(c, states, steps, true) && k < |states|
    ensures Newestly(c, states[k])
  {
    if k > 0 {
      var i := k - 1;
      LastingRun(c, states, steps, i);
      assert Follows(c, states[i], steps[i], states[i + 1], true);
      LastingKeepsNewest(c, states[i], steps[i]);
    }
  }

  /** If nothing has expired up to a delivery, a history one longer than the window is served in
      one pass, whatever expires from then on. */
  lemma LastingEnds(c: Settings, states: seq<Loop>, steps: seq<Step>, readings: nat -> Reading)
    requires ValidSettings(c) && c.limit <= c.window + 1 && IsRun(c, states, steps, true)
    requires Onward(states[|steps|].clock, readings)
    ensures !After(c, states[|steps|], readings, 2).draining
  {
    var y := states[|steps|];
    LastingRun(c, states, steps, |steps|);
    if y.draining {
      forall s | s in y.frames ensures s >= y.sent - c.window { assert s in Newest(y.sent, c.limit); }
      ResendSettles(c, y, readings(0));
    }
    TwoPasses(c, y, readings);
  }

  // ---------------------------------------------------------------- loops that never end

  ghost predicate Reached(c: Settings, y: Loop, lasting: bool) {
    exists states, steps :: RunTo(c, states, steps, lasting, y)
  }

  ghost predicate RunTo(c: Settings, states: seq<Loop>, steps: seq<Step>, lasting: bool, y: Loop) {
    IsRun(c, states, steps, lasting) && states[|steps|] == y
  }

  lemma StartReached(c: Settings, clock: real, lasting: bool)
    ensures Reached(c, Start(clock), lasting)
  {
    assert RunTo(c, [Start(clock)], [], lasting, Start(clock));
  }

  lemma GoOn(c: Settings, y: Loop, step: Step, lasting: bool)
    requires Reached(c, y, lasting) && Possible(y, step) && (lasting ==> Lasts(c, y, step))
    ensures Reached(c, Next(c, y, step), lasting)
  {
    var states, steps :| RunTo(c, states, steps, lasting, y);
    var more, taken := states + [Next(c, y, step)], steps + [step];
    forall i | 0 <= i < |taken| ensures Follows(c, more[i], taken[i], more[i + 1], lasting) {
      if i < |steps| { assert Follows(c, states[i], steps[i], states[i + 1], lasting); }
    }
    assert RunTo(c, more, taken, lasting, Next(c, y, step));
  }

  /** The loop is running, and frame 2 is held, below the window and behind the gap frame 1 left. */
  predicate Stuck(c: Settings, y: Loop) {
    && Basic(c, y) && y.draining && y.heard.contiguous == 0 && y.sent - c.window > 2
    && 2 in y.frames && 1 !in y.frames
  }

  predicate TwoIsLive(c: Settings, y: Loop, now: real) { 2 in y.frames && now - y.frames[2].sentAt <= c.horizon }

  lemma NothingExpired(f: Frames, now: real, horizon: real)
    requires forall s :: s in f ==> now - f[s].sentAt <= horizon
    ensures Unexpired(f, now, horizon) == f
  {
    var u := Unexpired(f, now, horizon);
    forall s | s in f ensures s in u && u[s] == f[s] {}
    assert u.Keys == f.Keys;
  }

  lemma UncappedKeeps(f: Frames, now: real, horizon: real, limit: nat)
    requires |f| <= limit
    ensures Pruned(f, now, horizon, limit) == Unexpired(f, now, horizon)
  {
    var g := Unexpired(f, now, horizon);
    assert g.Keys <= f.Keys;
    SubsetSize(g.Keys, f.Keys);
    assert |g| == |g.Keys| && |f| == |f.Keys|;
  }

  /** A pass that comes before frame 2 expires sends it again and changes nothing else that matters. */
  lemma StuckStays(c: Settings, y: Loop, r: Reading)
    requires ValidSettings(c) && Stuck(c, y) && InOrder(r, y.clock) && TwoIsLive(c, y, r.now)
    ensures var z := Resend(c, y, r); Stuck(c, z) && z.frames[2].sentAt == r.stamp(2) && z.clock == r.end
  {
    var kept := Kept(c, y, r.now);
    UncappedKeeps(y.frames, r.now, c.horizon, c.limit);
    KeptBasic(c, y, r.now);
    WantedIsOwed(c, y, r.now);
    ResendBasic(c, y, r);
    var again := Retransmitted(y.heard, kept.Keys);
    assert 2 in kept && 2 in again;
    RoundAbsorbs(y.heard, kept.Keys, c.window);
    assert 1 !in again && 1 !in ObservedOf(y.heard);
    var u := Round(y.heard, kept.Keys, c.window);
    assert u.contiguous > 0 ==> 1 in ObservedOf(y.heard) + Elements(again);
  }

  /** Every pass prunes before the frame 2 of the pass before has expired. */
  ghost predicate Prompt(c: Settings, readings: nat -> Reading) {
    forall k {:trigger Soon(c, readings, k)} :: Soon(c, readings, k)
  }

  predicate Soon(c: Settings, readings: nat -> Reading, k: nat) {
    readings(k + 1).now - readings(k).stamp(2) <= c.horizon
  }

  /** Under every clock on which passes take no longer than the horizon, frame 2 is sent again in
      every pass, for ever. */
  lemma {:induction false} StuckForever(c: Settings, y: Loop, readings: nat -> Reading, k: nat)
    requires ValidSettings(c) && Stuck(c, y) && Onward(y.clock, readings) && Prompt(c, readings)
    requires TwoIsLive(c, y, readings(0).now)
    ensures var z := After(c, y, readings, k);
            Stuck(c, z) && InOrder(readings(k), z.clock) && TwoIsLive(c, z, readings(k).now)
  {
    if k > 0 {
      var n := k - 1;
      StuckForever(c, y, readings, n);
      StuckStays(c, After(c, y, readings, n), readings(n));
      assert NextInOrder(readings, n) && Soon(c, readings, n);
    }
  }

  /** One pass every `gap`. */
  function Constant(at: real): Reading { Reading(at, _ => at, at) }
  function Steady(at: real, gap: real): nat -> Reading { k => Constant(at + (k + 1) as real * gap) }

  lemma Archimedes(gap: real, x: real) returns (k: nat)
    requires gap > 0.0
    ensures (k + 1) as real * gap > x
  {
    var q := x / gap;
    k := if q < 0.0 then 0 else q.Floor;
    assert (k + 1) as real > q;
    assert (k + 1) as real * gap > q * gap;
  }

  lemma SteadyAt(at: real, gap: real, k: nat)
    requires gap > 0.0
    ensures Steady(at, gap)(k + 1).now == Steady(at, gap)(k).now + gap
    ensures Steady(at, gap)(k) == Constant(Steady(at, gap)(k).now)
  {
    assert (k + 2) as real * gap == (k + 1) as real * gap + gap;
  }

  lemma SteadyPasses(at: real, gap: real, bound: real)
    requires gap > 0.0
    ensures Passes(Steady(at, gap), bound)
  {
    var k := Archimedes(gap, bound - at);
    assert Steady(at, gap)(k).now == at + (k + 1) as real * gap;
  }

  lemma SteadyTicks(clock: real, at: real, gap: real)
    requires clock <= at && gap > 0.0
    ensures Ticks(clock, Steady(at, gap))
  {
    var readings := Steady(at, gap);
    assert readings(0) == Constant(at + gap);
    forall k: nat ensures NextInOrder(readings, k) && Later(readings, k) {
      SteadyAt(at, gap, k);
      SteadyAt(at, gap, k + 1);
    }
    forall bound ensures Passes(readings, bound) { SteadyPasses(at, gap, bound); }
  }

  lemma SteadyIsPrompt(c: Settings, at: real, gap: real)
    requires 0.0 < gap <= c.horizon
    ensures Prompt(c, Steady(at, gap))
  {
    var readings := Steady(at, gap);
    forall k: nat ensures Soon(c, readings, k) { SteadyAt(at, gap, k); }
  }

  /** A run that gets stuck with a quarter of the horizon left goes on for ever. */
  lemma StuckNeverEnds(c: Settings, y: Loop, lasting: bool)
    requires ValidSettings(c) && c.horizon > 0.0 && Reached(c, y, lasting) && Stuck(c, y)
    requires TwoIsLive(c, y, y.clock + c.horizon / 4.0)
    ensures !EveryDrainEnds(c, lasting)
  {
    var gap := c.horizon / 4.0;
    var readings := Steady(y.clock, gap);
    SteadyTicks(y.clock, y.clock, gap);
    SteadyIsPrompt(c, y.clock, gap);
    forall k: nat ensures After(c, y, readings, k).draining { StuckForever(c, y, readings, k); }
    assert !DrainEnds(c, y, readings);
    var states, steps :| RunTo(c, states, steps, lasting, y);
    assert IsRun(c, states, steps, lasting) && !DrainEnds(c, states[|steps|], readings);
  }

  // ---------------------------------------------------------------- a history beyond the window, nothing expired

  /** Frames 1..m skipped, all at time 0. */
  predicate Skipped(c: Settings, y: Loop, m: nat) {
    && y.heard.Fresh? && y.sent == m && y.clock == 0.0 && !y.draining && Newestly(c, y)
    && forall s :: s in y.frames ==> y.frames[s].sentAt == 0.0
  }

  lemma SendAtOnce(c: Settings, y: Loop, m: nat, delivered: bool)
    requires ValidSettings(c) && Skipped(c, y, m)
    ensures var z := Publish(c, y, 0, delivered, 0.0, 0.0);
            && Lasts(c, y, Send(0, delivered, 0.0, 0.0)) && Newestly(c, z) && z.sent == m + 1 && z.clock == 0.0
            && (forall s :: s in z.frames ==> z.frames[s].sentAt == 0.0)
  {
    var f := Sent(c, y, 0, 0.0);
    NothingExpired(f, 0.0, c.horizon);
    LastingKeepsNewest(c, y, Send(0, delivered, 0.0, 0.0));
    PruneIsPart(f, 0.0, c.horizon, c.limit);
  }

  lemma {:induction false} SkipAll(c: Settings, m: nat) returns (y: Loop)
    requires ValidSettings(c)
    ensures Reached(c, y, true) && Skipped(c, y, m)
  {
    if m == 0 {
      y := Start(0.0);
      StartReached(c, 0.0, true);
    } else {
      var x := SkipAll(c, m - 1);
      SendAtOnce(c, x, m - 1, false);
      GoOn(c, x, Send(0, false, 0.0, 0.0), true);
      y := Next(c, x, Send(0, false, 0.0, 0.0));
    }
  }

  /** A history two longer than the window: frames 1..limit are skipped, limit + 1 arrives,
      frame 1 no longer fits, and frame 2 is sent again for ever. */
  lemma LongHistoryGetsStuck(c: Settings) returns (y: Loop)
    requires ValidSettings(c) && c.limit >= c.window + 2
    ensures Reached(c, y, true) && Stuck(c, y) && y.clock == y.frames[2].sentAt
  {
    var x := SkipAll(c, c.limit);
    var step := Send(0, true, 0.0, 0.0);
    SendAtOnce(c, x, c.limit, true);
    GoOn(c, x, step, true);
    y := Next(c, x, step);
    assert 1 !in ObservedOf(y.heard);
    assert 2 in Newest(c.limit + 1, c.limit) && 1 !in Newest(c.limit + 1, c.limit);
  }

  lemma LongHistoryNeverEnds(c: Settings)
    requires ValidSettings(c) && c.limit >= c.window + 2 && c.horizon > 0.0
    ensures !EveryDrainEnds(c, true)
  {
    var y := LongHistoryGetsStuck(c);
    StuckNeverEnds(c, y, true);
  }

  // ---------------------------------------------------------------- a history just beyond the window, with expiry

  // When frames 2 and 3 are sent, pruned, and frame 2 is sent again; when the loop ends; and when
  // the remaining frames are sent.
  function SentTwo(c: Settings): real { c.horizon + c.horizon }
  function PrunedTwo(c: Settings): real { SentTwo(c) + c.horizon / 4.0 }
  function AgainTwo(c: Settings): real { SentTwo(c) + c.horizon / 2.0 }
  function IdleTwo(c: Settings): real { AgainTwo(c) + c.horizon / 4.0 }
  function SentRest(c: Settings): real { SentTwo(c) + c.horizon + c.horizon / 4.0 }

  /** Frame 1 has expired, frames 2 and 3 were sent together, frame 2 once more, frames 4..m were
      skipped, and the listener has seen 3 and then 2. */
  predicate Refreshed(c: Settings, y: Loop, m: nat) {
    && Basic(c, y) && !y.draining && y.sent == m && y.clock <= SentRest(c)
    && y.heard == Tracking(0, 3, {2, 3})
    && 2 in y.frames && y.frames[2].sentAt == AgainTwo(c) && 1 !in y.frames
    && (3 in y.frames ==> y.frames[3].sentAt == SentTwo(c))
  }

  function F(at: real): SentFrame { SentFrame(0, at) }

  // The first states: 1 skipped, 2 skipped, 3 delivered.
  function Y1(c: Settings): Loop { Loop(Fresh, map[1 := F(0.0)], 1, 0.0, false) }
  function Y2(c: Settings): Loop { Loop(Fresh, map[2 := F(SentTwo(c))], 2, SentTwo(c), false) }

  function Y3(c: Settings): Loop {
    Loop(Tracking(0, 3, {3}), map[2 := F(SentTwo(c)), 3 := F(SentTwo(c))], 3, SentTwo(c), true)
  }

  lemma SkipOne(c: Settings)
    requires ValidSettings(c)
    ensures Publish(c, Start(0.0), 0, false, 0.0, 0.0) == Y1(c)
  {
    var f: Frames := map[1 := F(0.0)];
    assert Sent(c, Start(0.0), 0, 0.0) == f;
    UncappedKeeps(f, 0.0, c.horizon, c.limit);
    assert Unexpired(f, 0.0, c.horizon) == f;
  }

  lemma SkipTwo(c: Settings)
    requires ValidSettings(c) && c.horizon > 0.0 && c.limit >= 2
    ensures Publish(c, Y1(c), 0, false, SentTwo(c), SentTwo(c)) == Y2(c)
  {
    var at := SentTwo(c);
    var f: Frames := map[1 := F(0.0), 2 := F(at)];
    assert Sent(c, Y1(c), 0, at) == f;
    UncappedKeeps(f, at, c.horizon, c.limit);
    assert Unexpired(f, at, c.horizon) == map[2 := F(at)];
  }

  lemma HearThree(window: int)
    requires window >= 1
    ensures Observe(Fresh, 3, window) == Tracking(0, 3, {3})
  {
    assert {} + {3} == {3};
    assert Trimmed({3}, 3 - window) == {3};
  }

  lemma SendThree(c: Settings, y: Loop)
    requires ValidSettings(c) && c.horizon > 0.0 && c.limit >= 2 && y == Y2(c)
    ensures var at := SentTwo(c);
            Pruned(Sent(c, y, 0, at), at, c.horizon, c.limit) == map[2 := F(at), 3 := F(at)]
  {
    var at := SentTwo(c);
    var f: Frames := map[2 := F(at), 3 := F(at)];
    assert Sent(c, y, 0, at) == f;
    UncappedKeeps(f, at, c.horizon, c.limit);
    NothingExpired(f, at, c.horizon);
  }

  lemma DeliverThree(c: Settings)
    requires ValidSettings(c) && c.horizon > 0.0 && c.limit >= 2
    ensures Publish(c, Y2(c), 0, true, SentTwo(c), SentTwo(c)) == Y3(c)
  {
    SendThree(c, Y2(c));
    HearThree(c.window);
  }

  function At(xs: seq<int>, i: int): int { if 0 <= i < |xs| then xs[i] else 0 }

  lemma AscendingPair(xs: seq<int>, i: int, j: int)
    requires Ascending(xs)
    ensures 0 <= i < j < |xs| ==> At(xs, i) < At(xs, j)
  {
  }

  lemma AllOne(xs: seq<int>, x: int, i: int)
    requires forall s :: s in xs ==> s == x
    ensures 0 <= i < |xs| ==> At(xs, i) == x
  {
    assert 0 <= i < |xs| ==> xs[i] in xs;
  }

  lemma OnlyOneWanted(t: Source, held: set<int>, x: int)
    requires t.Tracking? && Wanted(t, held) == {x}
    ensures Retransmitted(t, held) == [x]
  {
    RetransmittedIsWanted(t, held);
    var again := Retransmitted(t, held);
    assert x in again;
    AscendingPair(again, 0, 1);
    AllOne(again, x, 0);
    AllOne(again, x, 1);
  }

  lemma NoneWanted(t: Source, held: set<int>)
    requires t.Tracking? && Wanted(t, held) == {}
    ensures Retransmitted(t, held) == []
  {
    RetransmittedIsWanted(t, held);
    FirstIsMember(Retransmitted(t, held));
  }

  lemma ResendOne(c: Settings, y: Loop, r: Reading, x: int)
    requires y.heard.Tracking? && Wanted(y.heard, Kept(c, y, r.now).Keys) == {x}
    ensures Resend(c, y, r) ==
            Loop(ObserveAll(y.heard, [x], c.window), Resent(Kept(c, y, r.now), [x], r.stamp), y.sent, r.end, true)
  {
    OnlyOneWanted(y.heard, Kept(c, y, r.now).Keys, x);
  }

  lemma ResendNone(c: Settings, y: Loop, r: Reading)
    requires y.heard.Tracking? && Wanted(y.heard, Kept(c, y, r.now).Keys) == {}
    ensures Resend(c, y, r) == Loop(y.heard, Kept(c, y, r.now), y.sent, r.end, false)
  {
    NoneWanted(y.heard, Kept(c, y, r.now).Keys);
  }

  lemma HearTwo(t: Source, window: int)
    requires window >= 1 && t == Tracking(0, 3, {3})
    ensures ObserveAll(t, [2], window) == Tracking(0, 3, {2, 3})
  {
    assert [2][..0] == [];
    assert ObserveAll(t, [], window) == t;
    assert 1 !in {3} + {2};
    assert Trimmed({3} + {2}, 3 - window) == {2, 3};
  }

  lemma TwoRestamped(f: Frames, at: real)
    requires f.Keys == {2, 3}
    ensures Resent(f, [2], _ => at) == map[2 := SentFrame(f[2].payload, at), 3 := f[3]]
  {
  }

  function R4(c: Settings): Reading { Reading(PrunedTwo(c), _ => AgainTwo(c), AgainTwo(c)) }

  lemma AllKept(c: Settings, y: Loop, now: real)
    requires |y.frames| <= c.limit && forall s :: s in y.frames ==> now - y.frames[s].sentAt <= c.horizon
    ensures Kept(c, y, now) == y.frames
  {
    UncappedKeeps(y.frames, now, c.horizon, c.limit);
    NothingExpired(y.frames, now, c.horizon);
  }

  lemma TwoWanted(t: Source, held: set<int>)
    requires t == Tracking(0, 3, {3}) && held == {2, 3}
    ensures Wanted(t, held) == {2}
  {
  }

  lemma TwoAgain(c: Settings, y: Loop)
    requires ValidSettings(c) && c.horizon > 0.0 && c.limit >= 2 && y.heard == Tracking(0, 3, {3})
             && y.frames.Keys == {2, 3}
    requires forall s :: s in y.frames ==> y.frames[s].sentAt == SentTwo(c)
    ensures Resend(c, y, R4(c)) == TwoServed(c, y)
  {
    assert |y.frames| == |y.frames.Keys| == 2;
    AllKept(c, y, PrunedTwo(c));
    TwoWanted(y.heard, y.frames.Keys);
    ResendOne(c, y, R4(c), 2);
    HearTwo(y.heard, c.window);
    TwoRestamped(y.frames, AgainTwo(c));
  }

  function ServedFrames(c: Settings, f: Frames): Frames
    requires f.Keys == {2, 3}
  {
    map[2 := SentFrame(f[2].payload, AgainTwo(c)), 3 := f[3]]
  }

  function TwoServed(c: Settings, y: Loop): Loop
    requires y.frames.Keys == {2, 3}
  {
    Loop(Tracking(0, 3, {2, 3}), ServedFrames(c, y.frames), y.sent, AgainTwo(c), true)
  }

  lemma ServedParts(c: Settings, y: Loop, z: Loop)
    requires y.frames.Keys == {2, 3} && y.frames[3].sentAt == SentTwo(c) && z == TwoServed(c, y)
    ensures z.heard == Tracking(0, 3, {2, 3}) && z.frames.Keys == {2, 3} && z.sent == y.sent
    ensures z.clock == AgainTwo(c) && z.draining
    ensures z.frames[2].sentAt == AgainTwo(c) && z.frames[3].sentAt == SentTwo(c)
  {
  }

  lemma ServedInTime(c: Settings)
    requires c.horizon > 0.0
    ensures InOrder(R4(c), SentTwo(c))
  {
  }

  lemma NoneOwed(t: Source, held: set<int>)
    requires t == Tracking(0, 3, {2, 3}) && held <= {2, 3}
    ensures Wanted(t, held) == {}
  {
  }

  lemma PassIsIdle(c: Settings, y: Loop, at: real)
    requires c.limit >= 2 && y.heard == Tracking(0, 3, {2, 3}) && y.frames.Keys == {2, 3}
    requires at - y.frames[2].sentAt <= c.horizon && at - y.frames[3].sentAt <= c.horizon
    ensures Resend(c, y, Constant(at)) == Loop(y.heard, y.frames, y.sent, at, false)
  {
    assert |y.frames| == |y.frames.Keys| == 2;
    AllKept(c, y, at);
    NoneOwed(y.heard, y.frames.Keys);
    ResendNone(c, y, Constant(at));
  }

  lemma IsRefreshed(c: Settings, z: Loop)
    requires ValidSettings(c) && c.limit >= 2 && !z.draining && z.sent == 3 && z.clock == IdleTwo(c)
    requires z.heard == Tracking(0, 3, {2, 3}) && z.frames.Keys == {2, 3}
    requires z.frames[2].sentAt == AgainTwo(c) && z.frames[3].sentAt == SentTwo(c)
    ensures Refreshed(c, z, 3)
  {
    assert |z.frames| == |z.frames.Keys| == 2;
    assert 1 !in z.frames.Keys;
    BasicParts(c, z);
  }

  lemma TwoIsRefreshed(c: Settings) returns (y: Loop)
    requires ValidSettings(c) && c.horizon > 0.0 && c.limit >= 2
    ensures Reached(c, y, false) && Refreshed(c, y, 3)
  {
    var at := SentTwo(c);
    StartReached(c, 0.0, false);
    SkipOne(c);
    GoOn(c, Start(0.0), Send(0, false, 0.0, 0.0), false);
    SkipTwo(c);
    GoOn(c, Y1(c), Send(0, false, at, at), false);
    DeliverThree(c);
    GoOn(c, Y2(c), Send(0, true, at, at), false);
    y := TwoIsDrained(c, Y3(c));
  }

  lemma GoResend(c: Settings, y: Loop, r: Reading, z: Loop)
    requires Reached(c, y, false) && y.draining && InOrder(r, y.clock) && z == Resend(c, y, r)
    ensures Reached(c, z, false)
  {
    GoOn(c, y, Drain(r), false);
  }

  lemma ThreeIsServed(c: Settings, y: Loop) returns (z: Loop)
    requires ValidSettings(c) && c.horizon > 0.0 && c.limit >= 2 && Reached(c, y, false)
    requires y.heard == Tracking(0, 3, {3}) && y.frames.Keys == {2, 3} && y.sent == 3 && y.clock == SentTwo(c)
    requires y.draining && forall s :: s in y.frames ==> y.frames[s].sentAt == SentTwo(c)
    ensures Reached(c, z, false) && z.heard == Tracking(0, 3, {2, 3}) && z.frames.Keys == {2, 3} && z.sent == 3
    ensures z.clock == AgainTwo(c) && z.draining
    ensures z.frames[2].sentAt == AgainTwo(c) && z.frames[3].sentAt == SentTwo(c)
  {
    TwoAgain(c, y);
    ServedInTime(c);
    z := TwoServed(c, y);
    GoResend(c, y, R4(c), z);
    ServedParts(c, y, z);
  }

  lemma TwoIsDrained(c: Settings, y3: Loop) returns (y: Loop)
    requires ValidSettings(c) && c.horizon > 0.0 && c.limit >= 2 && Reached(c, y3, false)
    requires y3.heard == Tracking(0, 3, {3}) && y3.frames.Keys == {2, 3} && y3.sent == 3 && y3.clock == SentTwo(c)
    requires y3.draining && forall s :: s in y3.frames ==> y3.frames[s].sentAt == SentTwo(c)
    ensures Reached(c, y, false) && Refreshed(c, y, 3)
  {
    var y4 := ThreeIsServed(c, y3);
    PassIsIdle(c, y4, IdleTwo(c));
    y := Loop(y4.heard, y4.frames, y4.sent, IdleTwo(c), false);
    GoResend(c, y4, Constant(IdleTwo(c)), y);
    IsRefreshed(c, y);
  }

  /** The remaining frames are sent when frame 3 has expired and frame 2 has not. */
  lemma RefreshedKeys(c: Settings, y: Loop, m: nat)
    requires ValidSettings(c) && c.horizon > 0.0 && Refreshed(c, y, m)
    ensures var t := SentRest(c);
            var u := Unexpired(Sent(c, y, 0, t), t, c.horizon);
            2 in u && u[2] == y.frames[2] && 3 !in u && 1 !in u && forall s :: s in u ==> 2 <= s <= m + 1
  {
  }

  lemma FewRefreshed(u: Frames, m: nat)
    requires m >= 3 && 3 !in u && forall s :: s in u ==> 2 <= s <= m + 1
    ensures |u| <= m - 1
  {
    forall s | s in u.Keys ensures s in Newest(m + 1, m) - {3} {}
    SubsetSize(u.Keys, Newest(m + 1, m) - {3});
    NewestSize(m + 1, m);
    assert 3 in Newest(m + 1, m);
    assert |u| == |u.Keys|;
  }

  lemma FewAreKept(f: Frames, now: real, horizon: real, limit: nat)
    requires |Unexpired(f, now, horizon)| <= limit
    ensures Pruned(f, now, horizon, limit) == Unexpired(f, now, horizon)
  {
  }

  lemma RefreshedSend(c: Settings, y: Loop, m: nat, delivered: bool)
    requires ValidSettings(c) && c.horizon > 0.0 && c.limit >= c.window + 1 && 3 <= m <= c.window + 2
    requires Refreshed(c, y, m)
    ensures var t := SentRest(c);
            var z := Publish(c, y, 0, delivered, t, t);
            && z.sent == m + 1 && z.clock == t && 2 in z.frames && z.frames[2].sentAt == AgainTwo(c)
            && 1 !in z.frames && 3 !in z.frames && Basic(c, z)
  {
    var t := SentRest(c);
    var f := Sent(c, y, 0, t);
    RefreshedKeys(c, y, m);
    FewRefreshed(Unexpired(f, t, c.horizon), m);
    FewAreKept(f, t, c.horizon, c.limit);
    PublishBasic(c, y, 0, delivered, t, t);
  }

  lemma {:induction false} SkipRefreshed(c: Settings, m: nat) returns (y: Loop)
    requires ValidSettings(c) && c.horizon > 0.0 && c.limit >= c.window + 1 && 3 <= m <= c.window + 2
    ensures Reached(c, y, false) && Refreshed(c, y, m)
  {
    if m == 3 {
      y := TwoIsRefreshed(c);
    } else {
      var x := SkipRefreshed(c, m - 1);
      var t := SentRest(c);
      RefreshedSend(c, x, m - 1, false);
      GoOn(c, x, Send(0, false, t, t), false);
      y := Next(c, x, Send(0, false, t, t));
    }
  }

  /** A history one longer than the window, with any horizon above 0: frames 1 and 2 are skipped,
      frame 3 arrives and has frame 2 sent again, frame 1 has expired by then and frame 3 does
      soon after. When frame window + 3 arrives, frame 2 is still held and has left the window. */
  lemma RefreshGetsStuck(c: Settings) returns (y: Loop)
    requires ValidSettings(c) && c.horizon > 0.0 && c.limit >= c.window + 1
    ensures Reached(c, y, false) && Stuck(c, y) && y.clock + c.horizon / 4.0 == y.frames[2].sentAt + c.horizon
  {
    var x := SkipRefreshed(c, c.window + 2);
    var t := SentRest(c);
    RefreshedSend(c, x, c.window + 2, true);
    GoOn(c, x, Send(0, true, t, t), false);
    y := Publish(c, x, 0, true, t, t);
    TwoLeavesWindow(c, x, y);
  }

  lemma TwoLeavesWindow(c: Settings, x: Loop, y: Loop)
    requires ValidSettings(c) && x.heard == Tracking(0, 3, {2, 3})
             && y.heard == Observe(x.heard, c.window + 3, c.window)
    requires y.draining && y.sent == c.window + 3 && 2 in y.frames && 1 !in y.frames && Basic(c, y)
    ensures Stuck(c, y)
  {
    assert 1 !in ObservedOf(x.heard) + {c.window + 3};
  }

  /** And it is sent again for ever. */
  lemma RefreshNeverEnds(c: Settings)
    requires ValidSettings(c) && c.horizon > 0.0 && c.limit >= c.window + 1
    ensures !EveryDrainEnds(c, false)
  {
    var y := RefreshGetsStuck(c);
    StuckNeverEnds(c, y, false);
  }

  // ---------------------------------------------------------------- results

  lemma NoHorizonEnds(c: Settings, lasting: bool)
    requires ValidSettings(c) && c.horizon == 0.0
    ensures EveryDrainEnds(c, lasting)
  {
    forall states: seq<Loop>, steps, readings
      | IsRun(c, states, steps, lasting) && Ticks(states[|steps|].clock, readings)
      ensures DrainEnds(c, states[|steps|], readings)
    {
      RunIsBasic(c, states, steps, lasting, |steps|);
      ZeroHorizonEnds(c, states[|steps|], readings);
    }
  }

  /** The recovery loop ends after every delivery of every run if and only if the history is no
      longer than the listener's window, or nothing sent is kept beyond the moment. */
  lemma HistoryWithinWindow(c: Settings)
    requires ValidSettings(c)
    ensures EveryDrainEnds(c, false) <==> c.limit <= c.window || c.horizon == 0.0
  {
    if c.horizon == 0.0 {
      NoHorizonEnds(c, false);
    } else if c.limit <= c.window {
      forall states: seq<Loop>, steps, readings
        | IsRun(c, states, steps, false) && Ticks(states[|steps|].clock, readings)
        ensures DrainEnds(c, states[|steps|], readings)
      {
        WithinWindowEnds(c, states, steps, readings, false);
      }
    } else {
      RefreshNeverEnds(c);
    }
  }

  /** After deliveries up to which nothing has expired it does so exactly up to one more. */
  lemma LastingHistoryWithinWindow(c: Settings)
    requires ValidSettings(c)
    ensures EveryDrainEnds(c, true) <==> c.limit <= c.window + 1 || c.horizon == 0.0
  {
    if c.horizon == 0.0 {
      NoHorizonEnds(c, true);
    } else if c.limit <= c.window + 1 {
      forall states: seq<Loop>, steps, readings
        | IsRun(c, states, steps, true) && Ticks(states[|steps|].clock, readings)
        ensures DrainEnds(c, states[|steps|], readings)
      {
        LastingEnds(c, states, steps, readings);
      }
    } else {
      LongHistoryNeverEnds(c);
    }
  }

  // ---------------------------------------------------------------- the loop over the objects

  /** What a pass sends again. */
  function Again(c: Settings, y: Loop, r: Reading): seq<int> { Retransmitted(y.heard, Kept(c, y, r.now).Keys) }

  /** How many frames `k` passes send again. */
  function SentAgain(c: Settings, y: Loop, readings: nat -> Reading, k: nat): nat {
    if k == 0 then 0
    else
      var z := After(c, y, readings, k - 1);
      SentAgain(c, y, readings, k - 1) + if z.draining then |Again(c, z, readings(k - 1))| else 0
  }

  lemma NothingResent(f: Frames, stamp: int -> real)
    ensures Resent(f, [], stamp) == f
  {
  }

  lemma {:induction false} DoneStays(c: Settings, y: Loop, readings: nat -> Reading, k: nat, n: nat)
    requires k <= n && !After(c, y, readings, k).draining
    ensures After(c, y, readings, n) == After(c, y, readings, k)
    ensures SentAgain(c, y, readings, n) == SentAgain(c, y, readings, k)
  {
    if k < n { DoneStays(c, y, readings, k, n - 1); }
  }

  function SettingsOf(talker: FleetRmwSocketTalker, listener: RmwAckNackTracker): Settings {
    Settings(listener.window, talker.limit, talker.horizon)
  }

  predicate HeardSame(a: map<StreamKey, Source>, b: map<StreamKey, Source>, k: StreamKey) {
    (k in a <==> k in b) && (k in a ==> a[k] == b[k])
  }

  /** What the listener tracks of other streams is the same. */
  ghost predicate OthersHeard(a: map<StreamKey, Source>, b: map<StreamKey, Source>, stream: StreamKey) {
    forall k {:trigger HeardSame(a, b, k)} :: k != stream ==> HeardSame(a, b, k)
  }

  predicate Fades(a: map<StreamKey, Frames>, b: map<StreamKey, Frames>, k: StreamKey) {
    k in b ==> k in a && b[k].Keys <= a[k].Keys
  }

  /** Frames of other streams may have expired. */
  ghost predicate OthersFade(a: map<StreamKey, Frames>, b: map<StreamKey, Frames>, stream: StreamKey) {
    forall k {:trigger Fades(a, b, k)} :: k != stream ==> Fades(a, b, k)
  }

  lemma OthersHeardTrans(a: map<StreamKey, Source>, b: map<StreamKey, Source>, c: map<StreamKey, Source>,
                         stream: StreamKey)
    requires OthersHeard(a, b, stream) && OthersHeard(b, c, stream)
    ensures OthersHeard(a, c, stream)
  {
    forall k | k != stream ensures HeardSame(a, c, k) { assert HeardSame(a, b, k) && HeardSame(b, c, k); }
  }

  lemma OthersFadeTrans(a: map<StreamKey, Frames>, b: map<StreamKey, Frames>, c: map<StreamKey, Frames>,
                        stream: StreamKey)
    requires OthersFade(a, b, stream) && OthersFade(b, c, stream)
    ensures OthersFade(a, c, stream)
  {
    forall k | k != stream ensures Fades(a, c, k) { assert Fades(a, b, k) && Fades(b, c, k); }
  }

  lemma PrunedOthersFade(a: map<StreamKey, Frames>, b: map<StreamKey, Frames>, now: real, horizon: real, limit: nat,
                         stream: StreamKey)
    requires b.Keys <= a.Keys + {stream}
    requires forall k :: k in b && k != stream ==> b[k] == Pruned(a[k], now, horizon, limit)
    ensures OthersFade(a, b, stream)
  {
    forall k | k != stream ensures Fades(a, b, k) {
      if k in b { PruneIsPart(a[k], now, horizon, limit); }
    }
  }

  /** The listener takes retransmitted frames in the order they were sent. */
  method ObserveInOrder(listener: RmwAckNackTracker, stream: StreamKey, sequences: seq<int>, before: Feedback)
    returns (feedback: Feedback)
    requires listener.At(stream).Tracking? && before.missing == MissingRanges(listener.At(stream))
    modifies listener
    ensures listener.At(stream) == ObserveAll(old(listener.At(stream)), sequences, listener.window)
    ensures feedback.missing == MissingRanges(listener.At(stream))
    ensures OthersHeard(old(listener.streams), listener.streams, stream)
  {
    feedback := before;
    ghost var t := listener.At(stream);
    for i := 0 to |sequences|
      invariant listener.At(stream) == ObserveAll(t, sequences[..i], listener.window)
      invariant feedback.missing == MissingRanges(listener.At(stream))
      invariant OthersHeard(old(listener.streams), listener.streams, stream)
    {
      assert sequences[..i + 1][..i] == sequences[..i];
      ghost var mid := listener.streams;
      feedback := listener.ObserveSequence(stream, sequences[i]);
      OthersHeardTrans(old(listener.streams), mid, listener.streams, stream);
    }
    assert sequences[..|sequences|] == sequences;
  }

  /** One pass of the loop: retransmit, and observe what was sent. */
  method ResendOnce(talker: FleetRmwSocketTalker, listener: RmwAckNackTracker, stream: StreamKey, before: Feedback,
                    r: Reading, ghost y: Loop) returns (feedback: Feedback, sequences: seq<int>)
    requires listener.At(stream).Tracking? && before.missing == MissingRanges(listener.At(stream))
    requires y.heard == listener.At(stream) && y.frames == talker.FramesOf(stream)
    modifies talker, listener
    ensures var z := Resend(SettingsOf(talker, listener), y, r);
            listener.At(stream) == z.heard && talker.FramesOf(stream) == z.frames && (sequences == [] <==> !z.draining)
    ensures sequences == Again(SettingsOf(talker, listener), y, r)
    ensures listener.At(stream).Tracking? && feedback.missing == MissingRanges(listener.At(stream))
    ensures OthersHeard(old(listener.streams), listener.streams, stream)
    ensures OthersFade(old(talker.sent), talker.sent, stream)
  {
    feedback := before;
    var missing;
    ghost var stop;
    sequences, missing, stop := talker.Retransmit(stream, feedback, None, r.now, r.stamp);
    PrunedOthersFade(old(talker.sent), talker.sent, r.now, talker.horizon, talker.limit, stream);
    ghost var kept := Kept(SettingsOf(talker, listener), y, r.now);
    UnlimitedServesAll(Expand(feedback.missing), kept.Keys, sequences, missing, stop);
    NothingResent(kept, r.stamp);
    if sequences != [] { feedback := ObserveInOrder(listener, stream, sequences, feedback); }
  }

  /** Listener, talker and loop after `k` passes. */
  predicate InStep(heard: Source, frames: Frames, more: bool, z: Loop) {
    heard == z.heard && frames == z.frames && more == z.draining
  }

  /** A whole recovery loop, pass by pass: its states and how many frames were sent again. */
  datatype Trace = Trace(loop: nat -> Loop, count: nat -> nat)

  ghost predicate IsTrace(c: Settings, y: Loop, readings: nat -> Reading, t: Trace, k: nat) {
    t.loop(k) == After(c, y, readings, k) && t.count(k) == SentAgain(c, y, readings, k)
  }

  ghost predicate Traces(c: Settings, y: Loop, readings: nat -> Reading, t: Trace) {
    forall k {:trigger IsTrace(c, y, readings, t, k)} :: IsTrace(c, y, readings, t, k)
  }

  /** Pass `n` of the loop over the objects. */
  method DrainPass(talker: FleetRmwSocketTalker, listener: RmwAckNackTracker, stream: StreamKey, before: Feedback,
                   readings: nat -> Reading, n: nat, ghost y: Loop, ghost t: Trace)
    returns (feedback: Feedback, count: nat)
    requires listener.At(stream).Tracking? && before.missing == MissingRanges(listener.At(stream))
    requires Traces(SettingsOf(talker, listener), y, readings, t)
    requires InStep(listener.At(stream), talker.FramesOf(stream), true, t.loop(n))
    modifies talker, listener
    ensures InStep(listener.At(stream), talker.FramesOf(stream), count > 0, t.loop(n + 1))
    ensures t.count(n + 1) == t.count(n) + count
    ensures listener.At(stream).Tracking? && feedback.missing == MissingRanges(listener.At(stream))
    ensures OthersHeard(old(listener.streams), listener.streams, stream)
    ensures OthersFade(old(talker.sent), talker.sent, stream)
  {
    ghost var c := SettingsOf(talker, listener);
    assert IsTrace(c, y, readings, t, n) && IsTrace(c, y, readings, t, n + 1);
    var sequences;
    feedback, sequences := ResendOnce(talker, listener, stream, before, readings(n), t.loop(n));
    count := |sequences|;
    AfterStep(c, y, readings, n);
  }

  /** The body of the loop, for at most `passes` passes; it took `n`. */
  method DrainLoop(talker: FleetRmwSocketTalker, listener: RmwAckNackTracker, stream: StreamKey, before: Feedback,
                   readings: nat -> Reading, passes: nat, ghost y: Loop, ghost t: Trace)
    returns (done: bool, retransmitted: nat, ghost n: nat)
    requires listener.At(stream).Tracking? && before.missing == MissingRanges(listener.At(stream))
    requires Traces(SettingsOf(talker, listener), y, readings, t) && t.count(0) == 0
    requires InStep(listener.At(stream), talker.FramesOf(stream), true, t.loop(0))
    modifies talker, listener
    ensures n <= passes && (n == passes || done)
    ensures InStep(listener.At(stream), talker.FramesOf(stream), !done, t.loop(n)) && retransmitted == t.count(n)
    ensures OthersHeard(old(listener.streams), listener.streams, stream)
    ensures OthersFade(old(talker.sent), talker.sent, stream)
  {
    retransmitted, done := 0, false;
    var feedback := before;
    var k := 0;
    n := 0;
    while k < passes && !done
      invariant n == k <= passes && listener.At(stream).Tracking?
      invariant feedback.missing == MissingRanges(listener.At(stream))
      invariant InStep(listener.At(stream), talker.FramesOf(stream), !done, t.loop(n)) && retransmitted == t.count(n)
      invariant OthersHeard(old(listener.streams), listener.streams, stream)
      invariant OthersFade(old(talker.sent), talker.sent, stream)
    {
      var count;
      ghost var heard, held := listener.streams, talker.sent;
      feedback, count := DrainPass(talker, listener, stream, feedback, readings, k, y, t);
      OthersHeardTrans(old(listener.streams), heard, listener.streams, stream);
      OthersFadeTrans(old(talker.sent), held, talker.sent, stream);
      done, retransmitted, k, n := count == 0, retransmitted + count, k + 1, n + 1;
    }
  }

  lemma AfterStep(c: Settings, y: Loop, readings: nat -> Reading, k: nat)
    requires After(c, y, readings, k).draining
    ensures After(c, y, readings, k + 1) == Resend(c, After(c, y, readings, k), readings(k))
    ensures SentAgain(c, y, readings, k + 1)
            == SentAgain(c, y, readings, k) + |Again(c, After(c, y, readings, k), readings(k))|
  {
  }

  lemma StaysDone(c: Settings, y: Loop, readings: nat -> Reading, n: nat, passes: nat)
    requires n <= passes && (n == passes || !After(c, y, readings, n).draining) && y.draining && y.heard.Tracking?
    ensures After(c, y, readings, passes) == After(c, y, readings, n)
    ensures SentAgain(c, y, readings, passes) == SentAgain(c, y, readings, n)
    ensures var z := After(c, y, readings, n); !z.draining ==> Wanted(z.heard, z.frames.Keys) == {}
  {
    if !After(c, y, readings, n).draining {
      DoneStays(c, y, readings, n, passes);
      DoneWantsNothing(c, y, readings, n);
    }
  }

  lemma {:induction false} DoneWantsNothing(c: Settings, y: Loop, readings: nat -> Reading, k: nat)
    requires y.draining && y.heard.Tracking? && !After(c, y, readings, k).draining
    ensures Wanted(After(c, y, readings, k).heard, After(c, y, readings, k).frames.Keys) == {}
  {
    var n := k - 1;
    if After(c, y, readings, n).draining {
      StillTracking(c, y, readings, n);
      LastPass(c, y, readings, n);
    } else {
      DoneWantsNothing(c, y, readings, n);
    }
  }

  lemma LastPass(c: Settings, y: Loop, readings: nat -> Reading, n: nat)
    requires After(c, y, readings, n).draining && !After(c, y, readings, n + 1).draining
    requires After(c, y, readings, n).heard.Tracking?
    ensures Wanted(After(c, y, readings, n + 1).heard, After(c, y, readings, n + 1).frames.Keys) == {}
  {
    AfterStep(c, y, readings, n);
    NoneLeft(c, After(c, y, readings, n), readings(n));
  }

  lemma NoneLeft(c: Settings, y: Loop, r: Reading)
    requires y.heard.Tracking? && !Resend(c, y, r).draining
    ensures Wanted(Resend(c, y, r).heard, Resend(c, y, r).frames.Keys) == {}
  {
    RetransmittedIsWanted(y.heard, Kept(c, y, r.now).Keys);
  }

  lemma {:induction false} StillTracking(c: Settings, y: Loop, readings: nat -> Reading, k: nat)
    requires y.heard.Tracking?
    ensures After(c, y, readings, k).heard.Tracking?
  {
    if k > 0 { StillTracking(c, y, readings, k - 1); }
  }

  /** `_drain_one_delivery`: frame `sequence` has just arrived; retransmit what is missing until
      nothing more can be sent, for at most `passes` passes of a loop that the source leaves
      unbounded. `y` names the state just after the arrival. WithinWindowEnds says when two
      passes are enough. */
  method DrainOneDelivery(talker: FleetRmwSocketTalker, listener: RmwAckNackTracker, stream: StreamKey, sequence: int,
                          lateSkipped: bool, readings: nat -> Reading, passes: nat, ghost y: Loop)
    returns (done: bool, taken: nat, retransmitted: nat)
    requires y.heard == Observe(listener.At(stream), sequence, listener.window) && y.frames == talker.FramesOf(stream)
    requires y.draining == lateSkipped
    modifies talker, listener
    ensures InStep(listener.At(stream), talker.FramesOf(stream), !done,
                   After(SettingsOf(talker, listener), y, readings, passes))
    ensures taken == 1 + retransmitted && retransmitted == SentAgain(SettingsOf(talker, listener), y, readings, passes)
    ensures done && lateSkipped ==> Wanted(listener.At(stream), talker.HeldOf(stream)) == {}
    ensures OthersHeard(old(listener.streams), listener.streams, stream)
    ensures OthersFade(old(talker.sent), talker.sent, stream)
  {
    var feedback := listener.ObserveSequence(stream, sequence);
    if lateSkipped {
      ghost var heard := listener.streams;
      ghost var c := SettingsOf(talker, listener);
      ghost var t := Trace((k: nat) => After(c, y, readings, k), (k: nat) => SentAgain(c, y, readings, k));
      assert IsTrace(c, y, readings, t, 0);
      ghost var n;
      done, retransmitted, n := DrainLoop(talker, listener, stream, feedback, readings, passes, y, t);
      OthersHeardTrans(old(listener.streams), heard, listener.streams, stream);
      StaysDone(c, y, readings, n, passes);
    } else {
      done, retransmitted := true, 0;
      DoneStays(SettingsOf(talker, listener), y, readings, 0, passes);
    }
    taken := 1 + retransmitted;
  }

  // ---------------------------------------------------------------- a whole stream

  /** One published frame; its recovery loop, if it takes `passes` passes, reads the clock up to `end`. */
  datatype Publication = Publication(payload: int, delivered: bool, at: real, now: real, readings: nat -> Reading,
                                     end: real)

  ghost predicate Timely(p: Publication, passes: nat, since: real) {
    && since <= p.at <= p.now <= p.end && Onward(p.now, p.readings)
    && (passes > 0 ==> p.readings(passes - 1).end <= p.end)
  }

  function EndOf(plan: seq<Publication>, start: real): real { if plan == [] then start else plan[|plan| - 1].end }

  ghost predicate TimelyPlan(plan: seq<Publication>, passes: nat, start: real) {
    forall i {:trigger plan[i]} :: 0 <= i < |plan| ==> Timely(plan[i], passes, EndOf(plan[..i], start))
  }

  function Deliveries(plan: seq<Publication>): nat {
    if plan == [] then 0 else Deliveries(plan[..|plan| - 1]) + if plan[|plan| - 1].delivered then 1 else 0
  }

  lemma AfterNext(c: Settings, y: Loop, readings: nat -> Reading, n: nat)
    ensures var z := After(c, y, readings, n);
            After(c, y, readings, n + 1) == if z.draining then Resend(c, z, readings(n)) else z
  {
  }

  lemma PassReached(c: Settings, z: Loop, r: Reading, z': Loop)
    requires Reached(c, z, false) && (z.draining ==> InOrder(r, z.clock))
    requires z' == if z.draining then Resend(c, z, r) else z
    ensures Reached(c, z', false) && z'.sent == z.sent && z'.clock == if z.draining then r.end else z.clock
  {
    if z.draining { GoResend(c, z, r, z'); }
  }

  /** Passes stay in the run, and read no later than their last. */
  lemma {:induction false} AfterReached(c: Settings, y: Loop, readings: nat -> Reading, k: nat)
    requires Reached(c, y, false) && Onward(y.clock, readings)
    ensures var z := After(c, y, readings, k);
            && Reached(c, z, false) && z.sent == y.sent
            && (z.draining ==> InOrder(readings(k), z.clock))
            && z.clock <= readings(k).now <= readings(k).end && (k > 0 ==> z.clock <= readings(k - 1).end)
  {
    if k > 0 {
      var n := k - 1;
      AfterReached(c, y, readings, n);
      AfterNext(c, y, readings, n);
      PassReached(c, After(c, y, readings, n), readings(n), After(c, y, readings, k));
      assert NextInOrder(readings, n);
    }
  }

  /** Objects and clock after part of a run that left the loop. */
  ghost predicate InRun(c: Settings, y: Loop, sent: nat, clock: real) {
    Reached(c, y, false) && !y.draining && y.sent == sent && y.clock <= clock
  }

  /** The state after publishing, by its parts. */
  predicate IsPublished(c: Settings, heard: Source, frames: Frames, n: nat, p: Publication, x: Loop) {
    && x.heard == HeardNext(c, heard, n + 1, p.delivered) && x.sent == n + 1 && x.clock == p.now
    && x.frames == Pruned(frames[n + 1 := SentFrame(p.payload, p.at)], p.now, c.horizon, c.limit)
    && x.draining == p.delivered
  }

  lemma PublishReached(c: Settings, y: Loop, p: Publication)
    requires Reached(c, y, false) && !y.draining && y.clock <= p.at <= p.now
    ensures Reached(c, Publish(c, y, p.payload, p.delivered, p.at, p.now), false)
  {
    GoOn(c, y, Send(p.payload, p.delivered, p.at, p.now), false);
  }

  lemma PublishIsPublished(c: Settings, y: Loop, p: Publication)
    ensures IsPublished(c, y.heard, y.frames, y.sent, p, Publish(c, y, p.payload, p.delivered, p.at, p.now))
  {
  }

  lemma DrainsInTwo(c: Settings, x: Loop, readings: nat -> Reading, passes: nat)
    requires ValidSettings(c) && Reached(c, x, false) && Onward(x.clock, readings)
    requires c.limit <= c.window && passes >= 2
    ensures !After(c, x, readings, passes).draining
  {
    var states, steps :| RunTo(c, states, steps, false, x);
    WithinWindowEnds(c, states, steps, readings, false);
    DoneStays(c, x, readings, 2, passes);
  }

  lemma DrainInRun(c: Settings, x: Loop, p: Publication, passes: nat, clock: real)
    requires Reached(c, x, false) && Timely(p, passes, clock) && x.clock == p.now
    requires !After(c, x, p.readings, passes).draining
    ensures InRun(c, After(c, x, p.readings, passes), x.sent, p.end)
  {
    AfterReached(c, x, p.readings, passes);
  }

  lemma IdleWantsNothing(c: Settings, y: Loop)
    requires ValidSettings(c) && c.limit <= c.window && Reached(c, y, false) && !y.draining
    ensures Wanted(y.heard, y.frames.Keys) == {}
  {
    var states, steps :| RunTo(c, states, steps, false, y);
    RunKeepsInv(c, states, steps, false, |steps|);
    forall s | s in y.frames ensures s !in Wanted(y.heard, y.frames.Keys) { assert Settled(y, s); }
  }

  /** Publish one frame, and recover if it was delivered. */
  method PublishOne(talker: FleetRmwSocketTalker, listener: RmwAckNackTracker, stream: StreamKey, p: Publication,
                    n: nat, passes: nat, ghost x: Loop, ghost clock: real)
    returns (ended: bool, taken: nat, retransmitted: nat, ghost z: Loop)
    requires var c := SettingsOf(talker, listener);
             && ValidSettings(c) && Reached(c, x, false) && Timely(p, passes, clock)
             && IsPublished(c, listener.At(stream), talker.FramesOf(stream), n, p, x)
    modifies talker, listener
    ensures ended ==> listener.At(stream) == z.heard && talker.FramesOf(stream) == z.frames
    ensures ended ==> InRun(SettingsOf(talker, listener), z, n + 1, p.end)
    ensures taken == retransmitted + if p.delivered then 1 else 0
    ensures talker.limit <= listener.window && passes >= 2 ==> ended
    ensures OthersHeard(old(listener.streams), listener.streams, stream)
    ensures OthersFade(old(talker.sent), talker.sent, stream)
  {
    ghost var c := SettingsOf(talker, listener);
    talker.Remember(stream, n + 1, p.payload, p.at, p.now);
    PrunedOthersFade(old(talker.sent), talker.sent, p.now, talker.horizon, talker.limit, stream);
    ghost var held := talker.sent;
    ended, taken, retransmitted, z := true, 0, 0, x;
    if p.delivered {
      ended, taken, retransmitted := DrainOneDelivery(talker, listener, stream, n + 1, true, p.readings, passes, x);
      OthersFadeTrans(old(talker.sent), held, talker.sent, stream);
      z := After(c, x, p.readings, passes);
      if ended { DrainInRun(c, x, p, passes, clock); }
      if c.limit <= c.window && passes >= 2 { DrainsInTwo(c, x, p.readings, passes); }
    }
  }

  /** Publish every frame of one stream, and recover after every one delivered. When the history
      is no longer than the window two passes always do, and in the end nothing the talker holds
      is missing at the listener. What the listener takes is what arrived at once and what was
      sent again. */
  method PublishAll(talker: FleetRmwSocketTalker, listener: RmwAckNackTracker, stream: StreamKey,
                    plan: seq<Publication>, passes: nat, ghost start: real)
    returns (done: bool, published: nat, taken: nat, retransmitted: nat)
    requires listener.At(stream).Fresh? && talker.HeldOf(stream) == {}
    requires ValidSettings(SettingsOf(talker, listener)) && TimelyPlan(plan, passes, start)
    modifies talker, listener
    ensures talker.limit <= listener.window && passes >= 2 ==>
              done && Wanted(listener.At(stream), talker.HeldOf(stream)) == {}
    ensures done ==> published == |plan| && taken == Deliveries(plan) + retransmitted
    ensures OthersHeard(old(listener.streams), listener.streams, stream)
    ensures OthersFade(old(talker.sent), talker.sent, stream)
  {
    ghost var c := SettingsOf(talker, listener);
    ghost var y := Start(start);
    StartReached(c, start, false);
    done, published, taken, retransmitted := true, 0, 0, 0;
    while published < |plan|
      invariant published <= |plan| && InRun(c, y, published, EndOf(plan[..published], start))
      invariant listener.At(stream) == y.heard && talker.FramesOf(stream) == y.frames
      invariant taken == Deliveries(plan[..published]) + retransmitted
      invariant OthersHeard(old(listener.streams), listener.streams, stream)
      invariant OthersFade(old(talker.sent), talker.sent, stream)
    {
      var p, n := plan[published], published;
      ghost var clock := EndOf(plan[..n], start);
      PublishReached(c, y, p);
      PublishIsPublished(c, y, p);
      var more, again;
      ghost var heard, held := listener.streams, talker.sent;
      done, more, again, y :=
        PublishOne(talker, listener, stream, p, n, passes, Publish(c, y, p.payload, p.delivered, p.at, p.now), clock);
      OthersHeardTrans(old(listener.streams), heard, listener.streams, stream);
      OthersFadeTrans(old(talker.sent), held, talker.sent, stream);
      assert plan[..n + 1][..n] == plan[..n];
      published, taken, retransmitted := n + 1, taken + more, retransmitted + again;
      if !done { return; }
    }
    assert plan[..|plan|] == plan;
    if c.limit <= c.window { IdleWantsNothing(c, y); }
  }

  // ---------------------------------------------------------------- all streams

  function PublishedIn(plans: seq<seq<Publication>>): nat {
    if plans == [] then 0 else PublishedIn(plans[..|plans| - 1]) + |plans[|plans| - 1]|
  }

  function DeliveredIn(plans: seq<seq<Publication>>): nat {
    if plans == [] then 0 else DeliveredIn(plans[..|plans| - 1]) + Deliveries(plans[|plans| - 1])
  }

  function EndOfAll(plans: seq<seq<Publication>>, start: real): real {
    if plans == [] then start else EndOf(plans[|plans| - 1], EndOfAll(plans[..|plans| - 1], start))
  }

  ghost predicate TimelyPlans(plans: seq<seq<Publication>>, passes: nat, start: real) {
    forall i {:trigger plans[i]} :: 0 <= i < |plans| ==> TimelyPlan(plans[i], passes, EndOfAll(plans[..i], start))
  }

  /** Streams from `n` on are not known to either side yet. */
  predicate Unknown(heard: map<StreamKey, Source>, held: map<StreamKey, Frames>, n: nat) {
    (forall k :: k in heard ==> k < n) && forall k :: k in held ==> k < n
  }

  predicate ServedAt(heard: map<StreamKey, Source>, held: map<StreamKey, Frames>, k: StreamKey) {
    Wanted(if k in heard then heard[k] else Fresh, if k in held then held[k].Keys else {}) == {}
  }

  /** Of the first `n` streams nothing still held is missing. */
  ghost predicate AllServed(heard: map<StreamKey, Source>, held: map<StreamKey, Frames>, n: nat) {
    forall k: nat {:trigger ServedAt(heard, held, k)} :: k < n ==> ServedAt(heard, held, k)
  }

  lemma OneMoreKnown(a: map<StreamKey, Source>, b: map<StreamKey, Source>, f: map<StreamKey, Frames>,
                     g: map<StreamKey, Frames>, n: nat)
    requires OthersHeard(a, b, n) && OthersFade(f, g, n) && Unknown(a, f, n)
    ensures Unknown(b, g, n + 1)
  {
    forall k | k in b ensures k < n + 1 { if k != n { assert HeardSame(a, b, k); } }
    forall k | k in g ensures k < n + 1 { if k != n { assert Fades(f, g, k); } }
  }

  lemma OneMoreServed(a: map<StreamKey, Source>, b: map<StreamKey, Source>, f: map<StreamKey, Frames>,
                      g: map<StreamKey, Frames>, n: nat)
    requires OthersHeard(a, b, n) && OthersFade(f, g, n) && AllServed(a, f, n) && ServedAt(b, g, n)
    ensures AllServed(b, g, n + 1)
  {
    forall k: nat | k < n + 1 ensures ServedAt(b, g, k) {
      if k != n { assert HeardSame(a, b, k) && Fades(f, g, k) && ServedAt(a, f, k); }
    }
  }

  /** `run` with recovery: one robot's stream after the other, over one talker and one listener.
      While a later stream is published, frames of earlier ones may still expire. */
  method Run(talker: FleetRmwSocketTalker, listener: RmwAckNackTracker, plans: seq<seq<Publication>>, passes: nat,
             ghost start: real) returns (done: bool, published: nat, taken: nat, retransmitted: nat)
    requires listener.streams == map[] && talker.sent == map[]
    requires ValidSettings(SettingsOf(talker, listener)) && TimelyPlans(plans, passes, start)
    modifies talker, listener
    ensures talker.limit <= listener.window && passes >= 2 ==>
              done && AllServed(listener.streams, talker.sent, |plans|)
    ensures done ==> published == PublishedIn(plans) && taken == DeliveredIn(plans) + retransmitted
  {
    done, published, taken, retransmitted := true, 0, 0, 0;
    for i := 0 to |plans|
      invariant done && published == PublishedIn(plans[..i]) && taken == DeliveredIn(plans[..i]) + retransmitted
      invariant Unknown(listener.streams, talker.sent, i)
      invariant talker.limit <= listener.window && passes >= 2 ==> AllServed(listener.streams, talker.sent, i)
    {
      var sent, more, again;
      ghost var heard, held := listener.streams, talker.sent;
      done, sent, more, again := PublishAll(talker, listener, i, plans[i], passes, EndOfAll(plans[..i], start));
      assert plans[..i + 1][..i] == plans[..i];
      published, taken, retransmitted := published + sent, taken + more, retransmitted + again;
      if !done { return; }
      OneMoreKnown(heard, listener.streams, held, talker.sent, i);
      if talker.limit <= listener.window && passes >= 2 {
        OneMoreServed(heard, listener.streams, held, talker.sent, i);
      }
    }
    assert plans[..|plans|] == plans;
  }
}
