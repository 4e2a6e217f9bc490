/** Runs of many gateways over one durable store: writers acquire and lose the lease, recover,
    publish, take, stop and crash in any order and at any clock readings.

    Beside the real state a run keeps its past: `log` holds every frame ever appended to a
    stream, `handed` what each consumer was given, `lost` what a crash swallowed after the
    cursor was committed, and `gone` what was already evicted when a cursor moved past it.
 */
module GatewayRuns {
  import opened Numbers
  import opened GatewayStore

  datatype Writer =
    | Down
    | Acquired(hold: Hold)
    | Up(hold: Hold, mem: Memory)

  datatype Past = Past(
    log: map<Stream, seq<Row>>,
    handed: map<Consumer, seq<Row>>,
    lost: map<Consumer, set<nat>>,
    gone: map<Consumer, set<nat>>)

  datatype Sys = Sys(db: Db, writers: map<Name, Writer>, past: Past)

  /** `io` is an I/O error at commit; `crash` stops the process between commit and reply;
      `Quit` is an orderly close or a failed start-up, which both release the lease. */
  datatype Step =
    | Start(w: Name, leaseMs: int, now: int)
    | Load(w: Name)
    | Extend(w: Name, now: int)
    | Post(w: Name, f: Frame, now: int, admitted: bool, io: bool, crash: bool)
    | Get(w: Name, c: Consumer, now: int, io: bool, crash: bool)
    | Outcome(w: Name, s: Stream, key: FrameKey, now: int, io: bool)
    | Quit(w: Name, now: int)
    | Crash(w: Name)

  function WriterAt(y: Sys, w: Name): Writer { if w in y.writers then y.writers[w] else Down }
  function LogOf(p: Past, s: Stream): seq<Row> { if s in p.log then p.log[s] else [] }
  function HandedTo(p: Past, c: Consumer): seq<Row> { if c in p.handed then p.handed[c] else [] }
  function LostTo(p: Past, c: Consumer): set<nat> { if c in p.lost then p.lost[c] else {} }
  function GoneFor(p: Past, c: Consumer): set<nat> { if c in p.gone then p.gone[c] else {} }
  function CursorOf(d: Data, c: Consumer): nat { if c in d.cursors then d.cursors[c] else 0 }
  function TokenOf(lease: Lease): nat { if lease.Lease? then lease.token else 0 }

  /** The offsets a cursor move passes over because they are no longer stored. */
  function Evictions(rows: seq<Row>, a: nat, b: nat): (r: set<nat>)
    ensures forall o :: o in r <==> (a <= o < b && !Stored(rows, o))
    decreases b - a
  {
    if a >= b then {}
    else (if Stored(rows, a) then {} else {a}) + Evictions(rows, a + 1, b)
  }

  const Initial := Sys(Db(NoLease, Data(map[], map[], map[], map[])), map[], Past(map[], map[], map[], map[]))

  function WithLease(y: Sys, w: Name, lease: Lease, me: Writer): Sys {
    Sys(Db(lease, y.db.data), y.writers[w := me], y.past)
  }

  function StartStep(y: Sys, w: Name, leaseMs: int, now: int): Sys {
    if !WriterAt(y, w).Down? || !MayAcquire(y.db.lease, w, leaseMs, now) then y
    else
      var lease := Acquire(y.db.lease, w, leaseMs, now);
      WithLease(y, w, lease, Acquired(Hold(w, TokenOf(lease), leaseMs)))
  }

  function LoadStep(l: Limits, y: Sys, w: Name): Sys {
    if !WriterAt(y, w).Acquired? then y
    else
      Sys(Db(y.db.lease, Trimmed(y.db.data, l)),
          y.writers[w := Up(WriterAt(y, w).hold, Recover(y.db.data, l))], y.past)
  }

  function QuitStep(y: Sys, w: Name, now: int): Sys {
    if WriterAt(y, w).Down? then y
    else WithLease(y, w, Release(y.db.lease, WriterAt(y, w).hold, now), Down)
  }

  function ExtendStep(y: Sys, w: Name, now: int): Sys {
    if WriterAt(y, w).Down? then y
    else WithLease(y, w, Renew(y.db.lease, WriterAt(y, w).hold, now), WriterAt(y, w))
  }

  function Logged(p: Past, f: Frame, r: Published): Past {
    if r.Accepted? then p.(log := p.log[f.stream := LogOf(p, f.stream) + [Row(r.offset, f.payload, f.key)]]) else p
  }

  function PostStep(l: Limits, y: Sys, w: Name, f: Frame, now: int, admitted: bool, io: bool, crash: bool): Sys {
    var me := WriterAt(y, w);
    if !me.Up? then y
    else
      var r := PublishResult(y.db, me.mem, me.hold, now, f, admitted, io);
      Sys(Db(y.db.lease, PublishData(y.db.data, me.mem, l, f, r)),
          y.writers[w := if crash then Down else Up(me.hold, PublishMemory(me.mem, l, f, r))],
          Logged(y.past, f, r))
  }

  function Handed(p: Past, c: Consumer, r: Taken, crash: bool, passed: set<nat>): Past {
    Past(p.log,
         if r.Delivered? && !crash then p.handed[c := HandedTo(p, c) + [r.row]] else p.handed,
         if r.Delivered? && crash then p.lost[c := LostTo(p, c) + {r.row.offset}] else p.lost,
         p.gone[c := GoneFor(p, c) + passed])
  }

  function GetStep(y: Sys, w: Name, c: Consumer, now: int, io: bool, crash: bool): Sys {
    var me := WriterAt(y, w);
    if !me.Up? then y
    else
      var r := TakeResult(y.db, me.mem, me.hold, now, c, io);
      var d := y.db.data.(cursors := CursorsAfterTake(y.db.data.cursors, me.mem, c, r));
      var m := me.mem.(cursors := CursorsAfterTake(me.mem.cursors, me.mem, c, r));
      Sys(Db(y.db.lease, d), y.writers[w := if crash then Down else Up(me.hold, m)],
          Handed(y.past, c, r, crash,
                 Evictions(RowsOf(d, c.stream), CursorOf(y.db.data, c), CursorOf(d, c))))
  }

  function OutcomeStep(l: Limits, y: Sys, w: Name, s: Stream, key: FrameKey, now: int, io: bool): Sys {
    var me := WriterAt(y, w);
    if !me.Up? || io || !Verified(y.db.lease, me.hold, now) then y
    else Sys(Db(y.db.lease, WithOutcome(y.db.data, s, key, l.dedupCapacity)), y.writers, y.past)
  }

  function CrashStep(y: Sys, w: Name): Sys { WithLease(y, w, y.db.lease, Down) }

  function Next(l: Limits, y: Sys, step: Step): Sys {
    match step
    case Start(w, leaseMs, now) => StartStep(y, w, leaseMs, now)
    case Load(w) => LoadStep(l, y, w)
    case Extend(w, now) => ExtendStep(y, w, now)
    case Post(w, f, now, admitted, io, crash) => PostStep(l, y, w, f, now, admitted, io, crash)
    case Get(w, c, now, io, crash) => GetStep(y, w, c, now, io, crash)
    case Outcome(w, s, key, now, io) => OutcomeStep(l, y, w, s, key, now, io)
    case Quit(w, now) => QuitStep(y, w, now)
    case Crash(w) => CrashStep(y, w)
  }

  predicate Follows(l: Limits, y: Sys, step: Step, y': Sys) { y' == Next(l, y, step) }

  predicate IsRun(l: Limits, states: seq<Sys>, steps: seq<Step>) {
    && |states| == |steps| + 1
    && states[0] == Initial
    && forall i {:trigger Follows(l, states[i], steps[i], states[i + 1])} ::
         0 <= i < |steps| ==> Follows(l, states[i], steps[i], states[i + 1])
  }

  // ---------------------------------------------------------------- invariant

  function KeysIn(rows: seq<Row>): (r: seq<FrameKey>)
    ensures |r| == |rows| && forall i :: 0 <= i < |rows| ==> r[i] == rows[i].key
  {
    seq(|rows|, i requires 0 <= i < |rows| => rows[i].key)
  }

  /** The frame logged at position i has offset i. */
  predicate Numbered(log: seq<Row>) { forall i :: 0 <= i < |log| ==> log[i].offset == i }

  predicate Apart(log: seq<Row>, i: nat, j: nat) requires i < |log| && j < |log| { log[i].key != log[j].key }

  /** A dedup key comes back only more than `d` frames later. */
  predicate Spaced(log: seq<Row>, d: nat) {
    forall i, j {:trigger Apart(log, i, j)} :: 0 <= i < j < |log| && j - i <= d ==> Apart(log, i, j)
  }

  /** The tables of a stream hold the tails of its log. */
  predicate Tables(l: Limits, log: seq<Row>, rows: seq<Row>, keys: seq<FrameKey>) {
    && Numbered(log) && Spaced(log, l.dedupCapacity)
    && rows == Last(log, l.maxFrames)
    && keys == KeysIn(Last(log, l.dedupCapacity))
  }

  predicate Known(outcomes: seq<FrameKey>, keys: seq<FrameKey>) { forall k :: k in outcomes ==> k in keys }

  predicate StreamOk(l: Limits, d: Data, p: Past, s: Stream) {
    && Tables(l, LogOf(p, s), RowsOf(d, s), KeysOf(d, s))
    && Known(OutcomesOf(d, s), KeysOf(d, s))
  }

  /** Memory agrees with what recovery would rebuild; an empty history counts as none. */
  predicate StreamMirrored(l: Limits, d: Data, m: Memory, s: Stream) {
    var h, r := HistoryOf(m, s), RecoveredHistory(d, l, s);
    h.records == r.records && h.nextOffset == r.nextOffset
  }

  ghost predicate Mirrors(l: Limits, d: Data, m: Memory) {
    && m.cursors == d.cursors
    && forall s {:trigger StreamMirrored(l, d, m, s)} :: StreamMirrored(l, d, m, s)
  }

  predicate HoldOk(lease: Lease, w: Name, hold: Hold) {
    && hold.Hold? && hold.holder == w && lease.Lease? && hold.token <= lease.token
    && (hold.token == lease.token ==> lease.holder == w)
  }

  ghost predicate WriterOk(l: Limits, db: Db, me: Writer, w: Name) {
    && (!me.Down? ==> HoldOk(db.lease, w, me.hold))
    && (me.Up? && Current(db.lease, me.hold) ==> Mirrors(l, db.data, me.mem))
  }

  predicate Increasing(rows: seq<Row>) {
    forall i, j :: 0 <= i < j < |rows| ==> rows[i].offset < rows[j].offset
  }

  /** What a consumer was given, against the log and its committed cursor. */
  predicate Delivery(at: nat, log: seq<Row>, given: seq<Row>) {
    && at <= |log| && Increasing(given)
    && forall i :: 0 <= i < |given| ==> given[i].offset < at && log[given[i].offset] == given[i]
  }

  predicate Accounted(given: seq<Row>, lost: set<nat>, gone: set<nat>, o: nat) {
    Stored(given, o) || o in lost || o in gone
  }

  predicate AllAccounted(at: nat, given: seq<Row>, lost: set<nat>, gone: set<nat>) {
    forall o {:trigger Accounted(given, lost, gone, o)} :: 0 <= o < at ==> Accounted(given, lost, gone, o)
  }

  predicate ConsumerOk(d: Data, p: Past, c: Consumer) {
    && Delivery(CursorOf(d, c), LogOf(p, c.stream), HandedTo(p, c))
    && AllAccounted(CursorOf(d, c), HandedTo(p, c), LostTo(p, c), GoneFor(p, c))
  }

  ghost predicate DataOk(l: Limits, d: Data, p: Past) {
    && (forall s {:trigger StreamOk(l, d, p, s)} :: StreamOk(l, d, p, s))
    && (forall c {:trigger ConsumerOk(d, p, c)} :: ConsumerOk(d, p, c))
  }

  ghost predicate WritersOk(l: Limits, y: Sys) {
    forall w {:trigger WriterOk(l, y.db, WriterAt(y, w), w)} :: WriterOk(l, y.db, WriterAt(y, w), w)
  }

  ghost predicate Inv(l: Limits, y: Sys) { DataOk(l, y.db.data, y.past) && WritersOk(l, y) }

  // ---------------------------------------------------------------- stored rows

  lemma {:induction false} NextAfterNumbered(rows: seq<Row>, base: nat)
    requires forall i :: 0 <= i < |rows| ==> rows[i].offset == base + i
    ensures NextAfter(rows) == if rows == [] then 0 else base + |rows|
  {
    if rows != [] { NextAfterNumbered(rows[..|rows| - 1], base); }
  }

  lemma TailNumbered(log: seq<Row>, n: nat)
    requires Numbered(log)
    ensures var rows := Last(log, n); forall i :: 0 <= i < |rows| ==> rows[i].offset == |log| - |rows| + i
  {
    var rows := Last(log, n);
    forall i | 0 <= i < |rows| ensures rows[i].offset == |log| - |rows| + i { TailAt(log, n, i); }
  }

  lemma TailAt(log: seq<Row>, n: nat, k: nat)
    requires k < |Last(log, n)|
    ensures Last(log, n)[k] == log[|log| - |Last(log, n)| + k]
  {
    if |log| > n { LastCut(log, n); }
  }

  lemma TailNext(log: seq<Row>, n: nat)
    requires n >= 1 && Numbered(log)
    ensures NextAfter(Last(log, n)) == |log|
  {
    var rows := Last(log, n);
    forall i | 0 <= i < |rows| ensures rows[i].offset == |log| - |rows| + i { TailAt(log, n, i); }
    NextAfterNumbered(rows, |log| - |rows|);
  }

  /** Recovery of a stream whose table is a tail of its log continues at the end of the log. */
  lemma RecoveredIsTail(l: Limits, d: Data, s: Stream, log: seq<Row>)
    requires ValidLimits(l) && Tables(l, log, RowsOf(d, s), KeysOf(d, s))
    ensures RecoveredHistory(d, l, s).records == Last(log, l.maxFrames)
    ensures RecoveredHistory(d, l, s).nextOffset == |log|
  {
    TailNext(log, l.maxFrames);
  }

  lemma {:induction false} KeepAll(outcomes: seq<FrameKey>, keys: seq<FrameKey>)
    requires Known(outcomes, keys)
    ensures Keep(outcomes, keys) == outcomes
  {
    if outcomes != [] { KeepAll(outcomes[1..], keys); }
  }

  lemma StreamTrimsNothing(l: Limits, d: Data, p: Past, s: Stream)
    requires ValidLimits(l) && StreamOk(l, d, p, s)
    ensures Last(RowsOf(d, s), l.maxFrames) == RowsOf(d, s)
    ensures Last(KeysOf(d, s), l.dedupCapacity) == KeysOf(d, s)
    ensures Keep(OutcomesOf(d, s), KeysOf(d, s)) == OutcomesOf(d, s)
  {
    KeepAll(OutcomesOf(d, s), KeysOf(d, s));
  }

  /** Recovery under the limits the writers wrote with trims nothing. */
  lemma RecoverTrimsNothing(l: Limits, d: Data, p: Past)
    requires ValidLimits(l) && DataOk(l, d, p)
    ensures Trimmed(d, l) == d
  {
    var d' := Trimmed(d, l);
    assert d'.frames == d.frames by {
      forall s | s in d.frames ensures d'.frames[s] == d.frames[s] {
        assert StreamOk(l, d, p, s);
        StreamTrimsNothing(l, d, p, s);
      }
    }
    assert d'.dedup == d.dedup by {
      forall s | s in d.dedup ensures d'.dedup[s] == d.dedup[s] {
        assert StreamOk(l, d, p, s);
        StreamTrimsNothing(l, d, p, s);
      }
    }
    assert d'.outcomes == d.outcomes by {
      forall s | s in d.outcomes ensures d'.outcomes[s] == d.outcomes[s] {
        assert StreamOk(l, d, p, s);
        StreamTrimsNothing(l, d, p, s);
      }
    }
  }

  lemma {:induction false} DeleteAbsent(rows: seq<Row>, offset: nat)
    requires forall i :: 0 <= i < |rows| ==> rows[i].offset != offset
    ensures DeleteOffset(rows, offset) == rows
  {
    if rows != [] { DeleteAbsent(rows[1..], offset); }
  }

  /** Evicting the oldest of a full table keeps the table the tail of the longer log. */
  lemma TailAfterAppend(log: seq<Row>, row: Row, n: nat)
    requires n >= 1 && Numbered(log) && row.offset == |log|
    ensures var rows := Last(log, n);
            && InsertRow(rows, row) == rows + [row]
            && (if |rows| >= n then DeleteOffset(rows + [row], rows[0].offset) else rows + [row])
               == Last(log + [row], n)
            && Last(rows + [row], n) == Last(log + [row], n)
  {
    var rows := Last(log, n);
    if |log| > n { LastCut(log, n); }
    if |log + [row]| > n { LastCut(log + [row], n); }
    if |rows| >= n {
      var rest := (rows + [row])[1..];
      DeleteAbsent(rest, rows[0].offset);
      assert DeleteOffset(rows + [row], rows[0].offset) == rest;
    }
  }

  lemma SpacedAfterAppend(log: seq<Row>, row: Row, d: nat)
    requires Spaced(log, d) && row.key !in KeysIn(Last(log, d))
    ensures Spaced(log + [row], d)
  {
    var tail, more := Last(log, d), log + [row];
    if |log| > d { LastCut(log, d); }
    forall i, j | 0 <= i < j < |more| && j - i <= d ensures Apart(more, i, j) {
      if j < |log| { assert Apart(log, i, j); }
      else { assert KeysIn(tail)[i - (|log| - |tail|)] == log[i].key; }
    }
  }

  lemma LastSnoc<T>(s: seq<T>, x: T, n: nat)
    ensures Last(Last(s, n) + [x], n) == Last(s + [x], n)
  {
    if |s| > n {
      LastCut(s, n);
      LastCut(Last(s, n) + [x], n);
      LastCut(s + [x], n);
    }
  }

  lemma {:induction false} KeysLast(log: seq<Row>, d: nat)
    ensures KeysIn(Last(log, d)) == Last(KeysIn(log), d)
  {
    if |log| > d {
      assert KeysIn(log[1..]) == KeysIn(log)[1..];
      KeysLast(log[1..], d);
    }
  }

  lemma KeysAfterAppend(log: seq<Row>, row: Row, d: nat)
    ensures Last(KeysIn(Last(log, d)) + [row.key], d) == KeysIn(Last(log + [row], d))
  {
    KeysLast(log, d);
    KeysLast(log + [row], d);
    assert KeysIn(log + [row]) == KeysIn(log) + [row.key];
    LastSnoc(KeysIn(log), row.key, d);
  }

  lemma {:induction false} KeptKnown(outcomes: seq<FrameKey>, keys: seq<FrameKey>)
    ensures Known(Keep(outcomes, keys), keys)
  {
    if outcomes != [] { KeptKnown(outcomes[1..], keys); }
  }

  // ---------------------------------------------------------------- steps that touch the lease only

  /** The lease stays with its holder under the same token, or the token grows. */
  predicate Forward(a: Lease, b: Lease) {
    a.Lease? ==> b.Lease? && b.token >= a.token && (b.token == a.token ==> b.holder == a.holder)
  }

  lemma ForwardKeepsWriter(l: Limits, y: Sys, lease: Lease, w: Name)
    requires Forward(y.db.lease, lease) && WriterOk(l, y.db, WriterAt(y, w), w)
    ensures WriterOk(l, Db(lease, y.db.data), WriterAt(y, w), w)
  {
  }

  lemma LeaseStepKeepsInv(l: Limits, y: Sys, w: Name, lease: Lease, me: Writer)
    requires Inv(l, y) && Forward(y.db.lease, lease)
    requires me.Down? || (me.Acquired? && HoldOk(lease, w, me.hold)) || me == WriterAt(y, w)
    ensures Inv(l, WithLease(y, w, lease, me))
  {
    var y' := WithLease(y, w, lease, me);
    forall v ensures WriterOk(l, y'.db, WriterAt(y', v), v) {
      assert WriterOk(l, y.db, WriterAt(y, v), v);
      ForwardKeepsWriter(l, y, lease, v);
    }
  }

  lemma StartKeepsInv(l: Limits, y: Sys, w: Name, leaseMs: int, now: int)
    requires Inv(l, y)
    ensures Inv(l, StartStep(y, w, leaseMs, now))
  {
    if WriterAt(y, w).Down? && MayAcquire(y.db.lease, w, leaseMs, now) {
      var lease := Acquire(y.db.lease, w, leaseMs, now);
      LeaseStepKeepsInv(l, y, w, lease, Acquired(Hold(w, TokenOf(lease), leaseMs)));
    }
  }

  lemma QuitKeepsInv(l: Limits, y: Sys, w: Name, now: int)
    requires Inv(l, y)
    ensures Inv(l, QuitStep(y, w, now))
  {
    if !WriterAt(y, w).Down? { LeaseStepKeepsInv(l, y, w, Release(y.db.lease, WriterAt(y, w).hold, now), Down); }
  }

  lemma ExtendKeepsInv(l: Limits, y: Sys, w: Name, now: int)
    requires Inv(l, y)
    ensures Inv(l, ExtendStep(y, w, now))
  {
    var me := WriterAt(y, w);
    if !me.Down? { LeaseStepKeepsInv(l, y, w, Renew(y.db.lease, me.hold, now), me); }
  }

  lemma SelfMirror(l: Limits, d: Data)
    ensures Mirrors(l, d, Recover(d, l))
  {
    forall s ensures StreamMirrored(l, d, Recover(d, l), s) { RecoveredAt(d, l, s); }
  }

  /** Replacing one writer's own state, on unchanged data. */
  lemma OwnStateKeepsInv(l: Limits, y: Sys, w: Name, me: Writer)
    requires Inv(l, y) && WriterOk(l, y.db, me, w)
    ensures Inv(l, Sys(y.db, y.writers[w := me], y.past))
  {
    var y' := Sys(y.db, y.writers[w := me], y.past);
    forall v ensures WriterOk(l, y'.db, WriterAt(y', v), v) { assert WriterOk(l, y.db, WriterAt(y, v), v); }
  }

  lemma LoadKeepsInv(l: Limits, y: Sys, w: Name)
    requires ValidLimits(l) && Inv(l, y)
    ensures Inv(l, LoadStep(l, y, w)) && LoadStep(l, y, w).db == y.db
  {
    if WriterAt(y, w).Acquired? {
      RecoverTrimsNothing(l, y.db.data, y.past);
      assert WriterOk(l, y.db, WriterAt(y, w), w);
      SelfMirror(l, y.db.data);
      OwnStateKeepsInv(l, y, w, Up(WriterAt(y, w).hold, Recover(y.db.data, l)));
    }
  }

  // ---------------------------------------------------------------- steps that write data

  /** Only the holder of the stored lease passes the fence; nobody else is current. */
  lemma FencedWriteKeepsWriters(l: Limits, y: Sys, w: Name, d: Data, me: Writer, p: Past)
    requires WritersOk(l, y) && y.db.lease.Lease? && y.db.lease.holder == w
    requires WriterOk(l, Db(y.db.lease, d), me, w)
    ensures WritersOk(l, Sys(Db(y.db.lease, d), y.writers[w := me], p))
  {
    var y' := Sys(Db(y.db.lease, d), y.writers[w := me], p);
    forall v ensures WriterOk(l, y'.db, WriterAt(y', v), v) { assert WriterOk(l, y.db, WriterAt(y, v), v); }
  }

  /** The append transaction with the next free offset and the oldest stored frame evicted. */
  lemma AppendKeepsTables(l: Limits, d: Data, f: Frame, log: seq<Row>, evict: Eviction)
    requires ValidLimits(l) && Tables(l, log, RowsOf(d, f.stream), KeysOf(d, f.stream))
    requires evict == if |RowsOf(d, f.stream)| >= l.maxFrames then Oldest(RowsOf(d, f.stream)[0].offset) else Nothing
    requires MayAppend(d, f, |log|)
    ensures var d' := Appended(d, f, |log|, evict, l.dedupCapacity);
            Tables(l, log + [Row(|log|, f.payload, f.key)], RowsOf(d', f.stream), KeysOf(d', f.stream))
  {
    var row := Row(|log|, f.payload, f.key);
    TailAfterAppend(log, row, l.maxFrames);
    KeysAfterAppend(log, row, l.dedupCapacity);
    SpacedAfterAppend(log, row, l.dedupCapacity);
  }

  lemma AppendElsewhere(d: Data, f: Frame, offset: nat, evict: Eviction, capacity: nat, s: Stream)
    requires s != f.stream
    ensures var d' := Appended(d, f, offset, evict, capacity);
            RowsOf(d', s) == RowsOf(d, s) && KeysOf(d', s) == KeysOf(d, s) && OutcomesOf(d', s) == OutcomesOf(d, s)
  {
  }

  lemma AppendKeepsOutcomes(d: Data, f: Frame, offset: nat, evict: Eviction, capacity: nat)
    ensures var d' := Appended(d, f, offset, evict, capacity);
            Known(OutcomesOf(d', f.stream), KeysOf(d', f.stream))
  {
    KeptKnown(OutcomesOf(d, f.stream), Last(KeysOf(d, f.stream) + [f.key], capacity));
  }

  /** A publish accepted from a memory that mirrors the tables continues the log. */
  lemma AcceptedKeepsStream(l: Limits, d: Data, m: Memory, f: Frame, p: Past, r: Published)
    requires ValidLimits(l) && StreamOk(l, d, p, f.stream) && StreamMirrored(l, d, m, f.stream)
    requires r == Accepted(HistoryOf(m, f.stream).nextOffset) && MayAppend(d, f, r.offset)
    ensures StreamOk(l, PublishData(d, m, l, f, r), Logged(p, f, r), f.stream)
    ensures r.offset == |LogOf(p, f.stream)|
  {
    var log, evict := LogOf(p, f.stream), Evicted(HistoryOf(m, f.stream), l);
    RecoveredIsTail(l, d, f.stream, log);
    AppendKeepsTables(l, d, f, log, evict);
    AppendKeepsOutcomes(d, f, |log|, evict, l.dedupCapacity);
  }

  lemma AcceptedKeepsStreams(l: Limits, d: Data, m: Memory, f: Frame, p: Past, r: Published)
    requires ValidLimits(l) && DataOk(l, d, p) && StreamMirrored(l, d, m, f.stream)
    requires r == Accepted(HistoryOf(m, f.stream).nextOffset) && MayAppend(d, f, r.offset)
    ensures forall s {:trigger StreamOk(l, PublishData(d, m, l, f, r), Logged(p, f, r), s)} ::
              StreamOk(l, PublishData(d, m, l, f, r), Logged(p, f, r), s)
  {
    var d', p' := PublishData(d, m, l, f, r), Logged(p, f, r);
    forall s ensures StreamOk(l, d', p', s) {
      assert StreamOk(l, d, p, s);
      if s == f.stream { AcceptedKeepsStream(l, d, m, f, p, r); }
      else { AppendElsewhere(d, f, r.offset, Evicted(HistoryOf(m, f.stream), l), l.dedupCapacity, s); }
    }
  }

  lemma LoggedKeepsConsumer(d: Data, d': Data, p: Past, f: Frame, r: Published, c: Consumer)
    requires ConsumerOk(d, p, c) && d'.cursors == d.cursors
    ensures ConsumerOk(d', Logged(p, f, r), c)
  {
    var log, log' := LogOf(p, c.stream), LogOf(Logged(p, f, r), c.stream);
    assert log <= log';
  }

  lemma AcceptedKeepsData(l: Limits, d: Data, m: Memory, f: Frame, p: Past, r: Published)
    requires ValidLimits(l) && DataOk(l, d, p) && StreamMirrored(l, d, m, f.stream)
    requires r == Accepted(HistoryOf(m, f.stream).nextOffset) && MayAppend(d, f, r.offset)
    ensures DataOk(l, PublishData(d, m, l, f, r), Logged(p, f, r))
  {
    var d', p' := PublishData(d, m, l, f, r), Logged(p, f, r);
    AcceptedKeepsStreams(l, d, m, f, p, r);
    forall c ensures ConsumerOk(d', p', c) {
      assert ConsumerOk(d, p, c);
      LoggedKeepsConsumer(d, d', p, f, r, c);
    }
  }

  lemma GrownIsTail(l: Limits, h: History, f: Frame, log: seq<Row>)
    requires ValidLimits(l) && Numbered(log) && h.records == Last(log, l.maxFrames) && h.nextOffset == |log|
    ensures var more := log + [Row(|log|, f.payload, f.key)];
            Grown(h, l, f).records == Last(more, l.maxFrames) && Grown(h, l, f).nextOffset == |more|
  {
    TailAfterAppend(log, Row(|log|, f.payload, f.key), l.maxFrames);
  }

  lemma LoggedAt(p: Past, f: Frame, r: Published)
    requires r.Accepted?
    ensures LogOf(Logged(p, f, r), f.stream) == LogOf(p, f.stream) + [Row(r.offset, f.payload, f.key)]
  {
  }

  lemma AcceptedMirrored(l: Limits, d: Data, m: Memory, f: Frame, p: Past, r: Published)
    requires ValidLimits(l) && StreamOk(l, d, p, f.stream) && StreamMirrored(l, d, m, f.stream)
    requires r == Accepted(HistoryOf(m, f.stream).nextOffset) && MayAppend(d, f, r.offset)
    ensures StreamMirrored(l, PublishData(d, m, l, f, r), PublishMemory(m, l, f, r), f.stream)
  {
    var h, log := HistoryOf(m, f.stream), LogOf(p, f.stream);
    AcceptedKeepsStream(l, d, m, f, p, r);
    LoggedAt(p, f, r);
    RecoveredIsTail(l, d, f.stream, log);
    RecoveredIsTail(l, PublishData(d, m, l, f, r), f.stream, LogOf(Logged(p, f, r), f.stream));
    GrownIsTail(l, h, f, log);
    assert HistoryOf(PublishMemory(m, l, f, r), f.stream) == Grown(h, l, f);
  }

  lemma AcceptedKeepsMirror(l: Limits, d: Data, m: Memory, f: Frame, p: Past, r: Published)
    requires ValidLimits(l) && DataOk(l, d, p) && Mirrors(l, d, m)
    requires r == Accepted(HistoryOf(m, f.stream).nextOffset) && MayAppend(d, f, r.offset)
    ensures Mirrors(l, PublishData(d, m, l, f, r), PublishMemory(m, l, f, r))
  {
    var d', m' := PublishData(d, m, l, f, r), PublishMemory(m, l, f, r);
    forall s ensures StreamMirrored(l, d', m', s) {
      assert StreamMirrored(l, d, m, s);
      if s == f.stream { assert StreamOk(l, d, p, s); AcceptedMirrored(l, d, m, f, p, r); }
      else { AppendElsewhere(d, f, r.offset, Evicted(HistoryOf(m, f.stream), l), l.dedupCapacity, s); }
    }
  }

  lemma RefusedKeepsMirror(l: Limits, d: Data, m: Memory, f: Frame, r: Published)
    requires Mirrors(l, d, m) && !r.Accepted?
    ensures Mirrors(l, d, PublishMemory(m, l, f, r))
  {
    var m' := PublishMemory(m, l, f, r);
    forall s ensures StreamMirrored(l, d, m', s) { assert StreamMirrored(l, d, m, s); }
  }

  lemma PostKeepsInv(l: Limits, y: Sys, w: Name, f: Frame, now: int, admitted: bool, io: bool, crash: bool)
    requires ValidLimits(l) && Inv(l, y)
    ensures Inv(l, PostStep(l, y, w, f, now, admitted, io, crash))
  {
    var me := WriterAt(y, w);
    assert WriterOk(l, y.db, me, w);
    if me.Up? {
      var r := PublishResult(y.db, me.mem, me.hold, now, f, admitted, io);
      var m' := PublishMemory(me.mem, l, f, r);
      var me' := if crash then Down else Up(me.hold, m');
      if r.Accepted? {
        assert StreamMirrored(l, y.db.data, me.mem, f.stream);
        AcceptedKeepsData(l, y.db.data, me.mem, f, y.past, r);
        AcceptedKeepsMirror(l, y.db.data, me.mem, f, y.past, r);
        FencedWriteKeepsWriters(l, y, w, PublishData(y.db.data, me.mem, l, f, r), me', Logged(y.past, f, r));
      } else {
        if Current(y.db.lease, me.hold) { RefusedKeepsMirror(l, y.db.data, me.mem, f, r); }
        OwnStateKeepsInv(l, y, w, me');
      }
    }
  }

  // ---------------------------------------------------------------- taking frames

  lemma {:induction false} FirstNumbered(rows: seq<Row>, cursor: nat, base: nat)
    requires forall i :: 0 <= i < |rows| ==> rows[i].offset == base + i
    requires cursor >= base
    ensures FirstFrom(rows, cursor) == if cursor < base + |rows| then cursor - base else |rows|
  {
    if rows != [] && cursor > base { FirstNumbered(rows[1..], cursor, base + 1); }
  }

  /** From records that are the tail of the log, the cursor lands just behind the frame
      delivered and passes over offsets below the tail only. */
  lemma CursorMoves(n: nat, log: seq<Row>, h: History, at: nat, cursor: nat)
    requires n >= 1 && Numbered(log) && at <= |log|
    requires h.records == Last(log, n) && h.nextOffset == |log|
    requires cursor == MaxInt(at, BaseOffset(h))
    ensures var k, base := FirstFrom(h.records, cursor), |log| - |h.records|;
            if k < |h.records| then
              && h.records[k] == log[base + k] && log[base + k].offset == base + k
              && CursorAfter(h, cursor) == base + k + 1 && at <= base + k && (at < base + k ==> k == 0)
            else CursorAfter(h, cursor) == at
  {
    var base := |log| - |h.records|;
    TailNumbered(log, n);
    FirstNumbered(h.records, cursor, base);
    if FirstFrom(h.records, cursor) < |h.records| { TailAt(log, n, FirstFrom(h.records, cursor)); }
  }

  lemma NotStored(log: seq<Row>, n: nat, o: nat)
    requires Numbered(log) && o < |log| - |Last(log, n)|
    ensures !Stored(Last(log, n), o)
  {
    TailNumbered(log, n);
  }

  /** What a take does to a cursor: it stops behind the frame delivered, and every other
      offset it passes over is no longer stored. */
  predicate Moved(at: nat, at': nat, rows: seq<Row>, r: Taken, log: seq<Row>) {
    && at <= at' <= |log|
    && (r.Delivered? ==> at' == r.row.offset + 1 && at <= r.row.offset && log[r.row.offset] == r.row)
    && (forall o :: at <= o < at' ==> !Stored(rows, o) || (r.Delivered? && o == r.row.offset))
  }

  lemma MovedOverTail(log: seq<Row>, n: nat, at: nat, k: nat)
    requires n >= 1 && Numbered(log) && k < |Last(log, n)|
    requires var base := |log| - |Last(log, n)|; at <= base + k && (at < base + k ==> k == 0)
    ensures var base := |log| - |Last(log, n)|;
            Moved(at, base + k + 1, Last(log, n), Delivered(Last(log, n)[k]), log)
  {
    var base := |log| - |Last(log, n)|;
    TailAt(log, n, k);
    forall o | at <= o < base + k ensures !Stored(Last(log, n), o) { NotStored(log, n, o); }
  }

  lemma HistoryMoves(n: nat, log: seq<Row>, h: History, at: nat, cursor: nat)
    requires n >= 1 && Numbered(log) && at <= |log|
    requires h.records == Last(log, n) && h.nextOffset == |log|
    requires cursor == MaxInt(at, BaseOffset(h))
    ensures var k := FirstFrom(h.records, cursor);
            Moved(at, CursorAfter(h, cursor), h.records,
                  if k < |h.records| then Delivered(h.records[k]) else Empty, log)
  {
    CursorMoves(n, log, h, at, cursor);
    var k := FirstFrom(h.records, cursor);
    if k < |h.records| { MovedOverTail(log, n, at, k); }
  }

  lemma MirroredIsTail(l: Limits, d: Data, m: Memory, s: Stream, log: seq<Row>)
    requires ValidLimits(l) && Tables(l, log, RowsOf(d, s), KeysOf(d, s)) && StreamMirrored(l, d, m, s)
    ensures HistoryOf(m, s).records == RowsOf(d, s) == Last(log, l.maxFrames) && HistoryOf(m, s).nextOffset == |log|
  {
    RecoveredIsTail(l, d, s, log);
  }

  lemma TakeMoves(l: Limits, db: Db, m: Memory, hold: Hold, now: int, c: Consumer, log: seq<Row>)
    requires ValidLimits(l) && Tables(l, log, RowsOf(db.data, c.stream), KeysOf(db.data, c.stream))
    requires StreamMirrored(l, db.data, m, c.stream) && m.cursors == db.data.cursors
    requires CursorOf(db.data, c) <= |log| && c.stream in m.topics && Verified(db.lease, hold, now)
    ensures var h := m.topics[c.stream];
            Moved(CursorOf(db.data, c), CursorAfter(h, CursorFor(m, h, c)), RowsOf(db.data, c.stream),
                  TakeResult(db, m, hold, now, c, false), log)
  {
    MirroredIsTail(l, db.data, m, c.stream, log);
    var h := m.topics[c.stream];
    var cursor := CursorFor(m, h, c);
    assert cursor == MaxInt(CursorOf(db.data, c), BaseOffset(h));
    HistoryMoves(l.maxFrames, log, h, CursorOf(db.data, c), cursor);
  }

  lemma DeliveryGrows(at: nat, log: seq<Row>, given: seq<Row>, row: Row)
    requires Delivery(at, log, given) && at <= row.offset < |log| && log[row.offset] == row
    ensures Delivery(row.offset + 1, log, given + [row])
  {
  }

  lemma AccountedGrows(at: nat, at': nat, given: seq<Row>, given': seq<Row>, lost: set<nat>, lost': set<nat>,
                       gone: set<nat>, gone': set<nat>)
    requires AllAccounted(at, given, lost, gone) && given <= given' && lost <= lost' && gone <= gone'
    requires forall o :: at <= o < at' ==> Stored(given', o) || o in lost' || o in gone'
    ensures AllAccounted(at', given', lost', gone')
  {
    forall o | 0 <= o < at' ensures Accounted(given', lost', gone', o) {
      if o < at {
        assert Accounted(given, lost, gone, o);
        if Stored(given, o) {
          var i :| 0 <= i < |given| && given[i].offset == o;
          assert given'[i] == given[i];
        }
      }
    }
  }

  lemma TakeKeepsConsumer(d: Data, d': Data, p: Past, c: Consumer, r: Taken, crash: bool)
    requires ConsumerOk(d, p, c) && Moved(CursorOf(d, c), CursorOf(d', c), RowsOf(d, c.stream), r, LogOf(p, c.stream))
    ensures ConsumerOk(d', Handed(p, c, r, crash, Evictions(RowsOf(d, c.stream), CursorOf(d, c), CursorOf(d', c))), c)
  {
    var passed := Evictions(RowsOf(d, c.stream), CursorOf(d, c), CursorOf(d', c));
    var p' := Handed(p, c, r, crash, passed);
    var given, given' := HandedTo(p, c), HandedTo(p', c);
    if r.Delivered? { DeliveryGrows(CursorOf(d, c), LogOf(p, c.stream), given, r.row); }
    if r.Delivered? && !crash { assert given'[|given|].offset == r.row.offset; }
    AccountedGrows(CursorOf(d, c), CursorOf(d', c), given, given', LostTo(p, c), LostTo(p', c),
                   GoneFor(p, c), GoneFor(p', c));
  }

  lemma TakeKeepsData(l: Limits, d: Data, d': Data, p: Past, p': Past, c: Consumer)
    requires DataOk(l, d, p) && ConsumerOk(d', p', c) && p'.log == p.log
    requires d' == d.(cursors := d'.cursors)
    requires forall e :: e != c ==> CursorOf(d', e) == CursorOf(d, e) && HandedTo(p', e) == HandedTo(p, e)
                                    && LostTo(p', e) == LostTo(p, e) && GoneFor(p', e) == GoneFor(p, e)
    ensures DataOk(l, d', p')
  {
    forall s ensures StreamOk(l, d', p', s) { assert StreamOk(l, d, p, s); }
    forall e ensures ConsumerOk(d', p', e) { assert ConsumerOk(d, p, e); }
  }

  lemma CursorsKeepMirror(l: Limits, d: Data, m: Memory, cursors: map<Consumer, nat>)
    requires Mirrors(l, d, m)
    ensures Mirrors(l, d.(cursors := cursors), m.(cursors := cursors))
  {
    forall s ensures StreamMirrored(l, d.(cursors := cursors), m.(cursors := cursors), s) {
      assert StreamMirrored(l, d, m, s);
    }
  }

  /** A take that commits nothing: no history for the stream, or the fence refused it. */
  lemma IdleGetKeepsInv(l: Limits, y: Sys, w: Name, c: Consumer, me: Writer, p: Past)
    requires Inv(l, y) && (me.Down? || me == WriterAt(y, w))
    requires p.log == y.past.log && p.handed == y.past.handed && p.lost == y.past.lost
    requires forall e :: GoneFor(p, e) == GoneFor(y.past, e)
    ensures Inv(l, Sys(y.db, y.writers[w := me], p))
  {
    assert WriterOk(l, y.db, WriterAt(y, w), w);
    OwnStateKeepsInv(l, y, w, me);
    assert ConsumerOk(y.db.data, y.past, c);
    TakeKeepsData(l, y.db.data, y.db.data, y.past, p, c);
    var y1 := Sys(y.db, y.writers[w := me], y.past);
    var y2 := Sys(y.db, y.writers[w := me], p);
    forall v ensures WriterOk(l, y2.db, WriterAt(y2, v), v) { assert WriterOk(l, y1.db, WriterAt(y1, v), v); }
  }

  lemma BusyGetKeepsInv(l: Limits, y: Sys, w: Name, c: Consumer, me: Writer, me': Writer, r: Taken, crash: bool,
                        d': Data, p': Past)
    requires Inv(l, y) && me == WriterAt(y, w) && me.Up?
    requires Current(y.db.lease, me.hold) && HoldOk(y.db.lease, w, me.hold) && Mirrors(l, y.db.data, me.mem)
    requires d' == y.db.data.(cursors := d'.cursors)
    requires Moved(CursorOf(y.db.data, c), CursorOf(d', c), RowsOf(y.db.data, c.stream), r, LogOf(y.past, c.stream))
    requires forall e :: e != c ==> CursorOf(d', e) == CursorOf(y.db.data, e)
    requires p' == Handed(y.past, c, r, crash,
                          Evictions(RowsOf(d', c.stream), CursorOf(y.db.data, c), CursorOf(d', c)))
    requires me'.Down? || me' == Up(me.hold, me.mem.(cursors := d'.cursors))
    ensures Inv(l, Sys(Db(y.db.lease, d'), y.writers[w := me'], p'))
  {
    var d, p := y.db.data, y.past;
    assert ConsumerOk(d, p, c);
    TakeKeepsConsumer(d, d', p, c, r, crash);
    TakeKeepsData(l, d, d', p, p', c);
    CursorsKeepMirror(l, d, me.mem, d'.cursors);
    FencedWriteKeepsWriters(l, y, w, d', me', p');
  }

  lemma GetKeepsInv(l: Limits, y: Sys, w: Name, c: Consumer, now: int, io: bool, crash: bool)
    requires ValidLimits(l) && Inv(l, y)
    ensures Inv(l, GetStep(y, w, c, now, io, crash))
  {
    var me, d, p := WriterAt(y, w), y.db.data, y.past;
    assert WriterOk(l, y.db, me, w);
    if me.Up? {
      var y' := GetStep(y, w, c, now, io, crash);
      var r := TakeResult(y.db, me.mem, me.hold, now, c, io);
      if c.stream !in me.mem.topics || r.TakeError? {
        IdleGetKeepsInv(l, y, w, c, if crash then Down else me, y'.past);
      } else {
        assert StreamOk(l, d, p, c.stream) && ConsumerOk(d, p, c);
        assert StreamMirrored(l, d, me.mem, c.stream);
        TakeMoves(l, y.db, me.mem, me.hold, now, c, LogOf(p, c.stream));
        var d' := d.(cursors := CursorsAfterTake(d.cursors, me.mem, c, r));
        var me' := if crash then Down else Up(me.hold, me.mem.(cursors := d'.cursors));
        BusyGetKeepsInv(l, y, w, c, me, me', r, crash, d', y'.past);
      }
    }
  }

  // ---------------------------------------------------------------- outcomes

  lemma {:induction false} LastMembers(keys: seq<FrameKey>, n: nat)
    ensures forall k :: k in Last(keys, n) ==> k in keys
  {
    if |keys| > n { LastMembers(keys[1..], n); }
  }

  lemma OutcomeKeepsInv(l: Limits, y: Sys, w: Name, s: Stream, key: FrameKey, now: int, io: bool)
    requires Inv(l, y)
    ensures Inv(l, OutcomeStep(l, y, w, s, key, now, io))
  {
    var me, d, p := WriterAt(y, w), y.db.data, y.past;
    assert WriterOk(l, y.db, me, w);
    if me.Up? && !io && Verified(y.db.lease, me.hold, now) {
      var d' := WithOutcome(d, s, key, l.dedupCapacity);
      LastMembers(OutcomesOf(d, s) + [key], l.dedupCapacity);
      forall t ensures StreamOk(l, d', p, t) { assert StreamOk(l, d, p, t); }
      forall c ensures ConsumerOk(d', p, c) { assert ConsumerOk(d, p, c); }
      forall t ensures StreamMirrored(l, d', me.mem, t) { assert StreamMirrored(l, d, me.mem, t); }
      FencedWriteKeepsWriters(l, y, w, d', me, p);
      assert y.writers[w := me] == y.writers;
    }
  }

  // ---------------------------------------------------------------- whole runs

  lemma NextKeepsInv(l: Limits, y: Sys, step: Step)
    requires ValidLimits(l) && Inv(l, y)
    ensures Inv(l, Next(l, y, step))
  {
    match step
    case Start(w, leaseMs, now) => StartKeepsInv(l, y, w, leaseMs, now);
    case Load(w) => LoadKeepsInv(l, y, w);
    case Extend(w, now) => ExtendKeepsInv(l, y, w, now);
    case Post(w, f, now, admitted, io, crash) => PostKeepsInv(l, y, w, f, now, admitted, io, crash);
    case Get(w, c, now, io, crash) => GetKeepsInv(l, y, w, c, now, io, crash);
    case Outcome(w, s, key, now, io) => OutcomeKeepsInv(l, y, w, s, key, now, io);
    case Quit(w, now) => QuitKeepsInv(l, y, w, now);
    case Crash(w) => LeaseStepKeepsInv(l, y, w, y.db.lease, Down);
  }

  lemma {:induction false} RunKeepsInv(l: Limits, states: seq<Sys>, steps: seq<Step>, k: nat)
    requires ValidLimits(l) && IsRun(l, states, steps) && k < |states|
    ensures Inv(l, states[k])
  {
    if k > 0 {
      var i := k - 1;
      RunKeepsInv(l, states, steps, i);
      assert Follows(l, states[i], steps[i], states[i + 1]);
      NextKeepsInv(l, states[i], steps[i]);
    }
  }

  /** What no step undoes: the log and what a consumer was given only grow, tokens never fall,
      and a token stays with its holder. */
  ghost predicate Onward(y: Sys, y': Sys) {
    && Forward(y.db.lease, y'.db.lease)
    && (forall s {:trigger LogOf(y'.past, s)} :: LogOf(y.past, s) <= LogOf(y'.past, s))
    && (forall c {:trigger HandedTo(y'.past, c)} :: HandedTo(y.past, c) <= HandedTo(y'.past, c))
  }

  lemma NextIsOnward(l: Limits, y: Sys, step: Step)
    ensures Onward(y, Next(l, y, step))
  {
  }

  lemma {:induction false} RunIsOnward(l: Limits, states: seq<Sys>, steps: seq<Step>, i: nat, j: nat)
    requires IsRun(l, states, steps) && i <= j < |states|
    ensures Onward(states[i], states[j])
    decreases j
  {
    if i < j {
      var k := j - 1;
      RunIsOnward(l, states, steps, i, k);
      assert Follows(l, states[k], steps[k], states[k + 1]);
      NextIsOnward(l, states[k], steps[k]);
      forall s ensures LogOf(states[i].past, s) <= LogOf(states[j].past, s) {
        assert LogOf(states[i].past, s) <= LogOf(states[k].past, s);
      }
      forall c ensures HandedTo(states[i].past, c) <= HandedTo(states[j].past, c) {
        assert HandedTo(states[i].past, c) <= HandedTo(states[k].past, c);
      }
    }
  }

  // ---------------------------------------------------------------- failover log continuity

  /** Stored frames carry consecutive offsets ending at the last one ever assigned, fit the
      limit, and have pairwise different dedup keys. */
  predicate Continuous(l: Limits, rows: seq<Row>, log: seq<Row>) {
    && |rows| == (if |log| <= l.maxFrames then |log| else l.maxFrames)
    && (forall i :: 0 <= i < |rows| ==> rows[i].offset == |log| - |rows| + i)
    && (forall i, j :: 0 <= i < j < |rows| ==> rows[i].key != rows[j].key)
  }

  lemma TablesAreContinuous(l: Limits, log: seq<Row>, rows: seq<Row>, keys: seq<FrameKey>)
    requires ValidLimits(l) && Tables(l, log, rows, keys)
    ensures Continuous(l, rows, log)
  {
    forall i | 0 <= i < |rows| ensures rows[i].offset == |log| - |rows| + i { TailAt(log, l.maxFrames, i); }
    forall i, j | 0 <= i < j < |rows| ensures rows[i].key != rows[j].key {
      TailAt(log, l.maxFrames, i);
      TailAt(log, l.maxFrames, j);
      assert Apart(log, |log| - |rows| + i, |log| - |rows| + j);
    }
  }

  lemma StreamInRun(l: Limits, states: seq<Sys>, steps: seq<Step>, k: nat, s: Stream)
    requires ValidLimits(l) && IsRun(l, states, steps) && k < |states|
    ensures Tables(l, LogOf(states[k].past, s), RowsOf(states[k].db.data, s), KeysOf(states[k].db.data, s))
  {
    RunKeepsInv(l, states, steps, k);
    assert StreamOk(l, states[k].db.data, states[k].past, s);
  }

  /** In every reachable state, after any number of crashes and failovers. */
  lemma LogContinuity(l: Limits, states: seq<Sys>, steps: seq<Step>, k: nat, s: Stream)
    requires ValidLimits(l) && IsRun(l, states, steps) && k < |states|
    ensures Continuous(l, RowsOf(states[k].db.data, s), LogOf(states[k].past, s))
  {
    StreamInRun(l, states, steps, k, s);
    TablesAreContinuous(l, LogOf(states[k].past, s), RowsOf(states[k].db.data, s), KeysOf(states[k].db.data, s));
  }

  lemma RowIsLogged(l: Limits, log: seq<Row>, rows: seq<Row>, keys: seq<FrameKey>, a: nat)
    requires Tables(l, log, rows, keys) && a < |rows|
    ensures rows[a].offset < |log| && log[rows[a].offset] == rows[a]
  {
    TailAt(log, l.maxFrames, a);
  }

  /** No offset is ever assigned twice: rows seen under one offset at any two moments of a run,
      before or after any number of failovers, are the same frame. */
  lemma OffsetNeverReassigned(l: Limits, states: seq<Sys>, steps: seq<Step>, i: nat, j: nat, s: Stream, a: nat, b: nat)
    requires ValidLimits(l) && IsRun(l, states, steps) && i <= j < |states|
    requires a < |RowsOf(states[i].db.data, s)| && b < |RowsOf(states[j].db.data, s)|
    requires RowsOf(states[i].db.data, s)[a].offset == RowsOf(states[j].db.data, s)[b].offset
    ensures RowsOf(states[i].db.data, s)[a] == RowsOf(states[j].db.data, s)[b]
  {
    StreamInRun(l, states, steps, i, s);
    StreamInRun(l, states, steps, j, s);
    RowIsLogged(l, LogOf(states[i].past, s), RowsOf(states[i].db.data, s), KeysOf(states[i].db.data, s), a);
    RowIsLogged(l, LogOf(states[j].past, s), RowsOf(states[j].db.data, s), KeysOf(states[j].db.data, s), b);
    RunIsOnward(l, states, steps, i, j);
    assert LogOf(states[i].past, s) <= LogOf(states[j].past, s);
  }

  /** An accepted frame gets the number of frames accepted before it in the whole run as its
      offset, and its dedup key is new among the last `dedupCapacity` of them. */
  lemma AcceptedContinuesLog(l: Limits, states: seq<Sys>, steps: seq<Step>, k: nat)
    requires ValidLimits(l) && IsRun(l, states, steps) && k < |steps| && steps[k].Post?
    requires WriterAt(states[k], steps[k].w).Up?
    ensures var me, y, f := WriterAt(states[k], steps[k].w), states[k], steps[k].f;
            var r := PublishResult(y.db, me.mem, me.hold, steps[k].now, f, steps[k].admitted, steps[k].io);
            var log := LogOf(y.past, f.stream);
            r.Accepted? ==> r.offset == |log| && f.key !in KeysIn(Last(log, l.dedupCapacity))
  {
    var me, y, f := WriterAt(states[k], steps[k].w), states[k], steps[k].f;
    RunKeepsInv(l, states, steps, k);
    assert WriterOk(l, y.db, me, steps[k].w);
    if Current(y.db.lease, me.hold) {
      assert StreamOk(l, y.db.data, y.past, f.stream);
      assert StreamMirrored(l, y.db.data, me.mem, f.stream);
      MirroredIsTail(l, y.db.data, me.mem, f.stream, LogOf(y.past, f.stream));
    }
  }

  // ---------------------------------------------------------------- fencing

  /** The stored token never falls, and one token value never belongs to two holders. */
  lemma TokensAreFenced(l: Limits, states: seq<Sys>, steps: seq<Step>, i: nat, j: nat)
    requires IsRun(l, states, steps) && i <= j < |states|
    ensures TokenOf(states[i].db.lease) <= TokenOf(states[j].db.lease)
    ensures var a, b := states[i].db.lease, states[j].db.lease;
            a.Lease? && b.Lease? && a.token == b.token ==> a.holder == b.holder
  {
    RunIsOnward(l, states, steps, i, j);
  }

  /** Data change only under the stored lease: the writer of the step holds exactly it. */
  lemma CommitNeedsFence(l: Limits, y: Sys, step: Step)
    requires ValidLimits(l) && Inv(l, y) && Next(l, y, step).db.data != y.db.data
    ensures var me := WriterAt(y, step.w);
            && me.Up? && (step.Post? || step.Get? || step.Outcome?)
            && Verified(y.db.lease, me.hold, step.now)
  {
    if step.Load? { LoadKeepsInv(l, y, step.w); }
  }

  /** A writer whose token has been superseded never commits a frame, cursor or outcome again,
      whatever the clocks say, until it starts over with a new token. */
  lemma SupersededNeverCommits(l: Limits, states: seq<Sys>, steps: seq<Step>, i: nat, j: nat, token: nat)
    requires ValidLimits(l) && IsRun(l, states, steps) && i <= j < |steps|
    requires token < TokenOf(states[i].db.lease)
    requires var me := WriterAt(states[j], steps[j].w); !me.Down? && me.hold.Hold? && me.hold.token == token
    ensures states[j + 1].db.data == states[j].db.data
  {
    RunKeepsInv(l, states, steps, j);
    TokensAreFenced(l, states, steps, i, j);
    assert Follows(l, states[j], steps[j], states[j + 1]);
    if states[j + 1].db.data != states[j].db.data { CommitNeedsFence(l, states[j], steps[j]); }
  }

  /** No two writers ever pass the fence in one state, even if their clocks disagree. */
  lemma OneWriterPasses(l: Limits, states: seq<Sys>, steps: seq<Step>, k: nat, v: Name, w: Name, now: int, now': int)
    requires ValidLimits(l) && IsRun(l, states, steps) && k < |states|
    requires !WriterAt(states[k], v).Down? && Verified(states[k].db.lease, WriterAt(states[k], v).hold, now)
    requires !WriterAt(states[k], w).Down? && Verified(states[k].db.lease, WriterAt(states[k], w).hold, now')
    ensures v == w
  {
    RunKeepsInv(l, states, steps, k);
    assert WriterOk(l, states[k].db, WriterAt(states[k], v), v);
    assert WriterOk(l, states[k].db, WriterAt(states[k], w), w);
  }

  // ---------------------------------------------------------------- memory mirrors disk

  /** In every reachable state, a running writer that still holds the stored lease has in
      memory exactly the records, next offset and cursors a fresh recovery would rebuild, and
      that recovery would not trim anything. */
  lemma MemoryMirrorsDisk(l: Limits, states: seq<Sys>, steps: seq<Step>, k: nat, w: Name, s: Stream)
    requires ValidLimits(l) && IsRun(l, states, steps) && k < |states|
    requires var me := WriterAt(states[k], w); me.Up? && Current(states[k].db.lease, me.hold)
    ensures var m, m' := WriterAt(states[k], w).mem, Recover(states[k].db.data, l);
            && HistoryOf(m, s).records == HistoryOf(m', s).records
            && HistoryOf(m, s).nextOffset == HistoryOf(m', s).nextOffset
            && m.cursors == m'.cursors
    ensures Trimmed(states[k].db.data, l) == states[k].db.data
  {
    RunKeepsInv(l, states, steps, k);
    assert WriterOk(l, states[k].db, WriterAt(states[k], w), w);
    assert StreamMirrored(l, states[k].db.data, WriterAt(states[k], w).mem, s);
    RecoveredAt(states[k].db.data, l, s);
    RecoverTrimsNothing(l, states[k].db.data, states[k].past);
  }

  // ---------------------------------------------------------------- consumer delivery

  /** Over a whole run with failovers a consumer is given frames of the log with strictly
      increasing offsets, and every offset below its cursor was given to it, lost in a crash
      between commit and reply, or no longer stored when the cursor passed it. */
  lemma ConsumerDelivery(l: Limits, states: seq<Sys>, steps: seq<Step>, k: nat, c: Consumer)
    requires ValidLimits(l) && IsRun(l, states, steps) && k < |states|
    ensures var given, log := HandedTo(states[k].past, c), LogOf(states[k].past, c.stream);
            && (forall i, j :: 0 <= i < j < |given| ==> given[i].offset < given[j].offset)
            && (forall i :: 0 <= i < |given| ==> given[i].offset < |log| && given[i] == log[given[i].offset])
    ensures forall o :: 0 <= o < CursorOf(states[k].db.data, c) ==>
              Stored(HandedTo(states[k].past, c), o) || o in LostTo(states[k].past, c)
              || o in GoneFor(states[k].past, c)
  {
    RunKeepsInv(l, states, steps, k);
    assert ConsumerOk(states[k].db.data, states[k].past, c);
    var p := states[k].past;
    forall o | 0 <= o < CursorOf(states[k].db.data, c)
      ensures Stored(HandedTo(p, c), o) || o in LostTo(p, c) || o in GoneFor(p, c)
    {
      assert Accounted(HandedTo(p, c), LostTo(p, c), GoneFor(p, c), o);
    }
  }

  /** An offset recorded as gone was passed by some take of this consumer at which the frame
      had been logged and was no longer stored. */
  lemma {:induction false} GoneWasEvicted(l: Limits, states: seq<Sys>, steps: seq<Step>, k: nat, c: Consumer, o: nat)
    returns (i: nat)
    requires ValidLimits(l) && IsRun(l, states, steps) && k < |states| && o in GoneFor(states[k].past, c)
    ensures i < k && steps[i].Get? && steps[i].c == c
    ensures !Stored(RowsOf(states[i].db.data, c.stream), o) && o < |LogOf(states[i].past, c.stream)|
    ensures CursorOf(states[i].db.data, c) <= o < CursorOf(states[i + 1].db.data, c)
  {
    i := k - 1;
    assert Follows(l, states[i], steps[i], states[i + 1]);
    if o in GoneFor(states[i].past, c) {
      i := GoneWasEvicted(l, states, steps, i, c, o);
    } else {
      GonePassed(l, states[i], steps[i], c, o);
      RunKeepsInv(l, states, steps, k);
      assert ConsumerOk(states[k].db.data, states[k].past, c);
      GetKeepsLog(l, states[i], steps[i]);
    }
  }

  lemma GonePassed(l: Limits, y: Sys, step: Step, c: Consumer, o: nat)
    requires o !in GoneFor(y.past, c) && o in GoneFor(Next(l, y, step).past, c)
    ensures step.Get? && step.c == c && !Stored(RowsOf(y.db.data, c.stream), o)
    ensures CursorOf(y.db.data, c) <= o < CursorOf(Next(l, y, step).db.data, c)
  {
  }

  lemma GetKeepsLog(l: Limits, y: Sys, step: Step)
    requires step.Get?
    ensures Next(l, y, step).past.log == y.past.log
  {
  }

  /** A stretch of a run in which no take of this consumer crashes between commit and reply. */
  predicate Uncrashed(steps: seq<Step>, i: nat, k: nat, c: Consumer) {
    forall m :: i <= m < k && m < |steps| && steps[m].Get? && steps[m].c == c ==> !steps[m].crash
  }

  /** In such a stretch nothing is lost to the consumer. */
  lemma {:induction false} NothingLost(l: Limits, states: seq<Sys>, steps: seq<Step>, i: nat, k: nat, c: Consumer)
    requires IsRun(l, states, steps) && i <= k < |states| && Uncrashed(steps, i, k, c)
    ensures LostTo(states[k].past, c) == LostTo(states[i].past, c)
    decreases k
  {
    if i < k {
      var m := k - 1;
      NothingLost(l, states, steps, i, m, c);
      assert Follows(l, states[m], steps[m], states[m + 1]);
      LostOnlyInCrash(l, states[m], steps[m], c);
    }
  }

  lemma LostOnlyInCrash(l: Limits, y: Sys, step: Step, c: Consumer)
    requires step.Get? && step.c == c ==> !step.crash
    ensures LostTo(Next(l, y, step).past, c) == LostTo(y.past, c)
  {
  }

  /** Cursors only advance, and what a crash swallowed lies below its consumer's cursor. */
  predicate LostBelow(y: Sys, c: Consumer) { forall o :: o in LostTo(y.past, c) ==> o < CursorOf(y.db.data, c) }

  lemma GetAdvances(l: Limits, y: Sys, w: Name, e: Consumer, now: int, io: bool, crash: bool, c: Consumer)
    requires ValidLimits(l) && Inv(l, y)
    ensures var z := GetStep(y, w, e, now, io, crash);
            && CursorOf(y.db.data, c) <= CursorOf(z.db.data, c)
            && (forall o :: o in LostTo(z.past, c) ==> o in LostTo(y.past, c) || o < CursorOf(z.db.data, c))
  {
    var me := WriterAt(y, w);
    assert WriterOk(l, y.db, me, w);
    if me.Up? {
      var r := TakeResult(y.db, me.mem, me.hold, now, e, io);
      var z := GetStep(y, w, e, now, io, crash);
      LostInTake(y.past, e, r, crash,
                 Evictions(RowsOf(z.db.data, e.stream), CursorOf(y.db.data, e), CursorOf(z.db.data, e)), c);
      if e.stream in me.mem.topics && !r.TakeError? && e == c {
        assert StreamOk(l, y.db.data, y.past, e.stream) && ConsumerOk(y.db.data, y.past, e);
        assert StreamMirrored(l, y.db.data, me.mem, e.stream);
        TakeMoves(l, y.db, me.mem, me.hold, now, e, LogOf(y.past, e.stream));
      }
    }
  }

  lemma LostInTake(p: Past, e: Consumer, r: Taken, crash: bool, passed: set<nat>, c: Consumer)
    ensures forall o :: o in LostTo(Handed(p, e, r, crash, passed), c) ==>
              o in LostTo(p, c) || (e == c && r.Delivered? && o == r.row.offset)
  {
  }

  lemma NextAdvances(l: Limits, y: Sys, step: Step, c: Consumer)
    requires ValidLimits(l) && Inv(l, y)
    ensures CursorOf(y.db.data, c) <= CursorOf(Next(l, y, step).db.data, c)
    ensures LostBelow(y, c) ==> LostBelow(Next(l, y, step), c)
  {
    if step.Get? {
      GetAdvances(l, y, step.w, step.c, step.now, step.io, step.crash, c);
    } else {
      OnlyTakesMove(l, y, step, c);
    }
  }

  lemma OnlyTakesMove(l: Limits, y: Sys, step: Step, c: Consumer)
    requires !step.Get?
    ensures CursorOf(Next(l, y, step).db.data, c) == CursorOf(y.db.data, c)
    ensures LostTo(Next(l, y, step).past, c) == LostTo(y.past, c)
  {
  }

  lemma {:induction false} RunLosesBelow(l: Limits, states: seq<Sys>, steps: seq<Step>, k: nat, c: Consumer)
    requires ValidLimits(l) && IsRun(l, states, steps) && k < |states|
    ensures LostBelow(states[k], c)
  {
    if k > 0 {
      var i := k - 1;
      RunLosesBelow(l, states, steps, i, c);
      RunKeepsInv(l, states, steps, i);
      assert Follows(l, states[i], steps[i], states[i + 1]);
      NextAdvances(l, states[i], steps[i], c);
    }
  }

  /** Within such a stretch, an offset the cursor passes was given to the consumer or had been
      evicted when the cursor passed it. */
  lemma UncrashedDelivery(l: Limits, states: seq<Sys>, steps: seq<Step>, i: nat, k: nat, c: Consumer, o: nat)
    requires ValidLimits(l) && IsRun(l, states, steps) && i <= k < |states| && Uncrashed(steps, i, k, c)
    requires CursorOf(states[i].db.data, c) <= o < CursorOf(states[k].db.data, c)
    ensures Stored(HandedTo(states[k].past, c), o) || o in GoneFor(states[k].past, c)
  {
    NothingLost(l, states, steps, i, k, c);
    RunLosesBelow(l, states, steps, i, c);
    ConsumerDelivery(l, states, steps, k, c);
  }

  /** Runs exist from the empty store, so the results above are about something. */
  lemma InitialRun(l: Limits)
    ensures IsRun(l, [Initial], [])
  {
  }
}
