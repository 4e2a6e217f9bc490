/** The durable gateway store and the gateway state over it (fleetqox/quic_gateway_state.py).

    The database is a value whose transactions are atomic functions; a transaction that is
    refused or hits an I/O error leaves it unchanged. Module Gateway holds the classes that
    update a shared database and a gateway's memory in place along these functions; module
    GatewayRuns interleaves many gateways.
 */
module GatewayStore {
  import opened Numbers

  // Opaque identifiers and contents: only equality matters, except that holder 0 is the empty id.
  type Name = nat
  type Payload = nat

  const BLANK: Name := 0

  datatype Stream = Stream(domainId: nat, topic: Name)
  datatype FrameKey = FrameKey(publisherId: Name, sequenceNumber: nat)
  datatype Frame = Frame(stream: Stream, key: FrameKey, payload: Payload)
  datatype Row = Row(offset: nat, payload: Payload, key: FrameKey)
  datatype Consumer = Consumer(stream: Stream, id: Name)

  datatype Lease =
    | NoLease
    | Lease(holder: Name, token: nat, expires: int)

  /** What a writer remembers of the lease it acquired, if it runs under one. */
  datatype Hold =
    | Unleased
    | Hold(holder: Name, token: nat, leaseMs: int)

  datatype Data = Data(
    frames: map<Stream, seq<Row>>,         // ordered by offset
    dedup: map<Stream, seq<FrameKey>>,     // ordered by insertion ordinal
    outcomes: map<Stream, seq<FrameKey>>,  // ordered by insertion ordinal
    cursors: map<Consumer, nat>)

  datatype Db = Db(lease: Lease, data: Data)

  /** The limits all writers of one store are configured with. */
  datatype Limits = Limits(maxFrames: nat, dedupCapacity: nat)

  predicate ValidLimits(l: Limits) { 1 <= l.maxFrames <= l.dedupCapacity }

  function RowsOf(d: Data, s: Stream): seq<Row> { if s in d.frames then d.frames[s] else [] }
  function KeysOf(d: Data, s: Stream): seq<FrameKey> { if s in d.dedup then d.dedup[s] else [] }
  function OutcomesOf(d: Data, s: Stream): seq<FrameKey> { if s in d.outcomes then d.outcomes[s] else [] }

  /** The last `n` elements: what is left after dropping from the front. */
  function Last<T>(s: seq<T>, n: nat): (r: seq<T>)
    ensures |r| == if |s| <= n then |s| else n
  {
    if |s| <= n then s else Last(s[1..], n)
  }

  lemma {:induction false} LastCut<T>(s: seq<T>, n: nat)
    requires |s| > n
    ensures Last(s, n) == s[|s| - n..]
  {
    if |s| > n + 1 { LastCut(s[1..], n); }
  }

  // ---------------------------------------------------------------- lease transactions

  /** `acquire_writer_lease`: refused (the lease stays) on bad arguments or while somebody
      else's lease runs; a live lease of the same holder keeps its token, anything else takes
      the next one. */
  predicate MayAcquire(lease: Lease, holder: Name, leaseMs: int, now: int) {
    && holder != BLANK && leaseMs > 0 && now >= 0
    && (lease.NoLease? || lease.holder == holder || lease.expires <= now)
  }

  function Acquire(lease: Lease, holder: Name, leaseMs: int, now: int): Lease {
    var token := if lease.NoLease? then 1
                 else if lease.holder == holder && lease.expires > now then lease.token
                 else lease.token + 1;
    Lease(holder, token, now + leaseMs)
  }

  /** The stored lease is the one this writer holds; it may have run out. */
  predicate Current(lease: Lease, hold: Hold) {
    hold.Hold? && lease.Lease? && lease.holder == hold.holder && lease.token == hold.token
  }

  /** The fence of a leased writer: its lease is still the stored one, and unexpired. */
  predicate Verified(lease: Lease, hold: Hold, now: int) {
    hold.Unleased? || (Current(lease, hold) && lease.expires > now)
  }

  predicate MayRenew(lease: Lease, hold: Hold, now: int) { Current(lease, hold) && lease.expires > now }

  function Renew(lease: Lease, hold: Hold, now: int): Lease {
    if MayRenew(lease, hold, now) then Lease(hold.holder, hold.token, now + hold.leaseMs) else lease
  }

  function Release(lease: Lease, hold: Hold, now: int): Lease {
    if Current(lease, hold) then Lease(hold.holder, hold.token, now) else lease
  }

  // ---------------------------------------------------------------- data transactions

  /** INSERT into the table ordered by offset. */
  function InsertRow(rows: seq<Row>, row: Row): (r: seq<Row>)
    ensures (forall i :: 0 <= i < |rows| ==> rows[i].offset < row.offset) ==> r == rows + [row]
  {
    if rows == [] || rows[|rows| - 1].offset < row.offset then rows + [row]
    else InsertRow(rows[..|rows| - 1], row) + [rows[|rows| - 1]]
  }

  predicate Stored(rows: seq<Row>, o: nat) { exists i :: 0 <= i < |rows| && rows[i].offset == o }

  function DeleteOffset(rows: seq<Row>, offset: nat): seq<Row> {
    if rows == [] then []
    else if rows[0].offset == offset then DeleteOffset(rows[1..], offset)
    else [rows[0]] + DeleteOffset(rows[1..], offset)
  }

  /** Outcome rows go with the dedup keys they reference (ON DELETE CASCADE). */
  function Keep(outcomes: seq<FrameKey>, keys: seq<FrameKey>): seq<FrameKey> {
    if outcomes == [] then []
    else if outcomes[0] in keys then [outcomes[0]] + Keep(outcomes[1..], keys)
    else Keep(outcomes[1..], keys)
  }

  /** The offset an append evicts, if any. */
  datatype Eviction =
    | Nothing
    | Oldest(offset: nat)

  function EvictFrom(rows: seq<Row>, evict: Eviction): seq<Row> {
    if evict.Oldest? then DeleteOffset(rows, evict.offset) else rows
  }

  /** `append_frame` behind the fence: the primary key on offsets and the unique key on frame
      identities refuse old ones. */
  predicate MayAppend(d: Data, f: Frame, offset: nat) {
    !Stored(RowsOf(d, f.stream), offset) && f.key !in KeysOf(d, f.stream)
  }

  /** Insert the frame and its dedup key, evict one old frame, and age dedup keys out by
      insertion order. */
  function Appended(d: Data, f: Frame, offset: nat, evict: Eviction, capacity: nat): Data {
    var s := f.stream;
    var rows := EvictFrom(InsertRow(RowsOf(d, s), Row(offset, f.payload, f.key)), evict);
    var keys := Last(KeysOf(d, s) + [f.key], capacity);
    d.(frames := d.frames[s := rows], dedup := d.dedup[s := keys],
       outcomes := d.outcomes[s := Keep(OutcomesOf(d, s), keys)])
  }

  /** `commit_application_outcome` behind the fence: an outcome of a known frame is stored once. */
  function WithOutcome(d: Data, s: Stream, key: FrameKey, capacity: nat): Data {
    if key !in KeysOf(d, s) || key in OutcomesOf(d, s) then d
    else d.(outcomes := d.outcomes[s := Last(OutcomesOf(d, s) + [key], capacity)])
  }

  // ---------------------------------------------------------------- gateway memory

  datatype History = History(records: seq<Row>, recent: seq<FrameKey>, nextOffset: nat)

  const EMPTY := History([], [], 0)

  datatype Memory = Memory(topics: map<Stream, History>, cursors: map<Consumer, nat>)

  function HistoryOf(m: Memory, s: Stream): History { if s in m.topics then m.topics[s] else EMPTY }

  function BaseOffset(h: History): nat { if h.records == [] then h.nextOffset else h.records[0].offset }

  function NextAfter(rows: seq<Row>): nat {
    if rows == [] then 0 else MaxInt(NextAfter(rows[..|rows| - 1]), rows[|rows| - 1].offset + 1)
  }

  function RecoveredHistory(d: Data, l: Limits, s: Stream): History {
    History(Last(RowsOf(d, s), l.maxFrames), Last(KeysOf(d, s), l.dedupCapacity), NextAfter(RowsOf(d, s)))
  }

  /** `recover` trims tables that exceed the limits ... */
  function Trimmed(d: Data, l: Limits): Data {
    d.(frames := map s | s in d.frames :: Last(d.frames[s], l.maxFrames),
       dedup := map s | s in d.dedup :: Last(d.dedup[s], l.dedupCapacity),
       outcomes := map s | s in d.outcomes :: Keep(d.outcomes[s], Last(KeysOf(d, s), l.dedupCapacity)))
  }

  /** ... and rebuilds memory from them. */
  function Recover(d: Data, l: Limits): Memory {
    Memory(map s | s in d.frames.Keys + d.dedup.Keys :: RecoveredHistory(d, l, s), d.cursors)
  }

  lemma RecoveredAt(d: Data, l: Limits, s: Stream)
    ensures HistoryOf(Recover(d, l), s) == RecoveredHistory(d, l, s)
  {
  }

  function Without(keys: seq<FrameKey>, key: FrameKey): seq<FrameKey> {
    if keys == [] then []
    else if keys[0] == key then Without(keys[1..], key)
    else [keys[0]] + Without(keys[1..], key)
  }

  function MoveToEnd(keys: seq<FrameKey>, key: FrameKey): seq<FrameKey> { Without(keys, key) + [key] }

  datatype Published =
    | Duplicate
    | Rejected
    | PersistenceError
    | Accepted(offset: nat)

  function Evicted(h: History, l: Limits): Eviction {
    if |h.records| >= l.maxFrames && h.records != [] then Oldest(h.records[0].offset) else Nothing
  }

  /** The history after its frame was committed. */
  function Grown(h: History, l: Limits, f: Frame): History {
    History(Last(h.records + [Row(h.nextOffset, f.payload, f.key)], l.maxFrames),
            Last(h.recent + [f.key], l.dedupCapacity), h.nextOffset + 1)
  }

  /** `publish` of a frame the admission policy admits or not; `io` is an I/O error at commit.
      A refused commit leaves an empty history behind for a new stream. */
  function PublishResult(db: Db, m: Memory, hold: Hold, now: int, f: Frame, admitted: bool, io: bool): Published {
    if f.key in HistoryOf(m, f.stream).recent then Duplicate
    else if !admitted then Rejected
    else if io || !Verified(db.lease, hold, now) || !MayAppend(db.data, f, HistoryOf(m, f.stream).nextOffset)
    then PersistenceError
    else Accepted(HistoryOf(m, f.stream).nextOffset)
  }

  function PublishData(d: Data, m: Memory, l: Limits, f: Frame, r: Published): Data {
    if r.Accepted? then Appended(d, f, r.offset, Evicted(HistoryOf(m, f.stream), l), l.dedupCapacity) else d
  }

  function PublishMemory(m: Memory, l: Limits, f: Frame, r: Published): Memory {
    var h := HistoryOf(m, f.stream);
    match r
    case Duplicate => m.(topics := m.topics[f.stream := h.(recent := MoveToEnd(h.recent, f.key))])
    case Rejected => m
    case PersistenceError => m.(topics := m.topics[f.stream := h])
    case Accepted(_) => m.(topics := m.topics[f.stream := Grown(h, l, f)])
  }

  datatype Taken =
    | Empty
    | TakeError
    | Delivered(row: Row)

  /** The index of the first record at or after the cursor; the length if there is none. */
  function FirstFrom(rows: seq<Row>, cursor: nat): (r: nat)
    ensures r <= |rows|
    ensures r < |rows| ==> rows[r].offset >= cursor
    ensures forall i :: 0 <= i < r ==> rows[i].offset < cursor
  {
    if rows == [] || rows[0].offset >= cursor then 0 else 1 + FirstFrom(rows[1..], cursor)
  }

  /** Where the consumer reads next: its cursor, moved up to the oldest retained frame. */
  function CursorFor(m: Memory, h: History, c: Consumer): nat {
    if c in m.cursors then MaxInt(m.cursors[c], BaseOffset(h)) else BaseOffset(h)
  }

  function CursorAfter(h: History, cursor: nat): nat {
    var k := FirstFrom(h.records, cursor);
    if k < |h.records| then h.records[k].offset + 1 else MaxInt(cursor, h.nextOffset)
  }

  /** `take`: the cursor is committed before the frame is handed out. */
  function TakeResult(db: Db, m: Memory, hold: Hold, now: int, c: Consumer, io: bool): Taken {
    if c.stream !in m.topics then Empty
    else if io || !Verified(db.lease, hold, now) then TakeError
    else
      var h := m.topics[c.stream];
      var k := FirstFrom(h.records, CursorFor(m, h, c));
      if k < |h.records| then Delivered(h.records[k]) else Empty
  }

  /** A take that does not fail stores the new cursor, in the table and in memory alike. */
  function CursorsAfterTake(cursors: map<Consumer, nat>, m: Memory, c: Consumer, r: Taken): map<Consumer, nat> {
    if c.stream !in m.topics || r.TakeError? then cursors
    else
      var h := m.topics[c.stream];
      cursors[c := CursorAfter(h, CursorFor(m, h, c))]
  }
}
