/** The objects of fleetqox/quic_gateway_state.py that change in place: the shared database,
    a gateway's handle on it, and the gateway's memory. Each method is proved to do exactly
    what the corresponding function of GatewayStore says. `io` is an I/O error at commit.
 */
module Gateway {
  import opened Numbers
  import opened GatewayStore

  class Database {
    var lease: Lease
    var data: Data

    constructor ()
      ensures lease == NoLease && data == Data(map[], map[], map[], map[])
    {
      lease, data := NoLease, Data(map[], map[], map[], map[]);
    }
  }

  class DurableStore {
    const db: Database
    var hold: Hold

    constructor (database: Database)
      ensures db == database && hold == Unleased
    {
      db, hold := database, Unleased;
    }

    method AcquireWriterLease(holder: Name, leaseMs: int, now: int) returns (ok: bool)
      modifies this, db
      ensures db.data == old(db.data)
      ensures ok == MayAcquire(old(db.lease), holder, leaseMs, now)
      ensures ok ==> db.lease == Acquire(old(db.lease), holder, leaseMs, now)
      ensures ok ==> Current(db.lease, hold) && hold == Hold(holder, db.lease.token, leaseMs)
      ensures !ok ==> db.lease == old(db.lease) && hold == old(hold)
    {
      if holder == BLANK || leaseMs <= 0 || now < 0 { return false; }
      var row := db.lease;
      if row.Lease? && row.holder != holder && row.expires > now { return false; }
      var token: nat;
      if row.Lease? && row.holder == holder && row.expires > now {
        token := row.token;
      } else {
        token := (if row.Lease? then row.token else 0) + 1;
      }
      db.lease := Lease(holder, token, now + leaseMs);
      hold := Hold(holder, token, leaseMs);
      return true;
    }

    method RenewWriterLease(now: int) returns (ok: bool)
      modifies db
      ensures db.data == old(db.data)
      ensures ok == MayRenew(old(db.lease), hold, now)
      ensures db.lease == Renew(old(db.lease), hold, now)
    {
      if hold.Unleased? { return false; }
      var row := db.lease;
      if row.NoLease? || row.holder != hold.holder || row.token != hold.token || row.expires <= now { return false; }
      db.lease := Lease(row.holder, row.token, now + hold.leaseMs);
      return true;
    }

    method ReleaseWriterLease(now: int)
      modifies this, db
      ensures db.data == old(db.data)
      ensures db.lease == Release(old(db.lease), old(hold), now)
      ensures hold == Unleased
    {
      if hold.Unleased? { return; }
      if db.lease.Lease? && db.lease.holder == hold.holder && db.lease.token == hold.token {
        db.lease := Lease(db.lease.holder, db.lease.token, now);
      }
      hold := Unleased;
    }

    /** `_verify_writer_lease`. */
    method VerifyWriterLease(now: int) returns (ok: bool)
      ensures ok == Verified(db.lease, hold, now)
    {
      if hold.Unleased? { return true; }
      var row := db.lease;
      return row.Lease? && row.holder == hold.holder && row.token == hold.token && row.expires > now;
    }

    method AppendFrame(f: Frame, offset: nat, evict: Eviction, capacity: nat, now: int, io: bool) returns (ok: bool)
      modifies db
      ensures db.lease == old(db.lease)
      ensures ok == (!io && Verified(db.lease, hold, now) && MayAppend(old(db.data), f, offset))
      ensures db.data == if ok then Appended(old(db.data), f, offset, evict, capacity) else old(db.data)
    {
      var fenced := VerifyWriterLease(now);
      if io || !fenced { return false; }
      var s, d := f.stream, db.data;
      if Stored(RowsOf(d, s), offset) || f.key in KeysOf(d, s) { return false; }
      var rows := InsertRow(RowsOf(d, s), Row(offset, f.payload, f.key));
      var keys := KeysOf(d, s) + [f.key];
      if evict.Oldest? { rows := DeleteOffset(rows, evict.offset); }
      while |keys| > capacity
        invariant Last(keys, capacity) == Last(KeysOf(d, s) + [f.key], capacity)
      {
        keys := keys[1..];
      }
      db.data := d.(frames := d.frames[s := rows], dedup := d.dedup[s := keys],
                    outcomes := d.outcomes[s := Keep(OutcomesOf(d, s), keys)]);
      return true;
    }

    method SetCursor(c: Consumer, next: nat, now: int, io: bool) returns (ok: bool)
      modifies db
      ensures db.lease == old(db.lease)
      ensures ok == (!io && Verified(db.lease, hold, now))
      ensures db.data == if ok then old(db.data).(cursors := old(db.data).cursors[c := next]) else old(db.data)
    {
      var fenced := VerifyWriterLease(now);
      if io || !fenced { return false; }
      db.data := db.data.(cursors := db.data.cursors[c := next]);
      return true;
    }

    /** `commit_application_outcome`: `known` is false for an error, `inserted` for a repeat. */
    method CommitOutcome(s: Stream, key: FrameKey, capacity: nat, now: int, io: bool)
      returns (known: bool, inserted: bool)
      modifies db
      ensures db.lease == old(db.lease)
      ensures known == (!io && Verified(db.lease, hold, now) && key in KeysOf(old(db.data), s))
      ensures inserted == (known && key !in OutcomesOf(old(db.data), s))
      ensures db.data == if known then WithOutcome(old(db.data), s, key, capacity) else old(db.data)
    {
      var fenced := VerifyWriterLease(now);
      var d := db.data;
      if io || !fenced || key !in KeysOf(d, s) { return false, false; }
      if key in OutcomesOf(d, s) { return true, false; }
      var outcomes := OutcomesOf(d, s) + [key];
      while |outcomes| > capacity
        invariant Last(outcomes, capacity) == Last(OutcomesOf(d, s) + [key], capacity)
      {
        outcomes := outcomes[1..];
      }
      db.data := d.(outcomes := d.outcomes[s := outcomes]);
      return true, true;
    }

    /** One stream of `recover`: replay its rows and keys, then drop what exceeds the limits. */
    method RecoverStream(d: Data, l: Limits, s: Stream) returns (h: History)
      ensures h == RecoveredHistory(d, l, s)
    {
      var rows, keys := RowsOf(d, s), KeysOf(d, s);
      var records, recent, next := rows, keys, 0;
      for i := 0 to |rows|
        invariant next == NextAfter(rows[..i])
      {
        assert rows[..i + 1][..i] == rows[..i];
        next := MaxInt(next, rows[i].offset + 1);
      }
      assert rows[..|rows|] == rows;
      while |records| > l.maxFrames
        invariant Last(records, l.maxFrames) == Last(rows, l.maxFrames)
      {
        records := records[1..];
      }
      while |recent| > l.dedupCapacity
        invariant Last(recent, l.dedupCapacity) == Last(keys, l.dedupCapacity)
      {
        recent := recent[1..];
      }
      h := History(records, recent, next);
    }

    method RecoverStreams(d: Data, l: Limits) returns (topics: map<Stream, History>)
      ensures topics == Recover(d, l).topics
    {
      var streams, todo := d.frames.Keys + d.dedup.Keys, d.frames.Keys + d.dedup.Keys;
      topics := map[];
      while todo != {}
        invariant todo <= streams && topics.Keys == streams - todo
        invariant forall s :: s in topics ==> topics[s] == RecoveredHistory(d, l, s)
        decreases todo
      {
        var s :| s in todo;
        var h := RecoverStream(d, l, s);
        topics, todo := topics[s := h], todo - {s};
      }
    }

    /** `recover`: rebuild every stream with stored frames or keys; the tables keep what the
        rebuilt histories hold. */
    method RecoverAll(l: Limits) returns (m: Memory)
      modifies db
      ensures db.lease == old(db.lease)
      ensures m == Recover(old(db.data), l) && db.data == Trimmed(old(db.data), l)
    {
      var d := db.data;
      var topics := RecoverStreams(d, l);
      m := Memory(topics, d.cursors);
      var frames := map s | s in d.frames :: HistoryOf(m, s).records;
      var dedup := map s | s in d.dedup :: HistoryOf(m, s).recent;
      var outcomes := map s | s in d.outcomes :: Keep(d.outcomes[s], HistoryOf(m, s).recent);
      TrimmedFrames(d, l, m);
      TrimmedDedup(d, l, m);
      TrimmedOutcomes(d, l, m);
      db.data := Data(frames, dedup, outcomes, d.cursors);
    }
  }

  /** Trimming keeps in the tables exactly what the rebuilt memory holds. */
  lemma TrimmedFrames(d: Data, l: Limits, m: Memory)
    requires m == Recover(d, l)
    ensures Trimmed(d, l).frames == map s | s in d.frames :: HistoryOf(m, s).records
  {
    forall s | s in d.frames ensures Last(d.frames[s], l.maxFrames) == HistoryOf(m, s).records { RecoveredAt(d, l, s); }
  }

  lemma TrimmedDedup(d: Data, l: Limits, m: Memory)
    requires m == Recover(d, l)
    ensures Trimmed(d, l).dedup == map s | s in d.dedup :: HistoryOf(m, s).recent
  {
    forall s | s in d.dedup ensures Last(d.dedup[s], l.dedupCapacity) == HistoryOf(m, s).recent {
      RecoveredAt(d, l, s);
    }
  }

  lemma TrimmedOutcomes(d: Data, l: Limits, m: Memory)
    requires m == Recover(d, l)
    ensures Trimmed(d, l).outcomes == map s | s in d.outcomes :: Keep(d.outcomes[s], HistoryOf(m, s).recent)
  {
    forall s | s in d.outcomes
      ensures Keep(d.outcomes[s], Last(KeysOf(d, s), l.dedupCapacity)) == Keep(d.outcomes[s], HistoryOf(m, s).recent)
    {
      RecoveredAt(d, l, s);
    }
  }

  class GatewayState {
    const store: DurableStore
    const limits: Limits
    var topics: map<Stream, History>
    var cursors: map<Consumer, nat>

    function Mem(): Memory reads this { Memory(topics, cursors) }
    function Database(): Db reads store.db { Db(store.db.lease, store.db.data) }

    /** Start-up over a store: recover what it holds. */
    constructor (durable: DurableStore, l: Limits)
      modifies durable.db
      ensures store == durable && limits == l
      ensures Database() == Db(old(durable.db.lease), Trimmed(old(durable.db.data), l))
      ensures Mem() == Recover(old(durable.db.data), l)
    {
      store, limits := durable, l;
      var m := durable.RecoverAll(l);
      topics, cursors := m.topics, m.cursors;
    }

    method Publish(f: Frame, now: int, admitted: bool, io: bool) returns (r: Published)
      modifies this, store.db
      ensures r == PublishResult(old(Database()), old(Mem()), store.hold, now, f, admitted, io)
      ensures Database() == Db(old(store.db.lease), PublishData(old(store.db.data), old(Mem()), limits, f, r))
      ensures Mem() == PublishMemory(old(Mem()), limits, f, r)
    {
      var s := f.stream;
      if s in topics && f.key in topics[s].recent {
        topics := topics[s := topics[s].(recent := MoveToEnd(topics[s].recent, f.key))];
        return Duplicate;
      }
      if !admitted { return Rejected; }
      if s !in topics { topics := topics[s := EMPTY]; }
      var h := topics[s];
      var evict := if |h.records| >= limits.maxFrames && h.records != [] then Oldest(h.records[0].offset) else Nothing;
      var ok := store.AppendFrame(f, h.nextOffset, evict, limits.dedupCapacity, now, io);
      if !ok { return PersistenceError; }
      h := Grow(h, f);
      topics := topics[s := h];
      return Accepted(h.nextOffset - 1);
    }

    method Grow(h: History, f: Frame) returns (g: History)
      ensures g == Grown(h, limits, f)
    {
      var records, recent := h.records + [Row(h.nextOffset, f.payload, f.key)], h.recent + [f.key];
      while |records| > limits.maxFrames
        invariant Last(records, limits.maxFrames) == Grown(h, limits, f).records
      {
        records := records[1..];
      }
      while |recent| > limits.dedupCapacity
        invariant Last(recent, limits.dedupCapacity) == Grown(h, limits, f).recent
      {
        recent := recent[1..];
      }
      g := History(records, recent, h.nextOffset + 1);
    }

    method FindFrom(records: seq<Row>, cursor: nat) returns (i: nat)
      ensures i == FirstFrom(records, cursor)
    {
      i := 0;
      while i < |records| && records[i].offset < cursor
        invariant i <= FirstFrom(records, cursor)
      {
        i := i + 1;
      }
    }

    method Take(c: Consumer, now: int, io: bool) returns (r: Taken)
      modifies this, store.db
      ensures r == TakeResult(old(Database()), old(Mem()), store.hold, now, c, io)
      ensures topics == old(topics) && cursors == CursorsAfterTake(old(cursors), old(Mem()), c, r)
      ensures Database() ==
              Db(old(store.db.lease), old(store.db.data).(
                   cursors := CursorsAfterTake(old(store.db.data).cursors, old(Mem()), c, r)))
    {
      if c.stream !in topics { return Empty; }
      var h := topics[c.stream];
      var cursor := if c in cursors then cursors[c] else BaseOffset(h);
      if cursor < BaseOffset(h) { cursor := BaseOffset(h); }
      assert cursor == CursorFor(Mem(), h, c);
      var i := FindFrom(h.records, cursor);
      var next := if i < |h.records| then h.records[i].offset + 1 else MaxInt(cursor, h.nextOffset);
      assert next == CursorAfter(h, cursor);
      var ok := store.SetCursor(c, next, now, io);
      if !ok { return TakeError; }
      cursors := cursors[c := next];
      if i < |h.records| { return Delivered(h.records[i]); } else { return Empty; }
    }
  }
}
