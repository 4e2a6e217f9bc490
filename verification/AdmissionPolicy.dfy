/** The epoch-quota admission policy of fleetqox/quic_gateway_state.py and the export/restore
    pair around durable commits.

    Clock readings are real numbers in milliseconds and parameters of every operation; one
    operation may read the clock several times. `score` stands for the admission score.
 */
module AdmissionPolicy {
  import Wrappers
  import opened Collections
  import opened Numbers
  import RepairScheduler

  type Name = nat
  const BLANK: Name := 0
  const DEFAULT_CLASS: Name := 1

  /** `rooted`: the topic name starts with a slash. */
  datatype Stream = Stream(domainId: int, rooted: bool, topic: Name)
  datatype Source = External | NativePath | PublicApi | ApplicationOutcome
  datatype DebtSource = ExternalDebt | PublisherMetadata | DerivedPath | DerivedOutcome
  datatype Reason =
    | NoMatchingRule
    | ClassMismatch
    | PublisherNotAllowed
    | ScoreBelowThreshold
    | StreamQuota
    | FleetQuota

  datatype Limit =
    | Unlimited
    | AtMost(n: int)

  predicate Within(limit: Limit, n: int) { limit.AtMost? ==> n <= limit.n }
  predicate Exhausted(limit: Limit, n: int) { limit.AtMost? && n >= limit.n }

  datatype Rule = Rule(trafficClass: Name, maxAccepted: int, publishers: set<Name>, minScore: real)

  datatype Meta = Meta(stream: Stream, publisher: Name, trafficClass: Name, repairRequested: bool,
                       demand: RepairScheduler.Demand)

  datatype Watcher = Watcher(stream: Stream, publisher: Name)
  datatype Metrics = Metrics(debt: real, loss: real, rtt: real, jitter: real, source: Source, debtSource: DebtSource)
  datatype Observation = Observation(metrics: Metrics, updatedAt: real)
  datatype Observed = Unobserved | Observed(metrics: Metrics)

  datatype Policy = Policy(
    rules: map<Stream, Rule>,
    denyByDefault: bool,
    maxAccepted: Limit,
    epoch: Limit,
    repairCapacity: int,
    repairMax: Limit,
    repairPaths: seq<RepairScheduler.RepairPath>,
    ttl: int,
    score: (Meta, Observed) -> real)

  /** What the constructor checks. */
  predicate ValidPolicy(p: Policy) {
    && (p.maxAccepted.AtMost? ==> p.maxAccepted.n > 0)
    && (p.epoch.AtMost? ==> p.epoch.n > 0)
    && p.repairCapacity >= 0
    && (p.repairMax.AtMost? ==> p.repairMax.n > 0)
    && (p.repairCapacity > 0 ==> p.repairPaths != [])
    && p.ttl > 0
    && forall s :: s in p.rules ==> ValidStream(s) && p.rules[s].trafficClass != BLANK && p.rules[s].maxAccepted > 0
  }

  predicate ValidStream(s: Stream) { s.domainId >= 0 && s.rooted }

  datatype Counters = Counters(
    deferred: int,
    updates: int,
    updatesBySource: map<Source, int>,
    expirations: int,
    scoreUses: int,
    nativeUpdates: int,
    outcomeUpdates: int,
    taskUpdates: int,
    taskFailures: int)

  datatype Quotas = Quotas(
    resets: int,
    total: int,
    cumulative: int,
    byStream: map<Stream, int>,
    byClass: map<Name, int>,
    repairBytes: int,
    repairs: int)

  datatype State = State(
    epochStarted: real,
    quotas: Quotas,
    rejected: map<Reason, int>,
    decisions: seq<RepairScheduler.Decision>,
    observations: map<Watcher, Observation>,
    counters: Counters)

  const NoCounts := Counters(0, 0, map[], 0, 0, 0, 0, 0, 0)

  function Fresh(now: real): State {
    State(now, Quotas(0, 0, 0, map[], map[], 0, 0), map[], [], map[], NoCounts)
  }

  function CountOf<K>(m: map<K, int>, k: K): int { if k in m then m[k] else 0 }
  function Bump<K>(m: map<K, int>, k: K): map<K, int> { m[k := CountOf(m, k) + 1] }

  // ---------------------------------------------------------------- epochs and observations

  /** How many whole epochs to move on; 0 while the current one lasts. */
  function EpochsPassed(p: Policy, started: real, now: real): int
    requires p.epoch.AtMost? ==> p.epoch.n > 0
  {
    if p.epoch.Unlimited? || now - started < p.epoch.n as real then 0
    else MaxInt(1, ((now - started) / p.epoch.n as real).Floor)
  }

  /** `_refresh_epoch`. */
  function Refresh(p: Policy, s: State, now: real): State
    requires p.epoch.AtMost? ==> p.epoch.n > 0
  {
    var k := EpochsPassed(p, s.epochStarted, now);
    if k == 0 then s
    else
      var q := s.quotas;
      s.(epochStarted := s.epochStarted + (k * p.epoch.n) as real,
         quotas := Quotas(q.resets + k, 0, q.cumulative, map[], q.byClass, 0, 0))
  }

  /** `_expire_observations` drops observations older than the TTL. */
  function Live(p: Policy, obs: map<Watcher, Observation>, now: real): map<Watcher, Observation> {
    map w | w in obs && obs[w].updatedAt >= now - p.ttl as real :: obs[w]
  }

  function Expire(p: Policy, s: State, now: real): State {
    var live := Live(p, s.observations, now);
    s.(observations := live,
       counters := s.counters.(expirations := s.counters.expirations + |s.observations| - |live|))
  }

  predicate ValidWatcher(w: Watcher) { ValidStream(w.stream) && w.publisher != BLANK }

  predicate ValidMetrics(m: Metrics) {
    0.0 <= m.debt <= 1.0 && 0.0 <= m.loss <= 1.0 && m.rtt >= 0.0 && m.jitter >= 0.0
  }

  /** What an observation comes from, with the counters each origin keeps. */
  datatype Origin =
    | Reported
    | MeasuredPath(derived: bool)
    | Outcome(task: bool, succeeded: bool)

  /** `update_observation` and its two callers; an invalid observation only moves the counter
      the native path increments first. */
  function Observe(s: State, w: Watcher, m: Metrics, origin: Origin, now: real): State {
    var c := s.counters;
    var c1 := if origin == MeasuredPath(true) then c.(nativeUpdates := c.nativeUpdates + 1) else c;
    if !ValidWatcher(w) || !ValidMetrics(m) then s.(counters := c1)
    else
      var c2 := c1.(updates := c1.updates + 1, updatesBySource := Bump(c1.updatesBySource, m.source));
      var c3 := if origin.Outcome? then c2.(outcomeUpdates := c2.outcomeUpdates + 1) else c2;
      var c4 := if origin.Outcome? && origin.task then c3.(taskUpdates := c3.taskUpdates + 1) else c3;
      var c5 := if origin.Outcome? && origin.task && !origin.succeeded then c4.(taskFailures := c4.taskFailures + 1)
                else c4;
      s.(observations := s.observations[w := Observation(m, now)], counters := c5)
  }

  // ---------------------------------------------------------------- admission

  datatype Admission =
    | Normal
    | Repair
    | Refused(reason: Reason)

  /** `_accepted_*` bookkeeping of a normal admission. */
  function Accept(q: Quotas, s: Stream, trafficClass: Name): Quotas {
    q.(total := q.total + 1, cumulative := q.cumulative + 1,
       byStream := Bump(q.byStream, s), byClass := Bump(q.byClass, trafficClass))
  }

  predicate RepairOpen(p: Policy, q: Quotas, m: Meta) {
    && m.repairRequested && p.repairCapacity > 0
    && !Exhausted(p.repairMax, q.repairs) && p.repairCapacity - q.repairBytes > 0
  }

  /** `_try_repair`; `d` is what the repair scheduler decides for the remaining capacity. */
  function TryRepair(p: Policy, s: State, m: Meta, trafficClass: Name, d: RepairScheduler.Decision): (State, bool) {
    var deferred := s.(counters := s.counters.(deferred := s.counters.deferred + 1));
    if !m.repairRequested || p.repairCapacity <= 0 then (s, false)
    else if !RepairOpen(p, s.quotas, m) then (deferred, false)
    else if !d.repair then (deferred.(decisions := s.decisions + [d]), false)
    else
      var q := s.quotas;
      (s.(decisions := s.decisions + [d],
          quotas := q.(repairBytes := q.repairBytes + d.allocatedBytes, repairs := q.repairs + 1,
                       cumulative := q.cumulative + 1, byClass := Bump(q.byClass, trafficClass))), true)
  }

  function RepairOr(p: Policy, s: State, m: Meta, trafficClass: Name, d: RepairScheduler.Decision, reason: Reason)
    : (State, Admission)
  {
    var (s', repaired) := TryRepair(p, s, m, trafficClass, d);
    if repaired then (s', Repair) else (Reject(s', reason), Refused(reason))
  }

  function Reject(s: State, reason: Reason): State { s.(rejected := Bump(s.rejected, reason)) }

  function Scored(p: Policy, s: State, m: Meta, now: real): (State, real) {
    var s1 := Expire(p, s, now);
    var w := Watcher(m.stream, m.publisher);
    if w in s1.observations then
      (s1.(counters := s1.counters.(scoreUses := s1.counters.scoreUses + 1)),
       p.score(m, Observed(s1.observations[w].metrics)))
    else (s1, p.score(m, Unobserved))
  }

  /** The fleet-wide quota and the final acceptance. */
  function AdmitFleet(p: Policy, s: State, m: Meta, trafficClass: Name, d: RepairScheduler.Decision)
    : (State, Admission)
  {
    if Exhausted(p.maxAccepted, s.quotas.total) then RepairOr(p, s, m, trafficClass, d, FleetQuota)
    else (s.(quotas := Accept(s.quotas, m.stream, trafficClass)), Normal)
  }

  /** The score threshold and the stream quota of a matching rule. */
  function AdmitScored(p: Policy, s: State, m: Meta, rule: Rule, score: real, d: RepairScheduler.Decision)
    : (State, Admission)
  {
    if score < rule.minScore then RepairOr(p, s, m, rule.trafficClass, d, ScoreBelowThreshold)
    else if CountOf(s.quotas.byStream, m.stream) >= rule.maxAccepted then
      RepairOr(p, s, m, rule.trafficClass, d, StreamQuota)
    else AdmitFleet(p, s, m, rule.trafficClass, d)
  }

  /** `admit`: `t1` is read for the epoch, `t2` for the score. */
  function Admit(p: Policy, s: State, m: Meta, t1: real, t2: real, d: RepairScheduler.Decision): (State, Admission)
    requires ValidPolicy(p)
  {
    var s1 := Refresh(p, s, t1);
    if m.stream !in p.rules then
      if p.denyByDefault then (Reject(s1, NoMatchingRule), Refused(NoMatchingRule))
      else AdmitFleet(p, s1, m, DEFAULT_CLASS, d)
    else
      var rule := p.rules[m.stream];
      if m.trafficClass != BLANK && m.trafficClass != rule.trafficClass then
        (Reject(s1, ClassMismatch), Refused(ClassMismatch))
      else if rule.publishers != {} && m.publisher !in rule.publishers then
        (Reject(s1, PublisherNotAllowed), Refused(PublisherNotAllowed))
      else
        var (s2, score) := Scored(p, s1, m, t2);
        AdmitScored(p, s2, m, rule, score, d)
  }

  // ---------------------------------------------------------------- export and restore

  datatype Aged = Aged(metrics: Metrics, age: real)

  /** The exported document; times become ages. */
  datatype Document = Document(
    elapsed: real,
    quotas: Quotas,
    rejected: map<Reason, int>,
    decisions: seq<RepairScheduler.Decision>,
    observations: map<Watcher, Aged>,
    counters: Counters)

  /** `export_durable_state` first refreshes the epoch (`t1`) and expires observations (`t2`)... */
  function Settled(p: Policy, s: State, t1: real, t2: real): State
    requires ValidPolicy(p)
  {
    Expire(p, Refresh(p, s, t1), t2)
  }

  /** ... and then writes ages against `now`. */
  function Written(s: State, now: real): Document {
    Document(MaxReal(0.0, now - s.epochStarted), s.quotas, s.rejected, s.decisions,
             map w | w in s.observations ::
               Aged(s.observations[w].metrics, MaxReal(0.0, now - s.observations[w].updatedAt)),
             s.counters)
  }

  predicate NonNegative<K(!new)>(m: map<K, int>) { forall k :: k in m ==> m[k] >= 0 }

  predicate CountersInRange(c: Counters) {
    && c.deferred >= 0 && c.updates >= 0 && NonNegative(c.updatesBySource) && c.expirations >= 0
    && c.scoreUses >= 0 && c.nativeUpdates >= 0 && c.outcomeUpdates >= 0 && c.taskUpdates >= 0 && c.taskFailures >= 0
  }

  /** Totals, stream rows and repair bytes: checked before a restore replaces anything. */
  predicate TotalsInRange(p: Policy, q: Quotas) {
    && 0 <= q.total <= q.cumulative && Within(p.maxAccepted, q.total)
    && (forall s :: s in q.byStream ==> ValidStream(s) && q.byStream[s] >= 0
                                        && (s in p.rules ==> q.byStream[s] <= p.rules[s].maxAccepted))
    && 0 <= q.repairBytes <= p.repairCapacity && q.repairs >= 0 && Within(p.repairMax, q.repairs)
  }

  predicate QuotasInRange(p: Policy, q: Quotas) {
    TotalsInRange(p, q) && q.resets >= 0 && ClassesInRange(q)
  }

  predicate ClassesInRange(q: Quotas) { forall c :: c in q.byClass ==> c != BLANK && q.byClass[c] >= 0 }

  predicate Restorable(p: Policy, w: Watcher, a: Aged) {
    0.0 <= a.age < p.ttl as real ==> ValidWatcher(w) && ValidMetrics(a.metrics)
  }

  /** Every check of `restore_durable_state` after schema and fingerprint. */
  predicate Acceptable(p: Policy, doc: Document) {
    && doc.elapsed >= 0.0 && QuotasInRange(p, doc.quotas) && NonNegative(doc.rejected)
    && CountersInRange(doc.counters)
    && forall w :: w in doc.observations ==> Restorable(p, w, doc.observations[w])
  }

  function Revived(p: Policy, obs: map<Watcher, Aged>, now: real): map<Watcher, Observation> {
    map w | w in obs && 0.0 <= obs[w].age < p.ttl as real :: Observation(obs[w].metrics, now - obs[w].age)
  }

  /** `restore_durable_state` of an acceptable document: `t1` dates it, `t2` refreshes the epoch. */
  function Restored(p: Policy, doc: Document, t1: real, t2: real): State
    requires ValidPolicy(p)
  {
    Refresh(p, State(t1 - doc.elapsed, doc.quotas, doc.rejected, doc.decisions,
                     Revived(p, doc.observations, t1), doc.counters), t2)
  }

  // ---------------------------------------------------------------- what every state keeps

  ghost function Sum<K>(m: map<K, int>): int {
    if m == map[] then 0
    else
      var k :| k in m;
      m[k] + Sum(m - {k})
  }

  lemma {:induction false} SumRemove<K>(m: map<K, int>, k: K)
    requires k in m
    ensures Sum(m) == m[k] + Sum(m - {k})
    decreases |m|
  {
    var j :| j in m && Sum(m) == m[j] + Sum(m - {j});
    if j != k {
      SumRemove(m - {j}, k);
      SumRemove(m - {k}, j);
      assert m - {j} - {k} == m - {k} - {j};
    }
  }

  lemma SumBump<K>(m: map<K, int>, k: K)
    ensures Sum(Bump(m, k)) == Sum(m) + 1
  {
    var m' := Bump(m, k);
    SumRemove(m', k);
    if k in m {
      SumRemove(m, k);
      assert m' - {k} == m - {k};
    } else {
      assert m' - {k} == m;
    }
  }

  /** Most frames one epoch can accept, when both limits are configured. */
  function PerEpoch(p: Policy): int {
    if p.maxAccepted.AtMost? && p.repairMax.AtMost? then p.maxAccepted.n + p.repairMax.n else 0
  }

  /** Quotas hold and counters add up. */
  ghost predicate Conserved(p: Policy, q: Quotas) {
    && QuotasInRange(p, q)
    && Sum(q.byStream) == q.total
    && Sum(q.byClass) == q.cumulative
    && q.total + q.repairs <= q.cumulative
    && (p.maxAccepted.AtMost? && p.repairMax.AtMost? ==>
          q.cumulative <= q.resets * PerEpoch(p) + q.total + q.repairs)
  }

  predicate ObservationsOk(obs: map<Watcher, Observation>, now: real) {
    forall w :: w in obs ==> ValidWatcher(w) && ValidMetrics(obs[w].metrics) && obs[w].updatedAt <= now
  }

  /** Every reachable state, at a clock that has reached `now`. */
  ghost predicate Sound(p: Policy, s: State, now: real) {
    && s.epochStarted <= now
    && Conserved(p, s.quotas)
    && NonNegative(s.rejected) && CountersInRange(s.counters)
    && ObservationsOk(s.observations, now)
  }

  lemma AcceptConserves(p: Policy, q: Quotas, s: Stream, trafficClass: Name)
    requires Conserved(p, q) && ValidStream(s) && trafficClass != BLANK
    requires !Exhausted(p.maxAccepted, q.total)
    requires s in p.rules ==> CountOf(q.byStream, s) < p.rules[s].maxAccepted
    ensures Conserved(p, Accept(q, s, trafficClass))
  {
    SumBump(q.byStream, s);
    SumBump(q.byClass, trafficClass);
  }

  predicate Fits(p: Policy, q: Quotas, d: RepairScheduler.Decision) {
    d.repair ==> d.allocatedBytes <= p.repairCapacity - q.repairBytes
  }

  lemma RepairConserves(p: Policy, s: State, m: Meta, trafficClass: Name, d: RepairScheduler.Decision)
    requires Conserved(p, s.quotas) && trafficClass != BLANK && Fits(p, s.quotas, d)
    ensures Conserved(p, TryRepair(p, s, m, trafficClass, d).0.quotas)
  {
    SumBump(s.quotas.byClass, trafficClass);
  }

  // ---------------------------------------------------------------- epochs

  lemma MoreEpochs(r: int, k: int, n: int)
    requires k >= 1 && n >= 1
    ensures (r + k) * n >= r * n + n
  {
    assert (r + k) * n == r * n + k * n;
    assert k * n >= n;
  }

  lemma FloorTimes(x: real, n: real, k: int)
    requires n > 0.0 && k == (x / n).Floor
    ensures k as real * n <= x < (k + 1) as real * n
  {
    var y := x / n;
    assert x == y * n;
    assert k as real <= y < (k + 1) as real;
  }

  /** Moving on by whole epochs never overtakes the clock and leaves less than one epoch. */
  lemma EpochFacts(p: Policy, started: real, now: real)
    requires ValidPolicy(p) && started <= now
    ensures var k := EpochsPassed(p, started, now);
            && k >= 0 && (k > 0 <==> p.epoch.AtMost? && now - started >= p.epoch.n as real)
            && (k > 0 ==> 0.0 <= now - (started + (k * p.epoch.n) as real) < p.epoch.n as real)
  {
    if p.epoch.AtMost? && now - started >= p.epoch.n as real {
      var n := p.epoch.n as real;
      var k := ((now - started) / n).Floor;
      FloorTimes(now - started, n, k);
      AtLeastOne(now - started, n, k);
      assert (k * p.epoch.n) as real == k as real * n;
      assert (k + 1) as real * n == k as real * n + n;
    }
  }

  lemma AtLeastOne(x: real, n: real, k: int)
    requires x >= n > 0.0 && x < (k + 1) as real * n
    ensures k >= 1
  {
    assert (k + 1) as real * n > n;
    if k < 1 { NotPositive((k + 1) as real, n); }
  }

  lemma NotPositive(y: real, n: real)
    requires y <= 1.0 && n > 0.0
    ensures y * n <= n
  {
  }

  lemma ResetConserves(p: Policy, q: Quotas, k: int)
    requires ValidPolicy(p) && Conserved(p, q) && k >= 1
    ensures Conserved(p, Quotas(q.resets + k, 0, q.cumulative, map[], q.byClass, 0, 0))
  {
    if p.maxAccepted.AtMost? && p.repairMax.AtMost? { MoreEpochs(q.resets, k, PerEpoch(p)); }
  }

  lemma RefreshSound(p: Policy, s: State, now: real)
    requires ValidPolicy(p) && Sound(p, s, now)
    ensures Sound(p, Refresh(p, s, now), now)
    ensures p.epoch.AtMost? ==> now - Refresh(p, s, now).epochStarted < p.epoch.n as real
    ensures Refresh(p, s, now).observations == s.observations
  {
    EpochFacts(p, s.epochStarted, now);
    var k := EpochsPassed(p, s.epochStarted, now);
    if k > 0 { ResetConserves(p, s.quotas, k); }
  }

  lemma LiveIsPart(p: Policy, obs: map<Watcher, Observation>, now: real)
    ensures |Live(p, obs, now)| <= |obs|
  {
    var live := Live(p, obs, now);
    assert live.Keys <= obs.Keys;
    SubsetSize(live.Keys, obs.Keys);
  }

  lemma LiveWithout(p: Policy, obs: map<Watcher, Observation>, now: real, expired: set<Watcher>)
    requires expired == set w | w in obs && obs[w].updatedAt < now - p.ttl as real
    ensures obs - expired == Live(p, obs, now) && |obs - expired| + |expired| == |obs|
  {
    var live := obs - expired;
    assert live == Live(p, obs, now);
    RestSize(obs, expired);
  }

  lemma RestSize(obs: map<Watcher, Observation>, gone: set<Watcher>)
    requires gone <= obs.Keys
    ensures |obs - gone| + |gone| == |obs|
  {
    var rest := (obs - gone).Keys;
    assert obs.Keys == rest + gone && rest !! gone;
    assert |obs.Keys| == |rest| + |gone|;
  }

  lemma ExpireSound(p: Policy, s: State, now: real)
    requires Sound(p, s, now)
    ensures Sound(p, Expire(p, s, now), now) && Expire(p, s, now).quotas == s.quotas
  {
    LiveIsPart(p, s.observations, now);
  }

  lemma LaterSound(p: Policy, s: State, now: real, later: real)
    requires Sound(p, s, now) && now <= later
    ensures Sound(p, s, later)
  {
  }

  // ---------------------------------------------------------------- every operation keeps it

  lemma RejectSound(p: Policy, s: State, reason: Reason, now: real)
    requires Sound(p, s, now)
    ensures Sound(p, Reject(s, reason), now) && Reject(s, reason).quotas == s.quotas
  {
  }

  lemma TryRepairSound(p: Policy, s: State, m: Meta, trafficClass: Name, d: RepairScheduler.Decision, now: real)
    requires Sound(p, s, now) && trafficClass != BLANK && Fits(p, s.quotas, d)
    ensures Sound(p, TryRepair(p, s, m, trafficClass, d).0, now)
  {
    RepairConserves(p, s, m, trafficClass, d);
  }

  lemma RepairOrSound(p: Policy, s: State, m: Meta, trafficClass: Name, d: RepairScheduler.Decision, reason: Reason,
                      now: real)
    requires Sound(p, s, now) && trafficClass != BLANK && Fits(p, s.quotas, d)
    ensures Sound(p, RepairOr(p, s, m, trafficClass, d, reason).0, now)
  {
    TryRepairSound(p, s, m, trafficClass, d, now);
    RejectSound(p, TryRepair(p, s, m, trafficClass, d).0, reason, now);
  }

  lemma AdmitFleetSound(p: Policy, s: State, m: Meta, trafficClass: Name, d: RepairScheduler.Decision, now: real)
    requires Sound(p, s, now) && ValidStream(m.stream) && trafficClass != BLANK && Fits(p, s.quotas, d)
    requires m.stream in p.rules ==> CountOf(s.quotas.byStream, m.stream) < p.rules[m.stream].maxAccepted
    ensures Sound(p, AdmitFleet(p, s, m, trafficClass, d).0, now)
  {
    if Exhausted(p.maxAccepted, s.quotas.total) { RepairOrSound(p, s, m, trafficClass, d, FleetQuota, now); }
    else { AcceptConserves(p, s.quotas, m.stream, trafficClass); }
  }

  lemma ScoredSound(p: Policy, s: State, m: Meta, now: real)
    requires Sound(p, s, now)
    ensures Sound(p, Scored(p, s, m, now).0, now) && Scored(p, s, m, now).0.quotas == s.quotas
  {
    ExpireSound(p, s, now);
  }

  lemma AdmitScoredSound(p: Policy, s: State, m: Meta, score: real, d: RepairScheduler.Decision, now: real)
    requires ValidPolicy(p) && Sound(p, s, now) && m.stream in p.rules && Fits(p, s.quotas, d)
    ensures Sound(p, AdmitScored(p, s, m, p.rules[m.stream], score, d).0, now)
  {
    var rule := p.rules[m.stream];
    if score < rule.minScore { RepairOrSound(p, s, m, rule.trafficClass, d, ScoreBelowThreshold, now); }
    else if CountOf(s.quotas.byStream, m.stream) >= rule.maxAccepted {
      RepairOrSound(p, s, m, rule.trafficClass, d, StreamQuota, now);
    } else { AdmitFleetSound(p, s, m, rule.trafficClass, d, now); }
  }

  lemma AdmitSound(p: Policy, s: State, m: Meta, t1: real, t2: real, d: RepairScheduler.Decision)
    requires ValidPolicy(p) && Sound(p, s, t1) && t1 <= t2 && ValidStream(m.stream)
    requires Fits(p, Refresh(p, s, t1).quotas, d)
    ensures Sound(p, Admit(p, s, m, t1, t2, d).0, t2)
  {
    var s1 := Refresh(p, s, t1);
    RefreshSound(p, s, t1);
    LaterSound(p, s1, t1, t2);
    RejectSound(p, s1, NoMatchingRule, t2);
    RejectSound(p, s1, ClassMismatch, t2);
    RejectSound(p, s1, PublisherNotAllowed, t2);
    if m.stream !in p.rules {
      AdmitFleetSound(p, s1, m, DEFAULT_CLASS, d, t2);
    } else {
      ScoredSound(p, s1, m, t2);
      var (s2, score) := Scored(p, s1, m, t2);
      AdmitScoredSound(p, s2, m, score, d, t2);
    }
  }

  lemma ObserveSound(p: Policy, s: State, w: Watcher, m: Metrics, origin: Origin, now: real)
    requires Sound(p, s, now)
    ensures Sound(p, Observe(s, w, m, origin, now), now)
  {
    ObserveCounters(s, w, m, origin, now);
    var s' := Observe(s, w, m, origin, now);
    assert s' == s.(observations := s'.observations, counters := s'.counters);
  }

  lemma ObserveCounters(s: State, w: Watcher, m: Metrics, origin: Origin, now: real)
    requires CountersInRange(s.counters)
    ensures CountersInRange(Observe(s, w, m, origin, now).counters)
  {
  }

  // ---------------------------------------------------------------- rollback

  /** A document an export of some reachable state wrote. */
  ghost predicate SoundDocument(p: Policy, doc: Document) { Acceptable(p, doc) && Conserved(p, doc.quotas) }

  lemma SettledSound(p: Policy, s: State, t1: real, t2: real)
    requires ValidPolicy(p) && Sound(p, s, t1) && t1 <= t2
    ensures Sound(p, Settled(p, s, t1, t2), t2)
  {
    RefreshSound(p, s, t1);
    LaterSound(p, Refresh(p, s, t1), t1, t2);
    ExpireSound(p, Refresh(p, s, t1), t2);
  }

  /** What a reachable state exports passes every check of the restore. */
  lemma ExportIsAcceptable(p: Policy, s: State, t1: real, t2: real, t3: real)
    requires ValidPolicy(p) && Sound(p, s, t1) && t1 <= t2 <= t3
    ensures SoundDocument(p, Written(Settled(p, s, t1, t2), t3))
  {
    SettledSound(p, s, t1, t2);
  }

  lemma RestoredSound(p: Policy, doc: Document, t1: real, t2: real)
    requires ValidPolicy(p) && SoundDocument(p, doc) && t1 <= t2
    ensures Sound(p, Restored(p, doc, t1, t2), t2)
  {
    var s := State(t1 - doc.elapsed, doc.quotas, doc.rejected, doc.decisions, Revived(p, doc.observations, t1),
                   doc.counters);
    assert forall w :: w in doc.observations && 0.0 <= doc.observations[w].age < p.ttl as real ==>
                         Restorable(p, w, doc.observations[w]);
    LaterSound(p, s, t1, t2);
    RefreshSound(p, s, t2);
  }

  /** The observations whose age at `now` has not reached the TTL. */
  function Young(p: Policy, obs: map<Watcher, Observation>, now: real): map<Watcher, Observation> {
    map w | w in obs && now - obs[w].updatedAt < p.ttl as real :: obs[w]
  }

  lemma RevivedAtOnce(p: Policy, s: State, now: real)
    requires ObservationsOk(s.observations, now)
    ensures Revived(p, Written(s, now).observations, now) == Young(p, s.observations, now)
  {
    var r, y := Revived(p, Written(s, now).observations, now), Young(p, s.observations, now);
    forall w | w in y ensures w in r && r[w] == y[w] {}
    assert r.Keys == y.Keys;
  }

  /** At one clock reading, restore after export is the exported state without the observations
      that are exactly as old as the TTL. */
  lemma RestoreAfterExport(p: Policy, s: State, now: real)
    requires ValidPolicy(p) && Sound(p, s, now)
    ensures var kept := Settled(p, s, now, now);
            Restored(p, Written(kept, now), now, now) == kept.(observations := Young(p, kept.observations, now))
  {
    var kept := Settled(p, s, now, now);
    RefreshSound(p, s, now);
    SettledSound(p, s, now, now);
    RevivedAtOnce(p, kept, now);
    EpochFacts(p, kept.epochStarted, now);
  }

  /** So the pair is the identity exactly when no observation has reached the TTL. */
  lemma RestoreIsIdentityWhen(p: Policy, s: State, now: real)
    requires ValidPolicy(p) && Sound(p, s, now)
    ensures var kept := Settled(p, s, now, now);
            Restored(p, Written(kept, now), now, now) == kept
            <==> forall w :: w in s.observations ==> now - s.observations[w].updatedAt != p.ttl as real
  {
    var kept := Settled(p, s, now, now);
    RestoreAfterExport(p, s, now);
    var young := Young(p, kept.observations, now);
    if forall w :: w in s.observations ==> now - s.observations[w].updatedAt != p.ttl as real {
      forall w | w in kept.observations ensures w in young && young[w] == kept.observations[w] {
        assert w in s.observations;
      }
      assert young == kept.observations;
    } else {
      var w :| w in s.observations && now - s.observations[w].updatedAt == p.ttl as real;
      assert w in kept.observations && w !in young;
    }
  }

  /** With a moving clock (exported at t3, restored at t4 and t5) the quotas come back exactly
      when the epoch does not end in between, and the epoch start shifts by the pause. */
  lemma RollbackKeepsQuotas(p: Policy, s: State, t1: real, t2: real, t3: real, t4: real, t5: real)
    requires ValidPolicy(p) && Sound(p, s, t1) && t1 <= t2 <= t3 && t4 <= t5
    ensures var kept := Settled(p, s, t1, t2);
            var back := Restored(p, Written(kept, t3), t4, t5);
            (back.quotas == kept.quotas
             <==> (p.epoch.AtMost? ==> (t3 - kept.epochStarted) + (t5 - t4) < p.epoch.n as real))
            && (back.quotas == kept.quotas ==> back.epochStarted == kept.epochStarted + (t4 - t3))
  {
    var kept := Settled(p, s, t1, t2);
    SettledSound(p, s, t1, t2);
    EpochFacts(p, t4 - (t3 - kept.epochStarted), t5);
  }

  /** A publish whose durable commit failed: exported before, admitted, exported again (which
      may settle the policy once more), then restored. */
  function FailedPublish(p: Policy, s: State, m: Meta, d: RepairScheduler.Decision, now: real): State
    requires ValidPolicy(p)
  {
    var before := Settled(p, s, now, now);
    var admitted := Admit(p, before, m, now, now, d).0;
    var after := Settled(p, admitted, now, now);
    if Acceptable(p, Written(before, now)) then Restored(p, Written(before, now), now, now) else after
  }

  /** It leaves quotas, repair budget, decisions and counters as they were. */
  lemma FailedPublishChangesNothing(p: Policy, s: State, m: Meta, d: RepairScheduler.Decision, now: real)
    requires ValidPolicy(p) && Sound(p, s, now)
    ensures var before, s' := Settled(p, s, now, now), FailedPublish(p, s, m, d, now);
            s' == before.(observations := Young(p, before.observations, now))
  {
    ExportIsAcceptable(p, s, now, now, now);
    RestoreAfterExport(p, s, now);
  }

  // ---------------------------------------------------------------- whole runs

  /** One gateway's policy over time: its state, the latest clock reading and the documents
      committed so far. A reload restores any of them, in the same process after a failed
      commit or in a new one whose clock starts elsewhere. */
  datatype Site = Site(state: State, clock: real, saved: set<Document>)

  datatype Step =
    | Ask(m: Meta, t1: real, t2: real, d: RepairScheduler.Decision)
    | Watch(w: Watcher, metrics: Metrics, origin: Origin, t: real)
    | Settle(t1: real, t2: real)
    | Export(t1: real, t2: real, t3: real)
    | Reload(doc: Document, t4: real, t5: real)

  /** The step may happen: clock readings do not run backwards, frames were validated, the
      scheduler kept to the capacity it was given, and only saved documents are reloaded. */
  predicate Possible(p: Policy, a: Site, step: Step)
    requires ValidPolicy(p)
  {
    match step
    case Ask(m, t1, t2, d) => a.clock <= t1 <= t2 && ValidStream(m.stream) && Fits(p, Refresh(p, a.state, t1).quotas, d)
    case Watch(_, _, _, t) => a.clock <= t
    case Settle(t1, t2) => a.clock <= t1 <= t2
    case Export(t1, t2, t3) => a.clock <= t1 <= t2 <= t3
    case Reload(doc, t4, t5) => doc in a.saved && t4 <= t5
  }

  function Next(p: Policy, a: Site, step: Step): Site
    requires ValidPolicy(p)
  {
    match step
    case Ask(m, t1, t2, d) => Site(Admit(p, a.state, m, t1, t2, d).0, t2, a.saved)
    case Watch(w, metrics, origin, t) => Site(Observe(a.state, w, metrics, origin, t), t, a.saved)
    case Settle(t1, t2) => Site(Settled(p, a.state, t1, t2), t2, a.saved)
    case Export(t1, t2, t3) =>
      Site(Settled(p, a.state, t1, t2), t3, a.saved + {Written(Settled(p, a.state, t1, t2), t3)})
    case Reload(doc, t4, t5) => Site(Restored(p, doc, t4, t5), t5, a.saved)
  }

  predicate Follows(p: Policy, a: Site, step: Step, b: Site)
    requires ValidPolicy(p)
  {
    Possible(p, a, step) && b == Next(p, a, step)
  }

  predicate IsRun(p: Policy, sites: seq<Site>, steps: seq<Step>)
    requires ValidPolicy(p)
  {
    && |sites| == |steps| + 1
    && sites[0] == Site(Fresh(sites[0].clock), sites[0].clock, {})
    && forall i {:trigger Follows(p, sites[i], steps[i], sites[i + 1])} ::
         0 <= i < |steps| ==> Follows(p, sites[i], steps[i], sites[i + 1])
  }

  ghost predicate SiteOk(p: Policy, a: Site) {
    Sound(p, a.state, a.clock) && forall doc :: doc in a.saved ==> SoundDocument(p, doc)
  }

  lemma NextKeepsSite(p: Policy, a: Site, step: Step)
    requires ValidPolicy(p) && SiteOk(p, a) && Possible(p, a, step)
    ensures SiteOk(p, Next(p, a, step))
  {
    match step
    case Ask(m, t1, t2, d) =>
      LaterSound(p, a.state, a.clock, t1);
      AdmitSound(p, a.state, m, t1, t2, d);
    case Watch(w, metrics, origin, t) =>
      LaterSound(p, a.state, a.clock, t);
      ObserveSound(p, a.state, w, metrics, origin, t);
    case Settle(t1, t2) =>
      LaterSound(p, a.state, a.clock, t1);
      SettledSound(p, a.state, t1, t2);
    case Export(t1, t2, t3) =>
      LaterSound(p, a.state, a.clock, t1);
      SettledSound(p, a.state, t1, t2);
      LaterSound(p, Settled(p, a.state, t1, t2), t2, t3);
      ExportIsAcceptable(p, a.state, t1, t2, t3);
    case Reload(doc, t4, t5) =>
      assert SoundDocument(p, doc);
      RestoredSound(p, doc, t4, t5);
  }

  lemma {:induction false} RunKeepsSite(p: Policy, sites: seq<Site>, steps: seq<Step>, k: nat)
    requires ValidPolicy(p) && IsRun(p, sites, steps) && k < |sites|
    ensures SiteOk(p, sites[k])
  {
    if k > 0 {
      var i := k - 1;
      RunKeepsSite(p, sites, steps, i);
      assert Follows(p, sites[i], steps[i], sites[i + 1]);
      NextKeepsSite(p, sites[i], steps[i]);
    }
  }

  /** Over every run with admissions, observations, epoch changes, rollbacks and recoveries:
      the counters add up and no stream, fleet or repair limit is ever exceeded. */
  lemma QuotasHold(p: Policy, sites: seq<Site>, steps: seq<Step>, k: nat)
    requires ValidPolicy(p) && IsRun(p, sites, steps) && k < |sites|
    ensures var q := sites[k].state.quotas;
            && Sum(q.byStream) == q.total && Sum(q.byClass) == q.cumulative
            && Within(p.maxAccepted, q.total)
            && (forall s :: s in p.rules ==> CountOf(q.byStream, s) <= p.rules[s].maxAccepted)
            && 0 <= q.repairBytes <= p.repairCapacity && Within(p.repairMax, q.repairs)
            && (p.maxAccepted.AtMost? && p.repairMax.AtMost? ==>
                  q.cumulative <= q.resets * (p.maxAccepted.n + p.repairMax.n) + q.total + q.repairs)
  {
    RunKeepsSite(p, sites, steps, k);
    assert forall s :: s in p.rules ==> p.rules[s].maxAccepted > 0;
  }

  /** Every document saved in a run can be restored at any later reading. */
  lemma SavedIsRestorable(p: Policy, sites: seq<Site>, steps: seq<Step>, k: nat, doc: Document)
    requires ValidPolicy(p) && IsRun(p, sites, steps) && k < |sites| && doc in sites[k].saved
    ensures Acceptable(p, doc)
  {
    RunKeepsSite(p, sites, steps, k);
  }

  /** Failing to commit a publish at any point of a run changes no quota and no counter. */
  lemma RollbackInRun(p: Policy, sites: seq<Site>, steps: seq<Step>, k: nat, m: Meta, d: RepairScheduler.Decision,
                      now: real)
    requires ValidPolicy(p) && IsRun(p, sites, steps) && k < |sites| && sites[k].clock <= now
    ensures var before, s' := Settled(p, sites[k].state, now, now), FailedPublish(p, sites[k].state, m, d, now);
            s' == before.(observations := Young(p, before.observations, now))
  {
    RunKeepsSite(p, sites, steps, k);
    LaterSound(p, sites[k].state, sites[k].clock, now);
    FailedPublishChangesNothing(p, sites[k].state, m, d, now);
  }

  // ---------------------------------------------------------------- refused documents

  /** The order in which a document lists its observations. */
  predicate Lists(rows: seq<Watcher>, doc: Document) {
    (forall w :: w in rows ==> w in doc.observations) && forall w :: w in doc.observations ==> w in rows
  }

  predicate InAge(p: Policy, a: Aged) { 0.0 <= a.age < p.ttl as real }

  /** One row on its way in: an observation of the moment, unless it is too old. */
  function WatchRow(p: Policy, s: State, doc: Document, w: Watcher, now: real): State
    requires w in doc.observations
  {
    if InAge(p, doc.observations[w]) then Observe(s, w, doc.observations[w].metrics, Reported, now) else s
  }

  function WatchRows(p: Policy, s: State, doc: Document, rows: seq<Watcher>, stamp: nat -> real): State
    requires forall w :: w in rows ==> w in doc.observations
  {
    if rows == [] then s
    else
      var n := |rows| - 1;
      WatchRow(p, WatchRows(p, s, doc, rows[..n], stamp), doc, rows[n], stamp(n))
  }

  /** How many rows come before the first that is refused. */
  function GoodRows(p: Policy, doc: Document, rows: seq<Watcher>): (k: nat)
    requires forall w :: w in rows ==> w in doc.observations
    ensures k <= |rows| && forall j :: 0 <= j < k ==> Restorable(p, rows[j], doc.observations[rows[j]])
    ensures k < |rows| ==> !Restorable(p, rows[k], doc.observations[rows[k]])
  {
    if rows == [] then 0
    else
      var n := |rows| - 1;
      var k := GoodRows(p, doc, rows[..n]);
      if k == n && Restorable(p, rows[n], doc.observations[rows[n]]) then n + 1 else k
  }

  /** The counters are replaced one by one, up to the first that is refused. */
  function CountersUpTo(d: Counters, c: Counters): Counters {
    var d1 := d.(deferred := c.deferred);
    if c.updates < 0 then d1
    else if !NonNegative(c.updatesBySource) then d1.(updates := c.updates)
    else
      var d2 := d1.(updates := c.updates, updatesBySource := c.updatesBySource);
      if c.expirations < 0 then d2
      else if c.scoreUses < 0 then d2.(expirations := c.expirations)
      else
        var d3 := d2.(expirations := c.expirations, scoreUses := c.scoreUses);
        if c.nativeUpdates < 0 then d3
        else if c.outcomeUpdates < 0 then d3.(nativeUpdates := c.nativeUpdates)
        else
          var d4 := d3.(nativeUpdates := c.nativeUpdates, outcomeUpdates := c.outcomeUpdates);
          if c.taskUpdates < 0 then d4 else d4.(taskUpdates := c.taskUpdates)
  }

  /** What a document leaves whose rows are fine but one of whose later values is refused. */
  function ReplacedUpTo(p: Policy, s: State, doc: Document, t1: real): State {
    var q, own := doc.quotas, s.quotas;
    var s1 := s.(epochStarted := t1 - doc.elapsed);
    if q.resets < 0 then s1
    else if !ClassesInRange(q) then
      s1.(quotas := q.(byClass := own.byClass, repairBytes := own.repairBytes, repairs := own.repairs))
    else if !NonNegative(doc.rejected) then s1.(quotas := q.(repairBytes := own.repairBytes, repairs := own.repairs))
    else if doc.counters.deferred < 0 then s1.(quotas := q, rejected := doc.rejected)
    else
      State(t1 - doc.elapsed, q, doc.rejected, doc.decisions, Revived(p, doc.observations, t1),
            CountersUpTo(s.counters, doc.counters))
  }

  /** What a refused document leaves. */
  function LeftBy(p: Policy, s: State, doc: Document, rows: seq<Watcher>, stamp: nat -> real, t1: real): State
    requires Lists(rows, doc)
  {
    var k := GoodRows(p, doc, rows);
    if doc.elapsed < 0.0 || !TotalsInRange(p, doc.quotas) then s
    else if k < |rows| then WatchRows(p, s, doc, rows[..k], stamp)
    else ReplacedUpTo(p, WatchRows(p, s, doc, rows, stamp), doc, t1)
  }

  /** One more row. */
  lemma GoodStops(p: Policy, doc: Document, rows: seq<Watcher>, i: nat)
    requires i < |rows| && (forall w :: w in rows ==> w in doc.observations) && GoodRows(p, doc, rows[..i]) == i
    ensures if Restorable(p, rows[i], doc.observations[rows[i]]) then GoodRows(p, doc, rows[..i + 1]) == i + 1
            else GoodRows(p, doc, rows) == i
  {
    assert rows[..i + 1][..i] == rows[..i];
    forall j | 0 <= j < i ensures rows[..i][j] == rows[j] {}
  }

  /** All rows are good exactly when every observation of the document is. */
  lemma RowsAccepted(p: Policy, doc: Document, rows: seq<Watcher>)
    requires Lists(rows, doc)
    ensures GoodRows(p, doc, rows) == |rows|
            <==> forall w :: w in doc.observations ==> Restorable(p, w, doc.observations[w])
  {
    var k := GoodRows(p, doc, rows);
    if k < |rows| {
      assert rows[k] in rows;
    } else {
      forall w | w in doc.observations ensures Restorable(p, w, doc.observations[w]) { assert w in rows; }
    }
  }

  function RowsInAge(p: Policy, doc: Document, rows: seq<Watcher>): nat
    requires forall w :: w in rows ==> w in doc.observations
  {
    if rows == [] then 0
    else RowsInAge(p, doc, rows[..|rows| - 1]) + if InAge(p, doc.observations[rows[|rows| - 1]]) then 1 else 0
  }

  /** Accepted rows are counted as observations, and nothing but observations and their counters moves. */
  lemma {:induction false} RowsAreCounted(p: Policy, s: State, doc: Document, rows: seq<Watcher>, stamp: nat -> real)
    requires forall w :: w in rows ==> w in doc.observations && Restorable(p, w, doc.observations[w])
    ensures var s' := WatchRows(p, s, doc, rows, stamp);
            && s'.counters.updates == s.counters.updates + RowsInAge(p, doc, rows)
            && s' == s.(observations := s'.observations,
                        counters := s.counters.(updates := s'.counters.updates,
                                                updatesBySource := s'.counters.updatesBySource))
            && (RowsInAge(p, doc, rows) == 0 ==> s' == s)
  {
    if rows != [] {
      var n := |rows| - 1;
      assert rows[n] in rows && forall w :: w in rows[..n] ==> w in rows;
      RowsAreCounted(p, s, doc, rows[..n], stamp);
    }
  }

  lemma GoodFront(p: Policy, doc: Document, rows: seq<Watcher>)
    requires Lists(rows, doc)
    ensures forall w :: w in rows[..GoodRows(p, doc, rows)] ==>
              w in doc.observations && Restorable(p, w, doc.observations[w])
  {
    var k := GoodRows(p, doc, rows);
    forall w | w in rows[..k] ensures w in doc.observations && Restorable(p, w, doc.observations[w]) {
      var j :| 0 <= j < k && rows[j] == w;
      assert rows[j] in rows;
    }
  }

  /** A refusal leaves every state untouched exactly when it comes from the first checks, or from
      a row with no accepted row before it. */
  lemma RefusedUntouchedWhen(p: Policy, doc: Document, rows: seq<Watcher>, stamp: nat -> real, t1: real)
    requires Lists(rows, doc)
    ensures (forall s {:trigger LeftBy(p, s, doc, rows, stamp, t1)} :: LeftBy(p, s, doc, rows, stamp, t1) == s)
            <==> || doc.elapsed < 0.0 || !TotalsInRange(p, doc.quotas)
                 || (GoodRows(p, doc, rows) < |rows| && RowsInAge(p, doc, rows[..GoodRows(p, doc, rows)]) == 0)
  {
    var k := GoodRows(p, doc, rows);
    GoodFront(p, doc, rows);
    forall s ensures var s' := WatchRows(p, s, doc, rows[..k], stamp);
                     s'.counters.updates == s.counters.updates + RowsInAge(p, doc, rows[..k])
                     && s'.epochStarted == s.epochStarted && (RowsInAge(p, doc, rows[..k]) == 0 ==> s' == s)
    {
      RowsAreCounted(p, s, doc, rows[..k], stamp);
    }
    var other := Fresh(t1 - doc.elapsed + 1.0);
    assert rows[..|rows|] == rows;
    if doc.elapsed >= 0.0 && TotalsInRange(p, doc.quotas) {
      assert k == |rows| || RowsInAge(p, doc, rows[..k]) > 0 ==> LeftBy(p, other, doc, rows, stamp, t1) != other;
    }
  }

  // ---------------------------------------------------------------- the object

  const NoDecision := RepairScheduler.Decision("", false, [], 0, 0.0)

  /** `GatewayAdmissionPolicy`: the policy with the state it updates in place. */
  class GatewayAdmissionPolicy {
    const policy: Policy
    const utility: RepairScheduler.Utility
    var state: State

    constructor (p: Policy, u: RepairScheduler.Utility, now: real)
      ensures policy == p && utility == u && state == Fresh(now)
    {
      policy, utility, state := p, u, Fresh(now);
    }

    method RefreshEpoch(now: real)
      requires ValidPolicy(policy)
      modifies this
      ensures state == Refresh(policy, old(state), now)
    {
      if policy.epoch.Unlimited? { return; }
      var n := policy.epoch.n;
      var elapsed := now - state.epochStarted;
      if elapsed < n as real { return; }
      var k := MaxInt(1, (elapsed / n as real).Floor);
      var q := state.quotas;
      state := state.(epochStarted := state.epochStarted + (k * n) as real,
                      quotas := q.(resets := q.resets + k, total := 0, byStream := map[], repairBytes := 0,
                                   repairs := 0));
    }

    method ExpireObservations(now: real)
      modifies this
      ensures state == Expire(policy, old(state), now)
    {
      var obs := state.observations;
      var expired := set w | w in obs && obs[w].updatedAt < now - policy.ttl as real;
      var live := obs - expired;
      LiveWithout(policy, obs, now, expired);
      state := state.(observations := live,
                      counters := state.counters.(expirations := state.counters.expirations + |expired|));
    }

    method EffectiveScore(m: Meta, now: real) returns (score: real)
      modifies this
      ensures (state, score) == Scored(policy, old(state), m, now)
    {
      ExpireObservations(now);
      var w := Watcher(m.stream, m.publisher);
      if w !in state.observations { return policy.score(m, Unobserved); }
      state := state.(counters := state.counters.(scoreUses := state.counters.scoreUses + 1));
      return policy.score(m, Observed(state.observations[w].metrics));
    }

    method Refuse(reason: Reason)
      modifies this
      ensures state == Reject(old(state), reason)
    {
      state := state.(rejected := Bump(state.rejected, reason));
    }

    /** One demand goes to the repair scheduler with the bytes left in this epoch. */
    method AskScheduler(m: Meta) returns (d: RepairScheduler.Decision)
      requires policy.repairPaths != [] && m.demand.payloadBytes > 0
      requires policy.repairCapacity - state.quotas.repairBytes > 0
      ensures Fits(policy, state.quotas, d)
    {
      var left: nat := policy.repairCapacity - state.quotas.repairBytes;
      var cfg := RepairScheduler.Config(left, Wrappers.Some(1), 1, true, 0.25);
      assert RepairScheduler.InIdOrder([m.demand]) == [m.demand] by { RepairScheduler.OneInOrder(m.demand); }
      var r, table := RepairScheduler.Schedule(cfg, utility, [m.demand], policy.repairPaths);
      ghost var sel :| RepairScheduler.Optimal(table, left, cfg.maxAdmitted, sel)
                       && RepairScheduler.Implements([m.demand], table, sel, r.value);
      d := r.value[0];
      assert r.value == [d] && r.value[..0] == [];
      assert RepairScheduler.DecisionTally(r.value[..0]).bytes == 0;
      assert RepairScheduler.DecisionTally(r.value).bytes == if d.repair then d.allocatedBytes else 0;
    }

    method TryToRepair(m: Meta, trafficClass: Name) returns (repaired: bool, d: RepairScheduler.Decision)
      requires ValidPolicy(policy) && m.demand.payloadBytes > 0
      modifies this
      ensures Fits(policy, old(state.quotas), d)
      ensures (state, repaired) == TryRepair(policy, old(state), m, trafficClass, d)
    {
      d := NoDecision;
      if !m.repairRequested || policy.repairCapacity <= 0 { return false, d; }
      var q := state.quotas;
      var deferred := state.counters.(deferred := state.counters.deferred + 1);
      if policy.repairMax.AtMost? && q.repairs >= policy.repairMax.n {
        state := state.(counters := deferred);
        return false, d;
      }
      if policy.repairCapacity - q.repairBytes <= 0 { state := state.(counters := deferred); return false, d; }
      d := AskScheduler(m);
      state := state.(decisions := state.decisions + [d]);
      if !d.repair { state := state.(counters := deferred); return false, d; }
      state := state.(quotas := q.(repairBytes := q.repairBytes + d.allocatedBytes, repairs := q.repairs + 1,
                                   cumulative := q.cumulative + 1, byClass := Bump(q.byClass, trafficClass)));
      return true, d;
    }

    method RepairOrRefuse(m: Meta, trafficClass: Name, reason: Reason)
      returns (a: Admission, d: RepairScheduler.Decision)
      requires ValidPolicy(policy) && m.demand.payloadBytes > 0
      modifies this
      ensures Fits(policy, old(state.quotas), d)
      ensures (state, a) == RepairOr(policy, old(state), m, trafficClass, d, reason)
    {
      var repaired;
      repaired, d := TryToRepair(m, trafficClass);
      if repaired { return Repair, d; }
      Refuse(reason);
      return Refused(reason), d;
    }

    method AcceptWithinFleet(m: Meta, trafficClass: Name) returns (a: Admission, d: RepairScheduler.Decision)
      requires ValidPolicy(policy) && m.demand.payloadBytes > 0
      modifies this
      ensures Fits(policy, old(state.quotas), d)
      ensures (state, a) == AdmitFleet(policy, old(state), m, trafficClass, d)
    {
      d := NoDecision;
      var q := state.quotas;
      if Exhausted(policy.maxAccepted, q.total) { a, d := RepairOrRefuse(m, trafficClass, FleetQuota); return; }
      state := state.(quotas := q.(total := q.total + 1, cumulative := q.cumulative + 1,
                                   byStream := Bump(q.byStream, m.stream), byClass := Bump(q.byClass, trafficClass)));
      a := Normal;
    }

    method AdmitByRule(m: Meta, rule: Rule, t: real) returns (a: Admission, d: RepairScheduler.Decision)
      requires ValidPolicy(policy) && m.demand.payloadBytes > 0
      modifies this
      ensures Fits(policy, old(state.quotas), d)
      ensures var (s, score) := Scored(policy, old(state), m, t);
              (state, a) == AdmitScored(policy, s, m, rule, score, d)
    {
      var score := EffectiveScore(m, t);
      if score < rule.minScore {
        a, d := RepairOrRefuse(m, rule.trafficClass, ScoreBelowThreshold);
      } else if CountOf(state.quotas.byStream, m.stream) >= rule.maxAccepted {
        a, d := RepairOrRefuse(m, rule.trafficClass, StreamQuota);
      } else {
        a, d := AcceptWithinFleet(m, rule.trafficClass);
      }
    }

    /** `admit`. */
    method AdmitFrame(m: Meta, t1: real, t2: real) returns (a: Admission, d: RepairScheduler.Decision)
      requires ValidPolicy(policy) && m.demand.payloadBytes > 0
      modifies this
      ensures Fits(policy, Refresh(policy, old(state), t1).quotas, d)
      ensures (state, a) == Admit(policy, old(state), m, t1, t2, d)
    {
      d := NoDecision;
      RefreshEpoch(t1);
      if m.stream !in policy.rules {
        if policy.denyByDefault { Refuse(NoMatchingRule); return Refused(NoMatchingRule), d; }
        a, d := AcceptWithinFleet(m, DEFAULT_CLASS);
        return;
      }
      var rule := policy.rules[m.stream];
      if m.trafficClass != BLANK && m.trafficClass != rule.trafficClass {
        Refuse(ClassMismatch);
        return Refused(ClassMismatch), d;
      }
      if rule.publishers != {} && m.publisher !in rule.publishers {
        Refuse(PublisherNotAllowed);
        return Refused(PublisherNotAllowed), d;
      }
      a, d := AdmitByRule(m, rule, t2);
    }

    method ExportState(t1: real, t2: real, t3: real) returns (doc: Document)
      requires ValidPolicy(policy)
      modifies this
      ensures state == Settled(policy, old(state), t1, t2) && doc == Written(state, t3)
    {
      RefreshEpoch(t1);
      ExpireObservations(t2);
      doc := Written(state, t3);
    }

    /** The observations of a document, up to the first that is refused. */
    method WatchAll(doc: Document, rows: seq<Watcher>, stamp: nat -> real) returns (ok: bool)
      requires Lists(rows, doc)
      modifies this
      ensures ok <==> GoodRows(policy, doc, rows) == |rows|
      ensures state == WatchRows(policy, old(state), doc, rows[..GoodRows(policy, doc, rows)], stamp)
    {
      for i := 0 to |rows|
        invariant GoodRows(policy, doc, rows[..i]) == i
        invariant state == WatchRows(policy, old(state), doc, rows[..i], stamp)
      {
        assert rows[..i + 1][..i] == rows[..i] && rows[i] in rows;
        GoodStops(policy, doc, rows, i);
        if !Restorable(policy, rows[i], doc.observations[rows[i]]) { return false; }
        state := WatchRow(policy, state, doc, rows[i], stamp(i));
      }
      assert rows[..|rows|] == rows;
      return true;
    }

    /** The counters of a document, one by one. */
    method ReplaceCounters(c: Counters) returns (ok: bool)
      requires c.deferred >= 0
      modifies this
      ensures ok <==> CountersInRange(c)
      ensures state == old(state).(counters := if ok then c else CountersUpTo(old(state).counters, c))
    {
      state := state.(counters := state.counters.(deferred := c.deferred));
      if c.updates < 0 { return false; }
      state := state.(counters := state.counters.(updates := c.updates));
      if !NonNegative(c.updatesBySource) { return false; }
      state := state.(counters := state.counters.(updatesBySource := c.updatesBySource));
      if c.expirations < 0 { return false; }
      state := state.(counters := state.counters.(expirations := c.expirations));
      if c.scoreUses < 0 { return false; }
      state := state.(counters := state.counters.(scoreUses := c.scoreUses));
      if c.nativeUpdates < 0 { return false; }
      state := state.(counters := state.counters.(nativeUpdates := c.nativeUpdates));
      if c.outcomeUpdates < 0 { return false; }
      state := state.(counters := state.counters.(outcomeUpdates := c.outcomeUpdates));
      if c.taskUpdates < 0 { return false; }
      state := state.(counters := state.counters.(taskUpdates := c.taskUpdates));
      if c.taskFailures < 0 { return false; }
      state := state.(counters := state.counters.(taskFailures := c.taskFailures));
      return true;
    }

    /** Everything else of a document whose totals and rows are in range. */
    method Replace(doc: Document, t1: real) returns (ok: bool)
      modifies this
      ensures ok <==> doc.quotas.resets >= 0 && ClassesInRange(doc.quotas) && NonNegative(doc.rejected)
                      && CountersInRange(doc.counters)
      ensures state == if ok then State(t1 - doc.elapsed, doc.quotas, doc.rejected, doc.decisions,
                                        Revived(policy, doc.observations, t1), doc.counters)
                       else ReplacedUpTo(policy, old(state), doc, t1)
    {
      var q := doc.quotas;
      state := state.(epochStarted := t1 - doc.elapsed);
      if q.resets < 0 { return false; }
      state := state.(quotas := state.quotas.(resets := q.resets, total := q.total, cumulative := q.cumulative,
                                              byStream := q.byStream));
      if !ClassesInRange(q) { return false; }
      state := state.(quotas := state.quotas.(byClass := q.byClass));
      if !NonNegative(doc.rejected) { return false; }
      state := state.(rejected := doc.rejected,
                      quotas := state.quotas.(repairBytes := q.repairBytes, repairs := q.repairs));
      if doc.counters.deferred < 0 { return false; }
      state := state.(decisions := doc.decisions, observations := Revived(policy, doc.observations, t1));
      ok := ReplaceCounters(doc.counters);
    }

    /** `restore_durable_state`: `t1` dates the document, `stamp` its rows on their way in, and
        `t2` refreshes the epoch. */
    method RestoreState(doc: Document, rows: seq<Watcher>, stamp: nat -> real, t1: real, t2: real) returns (ok: bool)
      requires ValidPolicy(policy) && Lists(rows, doc)
      modifies this
      ensures ok == Acceptable(policy, doc)
      ensures state == if ok then Restored(policy, doc, t1, t2) else LeftBy(policy, old(state), doc, rows, stamp, t1)
    {
      RowsAccepted(policy, doc, rows);
      if doc.elapsed < 0.0 || !TotalsInRange(policy, doc.quotas) { return false; }
      var fine := WatchAll(doc, rows, stamp);
      if !fine { return false; }
      assert rows[..|rows|] == rows;
      var replaced := Replace(doc, t1);
      if !replaced { return false; }
      RefreshEpoch(t2);
      return true;
    }
  }
}
