/** Predictive admission of fleetqox/control_plane.py: four tiers of flows are admitted in turn
    against one byte, packet and airtime budget; the last tier gets a fraction of the bytes left.
    Priorities, sizes and degradability of a flow are inputs. */
module PredictiveAdmission {
  import opened FlowModel
  import opened Numbers
  import Sorting

  type FlowId = nat   // ordered, otherwise opaque

  datatype Candidate = Candidate(flow: FlowId, kind: FlowClass, size: nat, priority: real, age: real, deadline: real,
                                 lifespan: real, attention: real, degradable: bool)

  datatype Config = Config(
    alpha: real, safetyMargin: real, compactThreshold: real, dropThreshold: real,
    compactRatio: real, degradedRatio: real, staleRatio: real, lastTierFraction: real)

  /** A budget that may be absent. */
  datatype Limit =
    | Unlimited
    | Left(n: int)

  datatype Link = Link(bytes: nat, packets: Limit, airtime: Limit, loss: real, rtt: real, jitter: real)

  predicate NonNegative(l: Limit) { l.Left? ==> l.n >= 0 }
  predicate ValidLink(l: Link) { NonNegative(l.packets) && NonNegative(l.airtime) }

  datatype Action = Send | SendCompacted | SendDegraded | Defer | Drop
  datatype Decision = Decision(flow: FlowId, action: Action, bytes: int)

  predicate Core(c: FlowClass) { c == Safety || c == Control || c == Coordination || c == State }

  /** Channel time of one packet in nanoseconds: fixed overhead and payload at 54 Mbit/s. */
  function Airtime(bytes: int): (r: int)
    ensures r >= 160000
  {
    160000 + (if bytes > 0 then bytes * 8000000000 / 54000000 else 0)
  }

  /** `int(x)`. */
  function Trunc(x: real): int { if x >= 0.0 then x.Floor else -(-x).Floor }

  function Slack(e: Candidate): real { e.deadline - e.age }
  function Density(e: Candidate): real { e.priority / MaxInt(1, e.size) as real }

  // ---------------------------------------------------------------- one decision

  /** `_decision_for_entry`: compact, send, degrade, or nothing. */
  datatype Offer =
    | NoOffer
    | Offer(decision: Decision)

  function OfferFor(cfg: Config, e: Candidate, pressure: real, left: int): (r: Offer)
    ensures r.Offer? ==> r.decision.flow == e.flow && (r.decision.bytes >= 1 || r.decision.bytes == e.size)
    ensures r.Offer? ==> r.decision.action != Defer && r.decision.action != Drop
  {
    if Core(e.kind) && (pressure >= cfg.compactThreshold || (e.size > left && Slack(e) <= e.deadline)) then
      Offer(Decision(e.flow, SendCompacted, MaxInt(1, Trunc(e.size as real * cfg.compactRatio))))
    else if e.size <= left then Offer(Decision(e.flow, Send, e.size))
    else if e.degradable && MaxInt(1, Trunc(e.size as real * cfg.degradedRatio)) <= left then
      Offer(Decision(e.flow, SendDegraded, MaxInt(1, Trunc(e.size as real * cfg.degradedRatio))))
    else NoOffer
  }

  predicate Ratios(cfg: Config) { 0.0 <= cfg.compactRatio <= 1.0 && 0.0 <= cfg.degradedRatio <= 1.0 }

  lemma ShrinksTo(size: nat, ratio: real)
    requires 0.0 <= ratio <= 1.0 && size >= 1
    ensures 1 <= MaxInt(1, Trunc(size as real * ratio)) <= size
  {
    assert size as real * ratio <= size as real;
    assert size as real * ratio >= 0.0;
  }

  /** A flow that fits is sent whole unless pressure calls for compaction; only core flows are
      compacted, only degradable ones degraded, and no form is larger than the flow. */
  lemma OfferIsModest(cfg: Config, e: Candidate, pressure: real, left: int)
    requires Ratios(cfg) && e.size >= 1
    ensures var o := OfferFor(cfg, e, pressure, left);
            && (e.size <= left && pressure < cfg.compactThreshold ==> o == Offer(Decision(e.flow, Send, e.size)))
            && (o.Offer? ==>
                  1 <= o.decision.bytes <= e.size && (o.decision.bytes < e.size ==> o.decision.action != Send))
            && (o.Offer? && o.decision.action == SendCompacted ==> Core(e.kind))
            && (o.Offer? && o.decision.action == SendDegraded ==> e.degradable && e.size > left >= o.decision.bytes)
  {
    ShrinksTo(e.size, cfg.compactRatio);
    ShrinksTo(e.size, cfg.degradedRatio);
  }

  // ---------------------------------------------------------------- budgets

  datatype Budget = Budget(bytes: int, packets: Limit, airtime: Limit)

  function Bytes(ds: seq<Decision>): int { if ds == [] then 0 else Bytes(ds[..|ds| - 1]) + ds[|ds| - 1].bytes }
  function AirtimeOf(ds: seq<Decision>): int {
    if ds == [] then 0 else AirtimeOf(ds[..|ds| - 1]) + Airtime(ds[|ds| - 1].bytes)
  }

  function Minus(l: Limit, n: int): Limit { if l.Left? then Left(l.n - n) else l }

  function Spend(b: Budget, d: Decision): Budget {
    Budget(b.bytes - d.bytes, Minus(b.packets, 1), Minus(b.airtime, Airtime(d.bytes)))
  }

  /** What decisions cost is exactly what the budget lost. */
  predicate Spent(a: Budget, ds: seq<Decision>, b: Budget) {
    && a.bytes == b.bytes + Bytes(ds)
    && a.packets == (if b.packets.Left? then Left(b.packets.n + |ds|) else Unlimited)
    && a.airtime == (if b.airtime.Left? then Left(b.airtime.n + AirtimeOf(ds)) else Unlimited)
  }

  lemma SpentOne(a: Budget, ds: seq<Decision>, b: Budget, d: Decision)
    requires Spent(a, ds, b)
    ensures Spent(a, ds + [d], Spend(b, d))
  {
    assert (ds + [d])[..|ds|] == ds;
  }

  lemma {:induction false} Appended(a: seq<Decision>, b: seq<Decision>)
    ensures Bytes(a + b) == Bytes(a) + Bytes(b) && AirtimeOf(a + b) == AirtimeOf(a) + AirtimeOf(b)
  {
    if b == [] {
      assert a + b == a;
    } else {
      var n := |b| - 1;
      Appended(a, b[..n]);
      assert (a + b)[..|a + b| - 1] == a + b[..n];
    }
  }

  /** Packets and airtime carry over between tiers; bytes may be re-based. */
  lemma SpentTwo(a: Budget, ds: seq<Decision>, b: Budget, es: seq<Decision>, c: Budget)
    requires Spent(a, ds, b) && Spent(b, es, c)
    ensures Spent(a, ds + es, c)
  {
    Appended(ds, es);
  }

  predicate Sound(b: Budget) { b.bytes >= 0 && NonNegative(b.packets) && NonNegative(b.airtime) }

  // ---------------------------------------------------------------- one tier

  predicate Distinct(ds: seq<Decision>) { forall i, j :: 0 <= i < j < |ds| ==> ds[i].flow != ds[j].flow }
  predicate DistinctFlows(es: seq<Candidate>) { forall i, j :: 0 <= i < j < |es| ==> es[i].flow != es[j].flow }

  function Flows(es: seq<Candidate>): set<FlowId> { set i | 0 <= i < |es| :: es[i].flow }
  function FlowsIn(ds: seq<Decision>): set<FlowId> { set i | 0 <= i < |ds| :: ds[i].flow }

  predicate Stopped(b: Budget) { (b.packets.Left? && b.packets.n <= 0) || (b.airtime.Left? && b.airtime.n <= 0) }

  /** The decision a flow gets from the budget left when its turn comes. */
  function Turn(cfg: Config, e: Candidate, pressure: real, b: Budget): Offer {
    var offer := OfferFor(cfg, e, pressure, b.bytes);
    if offer.NoOffer? || offer.decision.bytes > b.bytes
       || (b.airtime.Left? && Airtime(offer.decision.bytes) > b.airtime.n) then NoOffer
    else offer
  }

  datatype Tier = Tier(decisions: seq<Decision>, left: Budget)

  /** One tier, flow by flow, until packets or airtime run out. */
  function Admitted(cfg: Config, es: seq<Candidate>, pressure: real, b: Budget): Tier {
    if es == [] then Tier([], b)
    else
      var n := |es| - 1;
      var t := Admitted(cfg, es[..n], pressure, b);
      if Stopped(t.left) then t
      else
        var turn := Turn(cfg, es[n], pressure, t.left);
        if turn.NoOffer? then t else Tier(t.decisions + [turn.decision], Spend(t.left, turn.decision))
  }

  /** Nothing is spent that is not accounted for, and no budget is overdrawn. */
  lemma {:induction false} AdmittedSpends(cfg: Config, es: seq<Candidate>, pressure: real, b: Budget)
    ensures var t := Admitted(cfg, es, pressure, b); Spent(b, t.decisions, t.left) && (Sound(b) ==> Sound(t.left))
  {
    if es != [] {
      var n := |es| - 1;
      AdmittedSpends(cfg, es[..n], pressure, b);
      var t := Admitted(cfg, es[..n], pressure, b);
      var turn := Turn(cfg, es[n], pressure, t.left);
      if turn.Offer? { SpentOne(b, t.decisions, t.left, turn.decision); }
    }
  }

  predicate Sends(ds: seq<Decision>) { forall i :: 0 <= i < |ds| ==> ds[i].action != Defer && ds[i].action != Drop }

  lemma {:induction false} AdmittedFlows(cfg: Config, es: seq<Candidate>, pressure: real, b: Budget)
    requires DistinctFlows(es)
    ensures var ds := Admitted(cfg, es, pressure, b).decisions;
            Distinct(ds) && Sends(ds) && forall i :: 0 <= i < |ds| ==> ds[i].flow in Flows(es)
  {
    if es != [] {
      var n := |es| - 1;
      AdmittedFlows(cfg, es[..n], pressure, b);
      assert es == es[..n] + [es[n]];
      LastFlow(es);
    }
  }

  lemma LastFlow(es: seq<Candidate>)
    requires es != []
    ensures Flows(es) == Flows(es[..|es| - 1]) + {es[|es| - 1].flow}
    ensures DistinctFlows(es) ==> es[|es| - 1].flow !in Flows(es[..|es| - 1])
  {
    var n := |es| - 1;
    forall f | f in Flows(es) ensures f in Flows(es[..n]) + {es[n].flow} {
      var i :| 0 <= i < |es| && es[i].flow == f;
      if i < n { assert es[..n][i].flow == f; }
    }
    forall f | f in Flows(es[..n]) ensures f in Flows(es) {
      var i :| 0 <= i < n && es[..n][i].flow == f;
      assert es[i].flow == f;
    }
  }

  lemma {:induction false} StoppedStays(cfg: Config, es: seq<Candidate>, pressure: real, b: Budget, i: nat)
    requires i <= |es| && Stopped(Admitted(cfg, es[..i], pressure, b).left)
    ensures Admitted(cfg, es, pressure, b) == Admitted(cfg, es[..i], pressure, b)
  {
    if i < |es| {
      var n := |es| - 1;
      assert es[..n][..i] == es[..i];
      StoppedStays(cfg, es[..n], pressure, b, i);
    } else {
      assert es[..i] == es;
    }
  }

  /** `_admit_partition`. */
  method AdmitPartition(cfg: Config, es: seq<Candidate>, pressure: real, start: Budget)
    returns (ds: seq<Decision>, left: Budget)
    ensures Tier(ds, left) == Admitted(cfg, es, pressure, start)
  {
    ds, left := [], start;
    var i := 0;
    while i < |es| && !Stopped(left)
      invariant i <= |es| && Tier(ds, left) == Admitted(cfg, es[..i], pressure, start)
    {
      var e := es[i];
      assert es[..i + 1][..i] == es[..i];
      var offer := OfferFor(cfg, e, pressure, left.bytes);
      if offer.Offer? && offer.decision.bytes <= left.bytes
         && !(left.airtime.Left? && Airtime(offer.decision.bytes) > left.airtime.n) {
        ds, left := ds + [offer.decision], Spend(left, offer.decision);
      }
      i := i + 1;
    }
    if i < |es| { StoppedStays(cfg, es, pressure, start, i); }
    assert es[..|es|] == es;
  }

  // ---------------------------------------------------------------- tiers

  function TierOf(e: Candidate): nat {
    if e.kind == Safety || e.kind == Control then 0
    else if e.kind == Coordination || e.kind == State then 1
    else if e.kind == HumanQoe && e.attention > 0.0 then 2
    else 3
  }

  function InTier(es: seq<Candidate>, k: nat): (r: seq<Candidate>)
    ensures forall e :: e in r <==> e in es && TierOf(e) == k
  {
    if es == [] then []
    else
      var n := |es| - 1;
      InTier(es[..n], k) + (if TierOf(es[n]) == k then [es[n]] else [])
  }

  /** Order inside a tier: by slack, by priority, or by value density. */
  predicate Before(k: nat, a: Candidate, b: Candidate) {
    if k <= 1 then Slack(a) < Slack(b) || (Slack(a) == Slack(b) && a.priority > b.priority)
    else if k == 2 then a.priority > b.priority || (a.priority == b.priority && Slack(a) < Slack(b))
    else Density(a) > Density(b) || (Density(a) == Density(b) && a.priority > b.priority)
  }

  function TierOrder(k: nat): (Candidate, Candidate) -> bool { (a, b) => !Before(k, b, a) }

  lemma BeforeIsStrictOrder(k: nat, a: Candidate, b: Candidate, c: Candidate)
    ensures !Before(k, b, a) || !Before(k, a, b)
    ensures !Before(k, b, a) && !Before(k, c, b) ==> !Before(k, c, a)
  {
  }

  function OrderedTier(es: seq<Candidate>, k: nat): seq<Candidate> { Sorting.Sorted(InTier(es, k), TierOrder(k)) }

  /** In a tier no flow stands in front of one that must come before it, and flows that neither
      precede nor follow each other keep their order. */
  lemma TiersAreOrdered(es: seq<Candidate>, k: nat)
    ensures var tier := OrderedTier(es, k); forall i, j :: 0 <= i < j < |tier| ==> !Before(k, tier[j], tier[i])
    ensures forall e :: Sorting.Stable(InTier(es, k), e, TierOrder(k))
  {
    var leq, flows := TierOrder(k), InTier(es, k);
    TierOrderIsTotal(k);
    Sorting.SortedAscends(flows, leq);
    assert forall a, b :: leq(a, b) == !Before(k, b, a);
    forall e ensures Sorting.Stable(flows, e, leq) { Sorting.SortedIsStable(flows, e, leq); }
  }

  lemma TierOrderIsTotal(k: nat)
    ensures Sorting.TotalPreorder(TierOrder(k))
  {
    var leq := TierOrder(k);
    forall a, b ensures Sorting.Comparable(leq, a, b) { BeforeIsStrictOrder(k, a, b, a); }
    forall a, b, c ensures Sorting.Chained(leq, a, b, c) { BeforeIsStrictOrder(k, a, b, c); }
  }

  // ---------------------------------------------------------------- all tiers

  /** `_ordered_partitions`. */
  function Partitions(es: seq<Candidate>): seq<seq<Candidate>> {
    seq(4, k requires 0 <= k < 4 => OrderedTier(es, k))
  }

  /** The truncated fraction of a byte budget. */
  function Share(n: int, f: real): int { Trunc(n as real * f) }

  /** The budget a tier starts from: the last one gets a fraction of the bytes left. */
  function StartOf(cfg: Config, last: bool, left: Budget): Budget {
    if last then left.(bytes := Share(left.bytes, cfg.lastTierFraction)) else left
  }

  /** The first `k` tiers. */
  function RunTiers(cfg: Config, parts: seq<seq<Candidate>>, pressure: real, b: Budget, k: nat): Tier
    requires k <= |parts|
  {
    if k == 0 then Tier([], b)
    else
      var before := RunTiers(cfg, parts, pressure, b, k - 1);
      var t := Admitted(cfg, parts[k - 1], pressure, StartOf(cfg, k == |parts|, before.left));
      Tier(before.decisions + t.decisions, t.left)
  }

  /** A tier never sends more bytes than it starts with. */
  lemma {:induction false} AdmittedBytes(cfg: Config, es: seq<Candidate>, pressure: real, b: Budget)
    ensures var t := Admitted(cfg, es, pressure, b);
            0 <= Bytes(t.decisions) <= MaxInt(0, b.bytes)
  {
    AdmittedSpends(cfg, es, pressure, b);
    if es != [] {
      var n := |es| - 1;
      AdmittedBytes(cfg, es[..n], pressure, b);
      AdmittedSpends(cfg, es[..n], pressure, b);
      var t := Admitted(cfg, es[..n], pressure, b);
      var turn := Turn(cfg, es[n], pressure, t.left);
      if !Stopped(t.left) && turn.Offer? { assert (t.decisions + [turn.decision])[..|t.decisions|] == t.decisions; }
    }
  }

  lemma {:induction false} EarlierTiers(cfg: Config, parts: seq<seq<Candidate>>, pressure: real, b: Budget, k: nat)
    requires k < |parts| && Sound(b)
    ensures var t := RunTiers(cfg, parts, pressure, b, k);
            Spent(b, t.decisions, t.left) && Sound(t.left) && Bytes(t.decisions) >= 0
  {
    if k > 0 {
      EarlierTiers(cfg, parts, pressure, b, k - 1);
      var before := RunTiers(cfg, parts, pressure, b, k - 1);
      var t := Admitted(cfg, parts[k - 1], pressure, before.left);
      AdmittedSpends(cfg, parts[k - 1], pressure, before.left);
      AdmittedBytes(cfg, parts[k - 1], pressure, before.left);
      SpentTwo(b, before.decisions, before.left, t.decisions, t.left);
      Appended(before.decisions, t.decisions);
    }
  }

  /** The discount of the last tier must not turn into a surcharge. */
  predicate FractionFits(cfg: Config, n: nat) { Share(n, cfg.lastTierFraction) <= n }

  lemma Scaled(x: real, y: real, g: real)
    requires x <= y && g >= 0.0
    ensures x * g <= y * g
  {
    assert (y - x) * g >= 0.0;
  }

  lemma TruncBelow(z: real, n: nat)
    requires z >= 0.0
    ensures Trunc(z) <= n <==> z < (n + 1) as real
  {
  }

  lemma Surcharge(x: real, y: real, f: real)
    requires f > 1.0 && 0.0 <= x <= y
    ensures 0.0 <= x * f - x <= y * f - y
  {
    Scaled(x, y, f - 1.0);
    Scaled(0.0, x, f - 1.0);
    assert x * f - x == x * (f - 1.0) && y * f - y == y * (f - 1.0);
  }

  lemma Discount(x: real, f: real)
    requires f <= 1.0 && x >= 0.0
    ensures x * f <= x
  {
    Scaled(f, 1.0, x);
  }

  lemma TruncAtMost(z: real, n: nat)
    requires z <= n as real
    ensures Trunc(z) <= n
  {
  }

  lemma ShareFits(n: nat, f: real)
    requires f > 1.0
    ensures Share(n, f) <= n <==> n as real * f - n as real < 1.0
  {
    Surcharge(n as real, n as real, f);
    TruncBelow(n as real * f, n);
  }

  lemma LessSurcharge(n: nat, m: nat, f: real)
    requires f > 1.0 && Share(n, f) <= n && m <= n
    ensures Share(m, f) <= m
  {
    Surcharge(m as real, n as real, f);
    ShareFits(n, f);
    ShareFits(m, f);
  }

  lemma DiscountFits(m: nat, f: real)
    requires f <= 1.0
    ensures Share(m, f) <= m
  {
    Discount(m as real, f);
    TruncAtMost(m as real * f, m);
  }

  lemma FewerFit(cfg: Config, n: nat, m: nat)
    requires FractionFits(cfg, n) && m <= n
    ensures FractionFits(cfg, m)
  {
    var f := cfg.lastTierFraction;
    if f > 1.0 { LessSurcharge(n, m, f); } else { DiscountFits(m, f); }
  }

  /** Packets and airtime of one tier. */
  lemma CountedBudgets(cfg: Config, es: seq<Candidate>, pressure: real, b: Budget)
    requires NonNegative(b.packets) && NonNegative(b.airtime)
    ensures var t := Admitted(cfg, es, pressure, b);
            && (b.packets.Left? ==> |t.decisions| <= b.packets.n)
            && (b.airtime.Left? ==> AirtimeOf(t.decisions) <= b.airtime.n)
  {
    AdmittedSpends(cfg, es, pressure, b);
    CountsLeft(cfg, es, pressure, b);
  }

  lemma {:induction false} CountsLeft(cfg: Config, es: seq<Candidate>, pressure: real, b: Budget)
    requires NonNegative(b.packets) && NonNegative(b.airtime)
    ensures var t := Admitted(cfg, es, pressure, b); NonNegative(t.left.packets) && NonNegative(t.left.airtime)
  {
    if es != [] { CountsLeft(cfg, es[..|es| - 1], pressure, b); }
  }

  /** These decisions cost no more than the budget has. */
  predicate Affordable(ds: seq<Decision>, b: Budget) {
    && 0 <= Bytes(ds) <= b.bytes
    && (b.packets.Left? ==> |ds| <= b.packets.n)
    && (b.airtime.Left? ==> AirtimeOf(ds) <= b.airtime.n)
  }

  lemma AffordableJoin(b: Budget, ds: seq<Decision>, left: Budget, more: seq<Decision>)
    requires Spent(b, ds, left) && Bytes(ds) >= 0 && Affordable(more, left)
    ensures Affordable(ds + more, b)
  {
    Appended(ds, more);
  }

  lemma AffordableFrom(cfg: Config, es: seq<Candidate>, pressure: real, start: Budget, left: Budget)
    requires Sound(left) && start.bytes <= left.bytes && start.packets == left.packets && start.airtime == left.airtime
    ensures Affordable(Admitted(cfg, es, pressure, start).decisions, left)
  {
    AdmittedBytes(cfg, es, pressure, start);
    CountedBudgets(cfg, es, pressure, start);
  }

  /** Whatever is offered, bytes, packets and channel time of all tiers together stay within
      the link's budget. */
  lemma AllTiersWithin(cfg: Config, parts: seq<seq<Candidate>>, pressure: real, b: Budget)
    requires parts != [] && Sound(b) && FractionFits(cfg, b.bytes)
    ensures Affordable(RunTiers(cfg, parts, pressure, b, |parts|).decisions, b)
  {
    var n := |parts| - 1;
    var t := RunTiers(cfg, parts, pressure, b, n);
    EarlierTiers(cfg, parts, pressure, b, n);
    FewerFit(cfg, b.bytes, t.left.bytes);
    AffordableFrom(cfg, parts[n], pressure, StartOf(cfg, true, t.left), t.left);
    AffordableJoin(b, t.decisions, t.left, Admitted(cfg, parts[n], pressure, StartOf(cfg, true, t.left)).decisions);
  }

  /** With an arbitrary fraction: no choice of flows overdraws the bytes exactly when the
      fraction of the whole capacity does not exceed it. */
  lemma ByteBudgetHoldsWhen(cfg: Config, b: Budget)
    requires b.bytes >= 0 && b.packets.Unlimited? && b.airtime.Unlimited?
    ensures (forall es, pressure {:trigger Overall(cfg, es, pressure, b)} :: Overall(cfg, es, pressure, b) <= b.bytes)
            <==> FractionFits(cfg, b.bytes)
  {
    if FractionFits(cfg, b.bytes) {
      forall es, pressure ensures Overall(cfg, es, pressure, b) <= b.bytes {
        AllTiersWithin(cfg, Partitions(es), pressure, b);
      }
    } else {
      var e := Candidate(0, Bulk, Share(b.bytes, cfg.lastTierFraction), 0.0, 0.0, 1.0, 1.0, 0.0, false);
      OneBulkFlow(cfg, b, e);
      assert Overall(cfg, [e], 0.0, b) > b.bytes;
    }
  }

  /** Bytes sent over all tiers. */
  function Overall(cfg: Config, es: seq<Candidate>, pressure: real, b: Budget): int {
    Bytes(RunTiers(cfg, Partitions(es), pressure, b, |Partitions(es)|).decisions)
  }

  lemma {:induction false} EmptyTiers(cfg: Config, parts: seq<seq<Candidate>>, pressure: real, b: Budget, k: nat)
    requires k < |parts| && forall i :: 0 <= i < k ==> parts[i] == []
    ensures RunTiers(cfg, parts, pressure, b, k) == Tier([], b)
  {
    if k > 0 { EmptyTiers(cfg, parts, pressure, b, k - 1); }
  }

  lemma OnlyLastTier(cfg: Config, parts: seq<seq<Candidate>>, pressure: real, b: Budget)
    requires parts != [] && forall i :: 0 <= i < |parts| - 1 ==> parts[i] == []
    ensures RunTiers(cfg, parts, pressure, b, |parts|).decisions ==
            Admitted(cfg, parts[|parts| - 1], pressure, StartOf(cfg, true, b)).decisions
  {
    EmptyTiers(cfg, parts, pressure, b, |parts| - 1);
  }

  lemma SingleFlow(cfg: Config, e: Candidate, start: Budget)
    requires e.kind == Bulk && start == Budget(e.size, Unlimited, Unlimited)
    ensures Admitted(cfg, [e], 0.0, start).decisions == [Decision(e.flow, Send, e.size)]
  {
    assert [e][..0] == [];
    assert Admitted(cfg, [], 0.0, start) == Tier([], start);
  }

  lemma SinglePartition(e: Candidate)
    requires e.kind == Bulk
    ensures var parts := Partitions([e]); parts[3] == [e] && forall i :: 0 <= i < 3 ==> parts[i] == []
  {
    var es := [e];
    assert es[..0] == [];
    forall k: nat | k < 3 ensures InTier(es, k) == [] && Sorting.Sorted([], TierOrder(k)) == [] {}
    assert InTier(es, 3) == [e];
    Sorting.SortedSnoc([], e, TierOrder(3));
    assert [] + [e] == es;
  }

  /** A single bulk flow of exactly the last tier's size is sent in full. */
  lemma OneBulkFlow(cfg: Config, b: Budget, e: Candidate)
    requires b.packets.Unlimited? && b.airtime.Unlimited?
    requires e.kind == Bulk && e.size == StartOf(cfg, true, b).bytes
    ensures Overall(cfg, [e], 0.0, b) == e.size
  {
    var parts := Partitions([e]);
    SinglePartition(e);
    OnlyLastTier(cfg, parts, 0.0, b);
    SingleFlow(cfg, e, StartOf(cfg, true, b));
    var d := Decision(e.flow, Send, e.size);
    OneDecision(d);
  }

  lemma OneDecision(d: Decision)
    ensures Bytes([d]) == d.bytes
  {
    assert [d][..0] == [];
  }

  // ---------------------------------------------------------------- one decision per flow

  function Concat(parts: seq<seq<Candidate>>, k: nat): seq<Candidate>
    requires k <= |parts|
  {
    if k == 0 then [] else Concat(parts, k - 1) + parts[k - 1]
  }

  /** The tiers together hold every flow once. */
  lemma PartitionsCover(es: seq<Candidate>)
    ensures multiset(Concat(Partitions(es), |Partitions(es)|)) == multiset(es)
  {
    var parts := Partitions(es);
    assert Concat(parts, 0) == [];
    assert Concat(parts, 1) == Concat(parts, 0) + parts[0];
    assert Concat(parts, 2) == Concat(parts, 1) + parts[1];
    assert Concat(parts, 3) == Concat(parts, 2) + parts[2];
    assert Concat(parts, 4) == Concat(parts, 3) + parts[3];
    TiersCover(es);
  }

  function Ones(e: Candidate, here: bool): multiset<Candidate> { if here then multiset{e} else multiset{} }

  lemma TierStep(es: seq<Candidate>, k: nat)
    requires es != []
    ensures var n := |es| - 1;
            multiset(InTier(es, k)) == multiset(InTier(es[..n], k)) + Ones(es[n], TierOf(es[n]) == k)
  {
  }

  lemma AddOne(a: multiset<Candidate>, b: multiset<Candidate>, c: multiset<Candidate>, d: multiset<Candidate>,
               e: Candidate, k: nat)
    requires k < 4
    ensures (a + Ones(e, k == 0)) + (b + Ones(e, k == 1)) + (c + Ones(e, k == 2)) + (d + Ones(e, k == 3))
            == a + b + c + d + multiset{e}
  {
  }

  function AllTiers(es: seq<Candidate>): multiset<Candidate> {
    multiset(InTier(es, 0)) + multiset(InTier(es, 1)) + multiset(InTier(es, 2)) + multiset(InTier(es, 3))
  }

  lemma AllTiersStep(es: seq<Candidate>)
    requires es != []
    ensures AllTiers(es) == AllTiers(es[..|es| - 1]) + multiset{es[|es| - 1]}
  {
    var n := |es| - 1;
    TierStep(es, 0);
    TierStep(es, 1);
    TierStep(es, 2);
    TierStep(es, 3);
    AddOne(multiset(InTier(es[..n], 0)), multiset(InTier(es[..n], 1)), multiset(InTier(es[..n], 2)),
           multiset(InTier(es[..n], 3)), es[n], TierOf(es[n]));
  }

  lemma LastApart(es: seq<Candidate>)
    requires es != []
    ensures multiset(es) == multiset(es[..|es| - 1]) + multiset{es[|es| - 1]}
  {
    assert es == es[..|es| - 1] + [es[|es| - 1]];
  }

  lemma NoTiers()
    ensures AllTiers([]) == multiset{}
  {
  }

  lemma {:induction false} TiersCover(es: seq<Candidate>)
    ensures multiset(es) == AllTiers(es)
  {
    if es == [] {
      NoTiers();
    } else {
      TiersCover(es[..|es| - 1]);
      AllTiersStep(es);
      LastApart(es);
    }
  }

  lemma SameElements(a: seq<Candidate>, b: seq<Candidate>)
    requires multiset(a) == multiset(b)
    ensures Flows(a) == Flows(b) && forall e :: e in a <==> e in b
  {
    forall e ensures e in a <==> e in b { assert e in a <==> e in multiset(a); }
    forall f ensures f in Flows(a) <==> f in Flows(b) { MemberFlow(a, f); MemberFlow(b, f); }
  }

  lemma MemberFlow(a: seq<Candidate>, f: FlowId)
    ensures f in Flows(a) <==> exists e :: e in a && e.flow == f
  {
    if f in Flows(a) {
      var i :| 0 <= i < |a| && a[i].flow == f;
      assert a[i] in a;
    }
  }

  /** Distinct flows survive reordering. */
  lemma DistinctStays(a: seq<Candidate>, b: seq<Candidate>)
    requires DistinctFlows(a) && multiset(a) == multiset(b)
    ensures DistinctFlows(b)
  {
    forall i, j | 0 <= i < j < |b| ensures b[i].flow != b[j].flow {
      OnceInSeq(a, b[i]);
      TwiceInSeq(b, i, j);
      SameElements(a, b);
      assert b[i] in a && b[j] in a;
      var x :| 0 <= x < |a| && a[x] == b[i];
      var y :| 0 <= y < |a| && a[y] == b[j];
      assert x < y || y < x;
    }
  }

  lemma TwiceInSeq(b: seq<Candidate>, i: nat, j: nat)
    requires i < j < |b|
    ensures b[i] == b[j] ==> multiset(b)[b[i]] >= 2
  {
    assert b == b[..j] + [b[j]] + b[j + 1..];
    assert b[..j][i] == b[i];
    assert b[i] in multiset(b[..j]);
  }

  lemma {:induction false} OnceInSeq(a: seq<Candidate>, e: Candidate)
    requires DistinctFlows(a)
    ensures multiset(a)[e] <= 1
  {
    if a != [] {
      var n := |a| - 1;
      assert a == a[..n] + [a[n]];
      OnceInSeq(a[..n], e);
      assert a[n] !in a[..n] by {
        forall i | 0 <= i < n ensures a[i] != a[n] {}
      }
      assert a[n] !in multiset(a[..n]);
    }
  }

  predicate FromFlows(ds: seq<Decision>, s: set<FlowId>) { forall i :: 0 <= i < |ds| ==> ds[i].flow in s }

  lemma FlowsJoin(a: seq<Candidate>, b: seq<Candidate>)
    ensures Flows(a + b) == Flows(a) + Flows(b)
    ensures DistinctFlows(a + b) ==> DistinctFlows(a) && DistinctFlows(b) && Flows(a) !! Flows(b)
  {
    var c := a + b;
    forall f | f in Flows(c) ensures f in Flows(a) + Flows(b) {
      var i :| 0 <= i < |c| && c[i].flow == f;
      assert if i < |a| then a[i].flow == f else b[i - |a|].flow == f;
    }
    forall f | f in Flows(a) + Flows(b) ensures f in Flows(c) {
      if f in Flows(a) {
        var i :| 0 <= i < |a| && a[i].flow == f;
        assert c[i].flow == f;
      } else {
        var i :| 0 <= i < |b| && b[i].flow == f;
        assert c[|a| + i].flow == f;
      }
    }
    if DistinctFlows(c) {
      forall i, j | 0 <= i < j < |a| ensures a[i].flow != a[j].flow { assert c[i].flow != c[j].flow; }
      forall i, j | 0 <= i < j < |b| ensures b[i].flow != b[j].flow { assert c[|a| + i].flow != c[|a| + j].flow; }
      forall f | f in Flows(a) ensures f !in Flows(b) {
        var i :| 0 <= i < |a| && a[i].flow == f;
        forall j | 0 <= j < |b| ensures b[j].flow != f { assert c[i].flow != c[|a| + j].flow; }
      }
    }
  }

  lemma {:induction false} TiersDecideOnce(cfg: Config, parts: seq<seq<Candidate>>, pressure: real, b: Budget, k: nat)
    requires k <= |parts| && DistinctFlows(Concat(parts, k))
    ensures var ds := RunTiers(cfg, parts, pressure, b, k).decisions;
            Distinct(ds) && Sends(ds) && FromFlows(ds, Flows(Concat(parts, k)))
  {
    if k > 0 {
      FlowsJoin(Concat(parts, k - 1), parts[k - 1]);
      TiersDecideOnce(cfg, parts, pressure, b, k - 1);
      var before := RunTiers(cfg, parts, pressure, b, k - 1);
      AdmittedFlows(cfg, parts[k - 1], pressure, StartOf(cfg, k == |parts|, before.left));
    }
  }

  // ---------------------------------------------------------------- what is not admitted

  predicate Stale(e: Candidate) { e.age > e.lifespan }

  /** Dropped before admission: stale, or non-core and nearly so. */
  predicate DroppedEarly(cfg: Config, e: Candidate) {
    Stale(e) || (!Core(e.kind) && e.age >= e.lifespan * cfg.staleRatio)
  }

  function Remaining(cfg: Config, es: seq<Candidate>): (r: seq<Candidate>)
    ensures forall e :: e in r <==> e in es && !DroppedEarly(cfg, e)
  {
    if es == [] then []
    else
      var n := |es| - 1;
      Remaining(cfg, es[..n]) + (if DroppedEarly(cfg, es[n]) then [] else [es[n]])
  }

  lemma {:induction false} RemainingDistinct(cfg: Config, es: seq<Candidate>)
    requires DistinctFlows(es)
    ensures DistinctFlows(Remaining(cfg, es))
  {
    if es != [] {
      var n := |es| - 1;
      RemainingDistinct(cfg, es[..n]);
      LastFlow(es);
      var rest := Remaining(cfg, es[..n]);
      forall i | 0 <= i < |rest| ensures rest[i].flow != es[n].flow {
        assert rest[i] in es[..n];
        MemberFlow(es[..n], rest[i].flow);
      }
    }
  }

  /** A flow the tiers did not admit is dropped or deferred, and costs nothing. */
  predicate DroppedLate(cfg: Config, e: Candidate, pressure: real) {
    !Core(e.kind) && (pressure >= cfg.dropThreshold || e.age >= e.lifespan * 0.65)
  }

  function Rest(cfg: Config, e: Candidate, pressure: real): Decision {
    Decision(e.flow, if DroppedEarly(cfg, e) || DroppedLate(cfg, e, pressure) then Drop else Defer, 0)
  }

  predicate Settles(cfg: Config, e: Candidate, pressure: real, sent: seq<Decision>, d: Decision) {
    d.flow == e.flow && if e.flow in FlowsIn(sent) then d in sent else d == Rest(cfg, e, pressure)
  }

  /** `sent` are the admitted decisions and `all` is one decision for every candidate. */
  predicate Complete(cfg: Config, es: seq<Candidate>, pressure: real, sent: seq<Decision>, all: seq<Decision>) {
    |all| == |es| && forall i :: 0 <= i < |es| ==> Settles(cfg, es[i], pressure, sent, all[i])
  }

  function FlowOrder(): (Decision, Decision) -> bool { (a: Decision, b: Decision) => a.flow <= b.flow }

  /** Decisions in the order of their flow ids, one for every candidate. */
  ghost predicate Answers(cfg: Config, es: seq<Candidate>, pressure: real, sent: seq<Decision>, all: seq<Decision>) {
    && |all| == |es|
    && (forall i, j :: 0 <= i < j < |all| ==> all[i].flow < all[j].flow)
    && forall i :: 0 <= i < |es| ==> exists d :: d in all && Settles(cfg, es[i], pressure, sent, d)
  }

  lemma SortedAnswers(cfg: Config, es: seq<Candidate>, pressure: real, sent: seq<Decision>, all: seq<Decision>)
    requires DistinctFlows(es) && Complete(cfg, es, pressure, sent, all)
    ensures Answers(cfg, es, pressure, sent, Sorting.Sorted(all, FlowOrder()))
  {
    var leq := FlowOrder();
    var sorted := Sorting.Sorted(all, leq);
    forall a, b ensures Sorting.Comparable(leq, a, b) {}
    forall a, b, c ensures Sorting.Chained(leq, a, b, c) {}
    assert Sorting.NoTies(all, leq) by {
      forall i, j | 0 <= i < j < |all| ensures !Sorting.Ties(leq, all[i], all[j]) {
        assert Settles(cfg, es[i], pressure, sent, all[i]) && Settles(cfg, es[j], pressure, sent, all[j]);
      }
    }
    Sorting.SortedAscends(all, leq);
    Sorting.SortedWithoutTies(all, leq);
    forall i, j | 0 <= i < j < |sorted| ensures sorted[i].flow < sorted[j].flow {
      assert leq(sorted[i], sorted[j]) && !Sorting.Ties(leq, sorted[i], sorted[j]);
    }
    forall i | 0 <= i < |es| ensures exists d :: d in sorted && Settles(cfg, es[i], pressure, sent, d) {
      assert all[i] in multiset(sorted) && Settles(cfg, es[i], pressure, sent, all[i]);
    }
  }

  // ---------------------------------------------------------------- link estimates

  datatype Estimate =
    | NoEstimate
    | Estimated(value: real)

  datatype Estimates = Estimates(capacity: Estimate, loss: real, rtt: real, jitter: real)

  const Unmeasured := Estimates(NoEstimate, 0.0, 20.0, 0.0)

  function Blend(cfg: Config, reading: real, before: real): real { cfg.alpha * reading + (1.0 - cfg.alpha) * before }

  /** `_update_link_estimate`. */
  function Blended(cfg: Config, e: Estimates, link: Link): Estimates {
    Estimates(Estimated(if e.capacity.NoEstimate? then link.bytes as real
                        else Blend(cfg, link.bytes as real, e.capacity.value)),
              Blend(cfg, link.loss, e.loss), Blend(cfg, link.rtt, e.rtt), Blend(cfg, link.jitter, e.jitter))
  }

  function AfterLinks(cfg: Config, e: Estimates, links: seq<Link>): Estimates {
    if links == [] then e else Blended(cfg, AfterLinks(cfg, e, links[..|links| - 1]), links[|links| - 1])
  }

  lemma AfterOneMore(cfg: Config, e: Estimates, links: seq<Link>, link: Link)
    ensures AfterLinks(cfg, e, links + [link]) == Blended(cfg, AfterLinks(cfg, e, links), link)
  {
    assert (links + [link])[..|links|] == links;
  }

  predicate Weight(cfg: Config) { 0.0 <= cfg.alpha <= 1.0 }

  lemma ProductOfNonNegatives(x: real, y: real)
    requires x >= 0.0 && y >= 0.0
    ensures x * y >= 0.0
  {
  }

  lemma BlendIsBetween(cfg: Config, reading: real, before: real, lo: real, hi: real)
    requires Weight(cfg) && lo <= reading <= hi && lo <= before <= hi
    ensures lo <= Blend(cfg, reading, before) <= hi
  {
    var a := cfg.alpha;
    ProductOfNonNegatives(a, reading - lo);
    ProductOfNonNegatives(1.0 - a, before - lo);
    ProductOfNonNegatives(a, hi - reading);
    ProductOfNonNegatives(1.0 - a, hi - before);
  }

  /** One range for each quantity. */
  datatype Ranges = Ranges(lo: Link, hi: Link)

  predicate ReadingWithin(r: Ranges, link: Link) {
    && r.lo.bytes <= link.bytes <= r.hi.bytes && r.lo.loss <= link.loss <= r.hi.loss
    && r.lo.rtt <= link.rtt <= r.hi.rtt && r.lo.jitter <= link.jitter <= r.hi.jitter
  }

  predicate EstimatesWithin(r: Ranges, e: Estimates) {
    && (e.capacity.Estimated? ==> r.lo.bytes as real <= e.capacity.value <= r.hi.bytes as real)
    && r.lo.loss <= e.loss <= r.hi.loss && r.lo.rtt <= e.rtt <= r.hi.rtt && r.lo.jitter <= e.jitter <= r.hi.jitter
  }

  lemma BlendedWithin(cfg: Config, e: Estimates, link: Link, r: Ranges)
    requires Weight(cfg) && EstimatesWithin(r, e) && ReadingWithin(r, link)
    ensures EstimatesWithin(r, Blended(cfg, e, link))
  {
    if e.capacity.Estimated? {
      BlendIsBetween(cfg, link.bytes as real, e.capacity.value, r.lo.bytes as real, r.hi.bytes as real);
    }
    BlendIsBetween(cfg, link.loss, e.loss, r.lo.loss, r.hi.loss);
    BlendIsBetween(cfg, link.rtt, e.rtt, r.lo.rtt, r.hi.rtt);
    BlendIsBetween(cfg, link.jitter, e.jitter, r.lo.jitter, r.hi.jitter);
  }

  /** Whatever the links read, no estimate leaves the range of its readings and first value. */
  lemma {:induction false} EstimatesStayWithin(cfg: Config, e: Estimates, links: seq<Link>, r: Ranges)
    requires Weight(cfg) && EstimatesWithin(r, e) && forall i :: 0 <= i < |links| ==> ReadingWithin(r, links[i])
    ensures EstimatesWithin(r, AfterLinks(cfg, e, links))
  {
    if links != [] {
      EstimatesStayWithin(cfg, e, links[..|links| - 1], r);
      BlendedWithin(cfg, AfterLinks(cfg, e, links[..|links| - 1]), links[|links| - 1], r);
    }
  }

  function Power(x: real, n: nat): real { if n == 0 then 1.0 else x * Power(x, n - 1) }

  lemma BlendShrinks(cfg: Config, reading: real, before: real, start: real, f: real)
    requires before - reading == f * (start - reading)
    ensures Blend(cfg, reading, before) - reading == ((1.0 - cfg.alpha) * f) * (start - reading)
  {
    var a := cfg.alpha;
    assert Blend(cfg, reading, before) - reading == (1.0 - a) * (before - reading);
  }

  /** The distance to the readings has shrunk by the factor `f`. */
  predicate Closer(e: Estimates, now: Estimates, link: Link, f: real) {
    && now.loss - link.loss == f * (e.loss - link.loss)
    && now.rtt - link.rtt == f * (e.rtt - link.rtt)
    && now.jitter - link.jitter == f * (e.jitter - link.jitter)
    && (e.capacity.Estimated? ==>
          now.capacity.Estimated?
          && now.capacity.value - link.bytes as real == f * (e.capacity.value - link.bytes as real))
  }

  lemma BlendedIsCloser(cfg: Config, e: Estimates, now: Estimates, link: Link, f: real, f': real)
    requires Closer(e, now, link, f) && f' == (1.0 - cfg.alpha) * f
    ensures Closer(e, Blended(cfg, now, link), link, f')
  {
    BlendShrinks(cfg, link.loss, now.loss, e.loss, f);
    BlendShrinks(cfg, link.rtt, now.rtt, e.rtt, f);
    BlendShrinks(cfg, link.jitter, now.jitter, e.jitter, f);
    if e.capacity.Estimated? { BlendShrinks(cfg, link.bytes as real, now.capacity.value, e.capacity.value, f); }
  }

  /** While a link keeps reading the same, each step closes the same share of the distance left. */
  lemma {:induction false} EstimatesConverge(cfg: Config, e: Estimates, links: seq<Link>, link: Link)
    requires forall i :: 0 <= i < |links| ==> links[i] == link
    ensures Closer(e, AfterLinks(cfg, e, links), link, Power(1.0 - cfg.alpha, |links|))
  {
    if links != [] {
      var front := links[..|links| - 1];
      EstimatesConverge(cfg, e, front, link);
      var a := 1.0 - cfg.alpha;
      BlendedIsCloser(cfg, e, AfterLinks(cfg, e, front), link, Power(a, |front|), Power(a, |links|));
    }
  }

  /** `_pressure`: the offered bytes against the smaller of the capacity and its prediction. */
  function Usable(cfg: Config, e: Estimates, link: Link): real {
    var estimate := if e.capacity.Estimated? && e.capacity.value != 0.0 then e.capacity.value else link.bytes as real;
    MinReal(link.bytes as real, estimate * cfg.safetyMargin * (1.0 - MinReal(0.35, e.loss)))
  }

  function Pressure(cfg: Config, e: Estimates, es: seq<Candidate>, link: Link): real {
    Load(Offered(es), Usable(cfg, e, link))
  }

  function Load(offered: nat, bytes: real): real { offered as real / MaxReal(1.0, bytes) }

  lemma FractionOf(x: real, m: real)
    requires x >= 0.0 && 0.0 <= m <= 1.0
    ensures x * m * 0.65 <= x
  {
    ProductOfNonNegatives(x, m);
    ProductOfNonNegatives(x, 1.0 - m);
    assert x * (1.0 - m) == x - x * m;
  }

  lemma AtLeastProduct(x: real, m: real, f: real, lo: real)
    requires x >= lo >= 0.0 && m >= 0.0 && f >= 0.65
    ensures x * m * f >= lo * m * 0.65
  {
    assert x * m >= lo * m >= 0.0;
    assert x * m * f >= x * m * 0.65;
  }

  lemma SmallerOfTwo(top: real, x: real, m: real, f: real, lo: real)
    requires x >= lo >= 0.0 && 0.0 <= m <= 1.0 && f >= 0.65 && top >= lo
    ensures lo * m * 0.65 <= MinReal(top, x * m * f) <= top
  {
    FractionOf(lo, m);
    AtLeastProduct(x, m, f, lo);
  }

  lemma QuotientFalls(n: nat, a: real, b: real)
    requires 0.0 < a <= b
    ensures n as real / b <= n as real / a
  {
    assert n as real * a <= n as real * b;
    assert n as real / b * a <= n as real;
  }

  lemma LoadBetween(n: nat, low: real, usable: real, top: real)
    requires low <= usable <= top
    ensures Load(n, top) <= Load(n, usable) <= Load(n, low)
  {
    QuotientFalls(n, MaxReal(1.0, usable), MaxReal(1.0, top));
    QuotientFalls(n, MaxReal(1.0, low), MaxReal(1.0, usable));
  }

  lemma UsableIsBounded(cfg: Config, e: Estimates, link: Link, lo: real)
    requires 0.0 <= cfg.safetyMargin <= 1.0 && 0.0 <= lo <= link.bytes as real
    requires e.capacity.Estimated? && e.capacity.value >= lo
    ensures lo * cfg.safetyMargin * 0.65 <= Usable(cfg, e, link) <= link.bytes as real
  {
    var estimate := if e.capacity.value != 0.0 then e.capacity.value else link.bytes as real;
    SmallerOfTwo(link.bytes as real, estimate, cfg.safetyMargin, 1.0 - MinReal(0.35, e.loss), lo);
  }

  /** Between the load on the link's capacity and the load on what a reading of `lo` predicts
      under the highest loss counted. */
  predicate PressureWithin(cfg: Config, e: Estimates, es: seq<Candidate>, link: Link, lo: real) {
    var n, p := Offered(es), Pressure(cfg, e, es, link);
    Load(n, link.bytes as real) <= p <= Load(n, lo * cfg.safetyMargin * 0.65)
  }

  lemma PressureBetween(cfg: Config, e: Estimates, es: seq<Candidate>, link: Link, lo: real)
    requires 0.0 <= cfg.safetyMargin <= 1.0 && 0.0 <= lo <= link.bytes as real
    requires e.capacity.Estimated? && e.capacity.value >= lo
    ensures PressureWithin(cfg, e, es, link, lo)
  {
    var usable, least, top := Usable(cfg, e, link), lo * cfg.safetyMargin * 0.65, link.bytes as real;
    assert least <= usable <= top by { UsableIsBounded(cfg, e, link, lo); }
    LoadBetween(Offered(es), least, usable, top);
  }

  /** Whatever was read before, the pressure stays between these bounds for the smallest reading. */
  lemma PressureIsBounded(cfg: Config, links: seq<Link>, es: seq<Candidate>, lo: nat)
    requires Weight(cfg) && 0.0 <= cfg.safetyMargin <= 1.0 && links != []
    requires forall i :: 0 <= i < |links| ==> lo <= links[i].bytes
    ensures PressureWithin(cfg, AfterLinks(cfg, Unmeasured, links), es, links[|links| - 1], lo as real)
  {
    CapacityAtLeast(cfg, links, lo);
    PressureBetween(cfg, AfterLinks(cfg, Unmeasured, links), es, links[|links| - 1], lo as real);
  }

  lemma {:induction false} CapacityAtLeast(cfg: Config, links: seq<Link>, lo: nat)
    requires Weight(cfg) && links != [] && forall i :: 0 <= i < |links| ==> lo <= links[i].bytes
    ensures var e := AfterLinks(cfg, Unmeasured, links); e.capacity.Estimated? && e.capacity.value >= lo as real
  {
    var front, link := links[..|links| - 1], links[|links| - 1];
    if front != [] {
      CapacityAtLeast(cfg, front, lo);
      var x := AfterLinks(cfg, Unmeasured, front).capacity.value;
      BlendIsBetween(cfg, link.bytes as real, x, lo as real, MaxReal(link.bytes as real, x));
    }
  }

  // ---------------------------------------------------------------- the controller

  class PredictiveAdmissionController {
    const cfg: Config
    var capacity: Estimate
    var loss: real
    var rtt: real
    var jitter: real
    ghost var seen: seq<Link>

    function Current(): Estimates
      reads this
    {
      Estimates(capacity, loss, rtt, jitter)
    }

    /** The estimates are those of the links seen so far. */
    ghost predicate Valid()
      reads this
    {
      Current() == AfterLinks(cfg, Unmeasured, seen)
    }

    constructor (config: Config)
      ensures Valid() && cfg == config && seen == []
    {
      cfg, capacity, loss, rtt, jitter := config, NoEstimate, 0.0, 20.0, 0.0;
      seen := [];
    }

    /** `_update_link_estimate`. */
    method UpdateLinkEstimate(link: Link)
      requires Valid()
      modifies this
      ensures Valid() && seen == old(seen) + [link]
    {
      capacity := Estimated(if capacity.NoEstimate? then link.bytes as real
                            else Blend(cfg, link.bytes as real, capacity.value));
      loss, rtt, jitter := Blend(cfg, link.loss, loss), Blend(cfg, link.rtt, rtt), Blend(cfg, link.jitter, jitter);
      AfterOneMore(cfg, Unmeasured, seen, link);
      seen := seen + [link];
    }

    /** `schedule`: every candidate gets one decision, in the order of flow ids, and what is sent
        stays within bytes, packets and channel time of the link. */
    method Schedule(es: seq<Candidate>, link: Link) returns (all: seq<Decision>, sent: seq<Decision>, pressure: real)
      requires Valid() && ValidLink(link) && DistinctFlows(es)
      modifies this
      ensures Valid() && seen == old(seen) + [link]
      ensures pressure == Pressure(cfg, AfterLinks(cfg, Unmeasured, seen), Remaining(cfg, es), link)
      ensures Answers(cfg, es, pressure, sent, all)
      ensures Distinct(sent) && Sends(sent) && FlowsIn(sent) <= Flows(es)
      ensures sent == RunTiers(cfg, Partitions(Remaining(cfg, es)), pressure,
                               Budget(link.bytes, link.packets, link.airtime), 4).decisions
      ensures FractionFits(cfg, link.bytes) ==> Affordable(sent, Budget(link.bytes, link.packets, link.airtime))
    {
      UpdateLinkEstimate(link);
      var entries := Remaining(cfg, es);
      pressure := Pressure(cfg, Current(), entries, link);
      var parts := Partitions(entries);
      var start := Budget(link.bytes, link.packets, link.airtime);
      sent := AdmitTiers(cfg, parts, pressure, start);
      SentFacts(cfg, es, pressure, start, sent);
      var unsorted := DecideAll(cfg, es, pressure, sent);
      SortedAnswers(cfg, es, pressure, sent, unsorted);
      all := Sorting.Sorted(unsorted, FlowOrder());
    }
  }

  function Offered(es: seq<Candidate>): nat { if es == [] then 0 else Offered(es[..|es| - 1]) + es[|es| - 1].size }

  lemma SentFacts(cfg: Config, es: seq<Candidate>, pressure: real, b: Budget, sent: seq<Decision>)
    requires DistinctFlows(es) && Sound(b)
    requires var parts := Partitions(Remaining(cfg, es)); sent == RunTiers(cfg, parts, pressure, b, |parts|).decisions
    ensures Distinct(sent) && Sends(sent) && FlowsIn(sent) <= Flows(es)
    ensures FractionFits(cfg, b.bytes) ==> Affordable(sent, b)
  {
    var entries := Remaining(cfg, es);
    var parts := Partitions(entries);
    var whole := Concat(parts, |parts|);
    RemainingDistinct(cfg, es);
    PartitionsCover(entries);
    DistinctStays(entries, whole);
    SameElements(entries, whole);
    TiersDecideOnce(cfg, parts, pressure, b, |parts|);
    forall f | f in FlowsIn(sent) ensures f in Flows(es) {
      var i :| 0 <= i < |sent| && sent[i].flow == f;
      assert f in Flows(entries);
      MemberFlow(entries, f);
      MemberFlow(es, f);
    }
    if FractionFits(cfg, b.bytes) { AllTiersWithin(cfg, parts, pressure, b); }
  }

  method AdmitTiers(cfg: Config, parts: seq<seq<Candidate>>, pressure: real, start: Budget)
    returns (sent: seq<Decision>)
    ensures sent == RunTiers(cfg, parts, pressure, start, |parts|).decisions
  {
    sent := [];
    var left := start;
    for k := 0 to |parts|
      invariant Tier(sent, left) == RunTiers(cfg, parts, pressure, start, k)
    {
      var ds;
      ds, left := AdmitPartition(cfg, parts[k], pressure, StartOf(cfg, k + 1 == |parts|, left));
      sent := sent + ds;
    }
  }

  method DecideAll(cfg: Config, es: seq<Candidate>, pressure: real, sent: seq<Decision>) returns (all: seq<Decision>)
    ensures Complete(cfg, es, pressure, sent, all)
  {
    all := [];
    for i := 0 to |es|
      invariant |all| == i
      invariant forall j :: 0 <= j < i ==> Settles(cfg, es[j], pressure, sent, all[j])
    {
      var d := Rest(cfg, es[i], pressure);
      var k := 0;
      while k < |sent| && sent[k].flow != es[i].flow
        invariant k <= |sent| && forall j :: 0 <= j < k ==> sent[j].flow != es[i].flow
      {
        k := k + 1;
      }
      if k < |sent| { d := sent[k]; }
      all := all + [d];
    }
  }
}
