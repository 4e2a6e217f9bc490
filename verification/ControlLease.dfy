/** Robot-side enforcement of control leases (fleetqox/local_control_lease.py), over reals.
    Times are in milliseconds, velocities and accelerations per second. */
module ControlLease {

  datatype Twist = Twist(linearX: real, linearY: real, linearZ: real, angularX: real, angularY: real, angularZ: real)
  datatype Accel = Accel(linearX: real, angularZ: real)

  const Still := Twist(0.0, 0.0, 0.0, 0.0, 0.0, 0.0)
  const Steady := Accel(0.0, 0.0)

  datatype ExpiryAction = Stop | HoldLast | DropIt

  datatype Policy = Policy(
    maxLinearX: real, maxLinearY: real, maxLinearZ: real, maxAngularX: real, maxAngularY: real, maxAngularZ: real,
    maxAccelX: real, maxAccelZ: real, maxJerkX: real, maxJerkZ: real,
    maxLifespan: real, pendingWindow: real, stopOnExpiry: bool, onExpiry: ExpiryAction)

  /** What profile validation guarantees. */
  predicate ValidPolicy(p: Policy) {
    && p.maxLinearX > 0.0 && p.maxLifespan > 0.0
    && p.maxLinearY >= 0.0 && p.maxLinearZ >= 0.0
    && p.maxAngularX >= 0.0 && p.maxAngularY >= 0.0 && p.maxAngularZ >= 0.0
    && p.maxAccelX >= 0.0 && p.maxAccelZ >= 0.0 && p.maxJerkX >= 0.0 && p.maxJerkZ >= 0.0 && p.pendingWindow >= 0.0
  }

  datatype EventId =
    | NoEvent
    | Event(n: int)

  datatype Lease = Lease(id: EventId, received: real, expires: real)

  /** `from_envelope`: a missing or non-positive lifespan means the local maximum, which also
      caps any longer one. */
  function LeaseFrom(p: Policy, id: EventId, lifespan: real, received: real): Lease {
    var asked := if lifespan > 0.0 then lifespan else p.maxLifespan;
    Lease(id, received, received + if asked < p.maxLifespan then asked else p.maxLifespan)
  }

  predicate Expired(l: Lease, now: real) { now > l.expires }

  datatype Active =
    | NoLease
    | Held(lease: Lease)

  datatype Clock =
    | Never
    | At(ms: real)

  datatype Pending =
    | NothingPending
    | Waiting(command: Twist, since: real)

  datatype State = State(active: Active, output: Twist, outputAt: Clock, accel: Accel, fallen: set<EventId>,
                         pending: Pending)

  const Fresh := State(NoLease, Still, Never, Steady, {}, NothingPending)

  datatype Status =
    | LeaseUpdate
    | DuplicateLease
    | StaleLease
    | DropNoLease
    | Accepted
    | Clipped
    | FallbackStop
    | FallbackHold
    | FallbackDrop

  datatype Decision = Decision(status: Status, publish: bool, command: Twist, now: real)

  // ---------------------------------------------------------------- limits

  function Clamp(x: real, bound: real): (r: real)
    requires bound >= 0.0
    ensures -bound <= r <= bound
    ensures -bound <= x <= bound ==> r == x
  {
    var low := if x > -bound then x else -bound;
    if low < bound then low else bound
  }

  /** `clip_command`. */
  function Clip(p: Policy, c: Twist): Twist
    requires ValidPolicy(p)
  {
    Twist(Clamp(c.linearX, p.maxLinearX), Clamp(c.linearY, p.maxLinearY), Clamp(c.linearZ, p.maxLinearZ),
          Clamp(c.angularX, p.maxAngularX), Clamp(c.angularY, p.maxAngularY), Clamp(c.angularZ, p.maxAngularZ))
  }

  function Abs(x: real): real { if x >= 0.0 then x else -x }

  /** `_step_toward`: as far from `a` to `b` as one step of at most `most` reaches. */
  function StepToward(a: real, b: real, most: real): (r: real)
    requires most >= 0.0
    ensures Abs(r - a) <= most
    ensures (a <= r <= b) || (b <= r <= a)
    ensures Abs(b - a) <= most && most > 0.0 ==> r == b
  {
    if most <= 0.0 then a
    else if Abs(b - a) <= most then b
    else if b > a then a + most
    else a - most
  }

  /** Seconds between two readings in milliseconds. */
  function Seconds(a: real, b: real): real { (b - a) / 1000.0 }

  /** One axis of `apply_dynamic_limits`: the acceleration that acceleration and jerk limits allow. */
  function LimitedAccel(goal: real, velocity: real, accel: real, maxAccel: real, maxJerk: real, dt: real): real
    requires dt > 0.0 && maxAccel >= 0.0 && maxJerk >= 0.0
  {
    NonNegative(maxJerk, dt);
    StepToward(accel, Clamp((goal - velocity) / dt, maxAccel), maxJerk * dt)
  }

  datatype Axis = Axis(velocity: real, accel: real)

  function AxisStep(goal: real, velocity: real, accel: real, maxAccel: real, maxJerk: real, dt: real): Axis
    requires dt > 0.0 && maxAccel >= 0.0 && maxJerk >= 0.0
  {
    var a := LimitedAccel(goal, velocity, accel, maxAccel, maxJerk, dt);
    Axis(velocity + a * dt, a)
  }

  lemma NonNegative(x: real, y: real)
    requires x >= 0.0 && y >= 0.0
    ensures x * y >= 0.0
  {
  }

  datatype Motion = Motion(command: Twist, accel: Accel)

  /** `apply_dynamic_limits`. */
  function Limit(p: Policy, c: Twist, s: State, now: real): Motion
    requires ValidPolicy(p)
  {
    if s.outputAt.Never? || now <= s.outputAt.ms then Motion(c, Steady)
    else
      var dt := Seconds(s.outputAt.ms, now);
      var x := AxisStep(c.linearX, s.output.linearX, s.accel.linearX, p.maxAccelX, p.maxJerkX, dt);
      var z := AxisStep(c.angularZ, s.output.angularZ, s.accel.angularZ, p.maxAccelZ, p.maxJerkZ, dt);
      Motion(c.(linearX := x.velocity, angularZ := z.velocity), Accel(x.accel, z.accel))
  }

  /** Whether the dynamic limits changed the acceleration a command asks for. */
  predicate DynamicsClip(p: Policy, c: Twist, s: State, now: real)
    requires ValidPolicy(p)
  {
    s.outputAt.At? && now > s.outputAt.ms &&
    var dt := Seconds(s.outputAt.ms, now);
    var x, z := (c.linearX - s.output.linearX) / dt, (c.angularZ - s.output.angularZ) / dt;
    var cx, cz := Clamp(x, p.maxAccelX), Clamp(z, p.maxAccelZ);
    Abs(cx - x) > TOLERANCE || Abs(cz - z) > TOLERANCE || Limit(p, c, s, now).accel != Accel(cx, cz)
  }

  // ---------------------------------------------------------------- steps

  function Expire(p: Policy, s: State, l: Lease, now: real): (State, Decision) {
    var fallen := s.fallen + {l.id};
    match p.onExpiry
    case HoldLast => (s.(fallen := fallen), Decision(FallbackHold, true, s.output, now))
    case DropIt => (s.(fallen := fallen), Decision(FallbackDrop, false, s.output, now))
    case Stop => (s.(fallen := fallen, output := Still, outputAt := At(now), accel := Steady),
                  Decision(FallbackStop, true, Still, now))
  }

  function Evaluate(p: Policy, s: State, c: Twist, now: real): (State, Decision)
    requires ValidPolicy(p)
  {
    if s.active.NoLease? then (s.(pending := Waiting(c, now)), Decision(DropNoLease, false, Still, now))
    else if Expired(s.active.lease, now) then Expire(p, s, s.active.lease, now)
    else
      var bounded := Clip(p, c);
      var m := Limit(p, bounded, s, now);
      (s.(output := m.command, outputAt := At(now), accel := m.accel),
       Decision(if bounded != c || DynamicsClip(p, bounded, s, now) then Clipped else Accepted, true, m.command, now))
  }

  function Ingest(p: Policy, s: State, l: Lease): (State, Decision)
    requires ValidPolicy(p)
  {
    if s.active.Held? && s.active.lease.id.Event? && l.id.Event? && l.id.n <= s.active.lease.id.n then
      (s, Decision(if l.id.n == s.active.lease.id.n then DuplicateLease else StaleLease, false, s.output, l.received))
    else
      var s' := s.(active := Held(l));
      if s.pending.Waiting? && l.received - s.pending.since <= p.pendingWindow then
        Evaluate(p, s'.(pending := NothingPending), s.pending.command, l.received)
      else (s', Decision(LeaseUpdate, false, s.output, l.received))
  }

  /** `tick`: the fallback of an expired lease, once per event id. */
  predicate TickActs(p: Policy, s: State, now: real) {
    p.stopOnExpiry && s.active.Held? && Expired(s.active.lease, now) && s.active.lease.id !in s.fallen
  }

  // ---------------------------------------------------------------- the controller

  class LocalControlLeaseState {
    const policy: Policy
    var active: Active
    var output: Twist
    var outputAt: Clock
    var accel: Accel
    var fallen: set<EventId>
    var pending: Pending

    constructor (p: Policy)
      ensures policy == p && Value() == Fresh
    {
      policy := p;
      active, output, outputAt, accel, fallen, pending := NoLease, Still, Never, Steady, {}, NothingPending;
    }

    function Value(): State reads this { State(active, output, outputAt, accel, fallen, pending) }

    method ExpiryDecision(lease: Lease, now: real) returns (d: Decision)
      modifies this
      ensures (Value(), d) == Expire(policy, old(Value()), lease, now)
    {
      fallen := fallen + {lease.id};
      if policy.onExpiry == HoldLast { return Decision(FallbackHold, true, output, now); }
      if policy.onExpiry == DropIt { return Decision(FallbackDrop, false, output, now); }
      output, outputAt, accel := Still, At(now), Steady;
      d := Decision(FallbackStop, true, Still, now);
    }

    method EvaluateCommand(command: Twist, now: real) returns (d: Decision)
      requires ValidPolicy(policy)
      modifies this
      ensures (Value(), d) == Evaluate(policy, old(Value()), command, now)
    {
      if active.NoLease? {
        pending := Waiting(command, now);
        return Decision(DropNoLease, false, Still, now);
      }
      if Expired(active.lease, now) { d := ExpiryDecision(active.lease, now); return; }
      var bounded := Clip(policy, command);
      var m := Limit(policy, bounded, Value(), now);
      var clipped := bounded != command || DynamicsClip(policy, bounded, Value(), now);
      output, outputAt, accel := m.command, At(now), m.accel;
      d := Decision(if clipped then Clipped else Accepted, true, m.command, now);
    }

    method IngestLease(lease: Lease) returns (d: Decision)
      requires ValidPolicy(policy)
      modifies this
      ensures (Value(), d) == Ingest(policy, old(Value()), lease)
    {
      if active.Held? && active.lease.id.Event? && lease.id.Event? && lease.id.n <= active.lease.id.n {
        return Decision(if lease.id.n == active.lease.id.n then DuplicateLease else StaleLease, false, output,
                        lease.received);
      }
      active := Held(lease);
      if pending.Waiting? && lease.received - pending.since <= policy.pendingWindow {
        var command := pending.command;
        pending := NothingPending;
        d := EvaluateCommand(command, lease.received);
        return;
      }
      d := Decision(LeaseUpdate, false, output, lease.received);
    }

    method Tick(now: real) returns (acted: bool, d: Decision)
      modifies this
      ensures acted == TickActs(policy, old(Value()), now)
      ensures acted ==> (Value(), d) == Expire(policy, old(Value()), old(active).lease, now)
      ensures !acted ==> Value() == old(Value())
    {
      d := Decision(LeaseUpdate, false, output, now);
      if active.NoLease? || !policy.stopOnExpiry { return false, d; }
      if !Expired(active.lease, now) || active.lease.id in fallen { return false, d; }
      d := ExpiryDecision(active.lease, now);
      acted := true;
    }
  }

  // ---------------------------------------------------------------- runs

  /** Envelopes, commands and ticks arrive in any order and at any times. */
  datatype Input =
    | Envelope(id: EventId, lifespan: real, received: real)
    | Command(command: Twist, now: real)
    | TickAt(now: real)

  datatype Outcome =
    | Silent
    | Decided(decision: Decision)

  function Next(p: Policy, s: State, i: Input): (State, Outcome)
    requires ValidPolicy(p)
  {
    match i
    case Envelope(id, lifespan, received) =>
      var (s', d) := Ingest(p, s, LeaseFrom(p, id, lifespan, received));
      (s', Decided(d))
    case Command(c, now) =>
      var (s', d) := Evaluate(p, s, c, now);
      (s', Decided(d))
    case TickAt(now) =>
      if TickActs(p, s, now) then
        var (s', d) := Expire(p, s, s.active.lease, now);
        (s', Decided(d))
      else (s, Silent)
  }

  predicate Follows(p: Policy, s: State, i: Input, s': State)
    requires ValidPolicy(p)
  {
    s' == Next(p, s, i).0
  }

  predicate IsRun(p: Policy, states: seq<State>, inputs: seq<Input>)
    requires ValidPolicy(p)
  {
    && |states| == |inputs| + 1 && states[0] == Fresh
    && forall i {:trigger Follows(p, states[i], inputs[i], states[i + 1])} ::
         0 <= i < |inputs| ==> Follows(p, states[i], inputs[i], states[i + 1])
  }

  /** The published axes that are clipped only, and the acceleration, stay within bounds; the
      active lease runs out at most the local maximum after it was received. */
  predicate Bounded(p: Policy, s: State) {
    && Abs(s.accel.linearX) <= p.maxAccelX && Abs(s.accel.angularZ) <= p.maxAccelZ
    && Abs(s.output.linearY) <= p.maxLinearY && Abs(s.output.linearZ) <= p.maxLinearZ
    && Abs(s.output.angularX) <= p.maxAngularX && Abs(s.output.angularY) <= p.maxAngularY
    && (s.active.Held? ==> s.active.lease.received < s.active.lease.expires <= s.active.lease.received + p.maxLifespan)
  }

  lemma AccelBetween(goal: real, velocity: real, accel: real, maxAccel: real, maxJerk: real, dt: real)
    requires dt > 0.0 && maxAccel >= 0.0 && maxJerk >= 0.0 && Abs(accel) <= maxAccel
    ensures var a := LimitedAccel(goal, velocity, accel, maxAccel, maxJerk, dt);
            Abs(a) <= maxAccel && Abs(a - accel) <= maxJerk * dt && Abs(a * dt) <= maxAccel * dt
  {
    NonNegative(maxJerk, dt);
    var a := LimitedAccel(goal, velocity, accel, maxAccel, maxJerk, dt);
    NonNegative(maxAccel - a, dt);
    NonNegative(maxAccel + a, dt);
    assert (maxAccel - a) * dt == maxAccel * dt - a * dt;
    assert (maxAccel + a) * dt == maxAccel * dt + a * dt;
  }

  lemma LimitBounded(p: Policy, c: Twist, s: State, now: real)
    requires ValidPolicy(p) && Bounded(p, s)
    ensures var m := Limit(p, Clip(p, c), s, now);
            Bounded(p, s.(output := m.command, outputAt := At(now), accel := m.accel))
  {
    if s.outputAt.At? && now > s.outputAt.ms {
      var dt, b := Seconds(s.outputAt.ms, now), Clip(p, c);
      AccelBetween(b.linearX, s.output.linearX, s.accel.linearX, p.maxAccelX, p.maxJerkX, dt);
      AccelBetween(b.angularZ, s.output.angularZ, s.accel.angularZ, p.maxAccelZ, p.maxJerkZ, dt);
    }
  }

  lemma NextBounded(p: Policy, s: State, i: Input)
    requires ValidPolicy(p) && Bounded(p, s)
    ensures Bounded(p, Next(p, s, i).0)
  {
    match i
    case Envelope(id, lifespan, received) =>
      var s' := s.(active := Held(LeaseFrom(p, id, lifespan, received)), pending := NothingPending);
      if s.pending.Waiting? { LimitBounded(p, s.pending.command, s', received); }
    case Command(c, now) => LimitBounded(p, c, s, now);
    case TickAt(now) =>
  }

  lemma {:induction false} RunBounded(p: Policy, states: seq<State>, inputs: seq<Input>, k: nat)
    requires ValidPolicy(p) && IsRun(p, states, inputs) && k < |states|
    ensures Bounded(p, states[k])
  {
    if k > 0 {
      var i := k - 1;
      RunBounded(p, states, inputs, i);
      assert Follows(p, states[i], inputs[i], states[i + 1]);
      NextBounded(p, states[i], inputs[i]);
    }
  }

  // ---------------------------------------------------------------- results

  predicate Lets(d: Decision) { d.status == Accepted || d.status == Clipped }

  /** A command is let through only under an unexpired lease, so no later than the local
      maximum lifespan after the active lease was received. */
  lemma LetThroughInTime(p: Policy, states: seq<State>, inputs: seq<Input>, k: nat)
    requires ValidPolicy(p) && IsRun(p, states, inputs) && k < |inputs|
    ensures var r := Next(p, states[k], inputs[k]).1;
            r.Decided? && Lets(r.decision) ==>
              && states[k + 1].active.Held? && r.decision.publish && r.decision.command == states[k + 1].output
              && r.decision.now <= states[k + 1].active.lease.expires
              && r.decision.now <= states[k + 1].active.lease.received + p.maxLifespan
  {
    RunBounded(p, states, inputs, k);
    RunBounded(p, states, inputs, k + 1);
    assert Follows(p, states[k], inputs[k], states[k + 1]);
  }

  /** With the stop action nothing but a stop is published after the active lease has expired. */
  lemma OnlyStopsAfterExpiry(p: Policy, states: seq<State>, inputs: seq<Input>, k: nat)
    requires ValidPolicy(p) && IsRun(p, states, inputs) && k < |inputs| && p.onExpiry == Stop
    ensures var s', r := states[k + 1], Next(p, states[k], inputs[k]).1;
            r.Decided? && r.decision.publish && s'.active.Held? && Expired(s'.active.lease, r.decision.now) ==>
              r.decision.command == Still && s'.output == Still && r.decision.status == FallbackStop
  {
    RunBounded(p, states, inputs, k);
    assert Follows(p, states[k], inputs[k], states[k + 1]);
  }

  /** Over `dt` seconds an axis changes velocity by at most the acceleration limit and
      acceleration by at most the jerk limit. */
  predicate SmoothAxis(v: real, v': real, a: real, a': real, maxAccel: real, maxJerk: real, dt: real) {
    Abs(v' - v) <= maxAccel * dt && Abs(a' - a) <= maxJerk * dt && Abs(a') <= maxAccel
  }

  predicate Smooth(p: Policy, s: State, s': State, now: real)
    requires s.outputAt.At?
  {
    var dt := Seconds(s.outputAt.ms, now);
    && SmoothAxis(s.output.linearX, s'.output.linearX, s.accel.linearX, s'.accel.linearX, p.maxAccelX, p.maxJerkX, dt)
    && SmoothAxis(s.output.angularZ, s'.output.angularZ, s.accel.angularZ, s'.accel.angularZ, p.maxAccelZ, p.maxJerkZ,
                  dt)
  }

  lemma AxisIsSmooth(goal: real, v: real, a: real, maxAccel: real, maxJerk: real, dt: real)
    requires dt > 0.0 && maxAccel >= 0.0 && maxJerk >= 0.0 && Abs(a) <= maxAccel
    ensures var step := AxisStep(goal, v, a, maxAccel, maxJerk, dt);
            SmoothAxis(v, step.velocity, a, step.accel, maxAccel, maxJerk, dt)
  {
    AccelBetween(goal, v, a, maxAccel, maxJerk, dt);
    var a' := LimitedAccel(goal, v, a, maxAccel, maxJerk, dt);
    assert v + a' * dt - v == a' * dt;
  }

  lemma LimitSmoothX(p: Policy, b: Twist, s: State, now: real, dt: real)
    requires ValidPolicy(p) && Bounded(p, s) && s.outputAt.At? && now > s.outputAt.ms
             && dt == Seconds(s.outputAt.ms, now)
    ensures var m := Limit(p, b, s, now);
            SmoothAxis(s.output.linearX, m.command.linearX, s.accel.linearX, m.accel.linearX, p.maxAccelX, p.maxJerkX,
                       dt)
  {
    AxisIsSmooth(b.linearX, s.output.linearX, s.accel.linearX, p.maxAccelX, p.maxJerkX, dt);
  }

  lemma LimitSmoothZ(p: Policy, b: Twist, s: State, now: real, dt: real)
    requires ValidPolicy(p) && Bounded(p, s) && s.outputAt.At? && now > s.outputAt.ms
             && dt == Seconds(s.outputAt.ms, now)
    ensures var m := Limit(p, b, s, now);
            SmoothAxis(s.output.angularZ, m.command.angularZ, s.accel.angularZ, m.accel.angularZ, p.maxAccelZ,
                       p.maxJerkZ, dt)
  {
    AxisIsSmooth(b.angularZ, s.output.angularZ, s.accel.angularZ, p.maxAccelZ, p.maxJerkZ, dt);
  }

  lemma LimitSmooth(p: Policy, b: Twist, s: State, now: real, s': State)
    requires ValidPolicy(p) && Bounded(p, s) && s.outputAt.At? && now > s.outputAt.ms
    requires s'.output == Limit(p, b, s, now).command && s'.accel == Limit(p, b, s, now).accel
    ensures Smooth(p, s, s', now)
  {
    var dt := Seconds(s.outputAt.ms, now);
    LimitSmoothX(p, b, s, now, dt);
    LimitSmoothZ(p, b, s, now, dt);
  }

  lemma EvaluateMoves(p: Policy, s: State, c: Twist, now: real)
    requires ValidPolicy(p) && Lets(Evaluate(p, s, c, now).1)
    ensures var s', m := Evaluate(p, s, c, now).0, Limit(p, Clip(p, c), s, now);
            s'.output == m.command && s'.accel == m.accel
  {
  }

  lemma EvaluateSmooth(p: Policy, s: State, c: Twist, now: real)
    requires ValidPolicy(p) && Bounded(p, s) && s.outputAt.At? && now > s.outputAt.ms
    requires Lets(Evaluate(p, s, c, now).1)
    ensures Smooth(p, s, Evaluate(p, s, c, now).0, now)
  {
    EvaluateMoves(p, s, c, now);
    LimitSmooth(p, Clip(p, c), s, now, Evaluate(p, s, c, now).0);
  }

  lemma IngestSmooth(p: Policy, s: State, l: Lease)
    requires ValidPolicy(p) && Bounded(p, s) && s.outputAt.At? && l.received > s.outputAt.ms
    requires l.received < l.expires <= l.received + p.maxLifespan
    ensures Lets(Ingest(p, s, l).1) ==> Smooth(p, s, Ingest(p, s, l).0, l.received)
  {
    var s1 := s.(active := Held(l), pending := NothingPending);
    if s.pending.Waiting? && Lets(Evaluate(p, s1, s.pending.command, l.received).1) {
      EvaluateSmooth(p, s1, s.pending.command, l.received);
    }
  }

  /** At strictly increasing times every command let through is smooth. */
  lemma MotionIsSmooth(p: Policy, states: seq<State>, inputs: seq<Input>, k: nat)
    requires ValidPolicy(p) && IsRun(p, states, inputs) && k < |inputs| && states[k].outputAt.At?
    ensures var r := Next(p, states[k], inputs[k]).1;
            r.Decided? && Lets(r.decision) && r.decision.now > states[k].outputAt.ms ==>
              Smooth(p, states[k], states[k + 1], r.decision.now)
  {
    RunBounded(p, states, inputs, k);
    assert Follows(p, states[k], inputs[k], states[k + 1]);
    StepIsSmooth(p, states[k], inputs[k]);
  }

  lemma StepIsSmooth(p: Policy, s: State, i: Input)
    requires ValidPolicy(p) && Bounded(p, s) && s.outputAt.At?
    ensures var (s', r) := Next(p, s, i);
            r.Decided? && Lets(r.decision) && r.decision.now > s.outputAt.ms ==> Smooth(p, s, s', r.decision.now)
  {
    match i
    case Command(c, now) =>
      if now > s.outputAt.ms && Lets(Evaluate(p, s, c, now).1) { EvaluateSmooth(p, s, c, now); }
    case Envelope(id, lifespan, received) =>
      if received > s.outputAt.ms { IngestSmooth(p, s, LeaseFrom(p, id, lifespan, received)); }
    case TickAt(_) =>
  }

  const TOLERANCE := 0.000000000001

  /** `x` and `y` differ by no more than the tolerance over `dt` seconds. */
  predicate Near(x: real, y: real, dt: real) { Abs(x - y) <= TOLERANCE * dt }

  lemma UnclippedAxis(goal: real, v: real, a: real, maxAccel: real, maxJerk: real, dt: real)
    requires dt > 0.0 && maxAccel >= 0.0 && maxJerk >= 0.0
    requires var want := Clamp((goal - v) / dt, maxAccel);
             Abs(want - (goal - v) / dt) <= TOLERANCE && LimitedAccel(goal, v, a, maxAccel, maxJerk, dt) == want
    ensures Near(AxisStep(goal, v, a, maxAccel, maxJerk, dt).velocity, goal, dt)
  {
    var x := (goal - v) / dt;
    var e := Clamp(x, maxAccel) - x;
    assert x * dt == goal - v;
    assert (x + e) * dt == x * dt + e * dt;
    NonNegative(TOLERANCE - e, dt);
    NonNegative(TOLERANCE + e, dt);
    assert (TOLERANCE - e) * dt == TOLERANCE * dt - e * dt;
    assert (TOLERANCE + e) * dt == TOLERANCE * dt + e * dt;
  }

  /** A command reported as accepted is published as requested: exactly on the clipped axes,
      and within the tolerance of the clipping test on the two rate-limited ones. */
  lemma AcceptedAsRequested(p: Policy, s: State, c: Twist, now: real)
    requires ValidPolicy(p) && Evaluate(p, s, c, now).1.status == Accepted
    ensures var d, moved := Evaluate(p, s, c, now).1.command, s.outputAt.At? && now > s.outputAt.ms;
            && d == c.(linearX := d.linearX, angularZ := d.angularZ)
            && (!moved ==> d == c)
            && (moved ==> var dt := Seconds(s.outputAt.ms, now);
                          Near(d.linearX, c.linearX, dt) && Near(d.angularZ, c.angularZ, dt))
  {
    if s.outputAt.At? && now > s.outputAt.ms {
      var dt := Seconds(s.outputAt.ms, now);
      UnclippedMotion(p, s, c, now, dt);
    }
  }

  lemma UnclippedMotion(p: Policy, s: State, c: Twist, now: real, dt: real)
    requires ValidPolicy(p) && s.outputAt.At? && now > s.outputAt.ms && dt == Seconds(s.outputAt.ms, now)
    requires !DynamicsClip(p, c, s, now)
    ensures var m := Limit(p, c, s, now);
            Near(m.command.linearX, c.linearX, dt) && Near(m.command.angularZ, c.angularZ, dt)
  {
    UnclippedAxis(c.linearX, s.output.linearX, s.accel.linearX, p.maxAccelX, p.maxJerkX, dt);
    UnclippedAxis(c.angularZ, s.output.angularZ, s.accel.angularZ, p.maxAccelZ, p.maxJerkZ, dt);
  }

  predicate Identified(inputs: seq<Input>) {
    forall i :: 0 <= i < |inputs| && inputs[i].Envelope? ==> inputs[i].id.Event?
  }

  /** The active lease is kept, or replaced by one with a strictly larger event id. */
  predicate Newer(a: Active, b: Active) {
    a.Held? ==> b.Held? && (b == a || (a.lease.id.Event? && b.lease.id.Event? && a.lease.id.n < b.lease.id.n))
  }

  /** When every envelope carries an event id, the active id never decreases and its expiry
      changes only together with it. */
  lemma {:induction false} LeasesOnlyAdvance(p: Policy, states: seq<State>, inputs: seq<Input>, i: nat, j: nat)
    requires ValidPolicy(p) && IsRun(p, states, inputs) && Identified(inputs) && i <= j < |states|
    ensures Newer(states[i].active, states[j].active)
    ensures states[j].active.Held? ==> states[j].active.lease.id.Event?
    decreases j
  {
    if j > 0 {
      var k := j - 1;
      assert Follows(p, states[k], inputs[k], states[k + 1]);
      if i < j {
        LeasesOnlyAdvance(p, states, inputs, i, k);
      } else {
        LeasesOnlyAdvance(p, states, inputs, k, k);
      }
    }
  }
}
