/** Leader completeness and state machine safety.

    The code does not have these properties in every run (see RaftWitness). It has them in
    every run in which two things hold: the log behind each success reply is a prefix of the
    requesting leader's log, and no leader takes a rejection hint beyond its own log length.
 */
module RaftCommit {
  import opened Wrappers
  import opened RaftCore
  import opened RaftCluster
  import opened RaftSafety

  // ---------------------------------------------------------------- side conditions

  /** A success reply is truthful: everything its hint counts is on the leader's log. */
  ghost predicate Truthful(c: Cluster, p: Packet)
    requires p.dst in c.nodes && p.msg.AppendEntries? && p.msg.prevLogIndex >= -1
  {
    var r := HandleAppend(c.nodes[p.dst], p.msg);
    r.1.success ==> p.msg.term in c.leaderLog && r.0.log <= c.leaderLog[p.msg.term]
  }

  ghost predicate HintWithinLog(n: Node, m: Message)
    requires m.AppendReply?
  {
    n.role.Leader? && m.term == n.term && !m.success ==> m.matchLengthHint <= |n.log|
  }

  ghost predicate Clean(c: Cluster, step: Step) {
    Enabled(c, step) && step.Deliver? ==>
      && (step.packet.msg.AppendEntries? ==> Truthful(c, step.packet))
      && (step.packet.msg.AppendReply? ==> HintWithinLog(c.nodes[step.packet.dst], step.packet.msg))
  }

  ghost predicate CleanUpTo(states: seq<Cluster>, steps: seq<Step>, k: nat)
    requires |states| == |steps| + 1 && k <= |steps|
  {
    forall i {:trigger Clean(states[i], steps[i])} :: 0 <= i < k ==> Clean(states[i], steps[i])
  }

  ghost predicate IsCleanRun(states: seq<Cluster>, steps: seq<Step>) {
    IsRun(states, steps) && CleanUpTo(states, steps, |steps|)
  }

  // ---------------------------------------------------------------- what is committed

  /** `f` has told the leader of term `t` that it holds the first `k` entries of its log;
      the leader holds all of them itself. */
  ghost predicate Acked(c: Cluster, t: nat, f: NodeId, k: nat) {
    && t in c.elections && t in c.leaderLog && k <= |c.leaderLog[t]|
    && (f == c.elections[t].leader || exists p :: p in c.net && IsAck(p, t, f, k))
  }

  ghost predicate IsAck(p: Packet, t: nat, f: NodeId, k: nat) {
    p.msg.AppendReply? && p.msg.success && p.msg.term == t && p.src == f && k <= p.msg.matchLengthHint
  }

  ghost predicate Quorum(c: Cluster, t: nat, k: nat, q: set<NodeId>) {
    IsMajority(q, c.members) && forall f :: f in q ==> Acked(c, t, f, k)
  }

  ghost predicate HasQuorum(c: Cluster, t: nat, k: nat) { exists q :: Quorum(c, t, k, q) }

  /** Entry `i` of the log of term `t`'s leader is of term `t` and acknowledged by a majority. */
  ghost predicate Committed(c: Cluster, t: nat, i: nat) {
    && t in c.leaderLog && i < |c.leaderLog[t]| && c.leaderLog[t][i].term == t
    && HasQuorum(c, t, i + 1)
  }

  /** `prefix` is covered by an entry committed in a term up to `u`. */
  ghost predicate Backed(c: Cluster, u: nat, prefix: Log) {
    exists t: nat, i: nat :: t <= u && BackedBy(c, t, i, prefix)
  }

  ghost predicate BackedBy(c: Cluster, t: nat, i: nat, prefix: Log) {
    Committed(c, t, i) && prefix <= c.leaderLog[t][..i + 1]
  }

  /** All leaders of terms in (t, u] carry the first `k` entries of term `t`'s leader. */
  ghost predicate Carried(c: Cluster, t: nat, k: nat, u: nat)
    requires t in c.leaderLog && k <= |c.leaderLog[t]|
  {
    forall w :: w in c.leaderLog && t < w <= u ==> c.leaderLog[t][..k] <= c.leaderLog[w]
  }

  ghost predicate Held(c: Cluster, t: nat, k: nat, log: Log, u: nat) {
    t in c.leaderLog && k <= |c.leaderLog[t]| && (Carried(c, t, k, u) ==> c.leaderLog[t][..k] <= log)
  }

  ghost predicate Holds(c: Cluster, f: NodeId, log: Log, u: nat, below: nat) {
    forall t: nat, k: nat {:trigger Acked(c, t, f, k)} :: t < below && Acked(c, t, f, k) ==> Held(c, t, k, log, u)
  }

  ghost predicate CommitOk(c: Cluster, u: nat, log: Log, commit: int) {
    commit >= 0 ==> commit < |log| && Backed(c, u, log[..commit + 1])
  }

  ghost predicate LeaderOk(c: Cluster, s: Node) {
    && (forall p :: p in s.nextIndex ==> s.nextIndex[p] <= |s.log|)
    && (forall p :: p in s.matchIndex && s.matchIndex[p] >= 0 ==> Acked(c, s.term, p, s.matchIndex[p] + 1))
  }

  ghost predicate SafeNode(c: Cluster, n: NodeId, s: Node) {
    && (s.role.Leader? ==> LeaderOk(c, s))
    && CommitOk(c, s.term, s.log, s.commitIndex)
    && Holds(c, n, s.log, s.term, s.term + 1)
  }

  ghost predicate SafePacket(c: Cluster, p: Packet) {
    && (p.msg.AppendEntries? ==>
          && p.msg.term in c.leaderLog && Genuine(p.msg, c.leaderLog[p.msg.term])
          && CommitOk(c, p.msg.term, c.leaderLog[p.msg.term], p.msg.leaderCommit))
    && (p.msg.AppendReply? && p.msg.success ==>
          p.msg.term in c.leaderLog && p.msg.matchLengthHint <= |c.leaderLog[p.msg.term]|)
  }

  ghost predicate SafeBallot(c: Cluster, k: VoteKey, b: Ballot) {
    b.early && k.term >= 1 ==> Holds(c, k.voter, b.log, k.term - 1, k.term)
  }

  ghost predicate AppliedOk(c: Cluster, a: Applied) {
    exists t: nat, i: nat :: a.index <= i && Committed(c, t, i) && c.leaderLog[t][a.index].command == a.command
  }

  ghost predicate SafeInv(c: Cluster) {
    && (forall n {:trigger SafeNode(c, n, c.nodes[n])} :: n in c.nodes ==> SafeNode(c, n, c.nodes[n]))
    && (forall p {:trigger SafePacket(c, p)} :: p in c.net ==> SafePacket(c, p))
    && (forall k {:trigger SafeBallot(c, k, c.ballots[k])} :: k in c.ballots ==> SafeBallot(c, k, c.ballots[k]))
    && (forall a {:trigger AppliedOk(c, a)} :: a in c.applied ==> AppliedOk(c, a))
  }

  // ---------------------------------------------------------------- leader completeness

  /** A rooted log that is as up to date as one holding `pre`, whose last entry is of term t,
      either ends in term t and is at least as long, or ends in a later term. */
  lemma LastTermAtLeast(c: Cluster, log: Log, t: nat, i: nat)
    requires Inv(c) && Rooted(c.leaderLog, log) && i < |log| && log[i].term == t
    ensures LastTerm(log) >= t
  {
    var last := |log| - 1;
    var u := log[last].term;
    assert RootedAt(c.leaderLog, log, last);
    LeaderTerms(c, u);
    assert log[i] == log[..last + 1][i] == c.leaderLog[u][i];
  }

  /** An entry committed in term t is on the log of every later leader. */
  lemma {:induction false} LeaderCompleteness(c: Cluster, t: nat, i: nat, u: nat)
    requires Inv(c) && SafeInv(c) && Committed(c, t, i) && u in c.elections && t < u
    ensures u in c.leaderLog && c.leaderLog[t][..i + 1] <= c.leaderLog[u]
    decreases u
  {
    var pre := c.leaderLog[t][..i + 1];
    assert ElectionOk(c, u, c.elections[u]);
    var own := VoteKey(c.elections[u].leader, u);
    var first := c.ballots[own].log;
    var q :| Quorum(c, t, i + 1, q);
    var v := MajoritiesMeet(q, c.elections[u].electors, c.members);
    var b := c.ballots[VoteKey(v, u)];
    assert SafeBallot(c, VoteKey(v, u), b);
    forall w | w in c.leaderLog && t < w <= u - 1 ensures pre <= c.leaderLog[w] {
      LeaderCompleteness(c, t, i, w);
    }
    assert Acked(c, t, v, i + 1) && Carried(c, t, i + 1, u - 1);
    assert pre <= b.log && b.log[i] == pre[i];
    assert BallotOk(c, VoteKey(v, u), b) && BallotOk(c, own, c.ballots[own]);
    LastTermAtLeast(c, b.log, t, i);
    FirstLogCarries(c, t, i, u, first, b.log);
  }

  lemma FirstLogCarries(c: Cluster, t: nat, i: nat, u: nat, first: Log, voterLog: Log)
    requires Inv(c) && t in c.leaderLog && i < |c.leaderLog[t]| && Rooted(c.leaderLog, first) && TermsBelow(first, u)
    requires t < u && Carried(c, t, i + 1, u - 1)
    requires i < |voterLog| && LastTerm(voterLog) >= t
    requires UpToDate(LastTerm(first), |first| - 1, voterLog)
    ensures c.leaderLog[t][..i + 1] <= first
  {
    var pre := c.leaderLog[t][..i + 1];
    assert first != [];
    var last := |first| - 1;
    var x := first[last].term;
    assert RootedAt(c.leaderLog, first, last);
    assert first[..last + 1] == first;
    if x == t {
      assert first == c.leaderLog[t][..last + 1];
      assert last >= i;
    } else {
      assert pre <= c.leaderLog[x];
      if last < i {
        assert c.leaderLog[x][last] == pre[last] == c.leaderLog[t][last];
        LeaderTerms(c, t);
        assert false;
      }
      assert pre == c.leaderLog[x][..i + 1];
    }
  }

  /** Committed prefixes of two terms are prefixes of one another. */
  lemma CommittedAgree(c: Cluster, t: nat, i: nat, u: nat, j: nat, k: nat)
    requires Inv(c) && SafeInv(c) && Committed(c, t, i) && Committed(c, u, j) && k <= i && k <= j
    ensures c.leaderLog[t][k] == c.leaderLog[u][k]
  {
    if t < u {
      LeaderCompleteness(c, t, i, u);
      assert c.leaderLog[u][k] == c.leaderLog[t][..i + 1][k];
    } else if u < t {
      LeaderCompleteness(c, u, j, t);
      assert c.leaderLog[t][k] == c.leaderLog[u][..j + 1][k];
    }
  }

  /** What backs a prefix in terms up to u is carried by the leader of term u. */
  lemma BackedOnLeader(c: Cluster, u: nat, prefix: Log)
    requires Inv(c) && SafeInv(c) && Backed(c, u, prefix) && u in c.elections
    ensures u in c.leaderLog && prefix <= c.leaderLog[u]
  {
    var t: nat, i: nat :| t <= u && BackedBy(c, t, i, prefix);
    if t < u { LeaderCompleteness(c, t, i, u); }
  }

  // ---------------------------------------------------------------- what steps keep

  lemma AckedGrows(c: Cluster, d: Cluster, n: NodeId, t: nat, f: NodeId, k: nat)
    requires Grows(c, d, n) && c.net <= d.net && Acked(c, t, f, k)
    ensures Acked(d, t, f, k)
  {
    if f != c.elections[t].leader {
      var p :| p in c.net && IsAck(p, t, f, k);
      assert p in d.net;
    }
  }

  lemma CommittedGrows(c: Cluster, d: Cluster, n: NodeId, t: nat, i: nat)
    requires Grows(c, d, n) && c.net <= d.net && Committed(c, t, i)
    ensures Committed(d, t, i)
  {
    var q :| Quorum(c, t, i + 1, q);
    forall f | f in q ensures Acked(d, t, f, i + 1) { AckedGrows(c, d, n, t, f, i + 1); }
    assert Quorum(d, t, i + 1, q);
  }

  lemma BackedGrows(c: Cluster, d: Cluster, n: NodeId, u: nat, u': nat, prefix: Log)
    requires Grows(c, d, n) && c.net <= d.net && Backed(c, u, prefix) && u <= u'
    ensures Backed(d, u', prefix)
  {
    var t: nat, i: nat :| t <= u && BackedBy(c, t, i, prefix);
    CommittedGrows(c, d, n, t, i);
    assert d.leaderLog[t][..i + 1] == c.leaderLog[t][..i + 1];
    assert BackedBy(d, t, i, prefix);
  }

  lemma CommitOkGrows(c: Cluster, d: Cluster, n: NodeId, u: nat, u': nat, log: Log, log': Log, commit: int)
    requires Grows(c, d, n) && c.net <= d.net && CommitOk(c, u, log, commit) && u <= u'
    requires log <= log' || (commit >= 0 ==> commit < |log| && log[..commit + 1] <= log')
    ensures CommitOk(d, u', log', commit)
  {
    if commit >= 0 {
      BackedGrows(c, d, n, u, u', log[..commit + 1]);
      assert log'[..commit + 1] == log[..commit + 1];
    }
  }

  /** A later leader that carries old entries carried them when it was elected. */
  lemma CarriedBack(c: Cluster, d: Cluster, n: NodeId, t: nat, k: nat, w: nat)
    requires Inv(c) && Inv(d) && Grows(c, d, n) && t in c.leaderLog && k <= |c.leaderLog[t]|
    requires w in c.leaderLog && t < w && c.leaderLog[t][..k] <= d.leaderLog[w]
    ensures c.leaderLog[t][..k] <= c.leaderLog[w]
  {
    var pre := c.leaderLog[t][..k];
    assert ElectionOk(d, w, d.elections[w]) && ElectionOk(c, w, c.elections[w]);
    var first := c.ballots[VoteKey(c.elections[w].leader, w)].log;
    LeaderTerms(c, t);
    assert k > |first| ==> TermAt(d.leaderLog[w], |first|) == TermAt(c.leaderLog[t], |first|);
    assert pre == d.leaderLog[w][..k] == first[..k];
  }

  lemma HeldGrows(c: Cluster, d: Cluster, n: NodeId, t: nat, k: nat, log: Log, u: nat)
    requires Inv(c) && Inv(d) && Grows(c, d, n) && Held(c, t, k, log, u)
    ensures Held(d, t, k, log, u)
  {
    assert d.leaderLog[t][..k] == c.leaderLog[t][..k];
    if Carried(d, t, k, u) { CarriedBefore(c, d, n, t, k, u); }
  }

  lemma CarriedBefore(c: Cluster, d: Cluster, n: NodeId, t: nat, k: nat, u: nat)
    requires Inv(c) && Inv(d) && Grows(c, d, n) && t in c.leaderLog && k <= |c.leaderLog[t]|
    requires Carried(d, t, k, u)
    ensures Carried(c, t, k, u)
  {
    assert d.leaderLog[t][..k] == c.leaderLog[t][..k];
    forall w | w in c.leaderLog && t < w <= u ensures c.leaderLog[t][..k] <= c.leaderLog[w] {
      assert w in d.leaderLog;
      CarriedBack(c, d, n, t, k, w);
    }
  }

  /** New acknowledgements come from the stepping replica, in its current term. */
  ghost predicate NewAcks(c: Cluster, d: Cluster, n: NodeId)
    requires n in d.nodes
  {
    forall t: nat, f: NodeId, k: nat {:trigger Acked(d, t, f, k)} ::
      Acked(d, t, f, k) && !Acked(c, t, f, k) ==>
        f == n && t == d.nodes[n].term && d.leaderLog[t][..k] <= d.nodes[n].log
  }

  /** The stepping replica's log keeps what it acknowledged and later leaders carry. */
  ghost predicate KeepsAcked(c: Cluster, d: Cluster, n: NodeId)
    requires n in c.nodes && n in d.nodes
  {
    forall t: nat, k: nat {:trigger Acked(c, t, n, k)} ::
      (Acked(c, t, n, k) && t <= d.nodes[n].term && Carried(c, t, k, d.nodes[n].term)
       && c.leaderLog[t][..k] <= c.nodes[n].log) ==>
        c.leaderLog[t][..k] <= d.nodes[n].log
  }

  lemma HoldsGrows(c: Cluster, d: Cluster, n: NodeId, f: NodeId, log: Log, u: nat, below: nat)
    requires Inv(c) && Inv(d) && Grows(c, d, n) && NewAcks(c, d, n)
    requires Holds(c, f, log, u, below) && (f == n ==> below <= d.nodes[n].term)
    ensures Holds(d, f, log, u, below)
  {
    forall t: nat, k: nat | t < below && Acked(d, t, f, k) ensures Held(d, t, k, log, u) {
      assert Acked(c, t, f, k);
      HeldGrows(c, d, n, t, k, log, u);
    }
  }

  lemma StepperHolds(c: Cluster, d: Cluster, n: NodeId)
    requires Inv(c) && Inv(d) && Grows(c, d, n) && NewAcks(c, d, n) && KeepsAcked(c, d, n)
    requires Holds(c, n, c.nodes[n].log, c.nodes[n].term, c.nodes[n].term + 1)
    requires forall t: nat, k: nat {:trigger Acked(c, t, n, k)} :: Acked(c, t, n, k) ==> t <= c.nodes[n].term
    ensures Holds(d, n, d.nodes[n].log, d.nodes[n].term, d.nodes[n].term + 1)
  {
    var u := d.nodes[n].term;
    forall t: nat, k: nat | t < u + 1 && Acked(d, t, n, k) ensures Held(d, t, k, d.nodes[n].log, u) {
      if Acked(c, t, n, k) {
        assert d.leaderLog[t][..k] == c.leaderLog[t][..k];
        if Carried(d, t, k, u) {
          CarriedBefore(c, d, n, t, k, u);
          assert Held(c, t, k, c.nodes[n].log, c.nodes[n].term);
          assert Carried(c, t, k, c.nodes[n].term);
        }
      }
    }
  }

  /** Acknowledgements of a term are only sent by replicas that have reached it. */
  lemma AckedInPast(c: Cluster, t: nat, f: NodeId, k: nat)
    requires Inv(c) && f in c.nodes && Acked(c, t, f, k)
    ensures t <= c.nodes[f].term
  {
    if f == c.elections[t].leader {
      assert ElectionOk(c, t, c.elections[t]);
    } else {
      var p :| p in c.net && IsAck(p, t, f, k);
      assert PacketOk(c, p);
    }
  }

  lemma SafeBallotKept(c: Cluster, d: Cluster, n: NodeId, k: VoteKey)
    requires Inv(c) && Inv(d) && Grows(c, d, n) && NewAcks(c, d, n)
    requires k in c.ballots && SafeBallot(c, k, c.ballots[k])
    ensures SafeBallot(d, k, d.ballots[k])
  {
    var b := c.ballots[k];
    if b.early && k.term >= 1 {
      assert NodeOk(d, n, d.nodes[n]);
      HoldsGrows(c, d, n, k.voter, b.log, k.term - 1, k.term);
    }
  }

  lemma NewBallotSafe(c: Cluster, d: Cluster, n: NodeId)
    requires Inv(d) && n in d.nodes
    requires var k := VoteKey(n, d.nodes[n].term);
      k in d.ballots && d.ballots[k].log == d.nodes[n].log && (d.ballots[k].early ==> k.term !in d.leaderLog)
    requires Holds(d, n, d.nodes[n].log, d.nodes[n].term, d.nodes[n].term + 1)
    ensures var k := VoteKey(n, d.nodes[n].term); SafeBallot(d, k, d.ballots[k])
  {
    var k := VoteKey(n, d.nodes[n].term);
    var b := d.ballots[k];
    if b.early && k.term >= 1 {
      forall t: nat, i: nat | t < k.term && Acked(d, t, n, i) ensures Held(d, t, i, b.log, k.term - 1) {
        assert Held(d, t, i, b.log, k.term);
        if Carried(d, t, i, k.term - 1) { assert Carried(d, t, i, k.term); }
      }
    }
  }

  lemma SafePacketKept(c: Cluster, d: Cluster, n: NodeId, p: Packet)
    requires Grows(c, d, n) && c.net <= d.net && SafePacket(c, p)
    ensures SafePacket(d, p)
  {
    if p.msg.AppendEntries? {
      var a, b := c.leaderLog[p.msg.term], d.leaderLog[p.msg.term];
      GenuineGrows(p.msg, a, b);
      CommitOkGrows(c, d, n, p.msg.term, p.msg.term, a, b, p.msg.leaderCommit);
    }
  }

  lemma SafeNodeKept(c: Cluster, d: Cluster, n: NodeId, m: NodeId)
    requires Inv(c) && Inv(d) && Grows(c, d, n) && c.net <= d.net && NewAcks(c, d, n)
    requires m in c.nodes && m != n && SafeNode(c, m, c.nodes[m])
    ensures SafeNode(d, m, d.nodes[m])
  {
    var s := c.nodes[m];
    if s.role.Leader? { LeaderOkGrows(c, d, n, s); }
    CommitOkGrows(c, d, n, s.term, s.term, s.log, s.log, s.commitIndex);
    HoldsGrows(c, d, n, m, s.log, s.term, s.term + 1);
  }

  lemma LeaderOkGrows(c: Cluster, d: Cluster, n: NodeId, s: Node)
    requires Grows(c, d, n) && c.net <= d.net && LeaderOk(c, s)
    ensures LeaderOk(d, s)
  {
    forall p | p in s.matchIndex && s.matchIndex[p] >= 0 ensures Acked(d, s.term, p, s.matchIndex[p] + 1) {
      AckedGrows(c, d, n, s.term, p, s.matchIndex[p] + 1);
    }
  }

  lemma AppliedKept(c: Cluster, d: Cluster, n: NodeId, a: Applied)
    requires Grows(c, d, n) && c.net <= d.net && AppliedOk(c, a)
    ensures AppliedOk(d, a)
  {
    var t: nat, i: nat :| a.index <= i && Committed(c, t, i) && c.leaderLog[t][a.index].command == a.command;
    CommittedGrows(c, d, n, t, i);
  }

  /** The framing argument for the second invariant. */
  lemma StepKeepsSafe(c: Cluster, d: Cluster, n: NodeId)
    requires Inv(c) && Inv(d) && SafeInv(c) && Grows(c, d, n) && c.net <= d.net
    requires NewAcks(c, d, n) && KeepsAcked(c, d, n)
    requires d.nodes[n].role.Leader? ==> LeaderOk(d, d.nodes[n])
    requires CommitOk(d, d.nodes[n].term, d.nodes[n].log, d.nodes[n].commitIndex)
    requires forall p :: p in d.net && p !in c.net ==> SafePacket(d, p)
    requires forall k :: k in d.ballots && k !in c.ballots ==>
               d.ballots[k].log == d.nodes[n].log && (d.ballots[k].early ==> k.term !in d.leaderLog)
    requires forall a :: a in d.applied && a !in c.applied ==> AppliedOk(d, a)
    ensures SafeInv(d)
  {
    assert SafeNode(c, n, c.nodes[n]);
    forall t: nat, k: nat | Acked(c, t, n, k) ensures t <= c.nodes[n].term { AckedInPast(c, t, n, k); }
    StepperHolds(c, d, n);
    forall m | m in d.nodes ensures SafeNode(d, m, d.nodes[m]) {
      if m != n { assert SafeNode(c, m, c.nodes[m]); SafeNodeKept(c, d, n, m); }
    }
    forall p | p in d.net ensures SafePacket(d, p) {
      if p in c.net { assert SafePacket(c, p); SafePacketKept(c, d, n, p); }
    }
    forall k | k in d.ballots ensures SafeBallot(d, k, d.ballots[k]) {
      if k in c.ballots { assert SafeBallot(c, k, c.ballots[k]); SafeBallotKept(c, d, n, k); }
      else { NewBallotSafe(c, d, n); }
    }
    forall a | a in d.applied ensures AppliedOk(d, a) {
      if a in c.applied { assert AppliedOk(c, a); AppliedKept(c, d, n, a); }
    }
  }

  // ---------------------------------------------------------------- step by step

  ghost predicate NewReplyOk(d: Cluster, n: NodeId, p: Packet)
    requires n in d.nodes
  {
    && p.src == n
    && (p.msg.AppendReply? && p.msg.success ==>
          && p.msg.term == d.nodes[n].term && p.msg.matchLengthHint == |d.nodes[n].log|
          && p.msg.term in d.leaderLog && d.nodes[n].log <= d.leaderLog[p.msg.term])
  }

  lemma AcksFromReplies(c: Cluster, d: Cluster, n: NodeId)
    requires Inv(c) && Inv(d) && SafeInv(c) && Grows(c, d, n)
    requires forall p :: p in d.net && p !in c.net ==> NewReplyOk(d, n, p)
    ensures NewAcks(c, d, n)
  {
    assert NodeOk(d, n, d.nodes[n]);
    forall t: nat, f: NodeId, k: nat | Acked(d, t, f, k) && !Acked(c, t, f, k)
      ensures f == n && t == d.nodes[n].term && d.leaderLog[t][..k] <= d.nodes[n].log
    {
      if f != d.elections[t].leader {
        var p :| p in d.net && IsAck(p, t, f, k);
        assert p in c.net ==> SafePacket(c, p);
      }
    }
  }

  ghost function After(c: Cluster, n: NodeId, s: Node, out: Outbox, applied: set<Applied>): Cluster {
    Install(c, n, s, out).(applied := c.applied + applied)
  }

  lemma NextIsAfter(c: Cluster, step: Step)
    requires Inv(c) && Enabled(c, step)
    ensures var n := StepNode(step); var r := Local(c.nodes[n], step);
      var d := After(c, n, r.0, r.1, Applies(c.nodes[n], step));
      Next(c, step) == d && Inv(d) && Grows(c, d, n)
  {
    NextKeepsInv(c, step);
  }

  /** A step that keeps or extends the replica's log and acknowledges nothing. */
  lemma PlainStep(c: Cluster, n: NodeId, s: Node, out: Outbox, applied: set<Applied>)
    requires Inv(c) && SafeInv(c) && n in c.nodes
    requires var d := After(c, n, s, out, applied);
      && Inv(d) && Grows(c, d, n)
      && (s.role.Leader? ==> LeaderOk(d, s))
      && CommitOk(d, s.term, s.log, s.commitIndex)
      && (forall p :: p in Sent(n, out) ==> !(p.msg.AppendReply? && p.msg.success) && SafePacket(d, p))
      && (forall a :: a in applied ==> AppliedOk(d, a))
    requires c.nodes[n].log <= s.log
    requires s.role.Leader? && s.term !in c.elections ==> VoteKey(n, s.term) in c.ballots
    ensures SafeInv(After(c, n, s, out, applied))
  {
    var d := After(c, n, s, out, applied);
    AcksFromReplies(c, d, n);
    StepKeepsSafe(c, d, n);
  }

  lemma AppendForSafe(d: Cluster, n: NodeId, s: Node, peer: NodeId)
    requires s.role.Leader? && LeaderOk(d, s) && NodeOk(d, n, s)
    requires CommitOk(d, s.term, s.log, s.commitIndex)
    ensures SafePacket(d, Packet(n, peer, AppendFor(s, peer)))
  {
  }

  lemma AppendToAllSafe(d: Cluster, n: NodeId, s: Node)
    requires s.role.Leader? && LeaderOk(d, s) && NodeOk(d, n, s)
    requires CommitOk(d, s.term, s.log, s.commitIndex)
    ensures forall p :: p in Sent(n, AppendToAll(s)) ==> SafePacket(d, p) && p.src == n && p.msg.AppendEntries?
  {
    forall p | p in Sent(n, AppendToAll(s)) ensures SafePacket(d, p) && p.src == n && p.msg.AppendEntries? {
      var i :| 0 <= i < |s.peers| && p == Packet(n, s.peers[i], AppendFor(s, s.peers[i]));
      AppendForSafe(d, n, s, s.peers[i]);
    }
  }

  ghost predicate SameLead(a: Node, b: Node) {
    a.role.Leader? && b.term == a.term && b.nextIndex == a.nextIndex && b.matchIndex == a.matchIndex
  }

  ghost predicate SameLog(a: Node, b: Node) { b.log == a.log && b.commitIndex == a.commitIndex }

  ghost predicate VotesOnly(n: NodeId, out: Outbox) {
    forall p :: p in Sent(n, out) ==> p.msg.RequestVote? || p.msg.VoteReply?
  }

  lemma LocalNodeSafe(c: Cluster, d: Cluster, n: NodeId, s0: Node, s: Node, out: Outbox)
    requires Grows(c, d, n) && c.net <= d.net && SafeNode(c, n, s0) && NodeOk(d, n, s)
    requires s0.term <= s.term && s0.log <= s.log
    requires s.commitIndex == s0.commitIndex || s.commitIndex == -1
    requires s.role.Leader? ==> SameLead(s0, s)
    requires (s.role.Leader? && out == AppendToAll(s)) || VotesOnly(n, out)
    ensures (s.role.Leader? ==> LeaderOk(d, s)) && CommitOk(d, s.term, s.log, s.commitIndex)
    ensures forall p :: p in Sent(n, out) ==> !(p.msg.AppendReply? && p.msg.success) && SafePacket(d, p)
  {
    if s.role.Leader? { LeaderOkGrows(c, d, n, s0); }
    if s.commitIndex >= 0 { CommitOkGrows(c, d, n, s0.term, s.term, s0.log, s.log, s0.commitIndex); }
    if s.role.Leader? && out == AppendToAll(s) { AppendToAllSafe(d, n, s); }
  }

  /** Heartbeats, proposals, restarts, timeouts and most vote traffic. */
  lemma LocalKeepsSafe(c: Cluster, n: NodeId, s: Node, out: Outbox)
    requires Inv(c) && SafeInv(c) && n in c.nodes && c.nodes[n].log <= s.log
    requires var d := After(c, n, s, out, {}); Inv(d) && Grows(c, d, n)
    requires s.commitIndex == c.nodes[n].commitIndex || s.commitIndex == -1
    requires s.role.Leader? ==> SameLead(c.nodes[n], s)
    requires (s.role.Leader? && out == AppendToAll(s)) || VotesOnly(n, out)
    ensures SafeInv(After(c, n, s, out, {}))
  {
    var d := After(c, n, s, out, {});
    var s0 := c.nodes[n];
    assert NodeOk(c, n, s0) && SafeNode(c, n, s0) && NodeOk(d, n, s);
    LocalNodeSafe(c, d, n, s0, s, out);
    PlainStep(c, n, s, out, {});
  }

  lemma ApplyKeepsSafe(c: Cluster, n: NodeId)
    requires Inv(c) && SafeInv(c) && n in c.nodes
    requires var d := After(c, n, TakeNewlyCommitted(c.nodes[n]), [], Applies(c.nodes[n], Apply(n)));
      Inv(d) && Grows(c, d, n)
    ensures SafeInv(After(c, n, TakeNewlyCommitted(c.nodes[n]), [], Applies(c.nodes[n], Apply(n))))
  {
    var s, s' := c.nodes[n], TakeNewlyCommitted(c.nodes[n]);
    var applied := Applies(s, Apply(n));
    var d := After(c, n, s', [], applied);
    assert NodeOk(c, n, s) && SafeNode(c, n, s);
    if s.role.Leader? { LeaderOkGrows(c, d, n, s); }
    CommitOkGrows(c, d, n, s.term, s.term, s.log, s.log, s.commitIndex);
    forall a | a in applied ensures AppliedOk(d, a) { AppliedIsBacked(c, d, n, a); }
    PlainStep(c, n, s', [], applied);
  }

  lemma AppliedIsBacked(c: Cluster, d: Cluster, n: NodeId, a: Applied)
    requires n in c.nodes && n in d.nodes && a in Applies(c.nodes[n], Apply(n)) && d.nodes[n].log == c.nodes[n].log
    requires CommitOk(d, d.nodes[n].term, c.nodes[n].log, c.nodes[n].commitIndex)
    ensures AppliedOk(d, a)
  {
    var s := c.nodes[n];
    assert s.log[a.index].command == a.command && a.index <= s.commitIndex;
    var prefix := s.log[..s.commitIndex + 1];
    var t: nat, i: nat :| t <= d.nodes[n].term && BackedBy(d, t, i, prefix);
    assert d.leaderLog[t][a.index] == d.leaderLog[t][..i + 1][a.index] == prefix[a.index];
  }

  lemma ElectionKeepsSafe(c: Cluster, n: NodeId, s: Node)
    requires Inv(c) && SafeInv(c) && n in c.nodes && NodeOk(c, n, s) && s.role.Candidate?
    requires SameLog(c.nodes[n], s) && c.nodes[n].term <= s.term
    requires var d := After(c, n, BecomeLeader(s), AppendToAll(BecomeLeader(s)), {}); Inv(d) && Grows(c, d, n)
    ensures SafeInv(After(c, n, BecomeLeader(s), AppendToAll(BecomeLeader(s)), {}))
  {
    var s' := BecomeLeader(s);
    var d := After(c, n, s', AppendToAll(s'), {});
    var s0 := c.nodes[n];
    assert SafeNode(c, n, s0) && NodeOk(d, n, s');
    CommitOkGrows(c, d, n, s0.term, s.term, s0.log, s.log, s0.commitIndex);
    AppendToAllSafe(d, n, s');
    PlainStep(c, n, s', AppendToAll(s'), {});
  }

  lemma VoteReplyChanges(n: Node, m: Message)
    requires m.VoteReply?
    ensures var s := StepDown(n, m.term); var r := HandleVoteReply(n, m);
      && SameLog(n, s) && SameLog(n, r.0)
      && if r.0.role.Leader? && !s.role.Leader? then
           && s.role.Candidate? && s.term == m.term && m.voteGranted
           && var s' := s.(votes := s.votes + {m.voterId});
              r == (BecomeLeader(s'), AppendToAll(BecomeLeader(s')))
         else r.1 == [] && (r.0.role.Leader? ==> SameLead(n, r.0))
  {
  }

  lemma VoteReplyKeepsSafe(c: Cluster, p: Packet, d: Cluster)
    requires Inv(c) && SafeInv(c) && p in c.net && p.dst in c.nodes && p.msg.VoteReply?
    requires var r := HandleVoteReply(c.nodes[p.dst], p.msg);
      d == After(c, p.dst, r.0, r.1, {}) && Inv(d) && Grows(c, d, p.dst)
    ensures SafeInv(d)
  {
    var n := p.dst;
    var s := StepDown(c.nodes[n], p.msg.term);
    var (s', out) := HandleVoteReply(c.nodes[n], p.msg);
    VoteReplyChanges(c.nodes[n], p.msg);
    if s'.role.Leader? && !s.role.Leader? {
      assert PacketOk(c, p);
      StepDownOk(c, n, p.msg.term);
      CountVote(c, p, s);
      ElectionKeepsSafe(c, n, s.(votes := s.votes + {p.msg.voterId}));
    } else {
      LocalKeepsSafe(c, n, s', out);
    }
  }

  lemma VoteChanges(n: Node, m: Message)
    requires m.RequestVote?
    ensures var r := HandleRequestVote(n, m);
      && SameLog(n, r.0) && (r.0.role.Leader? ==> SameLead(n, r.0)) && r.1.VoteReply?
  {
  }

  lemma RequestVoteKeepsSafe(c: Cluster, p: Packet, d: Cluster)
    requires Inv(c) && SafeInv(c) && p in c.net && p.dst in c.nodes && p.msg.RequestVote?
    requires var r := HandleRequestVote(c.nodes[p.dst], p.msg);
      d == After(c, p.dst, r.0, [(p.src, r.1)], {}) && Inv(d) && Grows(c, d, p.dst)
    ensures SafeInv(d)
  {
    var (s', reply) := HandleRequestVote(c.nodes[p.dst], p.msg);
    VoteChanges(c.nodes[p.dst], p.msg);
    SentOne(p.dst, p.src, reply);
    LocalKeepsSafe(c, p.dst, s', [(p.src, reply)]);
  }

  lemma TimersKeepSafe(c: Cluster, step: Step)
    requires Inv(c) && SafeInv(c) && Enabled(c, step) && !step.Deliver?
    ensures SafeInv(Next(c, step))
  {
    var n := step.node;
    NextIsAfter(c, step);
    var (s', out) := Local(c.nodes[n], step);
    if step.Apply? { ApplyKeepsSafe(c, n); } else { LocalKeepsSafe(c, n, s', out); }
  }

  /** The replicas counted for an index, with the leader, form a set of that size. */
  lemma CountedPeers(s: Node, peers: seq<NodeId>, i: int) returns (q: set<NodeId>)
    requires forall a, b :: 0 <= a < b < |peers| ==> peers[a] != peers[b]
    ensures |q| == MatchCount(s, peers, i)
    ensures forall f :: f in q ==> f in peers && MatchOf(s, f) >= i
  {
    if peers == [] { return {}; }
    q := CountedPeers(s, peers[1..], i);
    if MatchOf(s, peers[0]) >= i {
      assert peers[0] !in q;
      q := q + {peers[0]};
    }
  }

  /** `_advance_commit_index` only moves to an entry of the leader's own term that a
      majority has acknowledged. */
  lemma AdvanceIsCommitted(d: Cluster, n: NodeId, s: Node, i: nat)
    requires Inv(d) && n in d.members && NodeOk(d, n, s) && s.role.Leader? && LeaderOk(d, s)
    requires CanCommit(s, i)
    ensures Committed(d, s.term, i)
  {
    var q := CountedPeers(s, s.peers, i);
    assert n !in s.peers;
    MajorityMeaning(d, n, s);
    assert Acked(d, s.term, n, i + 1);
    QuorumOfPeers(d, n, s, i, q);
  }

  lemma QuorumOfPeers(d: Cluster, n: NodeId, s: Node, i: nat, q: set<NodeId>)
    requires LeaderOk(d, s) && PeersOf(s.peers, n, d.members) && n in d.members && Acked(d, s.term, n, i + 1)
    requires forall f :: f in q ==> f in s.peers && MatchOf(s, f) >= i
    requires 2 * (|q| + 1) > |d.members|
    ensures Quorum(d, s.term, i + 1, q + {n})
  {
    forall f | f in q ensures Acked(d, s.term, f, i + 1) {
      AckedLess(d, s.term, f, s.matchIndex[f] + 1, i + 1);
    }
    assert n !in q;
  }

  lemma AckedLess(d: Cluster, t: nat, f: NodeId, k: nat, j: nat)
    requires Acked(d, t, f, k) && j <= k
    ensures Acked(d, t, f, j)
  {
    if f != d.elections[t].leader {
      var p :| p in d.net && IsAck(p, t, f, k);
      assert IsAck(p, t, f, j);
    }
  }

  lemma AdvanceSafe(d: Cluster, n: NodeId, s: Node)
    requires Inv(d) && n in d.members && NodeOk(d, n, s) && s.role.Leader? && LeaderOk(d, s)
    requires CommitOk(d, s.term, s.log, s.commitIndex)
    ensures var s' := AdvanceCommit(s); CommitOk(d, s'.term, s'.log, s'.commitIndex)
  {
    CommitSearchIsGreatest(s, |s.log| - 1);
    var i := CommitSearch(s, |s.log| - 1);
    if i != s.commitIndex && i >= 0 {
      AdvanceIsCommitted(d, n, s, i);
      assert BackedBy(d, s.term, i, s.log[..i + 1]);
    }
  }

  lemma AppendReplyKeepsSafe(c: Cluster, p: Packet, d: Cluster)
    requires Inv(c) && SafeInv(c) && p in c.net && p.dst in c.nodes && p.msg.AppendReply?
    requires HintWithinLog(c.nodes[p.dst], p.msg)
    requires var r := HandleAppendReply(c.nodes[p.dst], p.src, p.msg);
      d == After(c, p.dst, r.0, r.1, {}) && Inv(d) && Grows(c, d, p.dst)
    ensures SafeInv(d)
  {
    var n, m := p.dst, p.msg;
    var s := c.nodes[n];
    var (s', out) := HandleAppendReply(s, p.src, m);
    if s.role.Leader? && m.term == s.term {
      CurrentReplyKeepsSafe(c, p);
    } else {
      assert s' == StepDown(s, m.term) && out == [];
      LocalKeepsSafe(c, n, s', out);
    }
  }

  lemma CurrentReplyKeepsSafe(c: Cluster, p: Packet)
    requires Inv(c) && SafeInv(c) && p in c.net && p.dst in c.nodes && p.msg.AppendReply?
    requires HintWithinLog(c.nodes[p.dst], p.msg)
    requires c.nodes[p.dst].role.Leader? && p.msg.term == c.nodes[p.dst].term
    requires var r := HandleAppendReply(c.nodes[p.dst], p.src, p.msg);
      var d := After(c, p.dst, r.0, r.1, {}); Inv(d) && Grows(c, d, p.dst)
    ensures var r := HandleAppendReply(c.nodes[p.dst], p.src, p.msg);
      SafeInv(After(c, p.dst, r.0, r.1, {}))
  {
    var n, s := p.dst, c.nodes[p.dst];
    var (s', out) := HandleAppendReply(s, p.src, p.msg);
    var d := After(c, n, s', out, {});
    assert PacketOk(c, p) && SafePacket(c, p) && NodeOk(c, n, s) && SafeNode(c, n, s) && NodeOk(d, n, s');
    LeaderOkGrows(c, d, n, s);
    CommitOkGrows(c, d, n, s.term, s.term, s.log, s.log, s.commitIndex);
    ReplyRecorded(d, p, s);
    PlainStep(c, n, s', out, {});
  }

  lemma MatchRecorded(d: Cluster, p: Packet, s: Node, s2: Node)
    requires p.msg.AppendReply? && p.msg.success && p.msg.term == s.term && p in d.net && p.src != p.dst
    requires LeaderOk(d, s) && p.msg.matchLengthHint <= |s.log|
    requires s.term in d.elections && s.term in d.leaderLog && d.leaderLog[s.term] == s.log
    requires s2 == s.(nextIndex := s.nextIndex[p.src := p.msg.matchLengthHint],
                      matchIndex := s.matchIndex[p.src := p.msg.matchLengthHint - 1])
    ensures LeaderOk(d, s2)
  {
    if p.msg.matchLengthHint > 0 { assert IsAck(p, s.term, p.src, p.msg.matchLengthHint); }
  }

  lemma HintRecorded(d: Cluster, p: Packet, s: Node, s1: Node)
    requires p.msg.AppendReply? && !p.msg.success && s.role.Leader? && p.msg.term == s.term
    requires LeaderOk(d, s) && HintWithinLog(s, p.msg)
    requires s1 == s.(nextIndex := s.nextIndex[p.src := p.msg.matchLengthHint])
    ensures LeaderOk(d, s1)
  {
  }

  lemma SuccessRecorded(d: Cluster, p: Packet, s: Node)
    requires p.msg.AppendReply? && p.msg.success && s.role.Leader? && p.msg.term == s.term
    requires p in d.net && p.src != p.dst && Inv(d) && p.dst in d.members && NodeOk(d, p.dst, s) && LeaderOk(d, s)
    requires CommitOk(d, s.term, s.log, s.commitIndex) && p.msg.matchLengthHint <= |s.log|
    ensures var s' := HandleAppendReply(s, p.src, p.msg).0;
            LeaderOk(d, s') && CommitOk(d, s'.term, s'.log, s'.commitIndex)
  {
    var hint: int := p.msg.matchLengthHint;
    var s2 := s.(nextIndex := s.nextIndex[p.src := hint], matchIndex := s.matchIndex[p.src := hint - 1]);
    MatchRecorded(d, p, s, s2);
    AdvanceSafe(d, p.dst, s2);
    assert HandleAppendReply(s, p.src, p.msg).0 == AdvanceCommit(s2);
  }

  lemma RejectionRecorded(d: Cluster, p: Packet, s: Node)
    requires p.msg.AppendReply? && !p.msg.success && s.role.Leader? && p.msg.term == s.term
    requires NodeOk(d, p.dst, s) && LeaderOk(d, s)
    requires CommitOk(d, s.term, s.log, s.commitIndex) && HintWithinLog(s, p.msg)
    ensures var (s', out) := HandleAppendReply(s, p.src, p.msg);
      && LeaderOk(d, s') && CommitOk(d, s'.term, s'.log, s'.commitIndex)
      && forall q :: q in Sent(p.dst, out) ==> SafePacket(d, q)
  {
    var s1 := s.(nextIndex := s.nextIndex[p.src := p.msg.matchLengthHint]);
    HintRecorded(d, p, s, s1);
    AppendForSafe(d, p.dst, s1, p.src);
  }

  lemma ReplyRecorded(d: Cluster, p: Packet, s: Node)
    requires p.msg.AppendReply? && s.role.Leader? && p.msg.term == s.term && p in d.net && p.src != p.dst
    requires Inv(d) && p.dst in d.members && NodeOk(d, p.dst, s) && LeaderOk(d, s)
    requires CommitOk(d, s.term, s.log, s.commitIndex) && HintWithinLog(s, p.msg)
    requires p.msg.success ==> p.msg.matchLengthHint <= |s.log|
    ensures var (s', out) := HandleAppendReply(s, p.src, p.msg);
      && LeaderOk(d, s') && CommitOk(d, s'.term, s'.log, s'.commitIndex)
      && forall q :: q in Sent(p.dst, out) ==> SafePacket(d, q)
  {
    if p.msg.success { SuccessRecorded(d, p, s); } else { RejectionRecorded(d, p, s); }
  }

  /** Whatever `a` shares with `ref` is still in `b`. */
  ghost predicate KeepsShared(a: Log, ref: Log, b: Log) {
    forall k: nat {:trigger a[..k]} :: k <= |a| && k <= |ref| && a[..k] == ref[..k] ==> a[..k] <= b
  }

  /** A genuine request never cuts into a stretch that the log shares with the leader's log. */
  lemma AppendKeepsShared(c: Cluster, log: Log, m: Message, ref: Log)
    requires m.AppendEntries? && m.prevLogIndex >= -1 && Genuine(m, ref)
    requires Rooted(c.leaderLog, log) && Rooted(c.leaderLog, ref)
    ensures KeepsShared(log, ref, AppendedTo(log, m))
  {
    forall k: nat | k <= |log| && k <= |ref| && log[..k] == ref[..k]
      ensures log[..k] <= AppendedTo(log, m)
    {
      if Matches(log, m) { SharedOutlastsMerge(c, log, m, ref, k); } else { SharedOutlastsCut(log, m, ref, k); }
    }
  }

  lemma SharedOutlastsMerge(c: Cluster, log: Log, m: Message, ref: Log, k: nat)
    requires m.AppendEntries? && m.prevLogIndex >= -1 && Genuine(m, ref) && Matches(log, m)
    requires Rooted(c.leaderLog, log) && Rooted(c.leaderLog, ref)
    requires k <= |log| && k <= |ref| && log[..k] == ref[..k]
    ensures log[..k] <= AppendedTo(log, m)
  {
    GenuineMerge(c, log, m, ref);
    var upto := m.prevLogIndex + 1 + |m.entries|;
    if upto < k { assert log[..upto] == log[..k][..upto] == ref[..k][..upto] == ref[..upto]; }
  }

  lemma SharedOutlastsCut(log: Log, m: Message, ref: Log, k: nat)
    requires m.AppendEntries? && m.prevLogIndex >= -1 && Genuine(m, ref) && !Matches(log, m)
    requires k <= |log| && k <= |ref| && log[..k] == ref[..k]
    ensures log[..k] <= AppendedTo(log, m)
  {
    var prev, shared := m.prevLogIndex, log[..k];
    assert prev < k ==> TermAt(shared, prev) == TermAt(log, prev);
    assert prev < k ==> TermAt(shared, prev) == TermAt(ref, prev);
  }

  lemma AppendKeepsSafe(c: Cluster, p: Packet, d: Cluster)
    requires Inv(c) && SafeInv(c) && Enabled(c, Deliver(p)) && p.msg.AppendEntries? && Truthful(c, p)
    requires var r := HandleAppend(c.nodes[p.dst], p.msg);
      d == After(c, p.dst, r.0, [(p.src, r.1)], {}) && Inv(d) && Grows(c, d, p.dst)
    ensures SafeInv(d)
  {
    var n, m := p.dst, p.msg;
    var s := c.nodes[n];
    var (s', reply) := HandleAppend(s, m);
    SentOne(n, p.src, reply);
    if m.term < s.term {
      StaleKeepsSafe(c, n, p.src);
    } else {
      assert SafePacket(c, p) && NodeOk(c, n, s);
      AppendParts(s, m);
      assert d.leaderLog == c.leaderLog;
      assert d.ballots == c.ballots by { StepDownOk(c, n, m.term); }
      FollowerKeepsSafe(c, d, p);
    }
  }

  /** A request of an old term is only rejected. */
  lemma StaleKeepsSafe(c: Cluster, n: NodeId, src: NodeId)
    requires Inv(c) && SafeInv(c) && n in c.nodes
    requires var s := c.nodes[n];
      var d := After(c, n, s, [(src, AppendReply(s.term, false, s.id, |s.log|))], {}); Inv(d) && Grows(c, d, n)
    ensures var s := c.nodes[n];
      SafeInv(After(c, n, s, [(src, AppendReply(s.term, false, s.id, |s.log|))], {}))
  {
    var s := c.nodes[n];
    var reply := AppendReply(s.term, false, s.id, |s.log|);
    var d := After(c, n, s, [(src, reply)], {});
    assert NodeOk(c, n, s) && SafeNode(c, n, s);
    CommitOkGrows(c, d, n, s.term, s.term, s.log, s.log, s.commitIndex);
    if s.role.Leader? { LeaderOkGrows(c, d, n, s); }
    SentOne(n, src, reply);
    PlainStep(c, n, s, [(src, reply)], {});
  }

  ghost predicate FollowerStep(c: Cluster, d: Cluster, p: Packet)
    requires p.dst in c.nodes && p.dst in d.nodes && p.msg.AppendEntries? && p.msg.prevLogIndex >= -1
  {
    var s, s', m := c.nodes[p.dst], d.nodes[p.dst], p.msg;
    var log := AppendedTo(s.log, m);
    && s.term <= m.term && SafePacket(c, p)
    && s'.log == log && s'.commitIndex == CommitAfter(s.commitIndex, s.log, m)
    && s'.term == m.term && s'.role.Follower?
    && d.net == c.net + {Packet(p.dst, p.src, AppendReply(m.term, Matches(s.log, m), p.dst, |log|))}
    && d.leaderLog == c.leaderLog && d.ballots == c.ballots && d.applied == c.applied
    && (Matches(s.log, m) ==> log <= c.leaderLog[m.term])
  }

  lemma FollowerKeepsSafe(c: Cluster, d: Cluster, p: Packet)
    requires Inv(c) && SafeInv(c) && p.dst in c.nodes && p.msg.AppendEntries? && p.msg.prevLogIndex >= -1
    requires Inv(d) && Grows(c, d, p.dst) && FollowerStep(c, d, p)
    ensures SafeInv(d)
  {
    var n, m := p.dst, p.msg;
    RootedNode(c, n);
    RootedLeader(c, m.term);
    AppendKeepsShared(c, c.nodes[n].log, m, c.leaderLog[m.term]);
    SharedKeepsAcked(c, d, p);
    AcksFromReplies(c, d, n);
    FollowerCommitSafe(c, d, p);
    StepKeepsSafe(c, d, n);
  }

  lemma SharedKeepsAcked(c: Cluster, d: Cluster, p: Packet)
    requires p.dst in c.nodes && p.dst in d.nodes && p.msg.term in c.leaderLog && d.nodes[p.dst].term == p.msg.term
    requires KeepsShared(c.nodes[p.dst].log, c.leaderLog[p.msg.term], d.nodes[p.dst].log)
    ensures KeepsAcked(c, d, p.dst)
  {
    var log, ref := c.nodes[p.dst].log, c.leaderLog[p.msg.term];
    forall t: nat, k: nat | Acked(c, t, p.dst, k) && t <= p.msg.term && Carried(c, t, k, p.msg.term)
        && c.leaderLog[t][..k] <= log
      ensures c.leaderLog[t][..k] <= d.nodes[p.dst].log
    {
      assert c.leaderLog[t][..k] <= ref;
      assert log[..k] == c.leaderLog[t][..k] == ref[..k];
    }
  }

  lemma FollowerCommitSafe(c: Cluster, d: Cluster, p: Packet)
    requires Inv(c) && SafeInv(c) && p.dst in c.nodes && p.msg.AppendEntries? && p.msg.prevLogIndex >= -1
    requires Grows(c, d, p.dst) && FollowerStep(c, d, p)
    requires KeepsShared(c.nodes[p.dst].log, c.leaderLog[p.msg.term], d.nodes[p.dst].log)
    ensures var s' := d.nodes[p.dst]; CommitOk(d, s'.term, s'.log, s'.commitIndex)
  {
    var n, m := p.dst, p.msg;
    var s, s' := c.nodes[n], d.nodes[n];
    var ref := c.leaderLog[m.term];
    if s'.commitIndex == s.commitIndex {
      if s.commitIndex >= 0 { OldCommitSafe(c, d, n, m.term, s.log, s'.log, s.commitIndex); }
    } else if s'.commitIndex >= 0 {
      NewCommitSafe(c, d, n, m.term, ref, s'.log, m.leaderCommit, s'.commitIndex);
    }
  }

  /** A follower whose log starts the leader's commits no further than the leader. */
  lemma NewCommitSafe(c: Cluster, d: Cluster, n: NodeId, u: nat, ref: Log, log: Log, bound: int, commit: nat)
    requires Grows(c, d, n) && c.net <= d.net && CommitOk(c, u, ref, bound)
    requires log <= ref && commit <= bound && commit < |log|
    ensures CommitOk(d, u, log, commit)
  {
    CommitOkGrows(c, d, n, u, u, ref, ref, bound);
    var longer, shorter := ref[..bound + 1], log[..commit + 1];
    assert shorter <= longer;
    BackedPrefix(d, u, longer, shorter);
  }

  lemma OldCommitSafe(c: Cluster, d: Cluster, n: NodeId, u: nat, log: Log, log': Log, commit: nat)
    requires Inv(c) && SafeInv(c) && Grows(c, d, n) && c.net <= d.net && u in c.leaderLog
    requires log == c.nodes[n].log && commit == c.nodes[n].commitIndex && c.nodes[n].term <= u
    requires KeepsShared(log, c.leaderLog[u], log')
    ensures CommitOk(d, u, log', commit)
  {
    var s := c.nodes[n];
    assert SafeNode(c, n, s);
    var prefix := log[..commit + 1];
    BackedLater(c, s.term, u, prefix);
    BackedOnLeader(c, u, prefix);
    assert c.leaderLog[u][..commit + 1] == prefix;
    CommitOkGrows(c, d, n, s.term, u, log, log', commit);
  }

  lemma BackedPrefix(d: Cluster, u: nat, longer: Log, shorter: Log)
    requires Backed(d, u, longer) && shorter <= longer
    ensures Backed(d, u, shorter)
  {
    var t: nat, i: nat :| t <= u && BackedBy(d, t, i, longer);
    assert BackedBy(d, t, i, shorter);
  }

  lemma DeliverKeepsSafe(c: Cluster, p: Packet)
    requires Inv(c) && SafeInv(c) && Enabled(c, Deliver(p)) && Clean(c, Deliver(p))
    ensures SafeInv(Next(c, Deliver(p)))
  {
    NextIsAfter(c, Deliver(p));
    var d := Next(c, Deliver(p));
    match p.msg {
      case RequestVote(_, _, _, _) => RequestVoteKeepsSafe(c, p, d);
      case VoteReply(_, _, _) => VoteReplyKeepsSafe(c, p, d);
      case AppendEntries(_, _, _, _, _, _) => AppendKeepsSafe(c, p, d);
      case AppendReply(_, _, _, _) => AppendReplyKeepsSafe(c, p, d);
    }
  }

  lemma NextKeepsSafe(c: Cluster, step: Step)
    requires Inv(c) && SafeInv(c) && Clean(c, step)
    ensures SafeInv(Next(c, step))
  {
    if Enabled(c, step) {
      if step.Deliver? { DeliverKeepsSafe(c, step.packet); } else { TimersKeepSafe(c, step); }
    }
  }

  lemma {:induction false} CleanRunSafe(states: seq<Cluster>, steps: seq<Step>, i: nat)
    requires IsRun(states, steps) && i < |states| && CleanUpTo(states, steps, i)
    ensures Inv(states[i]) && SafeInv(states[i])
  {
    RunKeepsInv(states, steps, i);
    if i > 0 {
      CleanRunSafe(states, steps, i - 1);
      assert Follows(states, steps, i - 1) && Clean(states[i - 1], steps[i - 1]);
      NextKeepsSafe(states[i - 1], steps[i - 1]);
    }
  }

  // ---------------------------------------------------------------- results

  /** State machine safety: in a clean run no two nodes ever apply different commands at one index. */
  lemma StateMachineSafety(states: seq<Cluster>, steps: seq<Step>, j: nat, a: Applied, b: Applied)
    requires IsCleanRun(states, steps) && j < |states|
    requires a in states[j].applied && b in states[j].applied && a.index == b.index
    ensures a.command == b.command
  {
    var d := states[j];
    CleanRunSafe(states, steps, j);
    assert AppliedOk(d, a) && AppliedOk(d, b);
    var t: nat, i: nat :| a.index <= i && Committed(d, t, i) && d.leaderLog[t][a.index].command == a.command;
    var u: nat, k: nat :| b.index <= k && Committed(d, u, k) && d.leaderLog[u][b.index].command == b.command;
    CommittedAgree(d, t, i, u, k, a.index);
  }

  /** In a clean run, whatever a node counts as committed is on the log of every node that
      leads its term or a later one, then or afterwards. */
  lemma CommittedStays(states: seq<Cluster>, steps: seq<Step>, i: nat, j: nat, n: NodeId, l: NodeId)
    requires IsCleanRun(states, steps) && i <= j < |states|
    requires n in states[i].nodes && l in states[j].nodes
    requires states[j].nodes[l].role.Leader? && states[j].nodes[l].term >= states[i].nodes[n].term
    requires states[i].nodes[n].commitIndex >= 0
    ensures var k := states[i].nodes[n].commitIndex + 1;
      k <= |states[i].nodes[n].log| && states[i].nodes[n].log[..k] <= states[j].nodes[l].log
  {
    var s, b := states[i].nodes[n], states[j];
    CleanRunSafe(states, steps, i);
    CleanRunSafe(states, steps, j);
    assert SafeNode(states[i], n, s);
    var prefix := s.log[..s.commitIndex + 1];
    BackedAlong(states, steps, i, j, s.term, prefix);
    LeaderIsElected(b, l, b.nodes[l].term);
    BackedLater(b, s.term, b.nodes[l].term, prefix);
    BackedOnLeader(b, b.nodes[l].term, prefix);
  }

  lemma BackedLater(c: Cluster, u: nat, u': nat, prefix: Log)
    requires Backed(c, u, prefix) && u <= u'
    ensures Backed(c, u', prefix)
  {
    var t: nat, i: nat :| t <= u && BackedBy(c, t, i, prefix);
    assert t <= u' && BackedBy(c, t, i, prefix);
  }

  lemma {:induction false} BackedAlong(states: seq<Cluster>, steps: seq<Step>, i: nat, j: nat, u: nat, prefix: Log)
    requires IsRun(states, steps) && i <= j < |states| && Backed(states[i], u, prefix)
    ensures Backed(states[j], u, prefix)
    decreases j - i
  {
    if i < j {
      BackedAlong(states, steps, i, j - 1, u, prefix);
      RunKeepsInv(states, steps, j - 1);
      BackedNext(states[j - 1], steps[j - 1], u, prefix);
      assert Follows(states, steps, j - 1);
    }
  }

  lemma BackedNext(c: Cluster, step: Step, u: nat, prefix: Log)
    requires Inv(c) && Backed(c, u, prefix)
    ensures Backed(Next(c, step), u, prefix)
  {
    if Enabled(c, step) {
      NextIsAfter(c, step);
      BackedGrows(c, Next(c, step), StepNode(step), u, u, prefix);
    }
  }

  // ---------------------------------------------------------------- the conditions themselves

  /** In every run, the log behind a success reply is on the leader's log exactly when it is no
      longer than that log and agrees with it on the term of its own last entry. */
  lemma TruthfulWhen(c: Cluster, p: Packet)
    requires Inv(c) && p in c.net && p.dst in c.nodes && p.msg.AppendEntries? && p.msg.prevLogIndex >= -1
    requires HandleAppend(c.nodes[p.dst], p.msg).1.success
    ensures p.msg.term in c.leaderLog
    ensures var log, ref := HandleAppend(c.nodes[p.dst], p.msg).0.log, c.leaderLog[p.msg.term];
      Truthful(c, p) <==> (log == [] || (|log| <= |ref| && ref[|log| - 1].term == LastTerm(log)))
  {
    assert PacketOk(c, p);
    var log, ref := HandleAppend(c.nodes[p.dst], p.msg).0.log, c.leaderLog[p.msg.term];
    if log != [] && |log| <= |ref| && ref[|log| - 1].term == LastTerm(log) {
      AppendKeepsInv(c, p);
      var r := HandleAppend(c.nodes[p.dst], p.msg);
      var d := Install(c, p.dst, r.0, [(p.src, r.1)]);
      assert d.leaderLog == c.leaderLog;
      assert NodeOk(d, p.dst, r.0);
      assert ElectionOk(c, p.msg.term, c.elections[p.msg.term]);
      AgreeingTerms(c.leaderLog, log, ref, |log| - 1);
      assert log[..|log|] == log;
    }
  }

  /** Two things a follower can see for itself before it answers: the reply's hint is exactly
      the end of the request's stretch, or its log already ends in the leader's term. */
  predicate FollowerGuard(n: Node, m: Message)
    requires m.AppendEntries? && m.prevLogIndex >= -1
  {
    var log := HandleAppend(n, m).0.log;
    |log| == m.prevLogIndex + 1 + |m.entries| || LastTerm(log) == m.term
  }

  lemma GuardIsTruthful(c: Cluster, p: Packet)
    requires Inv(c) && p in c.net && p.dst in c.nodes && p.msg.AppendEntries? && p.msg.prevLogIndex >= -1
    requires p.msg.term in c.leaderLog && Genuine(p.msg, c.leaderLog[p.msg.term])
    requires FollowerGuard(c.nodes[p.dst], p.msg)
    ensures Truthful(c, p)
  {
    RootedNode(c, p.dst);
    RootedLeader(c, p.msg.term);
    GuardedReply(c, c.nodes[p.dst], p.msg, c.leaderLog[p.msg.term]);
  }

  lemma GuardedReply(c: Cluster, n: Node, m: Message, ref: Log)
    requires m.AppendEntries? && m.prevLogIndex >= -1 && Genuine(m, ref) && FollowerGuard(n, m)
    requires Rooted(c.leaderLog, n.log) && Rooted(c.leaderLog, ref) && m.term in c.leaderLog
             && ref == c.leaderLog[m.term]
    ensures HandleAppend(n, m).1.success ==> HandleAppend(n, m).0.log <= ref
  {
    assert StepDown(n, m.term).log == n.log;
    if HandleAppend(n, m).1.success {
      assert HandleAppend(n, m).0.log == AppendedTo(n.log, m);
      GuardedLog(c, n.log, m, ref);
    }
  }

  lemma GuardedLog(c: Cluster, log: Log, m: Message, ref: Log)
    requires m.AppendEntries? && m.prevLogIndex >= -1 && Genuine(m, ref) && Matches(log, m)
    requires Rooted(c.leaderLog, log) && Rooted(c.leaderLog, ref) && m.term in c.leaderLog && ref == c.leaderLog[m.term]
    requires var l := AppendedTo(log, m); |l| == m.prevLogIndex + 1 + |m.entries| || LastTerm(l) == m.term
    ensures AppendedTo(log, m) <= ref
  {
    GenuineMerge(c, log, m, ref);
    var l := AppendedTo(log, m);
    if |l| != m.prevLogIndex + 1 + |m.entries| {
      var last := |l| - 1;
      assert RootedAt(c.leaderLog, log, last);
      assert l[..last + 1] == l;
    }
  }

  /** The same conditions as the two replicas concerned can check them. */
  predicate Guarded(c: Cluster, step: Step) {
    Enabled(c, step) && step.Deliver? ==>
      var n, m := c.nodes[step.packet.dst], step.packet.msg;
      && (m.AppendEntries? && HandleAppend(n, m).1.success ==> FollowerGuard(n, m))
      && (m.AppendReply? && n.role.Leader? && m.term == n.term && !m.success ==> m.matchLengthHint <= |n.log|)
  }

  lemma GuardedIsClean(c: Cluster, step: Step)
    requires Inv(c) && SafeInv(c) && Guarded(c, step)
    ensures Clean(c, step)
  {
    if Enabled(c, step) && step.Deliver? && step.packet.msg.AppendEntries? {
      var p := step.packet;
      assert SafePacket(c, p);
      if HandleAppend(c.nodes[p.dst], p.msg).1.success { GuardIsTruthful(c, p); }
    }
  }

  /** A run in which every replica keeps to its guard is clean, so all results above apply. */
  lemma {:induction false} GuardedRunIsClean(states: seq<Cluster>, steps: seq<Step>, k: nat)
    requires IsRun(states, steps) && k <= |steps|
    requires forall i :: 0 <= i < k ==> Guarded(states[i], steps[i])
    ensures CleanUpTo(states, steps, k)
  {
    if k > 0 {
      GuardedRunIsClean(states, steps, k - 1);
      CleanRunSafe(states, steps, k - 1);
      GuardedIsClean(states[k - 1], steps[k - 1]);
    }
  }

  /** Why the second condition is there: a request sent for an index its leader did not have
      cuts a follower's log at that index whatever the log holds. The follower keeps what it
      shares with the leader exactly when it shares no entry at that index. */
  lemma BlankCuts(log: Log, m: Message, ref: Log)
    requires m.AppendEntries? && Blank(m)
    requires forall i :: 0 <= i < |log| ==> log[i].term >= 1
    ensures var at := m.prevLogIndex;
      KeepsShared(log, ref, AppendedTo(log, m)) <==>
        !(at < |log| && at < |ref| && log[..at + 1] == ref[..at + 1])
  {
    var at := m.prevLogIndex;
    if at < |log| {
      assert AppendedTo(log, m) == log[..at];
      forall k: nat | k <= |log| && k <= |ref| && log[..k] == ref[..k]
        ensures k <= at || (at < |ref| && log[..at + 1] == ref[..at + 1])
      {
        if k > at { assert log[..at + 1] == log[..k][..at + 1] == ref[..k][..at + 1] == ref[..at + 1]; }
      }
    } else {
      assert AppendedTo(log, m) == log;
    }
  }

  /** Every initial cluster is a clean run by itself. */
  lemma InitialRunIsClean(c: Cluster)
    requires Initial(c)
    ensures IsCleanRun([c], [])
  {
  }
}
