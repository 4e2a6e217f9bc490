/** Runs of three replicas in which the code as it is applies two different commands at index 0:
    one for each side condition of RaftCommit, broken while the other holds throughout. */
module RaftWitness {
  import opened Wrappers
  import opened RaftCore
  import opened RaftCluster
  import opened RaftCommit

  const A: NodeId := "a"
  const B: NodeId := "b"
  const C: NodeId := "c"

  /** The side condition a run keeps. */
  datatype Side = TruthfulReplies | HintsWithinLog

  ghost predicate Meets(side: Side, c: Cluster, step: Step) {
    Enabled(c, step) && step.Deliver? ==>
      if side.TruthfulReplies? then step.packet.msg.AppendEntries? ==> Truthful(c, step.packet)
      else step.packet.msg.AppendReply? ==> HintWithinLog(c.nodes[step.packet.dst], step.packet.msg)
  }

  ghost predicate Reachable(side: Side, c: Cluster) {
    exists states: seq<Cluster>, steps: seq<Step> :: EndsIn(side, states, steps, c)
  }

  ghost predicate EndsIn(side: Side, states: seq<Cluster>, steps: seq<Step>, c: Cluster) {
    && IsRun(states, steps) && states[|steps|] == c
    && forall i {:trigger Meets(side, states[i], steps[i])} :: 0 <= i < |steps| ==> Meets(side, states[i], steps[i])
  }

  function Start(): Cluster {
    Cluster({A, B, C}, map[A := Fresh(A, [B, C]), B := Fresh(B, [A, C]), C := Fresh(C, [A, B])],
            {}, map[], map[], map[], {})
  }

  lemma StartInitial()
    ensures Initial(Start())
  {
    var c := Start();
    assert A != B && A != C && B != C;
    assert c.nodes.Keys == c.members;
    TwoPeers(A, B, C, c.members);
    TwoPeers(B, A, C, c.members);
    TwoPeers(C, A, B, c.members);
    forall n | n in c.nodes
      ensures PeersOf(c.nodes[n].peers, n, c.members) && c.nodes[n] == Fresh(n, c.nodes[n].peers)
    {
      assert n == A || n == B || n == C;
    }
  }

  /** So clean runs exist. */
  lemma StartIsClean()
    ensures IsCleanRun([Start()], [])
  {
    StartInitial();
    InitialRunIsClean(Start());
  }

  lemma TwoPeers(n: NodeId, p: NodeId, q: NodeId, members: set<NodeId>)
    requires members == {n, p, q} && n != p && n != q && p != q
    ensures PeersOf([p, q], n, members)
  {
  }

  lemma StartReachable(side: Side)
    ensures Reachable(side, Start())
  {
    StartInitial();
    assert EndsIn(side, [Start()], [], Start());
  }

  /** Take an enabled step: what it does to the stepping replica and to the network. */
  lemma Go(side: Side, c: Cluster, step: Step) returns (d: Cluster)
    requires Reachable(side, c) && Enabled(c, step) && Meets(side, c, step)
    ensures Reachable(side, d)
    ensures var n := StepNode(step); var r := Local(c.nodes[n], step);
      && d.nodes == c.nodes[n := r.0] && c.net <= d.net && c.applied <= d.applied
      && d.leaderLog == (if r.0.role.Leader? then c.leaderLog[r.0.term := r.0.log] else c.leaderLog)
      && Applies(c.nodes[n], step) <= d.applied
      && (|r.1| > 0 ==> Packet(n, r.1[0].0, r.1[0].1) in d.net)
      && (|r.1| > 1 ==> Packet(n, r.1[1].0, r.1[1].1) in d.net)
  {
    d := Next(c, step);
    var states, steps :| EndsIn(side, states, steps, c);
    var states', steps' := states + [d], steps + [step];
    forall i | 0 <= i < |steps'| ensures Follows(states', steps', i) {
      if i < |steps| { assert Follows(states, steps, i); }
    }
    forall i | 0 <= i < |steps'| ensures Meets(side, states'[i], steps'[i]) {
      if i < |steps| { assert Meets(side, states[i], steps[i]); }
    }
    assert EndsIn(side, states', steps', d);
  }

  /** What the run below needs to know about a replica. */
  ghost predicate Is(n: Node, id: NodeId, peers: seq<NodeId>, term: nat, log: Log, commit: int, role: Role) {
    && n.id == id && n.peers == peers && n.term == term && n.log == log && n.commitIndex == commit
    && n.lastApplied == -1 && n.role == role
  }

  ghost predicate Trio(c: Cluster) {
    && c.nodes.Keys == {A, B, C}
    && c.nodes[A].peers == [B, C] && c.nodes[B].peers == [A, C] && c.nodes[C].peers == [A, B]
  }

  /** A candidate and the voter that will elect it. */
  ghost predicate MayWin(c: Cluster, n: NodeId, other: NodeId, v: NodeId, vpeers: seq<NodeId>, t: nat, log: Log) {
    && n in c.nodes && v in c.nodes && n != v && other != v && n != other
    && c.nodes[n].peers == [other, v] && c.nodes[v].peers == vpeers
    && c.nodes[n].id == n && c.nodes[n].term == t && c.nodes[n].log == log && !c.nodes[n].role.Leader?
    && c.nodes[n].commitIndex == -1 && c.nodes[n].lastApplied == -1
    && c.nodes[v].id == v && c.nodes[v].log == [] && c.nodes[v].term <= t
    && c.nodes[v].commitIndex == -1 && c.nodes[v].lastApplied == -1
  }

  /** `n` times out and `v`, whose log is empty and whose term is no later, elects it. */
  lemma Win(side: Side, c: Cluster, n: NodeId, other: NodeId, v: NodeId, vpeers: seq<NodeId>, t: nat, log: Log)
    returns (d: Cluster)
    requires Reachable(side, c) && MayWin(c, n, other, v, vpeers, t, log)
    ensures Reachable(side, d) && c.applied <= d.applied && c.net <= d.net && n in d.nodes && v in d.nodes
    ensures d.nodes == c.nodes[v := d.nodes[v]][n := d.nodes[n]]
    ensures d.leaderLog == c.leaderLog[t + 1 := log]
    ensures Is(d.nodes[n], n, [other, v], t + 1, log, -1, Leader)
    ensures Is(d.nodes[v], v, vpeers, t + 1, [], -1, Follower)
    ensures d.nodes[n].matchIndex == map[other := -1, v := -1]
    ensures d.nodes[n].nextIndex == map[other := |log|, v := |log|]
    ensures var beat := AppendEntries(t + 1, n, |log| - 1, LastTerm(log), [], -1);
      Packet(n, other, beat) in d.net && Packet(n, v, beat) in d.net
    ensures Packet(n, other, RequestVote(t + 1, n, |log| - 1, LastTerm(log))) in d.net
  {
    var yes := VoteReply(t + 1, true, v);
    d := AskVoter(side, c, n, other, v, vpeers, t, log);
    Elected(d.nodes[n], n, other, v, t + 1, log, yes);
    assert HandleVoteReply(d.nodes[n], yes) == Local(d.nodes[n], Deliver(Packet(v, n, yes)));
    d := Go(side, d, Deliver(Packet(v, n, yes)));
  }

  lemma AskVoter(side: Side, c: Cluster, n: NodeId, other: NodeId, v: NodeId, vpeers: seq<NodeId>, t: nat, log: Log)
    returns (d: Cluster)
    requires Reachable(side, c) && MayWin(c, n, other, v, vpeers, t, log)
    ensures Reachable(side, d) && c.applied <= d.applied && c.net <= d.net && n in d.nodes && v in d.nodes
    ensures d.nodes == c.nodes[v := d.nodes[v]][n := d.nodes[n]] && d.leaderLog == c.leaderLog
    ensures Is(d.nodes[n], n, [other, v], t + 1, log, -1, Candidate) && d.nodes[n].votes == {n}
    ensures Is(d.nodes[v], v, vpeers, t + 1, [], -1, Follower)
    ensures Packet(v, n, VoteReply(t + 1, true, v)) in d.net
    ensures Packet(n, other, RequestVote(t + 1, n, |log| - 1, LastTerm(log))) in d.net
  {
    var ask := RequestVote(t + 1, n, |log| - 1, LastTerm(log));
    assert OnElectionTimeout(c.nodes[n]).1[0] == (other, ask) && OnElectionTimeout(c.nodes[n]).1[1] == (v, ask);
    d := Go(side, c, Timeout(n));
    d := Go(side, d, Deliver(Packet(n, v, ask)));
  }

  lemma Elected(s: Node, n: NodeId, other: NodeId, v: NodeId, t: nat, log: Log, yes: Message)
    requires s.id == n && s.term == t && s.log == log && s.role.Candidate? && s.commitIndex == -1 && n != v
    requires s.peers == [other, v] && s.votes == {n} && yes == VoteReply(t, true, v) && other != v
    ensures var (s', out) := HandleVoteReply(s, yes);
      var beat := AppendEntries(t, n, |log| - 1, LastTerm(log), [], -1);
      && s' == BecomeLeader(s.(votes := {n, v})) && s'.matchIndex == map[other := -1, v := -1]
      && s'.nextIndex == map[other := |log|, v := |log|]
      && |out| == 2 && out[0] == (other, beat) && out[1] == (v, beat)
  {
    assert s.votes + {v} == {n, v};
    assert |{n, v}| == 2;
  }

  // ---------------------------------------------------------------- an untruthful reply

  // Follower B answers an empty heartbeat with the length of a log the leader never saw, and
  // leader A counts that as a copy of its own entry. All rejection hints stay within the
  // leader's log.

  /** B wins term 1 with C's vote and appends x, which it sends to nobody. */
  lemma BLeadsTermOne(x: Command) returns (c: Cluster)
    ensures Reachable(HintsWithinLog, c) && Trio(c)
    ensures Is(c.nodes[A], A, [B, C], 0, [], -1, Follower)
    ensures Is(c.nodes[B], B, [A, C], 1, [Entry(1, x)], -1, Leader)
    ensures Is(c.nodes[C], C, [A, B], 1, [], -1, Follower)
  {
    StartReachable(HintsWithinLog);
    assert Start().nodes.Keys == {A, B, C};
    c := Win(HintsWithinLog, Start(), B, A, C, [A, B], 0, []);
    c := Go(HintsWithinLog, c, ClientPropose(B, x));
  }

  /** A wins term 2 with C's vote and an empty log. */
  lemma ALeadsTermTwo(x: Command) returns (c: Cluster)
    ensures Reachable(HintsWithinLog, c) && Trio(c)
    ensures Is(c.nodes[A], A, [B, C], 2, [], -1, Leader)
    ensures Is(c.nodes[B], B, [A, C], 1, [Entry(1, x)], -1, Leader)
    ensures Is(c.nodes[C], C, [A, B], 2, [], -1, Follower)
    ensures c.nodes[A].matchIndex == map[B := -1, C := -1]
    ensures Packet(A, B, AppendEntries(2, A, -1, 0, [], -1)) in c.net
    ensures Packet(A, C, AppendEntries(2, A, -1, 0, [], -1)) in c.net
  {
    c := BLeadsTermOne(x);
    c := Go(HintsWithinLog, c, Timeout(A));
    c := Win(HintsWithinLog, c, A, B, C, [A, B], 1, []);
  }

  /** B answers the empty heartbeat with the length of its own log. */
  lemma HeartbeatsAnswered(x: Command) returns (c: Cluster)
    ensures Reachable(HintsWithinLog, c) && Trio(c)
    ensures Is(c.nodes[A], A, [B, C], 2, [], -1, Leader)
    ensures Is(c.nodes[B], B, [A, C], 2, [Entry(1, x)], -1, Follower)
    ensures Is(c.nodes[C], C, [A, B], 2, [], -1, Follower)
    ensures c.nodes[A].matchIndex == map[B := -1, C := -1]
    ensures Packet(B, A, AppendReply(2, true, B, 1)) in c.net
    ensures Packet(C, A, AppendReply(2, true, C, 0)) in c.net
  {
    c := ALeadsTermTwo(x);
    var beat := AppendEntries(2, A, -1, 0, [], -1);
    AppendParts(c.nodes[B], beat);
    AppendParts(c.nodes[C], beat);
    c := Go(HintsWithinLog, c, Deliver(Packet(A, B, beat)));
    c := Go(HintsWithinLog, c, Deliver(Packet(A, C, beat)));
  }

  /** A has counted B's reply when it appends y; C's reply then makes it commit y. */
  lemma ACommitsY(x: Command, y: Command) returns (c: Cluster)
    ensures Reachable(HintsWithinLog, c) && Trio(c)
    ensures Is(c.nodes[A], A, [B, C], 2, [Entry(2, y)], 0, Leader)
    ensures Is(c.nodes[B], B, [A, C], 2, [Entry(1, x)], -1, Follower)
    ensures Is(c.nodes[C], C, [A, B], 2, [], -1, Follower)
  {
    c := HeartbeatsAnswered(x);
    c := Go(HintsWithinLog, c, Deliver(Packet(B, A, AppendReply(2, true, B, 1))));
    c := Go(HintsWithinLog, c, ClientPropose(A, y));
    var a := c.nodes[A];
    var a1 := a.(nextIndex := a.nextIndex[C := 0], matchIndex := a.matchIndex[C := -1]);
    assert MatchCount(a1, [B, C][1..], 0) == 0 by { assert [B, C][1..] == [C]; }
    assert CanCommit(a1, 0);
    c := Go(HintsWithinLog, c, Deliver(Packet(C, A, AppendReply(2, true, C, 0))));
  }

  /** A applies y although no other replica holds it. */
  lemma AAppliesY(x: Command, y: Command) returns (c: Cluster)
    ensures Reachable(HintsWithinLog, c) && Trio(c)
    ensures Is(c.nodes[B], B, [A, C], 2, [Entry(1, x)], -1, Follower)
    ensures Is(c.nodes[C], C, [A, B], 2, [], -1, Follower)
    ensures Applied(A, 0, y) in c.applied
  {
    c := ACommitsY(x, y);
    var a := c.nodes[A];
    assert NewlyCommitted(a) == [Entry(2, y)];
    assert Applied(A, 0 + 0, NewlyCommitted(a)[0].command) in Applies(a, Apply(A));
    c := Go(HintsWithinLog, c, Apply(A));
  }

  /** B wins term 3 with C's vote and appends z. */
  lemma BLeadsTermThree(x: Command, y: Command, z: Command) returns (c: Cluster)
    ensures Reachable(HintsWithinLog, c) && Trio(c)
    ensures Is(c.nodes[B], B, [A, C], 3, [Entry(1, x), Entry(3, z)], -1, Leader)
    ensures Is(c.nodes[C], C, [A, B], 3, [], -1, Follower)
    ensures c.nodes[B].matchIndex == map[A := -1, C := -1]
    ensures Packet(B, C, AppendEntries(3, B, 0, 1, [], -1)) in c.net
    ensures Applied(A, 0, y) in c.applied
  {
    c := AAppliesY(x, y);
    c := Win(HintsWithinLog, c, B, A, C, [A, B], 2, [Entry(1, x)]);
    c := Go(HintsWithinLog, c, ClientPropose(B, z));
  }

  lemma MergeTwo(e: Entry, f: Entry)
    ensures Merge([], 0, [e, f]) == [e, f]
  {
    assert [e, f][1..] == [f] && MergeOne([], 0, e) == [e];
    assert [f][1..] == [] && MergeOne([e], 1, f) == [e, f];
    assert Merge([e], 1, [f]) == Merge([e, f], 2, []);
  }

  /** State machine safety fails as coded, although every rejection hint stays within the
      leader's log: A has applied y and B has applied x at index 0. */
  lemma DifferentCommandsApplied(x: Command, y: Command)
    ensures exists c :: Reachable(HintsWithinLog, c) && Applied(A, 0, y) in c.applied && Applied(B, 0, x) in c.applied
  {
    var z := x;
    var c := BLeadsTermThree(x, y, z);
    c := Go(HintsWithinLog, c, Deliver(Packet(B, C, AppendEntries(3, B, 0, 1, [], -1))));
    var no := AppendReply(3, false, C, 0);
    assert Packet(C, B, no) in c.net;
    c := Go(HintsWithinLog, c, Deliver(Packet(C, B, no)));
    var two := [Entry(1, x), Entry(3, z)];
    assert two[0..] == two;
    var all := AppendEntries(3, B, -1, 0, two, -1);
    assert Packet(B, C, all) in c.net;
    assert Merge([], 0, two) == two by { MergeTwo(two[0], two[1]); }
    c := Go(HintsWithinLog, c, Deliver(Packet(B, C, all)));
    assert c.nodes[C].log == two;
    var done := AppendReply(3, true, C, 2);
    assert Packet(C, B, done) in c.net;
    var b := c.nodes[B];
    c := Go(HintsWithinLog, c, Deliver(Packet(C, B, done)));
    var b1 := b.(nextIndex := b.nextIndex[C := 2], matchIndex := b.matchIndex[C := 1]);
    assert MatchCount(b1, [A, C][1..], 1) == 1 by { assert [A, C][1..] == [C]; }
    assert CanCommit(b1, 1);
    assert c.nodes[B].commitIndex == 1;
    b := c.nodes[B];
    c := Go(HintsWithinLog, c, Apply(B));
    assert NewlyCommitted(b) == b.log;
    assert Applied(B, 0 + 0, NewlyCommitted(b)[0].command) in Applies(b, Apply(B));
  }

  // ---------------------------------------------------------------- a hint beyond the leader's log

  // Every success reply is truthful, but leader A takes B's rejection hint beyond its own log
  // and asks for an index it does not have. The request cuts B's log, and cuts it again when it
  // is delivered a second time, after B has acknowledged A's committed entry.

  /** A led term 1, and its heartbeat to B is still under way; B leads term 2 with two entries
      it has sent to nobody. */
  lemma TwoOldTerms(x: Command) returns (c: Cluster)
    ensures Reachable(TruthfulReplies, c) && Trio(c)
    ensures Is(c.nodes[A], A, [B, C], 1, [], -1, Leader)
    ensures Is(c.nodes[B], B, [A, C], 2, [Entry(2, x), Entry(2, x)], -1, Leader)
    ensures Is(c.nodes[C], C, [A, B], 2, [], -1, Follower)
    ensures Packet(A, B, AppendEntries(1, A, -1, 0, [], -1)) in c.net
    ensures Packet(B, A, AppendEntries(2, B, -1, 0, [], -1)) in c.net && 2 in c.leaderLog
  {
    StartReachable(TruthfulReplies);
    assert Start().nodes.Keys == {A, B, C};
    c := Win(TruthfulReplies, Start(), A, B, C, [A, B], 0, []);
    c := Go(TruthfulReplies, c, Timeout(B));
    c := Win(TruthfulReplies, c, B, A, C, [A, B], 1, []);
    c := BProposesTwice(c, x);
  }

  lemma BProposesTwice(c: Cluster, x: Command) returns (d: Cluster)
    requires Reachable(TruthfulReplies, c) && B in c.nodes && Is(c.nodes[B], B, [A, C], 2, [], -1, Leader)
    ensures Reachable(TruthfulReplies, d) && c.net <= d.net && B in d.nodes && d.nodes == c.nodes[B := d.nodes[B]]
            && 2 in d.leaderLog
    ensures Is(d.nodes[B], B, [A, C], 2, [Entry(2, x), Entry(2, x)], -1, Leader)
  {
    d := Go(TruthfulReplies, c, ClientPropose(B, x));
    d := Go(TruthfulReplies, d, ClientPropose(B, x));
  }

  /** A hears of term 2 and wins term 3 with C's vote; B is asked too and refuses. */
  lemma ALeadsTermThree(x: Command) returns (c: Cluster)
    ensures Reachable(TruthfulReplies, c) && Trio(c)
    ensures Is(c.nodes[A], A, [B, C], 3, [], -1, Leader) && c.nodes[A].matchIndex == map[B := -1, C := -1]
    ensures Is(c.nodes[B], B, [A, C], 3, [Entry(2, x), Entry(2, x)], -1, Follower)
    ensures Is(c.nodes[C], C, [A, B], 3, [], -1, Follower)
    ensures Packet(A, B, AppendEntries(1, A, -1, 0, [], -1)) in c.net
  {
    c := TwoOldTerms(x);
    var beat := AppendEntries(2, B, -1, 0, [], -1);
    AppendParts(c.nodes[A], beat);
    c := Go(TruthfulReplies, c, Deliver(Packet(B, A, beat)));
    c := Win(TruthfulReplies, c, A, B, C, [A, B], 2, []);
    c := Go(TruthfulReplies, c, Deliver(Packet(A, B, RequestVote(3, A, -1, 0))));
  }

  /** A rejected request and its reply: the leader asks again from the follower's hint. */
  lemma Reject(c: Cluster, m: Message, log: Log) returns (d: Cluster)
    requires Reachable(TruthfulReplies, c) && Trio(c) && Packet(A, B, m) in c.net && m.AppendEntries?
             && m.prevLogIndex >= -1
    requires Is(c.nodes[A], A, [B, C], 3, [], -1, Leader) && c.nodes[B].id == B && c.nodes[B].term == 3
    requires HandleAppend(c.nodes[B], m).1 == AppendReply(3, false, B, |log|)
             && HandleAppend(c.nodes[B], m).0.log == log
    requires c.nodes[B].commitIndex == -1 && c.nodes[B].lastApplied == -1 && c.nodes[B].peers == [A, C]
    requires HandleAppend(c.nodes[B], m).0.role.Follower?
    ensures Reachable(TruthfulReplies, d) && Trio(d) && c.net <= d.net && c.applied <= d.applied
    ensures Is(d.nodes[A], A, [B, C], 3, [], -1, Leader) && d.nodes[A].matchIndex == c.nodes[A].matchIndex
    ensures NextOf(d.nodes[A], B) == |log|
    ensures Is(d.nodes[B], B, [A, C], 3, log, -1, Follower) && d.nodes[C] == c.nodes[C]
    ensures Packet(A, B, AppendEntries(3, A, |log| - 1, 0, [], -1)) in d.net
  {
    var no := AppendReply(3, false, B, |log|);
    d := Go(TruthfulReplies, c, Deliver(Packet(A, B, m)));
    d := Go(TruthfulReplies, d, Deliver(Packet(B, A, no)));
  }

  /** A's requests for indexes 2 and 1, which it does not have, cut B's log down to nothing. */
  lemma BIsCut(x: Command) returns (c: Cluster)
    ensures Reachable(TruthfulReplies, c) && Trio(c)
    ensures Is(c.nodes[A], A, [B, C], 3, [], -1, Leader) && c.nodes[A].matchIndex == map[B := -1, C := -1]
    ensures NextOf(c.nodes[A], B) == 0
    ensures Is(c.nodes[B], B, [A, C], 3, [], -1, Follower)
    ensures Is(c.nodes[C], C, [A, B], 3, [], -1, Follower)
    ensures Packet(A, B, AppendEntries(3, A, 0, 0, [], -1)) in c.net
  {
    c := ALeadsTermThree(x);
    c := Reject(c, AppendEntries(1, A, -1, 0, [], -1), [Entry(2, x), Entry(2, x)]);
    var second := AppendEntries(3, A, 1, 0, [], -1);
    AppendParts(c.nodes[B], second);
    c := Reject(c, second, [Entry(2, x)]);
    var first := AppendEntries(3, A, 0, 0, [], -1);
    AppendParts(c.nodes[B], first);
    c := Reject(c, first, []);
  }

  lemma MergeNew(e: Entry)
    ensures Merge([], 0, [e]) == [e]
  {
    assert [e][1..] == [] && MergeOne([], 0, e) == [e];
    assert Merge([e], 1, []) == [e];
  }

  lemma CountTwo(n: Node, p: NodeId, q: NodeId, i: int)
    ensures MatchCount(n, [p, q], i) == (if MatchOf(n, p) >= i then 1 else 0) + (if MatchOf(n, q) >= i then 1 else 0)
  {
    assert [p, q][1..] == [q] && [q][1..] == [];
    assert MatchCount(n, [q], i) == if MatchOf(n, q) >= i then 1 else 0;
  }

  /** B acknowledges y truthfully, and A commits and applies it. */
  lemma AAppliesReplicated(x: Command, y: Command) returns (c: Cluster)
    ensures Reachable(TruthfulReplies, c) && Trio(c) && Applied(A, 0, y) in c.applied
    ensures Is(c.nodes[B], B, [A, C], 3, [Entry(3, y)], -1, Follower)
    ensures Is(c.nodes[C], C, [A, B], 3, [], -1, Follower)
    ensures Packet(A, B, AppendEntries(3, A, 0, 0, [], -1)) in c.net
  {
    c := AProposes(x, y);
    var a := c.nodes[A];
    var a1 := a.(nextIndex := a.nextIndex[B := 1], matchIndex := a.matchIndex[B := 0]);
    CountTwo(a1, B, C, 0);
    assert CanCommit(a1, 0);
    c := Go(TruthfulReplies, c, Deliver(Packet(B, A, AppendReply(3, true, B, 1))));
    assert c.nodes[A].commitIndex == 0;
    a := c.nodes[A];
    assert NewlyCommitted(a) == [Entry(3, y)];
    assert Applied(A, 0 + 0, NewlyCommitted(a)[0].command) in Applies(a, Apply(A));
    c := Go(TruthfulReplies, c, Apply(A));
  }

  lemma AProposes(x: Command, y: Command) returns (c: Cluster)
    ensures Reachable(TruthfulReplies, c) && Trio(c)
    ensures Is(c.nodes[A], A, [B, C], 3, [Entry(3, y)], -1, Leader) && c.nodes[A].matchIndex == map[B := -1, C := -1]
    ensures Is(c.nodes[B], B, [A, C], 3, [Entry(3, y)], -1, Follower)
    ensures Is(c.nodes[C], C, [A, B], 3, [], -1, Follower)
    ensures Packet(A, B, AppendEntries(3, A, 0, 0, [], -1)) in c.net
    ensures Packet(B, A, AppendReply(3, true, B, 1)) in c.net
  {
    c := BIsCut(x);
    c := Go(TruthfulReplies, c, ClientPropose(A, y));
    assert c.nodes[A].log[0..] == [Entry(3, y)];
    c := Go(TruthfulReplies, c, Heartbeat(A));
    c := BAccepts(c, A, Entry(3, y));
  }

  /** B, in the sender's term and with an empty log, takes its only entry. */
  lemma BAccepts(c: Cluster, l: NodeId, e: Entry) returns (d: Cluster)
    requires Reachable(TruthfulReplies, c) && B in c.nodes && l in c.nodes && l != B
    requires Is(c.nodes[B], B, [A, C], e.term, [], -1, Follower)
    requires Packet(l, B, AppendEntries(e.term, l, -1, 0, [e], -1)) in c.net
    requires e.term in c.leaderLog && c.leaderLog[e.term] == [e]
    ensures Reachable(TruthfulReplies, d) && c.applied <= d.applied && c.net <= d.net
    ensures B in d.nodes && d.nodes == c.nodes[B := d.nodes[B]] && Is(d.nodes[B], B, [A, C], e.term, [e], -1, Follower)
    ensures Packet(B, l, AppendReply(e.term, true, B, 1)) in d.net
  {
    var all := AppendEntries(e.term, l, -1, 0, [e], -1);
    MergeNew(e);
    AppendParts(c.nodes[B], all);
    d := Go(TruthfulReplies, c, Deliver(Packet(l, B, all)));
  }

  /** The old request for index 1 arrives again and cuts y from B, which then elects C. */
  lemma CLeadsTermFour(x: Command, y: Command) returns (c: Cluster)
    ensures Reachable(TruthfulReplies, c) && Trio(c) && Applied(A, 0, y) in c.applied
    ensures Is(c.nodes[B], B, [A, C], 4, [], -1, Follower)
    ensures Is(c.nodes[C], C, [A, B], 4, [], -1, Leader)
    ensures c.nodes[C].matchIndex == map[A := -1, B := -1] && NextOf(c.nodes[C], B) == 0
  {
    c := AAppliesReplicated(x, y);
    var first := AppendEntries(3, A, 0, 0, [], -1);
    AppendParts(c.nodes[B], first);
    c := Go(TruthfulReplies, c, Deliver(Packet(A, B, first)));
    c := Win(TruthfulReplies, c, C, A, B, [A, C], 3, []);
  }

  lemma CProposes(x: Command, y: Command, w: Command) returns (c: Cluster)
    ensures Reachable(TruthfulReplies, c) && Trio(c) && Applied(A, 0, y) in c.applied
    ensures Is(c.nodes[C], C, [A, B], 4, [Entry(4, w)], -1, Leader) && c.nodes[C].matchIndex == map[A := -1, B := -1]
    ensures Packet(B, C, AppendReply(4, true, B, 1)) in c.net
  {
    c := CLeadsTermFour(x, y);
    c := Go(TruthfulReplies, c, ClientPropose(C, w));
    assert c.nodes[C].log[0..] == [Entry(4, w)];
    c := Go(TruthfulReplies, c, Heartbeat(C));
    c := BAccepts(c, C, Entry(4, w));
  }

  /** State machine safety fails although every success reply is truthful: A has applied y and
      C has applied w at index 0. */
  lemma DifferentDespiteTruth(y: Command, w: Command)
    ensures exists c :: Reachable(TruthfulReplies, c) && Applied(A, 0, y) in c.applied && Applied(C, 0, w) in c.applied
  {
    var c := CProposes(w, y, w);
    var s := c.nodes[C];
    var s1 := s.(nextIndex := s.nextIndex[B := 1], matchIndex := s.matchIndex[B := 0]);
    CountTwo(s1, A, B, 0);
    assert CanCommit(s1, 0);
    c := Go(TruthfulReplies, c, Deliver(Packet(B, C, AppendReply(4, true, B, 1))));
    assert c.nodes[C].commitIndex == 0;
    s := c.nodes[C];
    assert NewlyCommitted(s) == [Entry(4, w)];
    assert Applied(C, 0 + 0, NewlyCommitted(s)[0].command) in Applies(s, Apply(C));
    c := Go(TruthfulReplies, c, Apply(C));
  }
}
