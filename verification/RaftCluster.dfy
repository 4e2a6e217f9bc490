/** A cluster of Raft replicas over a network that may lose, duplicate, delay and reorder:
    the network is the set of all packets ever sent, and delivering one does not remove it.

    Beside the replicas the state carries history that no replica reads: every ballot cast,
    the electors of every term's leader, that leader's log, and every command applied.
 */
module RaftCluster {
  import opened Wrappers
  import opened RaftCore

  datatype Packet = Packet(src: NodeId, dst: NodeId, msg: Message)

  /** `voter`'s vote in `term`. */
  datatype VoteKey = VoteKey(voter: NodeId, term: nat)

  /** Who was voted for, the voter's log at that moment, and whether the term had no leader yet. */
  datatype Ballot = Ballot(candidate: NodeId, log: Log, early: bool)

  datatype Election = Election(leader: NodeId, electors: set<NodeId>)

  datatype Applied = Applied(node: NodeId, index: nat, command: Command)

  datatype Cluster = Cluster(
    members: set<NodeId>,
    nodes: map<NodeId, Node>,
    net: set<Packet>,
    ballots: map<VoteKey, Ballot>,
    elections: map<nat, Election>,
    leaderLog: map<nat, Log>,
    applied: set<Applied>)

  datatype Step =
    | Timeout(node: NodeId)
    | Heartbeat(node: NodeId)
    | ClientPropose(node: NodeId, command: Command)
    | Apply(node: NodeId)
    | Restart(node: NodeId)
    | Deliver(packet: Packet)

  function StepNode(step: Step): NodeId {
    if step.Deliver? then step.packet.dst else step.node
  }

  predicate Enabled(c: Cluster, step: Step) {
    && StepNode(step) in c.nodes
    && (step.Deliver? ==> step.packet in c.net)
    && (step.Deliver? && step.packet.msg.AppendEntries? ==> step.packet.msg.prevLogIndex >= -1)
  }

  /** Replies go back to the sender of the request. */
  function React(n: Node, p: Packet): (Node, Outbox)
    requires p.msg.AppendEntries? ==> p.msg.prevLogIndex >= -1
  {
    match p.msg
    case RequestVote(_, _, _, _) =>
      var r := HandleRequestVote(n, p.msg); (r.0, [(p.src, r.1)])
    case VoteReply(_, _, _) => HandleVoteReply(n, p.msg)
    case AppendEntries(_, _, _, _, _, _) =>
      var r := HandleAppend(n, p.msg); (r.0, [(p.src, r.1)])
    case AppendReply(_, _, _, _) => HandleAppendReply(n, p.src, p.msg)
  }

  function Local(n: Node, step: Step): (Node, Outbox)
    requires step.Deliver? && step.packet.msg.AppendEntries? ==> step.packet.msg.prevLogIndex >= -1
  {
    match step
    case Timeout(_) => OnElectionTimeout(n)
    case Heartbeat(_) => (n, OnHeartbeat(n))
    case ClientPropose(_, command) => (Propose(n, command), [])
    case Apply(_) => (TakeNewlyCommitted(n), [])
    case Restart(_) => (Restarted(n), [])
    case Deliver(p) => React(n, p)
  }

  function Sent(src: NodeId, out: Outbox): set<Packet> {
    set i | 0 <= i < |out| :: Packet(src, out[i].0, out[i].1)
  }

  lemma SentOne(src: NodeId, dst: NodeId, m: Message)
    ensures Sent(src, [(dst, m)]) == {Packet(src, dst, m)}
  {
    var out := [(dst, m)];
    assert 0 < |out| && Packet(src, out[0].0, out[0].1) in Sent(src, out);
  }

  function Applies(n: Node, step: Step): set<Applied> {
    if step.Apply? && n.lastApplied >= -1 then
      set i | 0 <= i < |NewlyCommitted(n)| ::
        Applied(n.id, n.lastApplied + 1 + i, NewlyCommitted(n)[i].command)
    else {}
  }

  function NewBallots(c: Cluster, n: NodeId, s: Node): map<VoteKey, Ballot> {
    if s.votedFor.Some? && VoteKey(n, s.term) !in c.ballots
    then c.ballots[VoteKey(n, s.term) := Ballot(s.votedFor.value, s.log, s.term !in c.elections)]
    else c.ballots
  }

  function NewElections(c: Cluster, n: NodeId, s: Node): map<nat, Election> {
    if s.role.Leader? && s.term !in c.elections
    then c.elections[s.term := Election(n, s.votes)]
    else c.elections
  }

  /** Replica `n` becomes `s` and sends `out`. */
  function Install(c: Cluster, n: NodeId, s: Node, out: Outbox): Cluster {
    c.(nodes := c.nodes[n := s],
       net := c.net + Sent(n, out),
       ballots := NewBallots(c, n, s),
       elections := NewElections(c, n, s),
       leaderLog := if s.role.Leader? then c.leaderLog[s.term := s.log] else c.leaderLog)
  }

  /** One step of the cluster; a step that is not enabled changes nothing. */
  function Next(c: Cluster, step: Step): Cluster {
    if !Enabled(c, step) then c
    else
      var n := StepNode(step);
      var r := Local(c.nodes[n], step);
      Install(c, n, r.0, r.1).(applied := c.applied + Applies(c.nodes[n], step))
  }

  /** Every replica knows every other member exactly once. */
  ghost predicate PeersOf(peers: seq<NodeId>, n: NodeId, members: set<NodeId>) {
    && (forall p :: p in peers <==> p in members && p != n)
    && (forall i, j :: 0 <= i < j < |peers| ==> peers[i] != peers[j])
  }

  ghost predicate Initial(c: Cluster) {
    && c.nodes.Keys == c.members
    && (forall n :: n in c.nodes ==> PeersOf(c.nodes[n].peers, n, c.members)
                                     && c.nodes[n] == Fresh(n, c.nodes[n].peers))
    && c.net == {} && c.ballots == map[] && c.elections == map[] && c.leaderLog == map[]
    && c.applied == {}
  }

  ghost predicate Follows(states: seq<Cluster>, steps: seq<Step>, i: nat)
    requires |states| == |steps| + 1 && i < |steps|
  {
    states[i + 1] == Next(states[i], steps[i])
  }

  /** A run: the clusters before and after each of the given steps, in any order and number. */
  ghost predicate IsRun(states: seq<Cluster>, steps: seq<Step>) {
    && |states| == |steps| + 1 && Initial(states[0])
    && forall i {:trigger Follows(states, steps, i)} :: 0 <= i < |steps| ==> Follows(states, steps, i)
  }
}
