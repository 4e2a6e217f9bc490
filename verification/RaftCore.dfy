/** One replica's Raft state machine (fleetqox/raft.py).

    The pure functions give every handler as a step on a `Node` value; class
    `RaftNode` is the same machine with fields updated in place, and each of its
    methods is proved to perform exactly the corresponding step.
 */
module RaftCore {
  import opened Wrappers
  import opened Numbers

  type NodeId = string
  type Command = string

  datatype Role = Follower | Candidate | Leader
  datatype Entry = Entry(term: nat, command: Command)
  type Log = seq<Entry>

  datatype Message =
    | RequestVote(term: nat, candidateId: NodeId, lastLogIndex: int, lastLogTerm: nat)
    | VoteReply(term: nat, voteGranted: bool, voterId: NodeId)
    | AppendEntries(term: nat, leaderId: NodeId, prevLogIndex: int, prevLogTerm: nat,
                    entries: Log, leaderCommit: int)
    | AppendReply(term: nat, success: bool, followerId: NodeId, matchLengthHint: nat)

  /** Messages for the driver to send, with their addressees. */
  type Outbox = seq<(NodeId, Message)>

  datatype Node = Node(
    id: NodeId, peers: seq<NodeId>,
    term: nat, votedFor: Option<NodeId>, log: Log,        // durable
    commitIndex: int, lastApplied: int,                   // volatile
    nextIndex: map<NodeId, nat>, matchIndex: map<NodeId, int>, votes: set<NodeId>,
    role: Role, leaderId: Option<NodeId>)

  function Fresh(id: NodeId, peers: seq<NodeId>): Node {
    Node(id, peers, 0, None, [], -1, -1, map[], map[], {}, Follower, None)
  }

  /** A restart keeps only the durable fields. */
  function Restarted(n: Node): Node {
    Fresh(n.id, n.peers).(term := n.term, votedFor := n.votedFor, log := n.log)
  }

  function Majority(n: Node): nat { (|n.peers| + 1) / 2 + 1 }

  function LastTerm(log: Log): nat { if log == [] then 0 else log[|log| - 1].term }

  /** Section 5.4.1 of the Raft paper: the later last term wins, then the longer log. */
  predicate UpToDate(lastTerm: nat, lastIndex: int, log: Log) {
    if lastTerm != LastTerm(log) then lastTerm > LastTerm(log) else lastIndex >= |log| - 1
  }

  function StepDown(n: Node, term: nat): Node {
    if term > n.term then n.(term := term, votedFor := None, role := Follower, votes := {}) else n
  }

  function NextOf(n: Node, peer: NodeId): nat {
    if peer in n.nextIndex then n.nextIndex[peer] else 0
  }

  function MatchOf(n: Node, peer: NodeId): int {
    if peer in n.matchIndex then n.matchIndex[peer] else -1
  }

  function AppendFor(n: Node, peer: NodeId): Message {
    var next := NextOf(n, peer);
    AppendEntries(n.term, n.id, next - 1,
                  if 0 <= next - 1 < |n.log| then n.log[next - 1].term else 0,
                  if next <= |n.log| then n.log[next..] else [],
                  n.commitIndex)
  }

  function Broadcast(peers: seq<NodeId>, m: Message): Outbox {
    seq(|peers|, i requires 0 <= i < |peers| => (peers[i], m))
  }

  function AppendToAll(n: Node): Outbox {
    seq(|n.peers|, i requires 0 <= i < |n.peers| => (n.peers[i], AppendFor(n, n.peers[i])))
  }

  function OnElectionTimeout(n: Node): (Node, Outbox) {
    if n.role.Leader? then (n, [])
    else
      var n' := n.(role := Candidate, term := n.term + 1, votedFor := Some(n.id),
                   votes := {n.id}, leaderId := None);
      (n', Broadcast(n.peers, RequestVote(n'.term, n.id, |n.log| - 1, LastTerm(n.log))))
  }

  function OnHeartbeat(n: Node): Outbox {
    if n.role.Leader? then AppendToAll(n) else []
  }

  function BecomeLeader(n: Node): Node {
    n.(role := Leader, leaderId := Some(n.id),
       nextIndex := map p | p in n.peers :: |n.log|,
       matchIndex := map p | p in n.peers :: -1)
  }

  function HandleRequestVote(n: Node, m: Message): (Node, Message)
    requires m.RequestVote?
  {
    var s := StepDown(n, m.term);
    if m.term < s.term then (s, VoteReply(s.term, false, s.id))
    else
      var grant := (s.votedFor.None? || s.votedFor == Some(m.candidateId))
                   && UpToDate(m.lastLogTerm, m.lastLogIndex, s.log);
      (if grant then s.(votedFor := Some(m.candidateId)) else s, VoteReply(s.term, grant, s.id))
  }

  /** The follower's insertion loop: keep entries whose terms agree, cut at the first
      disagreement, append what is missing. */
  function Merge(log: Log, at: nat, entries: Log): Log
    requires at <= |log|
    decreases |entries|
  {
    if entries == [] then log
    else Merge(MergeOne(log, at, entries[0]), at + 1, entries[1..])
  }

  function MergeOne(log: Log, at: nat, e: Entry): (r: Log)
    requires at <= |log|
    ensures at < |r|
  {
    if at < |log| && log[at].term == e.term then log else log[..at] + [e]
  }

  /** The log-matching check on the entry before the request's stretch. */
  predicate Matches(log: Log, m: Message)
    requires m.AppendEntries? && m.prevLogIndex >= -1
  {
    m.prevLogIndex < |log| && (m.prevLogIndex >= 0 ==> log[m.prevLogIndex].term == m.prevLogTerm)
  }

  /** The follower's log afterwards: merged, cut at the conflict, or untouched. */
  function AppendedTo(log: Log, m: Message): Log
    requires m.AppendEntries? && m.prevLogIndex >= -1
  {
    if Matches(log, m) then Merge(log, m.prevLogIndex + 1, m.entries)
    else if m.prevLogIndex < |log| then log[..m.prevLogIndex]
    else log
  }

  function CommitAfter(commit: int, log: Log, m: Message): int
    requires m.AppendEntries? && m.prevLogIndex >= -1
  {
    if Matches(log, m) && m.leaderCommit > commit then MinInt(m.leaderCommit, |AppendedTo(log, m)| - 1)
    else commit
  }

  function HandleAppend(n: Node, m: Message): (Node, Message)
    requires m.AppendEntries? && m.prevLogIndex >= -1
  {
    var s := StepDown(n, m.term);
    if m.term < s.term then (s, AppendReply(s.term, false, s.id, |s.log|))
    else
      (s.(role := Follower, leaderId := Some(m.leaderId), log := AppendedTo(s.log, m),
          commitIndex := CommitAfter(s.commitIndex, s.log, m)),
       AppendReply(s.term, Matches(s.log, m), s.id, |AppendedTo(s.log, m)|))
  }

  /** A request of a current or newer term, field by field. */
  lemma AppendParts(n: Node, m: Message)
    requires m.AppendEntries? && m.prevLogIndex >= -1 && n.term <= m.term
    ensures var r := HandleAppend(n, m);
      && r.0.log == AppendedTo(n.log, m) && r.0.commitIndex == CommitAfter(n.commitIndex, n.log, m)
      && r.0.term == m.term && r.0.role.Follower? && r.0.votedFor == (if m.term > n.term then None else n.votedFor)
      && r.1 == AppendReply(m.term, Matches(n.log, m), n.id, |AppendedTo(n.log, m)|)
  {
  }

  function HandleVoteReply(n: Node, m: Message): (Node, Outbox)
    requires m.VoteReply?
  {
    var s := StepDown(n, m.term);
    if !s.role.Candidate? || m.term != s.term || !m.voteGranted then (s, [])
    else
      var s' := s.(votes := s.votes + {m.voterId});
      if |s'.votes| >= Majority(s') then (BecomeLeader(s'), AppendToAll(BecomeLeader(s')))
      else (s', [])
  }

  /** How many of the given peers are recorded as matching index `i`. */
  function MatchCount(n: Node, peers: seq<NodeId>, i: int): nat {
    if peers == [] then 0
    else (if MatchOf(n, peers[0]) >= i then 1 else 0) + MatchCount(n, peers[1..], i)
  }

  predicate CanCommit(n: Node, i: int)
  {
    0 <= i < |n.log| && n.log[i].term == n.term && 1 + MatchCount(n, n.peers, i) >= Majority(n)
  }

  /** The highest committable index above the commit index, searched downwards from `i`. */
  function CommitSearch(n: Node, i: int): int
    decreases i - n.commitIndex
  {
    if i <= n.commitIndex then n.commitIndex
    else if CanCommit(n, i) then i
    else CommitSearch(n, i - 1)
  }

  function AdvanceCommit(n: Node): Node {
    n.(commitIndex := CommitSearch(n, |n.log| - 1))
  }

  function HandleAppendReply(n: Node, peer: NodeId, m: Message): (Node, Outbox)
    requires m.AppendReply?
  {
    var s := StepDown(n, m.term);
    if !s.role.Leader? || m.term != s.term then (s, [])
    else
      var s' := s.(nextIndex := s.nextIndex[peer := m.matchLengthHint]);
      if m.success then
        (AdvanceCommit(s'.(matchIndex := s'.matchIndex[peer := m.matchLengthHint - 1])), [])
      else (s', [(peer, AppendFor(s', peer))])
  }

  function Propose(n: Node, command: Command): Node {
    if n.role.Leader? then n.(log := n.log + [Entry(n.term, command)]) else n
  }

  /** Python's slice log[lo:hi] for lo >= 0 and hi >= 0. */
  function Slice(log: Log, lo: nat, hi: nat): Log {
    if lo < hi && lo < |log| then log[lo..MinInt(hi, |log|)] else []
  }

  function NewlyCommitted(n: Node): Log {
    if n.commitIndex <= n.lastApplied || n.lastApplied < -1 then []
    else Slice(n.log, n.lastApplied + 1, n.commitIndex + 1)
  }

  function TakeNewlyCommitted(n: Node): Node {
    if n.commitIndex <= n.lastApplied then n else n.(lastApplied := n.commitIndex)
  }

  /** The index `_advance_commit_index` settles on is the greatest committable one. */
  lemma CommitSearchIsGreatest(n: Node, i: int)
    ensures var r := CommitSearch(n, i);
      && (r == n.commitIndex || (n.commitIndex < r <= i && CanCommit(n, r)))
      && forall j :: r < j <= i && j > n.commitIndex ==> !CanCommit(n, j)
    decreases i - n.commitIndex
  {
    if i > n.commitIndex && !CanCommit(n, i) { CommitSearchIsGreatest(n, i - 1); }
  }

  /** The same machine, updated in place. */
  class RaftNode {
    const id: NodeId
    const peers: seq<NodeId>
    var term: nat
    var votedFor: Option<NodeId>
    var log: Log
    var commitIndex: int
    var lastApplied: int
    var nextIndex: map<NodeId, nat>
    var matchIndex: map<NodeId, int>
    var votes: set<NodeId>
    var role: Role
    var leaderId: Option<NodeId>

    ghost function State(): Node
      reads this
    {
      Node(id, peers, term, votedFor, log, commitIndex, lastApplied,
           nextIndex, matchIndex, votes, role, leaderId)
    }

    /** A leader has an index pair for every peer; indexes start at -1. */
    ghost predicate Valid()
      reads this
    {
      && -1 <= lastApplied
      && -1 <= commitIndex
      && (role.Leader? ==> forall p :: p in peers ==> p in nextIndex && p in matchIndex)
    }

    constructor (id: NodeId, peers: seq<NodeId>)
      requires id != "" && id !in peers && peers != []
      ensures Valid() && State() == Fresh(id, peers)
    {
      this.id, this.peers := id, peers;
      term, votedFor, log := 0, None, [];
      commitIndex, lastApplied := -1, -1;
      nextIndex, matchIndex, votes := map[], map[], {};
      role, leaderId := Follower, None;
    }

    method StepDownIfStale(t: nat)
      requires Valid()
      modifies this
      ensures Valid() && State() == StepDown(old(State()), t)
    {
      if t > term {
        term, votedFor, role, votes := t, None, Follower, {};
      }
    }

    method ElectionTimeout() returns (out: Outbox)
      requires Valid()
      modifies this
      ensures Valid() && (State(), out) == OnElectionTimeout(old(State()))
    {
      if role.Leader? { return []; }
      role, term, votedFor, votes, leaderId := Candidate, term + 1, Some(id), {id}, None;
      var lastTerm := if log == [] then 0 else log[|log| - 1].term;
      out := Broadcast(peers, RequestVote(term, id, |log| - 1, lastTerm));
    }

    method HeartbeatDue() returns (out: Outbox)
      requires Valid()
      ensures out == OnHeartbeat(State())
    {
      out := [];
      if !role.Leader? { return; }
      for i := 0 to |peers|
        invariant out == AppendToAll(State())[..i]
      {
        var m := AppendEntriesFor(peers[i]);
        assert AppendToAll(State())[..i + 1] == AppendToAll(State())[..i] + [AppendToAll(State())[i]];
        out := out + [(peers[i], m)];
      }
    }

    method AppendEntriesFor(peer: NodeId) returns (m: Message)
      requires peer in nextIndex
      ensures m == AppendFor(State(), peer)
    {
      var next := nextIndex[peer];
      var prev := next - 1;
      var prevTerm := if 0 <= prev < |log| then log[prev].term else 0;
      m := AppendEntries(term, id, prev, prevTerm,
                         if next <= |log| then log[next..] else [], commitIndex);
    }

    method RequestVoteReceived(m: Message) returns (reply: Message)
      requires Valid() && m.RequestVote?
      modifies this
      ensures Valid() && (State(), reply) == HandleRequestVote(old(State()), m)
    {
      StepDownIfStale(m.term);
      if m.term < term { return VoteReply(term, false, id); }
      var canVote := votedFor.None? || votedFor == Some(m.candidateId);
      var grant := canVote && UpToDate(m.lastLogTerm, m.lastLogIndex, log);
      if grant { votedFor := Some(m.candidateId); }
      reply := VoteReply(term, grant, id);
    }

    method AppendEntriesReceived(m: Message) returns (reply: Message)
      requires Valid() && m.AppendEntries? && m.prevLogIndex >= -1 && m.leaderCommit >= -1
      modifies this
      ensures Valid() && (State(), reply) == HandleAppend(old(State()), m)
    {
      StepDownIfStale(m.term);
      if m.term < term { return AppendReply(term, false, id, |log|); }
      role, leaderId := Follower, Some(m.leaderId);
      if m.prevLogIndex >= 0 {
        if m.prevLogIndex >= |log| { return AppendReply(term, false, id, |log|); }
        if log[m.prevLogIndex].term != m.prevLogTerm {
          log := log[..m.prevLogIndex];
          return AppendReply(term, false, id, |log|);
        }
      }
      InsertEntries(m.prevLogIndex + 1, m.entries);
      if m.leaderCommit > commitIndex { commitIndex := MinInt(m.leaderCommit, |log| - 1); }
      reply := AppendReply(term, true, id, |log|);
    }

    method InsertEntries(insertAt: nat, entries: Log)
      requires insertAt <= |log|
      modifies this`log
      ensures log == Merge(old(log), insertAt, entries)
    {
      for offset := 0 to |entries|
        invariant insertAt + offset <= |log|
        invariant Merge(log, insertAt + offset, entries[offset..]) == Merge(old(log), insertAt, entries)
      {
        var index, entry := insertAt + offset, entries[offset];
        assert entries[offset..][0] == entry && entries[offset..][1..] == entries[offset + 1..];
        if index < |log| {
          if log[index].term != entry.term {
            log := log[..index];
            log := log + [entry];
          }
        } else {
          assert log[..index] == log;
          log := log + [entry];
        }
      }
    }

    method VoteReplyReceived(m: Message) returns (out: Outbox)
      requires Valid() && m.VoteReply?
      modifies this
      ensures Valid() && (State(), out) == HandleVoteReply(old(State()), m)
    {
      StepDownIfStale(m.term);
      if !role.Candidate? || m.term != term { return []; }
      if m.voteGranted {
        votes := votes + {m.voterId};
        if |votes| >= (|peers| + 1) / 2 + 1 {
          out := Promote();
          return;
        }
      }
      out := [];
    }

    method Promote() returns (out: Outbox)
      requires Valid()
      modifies this
      ensures Valid() && State() == BecomeLeader(old(State())) && out == AppendToAll(State())
    {
      role, leaderId := Leader, Some(id);
      nextIndex := map p | p in peers :: |log|;
      matchIndex := map p | p in peers :: -1;
      out := HeartbeatDue();
    }

    method AppendReplyReceived(peer: NodeId, m: Message) returns (out: Outbox)
      requires Valid() && m.AppendReply?
      modifies this
      ensures Valid() && (State(), out) == HandleAppendReply(old(State()), peer, m)
    {
      StepDownIfStale(m.term);
      if !role.Leader? || m.term != term { return []; }
      if m.success {
        matchIndex := matchIndex[peer := m.matchLengthHint - 1];
        nextIndex := nextIndex[peer := m.matchLengthHint];
        AdvanceCommitIndex();
        return [];
      }
      nextIndex := nextIndex[peer := m.matchLengthHint];
      var resend := AppendEntriesFor(peer);
      out := [(peer, resend)];
    }

    method AdvanceCommitIndex()
      requires Valid() && role.Leader?
      modifies this`commitIndex
      ensures Valid() && State() == AdvanceCommit(old(State()))
    {
      var i := |log| - 1;
      while i > commitIndex
        invariant commitIndex == old(commitIndex) && i < |log|
        invariant CommitSearch(State(), i) == CommitSearch(State(), |log| - 1)
      {
        if log[i].term == term {
          var replicas := CountMatches(i);
          if 1 + replicas >= (|peers| + 1) / 2 + 1 {
            commitIndex := i;
            return;
          }
        }
        i := i - 1;
      }
    }

    method CountMatches(index: int) returns (count: nat)
      requires forall p :: p in peers ==> p in matchIndex
      ensures count == MatchCount(State(), peers, index)
    {
      count := 0;
      var i := |peers|;
      while i > 0
        invariant 0 <= i <= |peers|
        invariant count == MatchCount(State(), peers[i..], index)
      {
        i := i - 1;
        assert peers[i..][1..] == peers[i + 1..];
        if matchIndex[peers[i]] >= index { count := count + 1; }
      }
    }

    method ProposeCommand(command: Command) returns (index: Option<int>)
      requires Valid()
      modifies this`log
      ensures Valid() && State() == Propose(old(State()), command)
      ensures index == if role.Leader? then Some(|log| - 1) else None
    {
      if !role.Leader? { return None; }
      log := log + [Entry(term, command)];
      index := Some(|log| - 1);
    }

    method TakeCommitted() returns (commands: seq<Command>)
      requires Valid()
      modifies this`lastApplied
      ensures Valid() && State() == TakeNewlyCommitted(old(State()))
      ensures |commands| == |NewlyCommitted(old(State()))|
      ensures forall i :: 0 <= i < |commands| ==> commands[i] == NewlyCommitted(old(State()))[i].command
    {
      if commitIndex <= lastApplied { return []; }
      var ready := Slice(log, lastApplied + 1, commitIndex + 1);
      commands := seq(|ready|, i requires 0 <= i < |ready| => ready[i].command);
      lastApplied := commitIndex;
    }
  }
}
