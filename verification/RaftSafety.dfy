/** Election safety and log matching, for every run of the code as it is. */
module RaftSafety {
  import opened Wrappers
  import opened Collections
  import opened RaftCore
  import opened RaftCluster

  ghost predicate IsMajority(s: set<NodeId>, members: set<NodeId>) {
    s <= members && 2 * |s| > |members|
  }

  /** Every entry of term t sits on a prefix of the log of term t's leader. */
  ghost predicate Rooted(leaderLog: map<nat, Log>, log: Log) {
    forall i :: 0 <= i < |log| ==> RootedAt(leaderLog, log, i)
  }

  ghost predicate RootedAt(leaderLog: map<nat, Log>, log: Log, i: nat)
    requires i < |log|
  {
    var t := log[i].term;
    t in leaderLog && i < |leaderLog[t]| && log[..i + 1] == leaderLog[t][..i + 1]
  }

  ghost function TermAt(log: Log, i: int): nat { if 0 <= i < |log| then log[i].term else 0 }

  ghost predicate TermsUpTo(log: Log, t: nat) {
    forall i :: 0 <= i < |log| ==> log[i].term <= t
  }

  ghost predicate TermsBelow(log: Log, t: nat) {
    forall i :: 0 <= i < |log| ==> log[i].term < t
  }

  ghost predicate CandidateOk(c: Cluster, n: NodeId, s: Node) {
    && s.term >= 1 && s.votedFor == Some(n)
    && VoteKey(n, s.term) in c.ballots && c.ballots[VoteKey(n, s.term)].log == s.log
    && s.votes <= c.members
    && (forall v :: v in s.votes ==>
          VoteKey(v, s.term) in c.ballots && c.ballots[VoteKey(v, s.term)].candidate == n)
    && !(s.term in c.elections && c.elections[s.term].leader == n)
  }

  ghost predicate NodeOk(c: Cluster, n: NodeId, s: Node) {
    && s.id == n && PeersOf(s.peers, n, c.members)
    && (if s.votedFor.Some?
        then VoteKey(n, s.term) in c.ballots && c.ballots[VoteKey(n, s.term)].candidate == s.votedFor.value
        else VoteKey(n, s.term) !in c.ballots)
    && (forall k :: k in c.ballots && k.voter == n ==> k.term <= s.term)
    && (s.role.Candidate? ==> CandidateOk(c, n, s))
    && (s.role.Leader? ==> s.term in c.elections && c.elections[s.term].leader == n)
    && (s.term in c.elections && c.elections[s.term].leader == n ==>
          s.term in c.leaderLog && c.leaderLog[s.term] == s.log)
    && Rooted(c.leaderLog, s.log) && TermsUpTo(s.log, s.term)
  }

  /** An AppendEntries request either carries a stretch of its leader's log, or was sent for
      an index the leader did not have: then it carries nothing and names term 0. */
  ghost predicate Genuine(m: Message, leaderLog: Log)
    requires m.AppendEntries?
  {
    var at := m.prevLogIndex + 1;
    && 0 <= at && at + |m.entries| <= |leaderLog|
    && m.entries == leaderLog[at..at + |m.entries|]
    && (m.prevLogIndex >= 0 ==> m.prevLogTerm == leaderLog[m.prevLogIndex].term)
  }

  ghost predicate Blank(m: Message)
    requires m.AppendEntries?
  {
    m.prevLogIndex >= 0 && m.prevLogTerm == 0 && m.entries == []
  }

  ghost predicate PacketOk(c: Cluster, p: Packet) {
    && p.src in c.nodes && p.dst in c.nodes && p.src != p.dst
    && p.msg.term <= c.nodes[p.src].term
    && match p.msg
       case RequestVote(t, cand, lastIndex, lastTerm) =>
         && cand == p.src && VoteKey(cand, t) in c.ballots
         && c.ballots[VoteKey(cand, t)].candidate == cand
         && lastIndex == |c.ballots[VoteKey(cand, t)].log| - 1
         && lastTerm == LastTerm(c.ballots[VoteKey(cand, t)].log)
       case VoteReply(t, granted, voter) =>
         && voter == p.src
         && (granted ==> VoteKey(voter, t) in c.ballots && c.ballots[VoteKey(voter, t)].candidate == p.dst)
       case AppendEntries(t, leader, _, _, _, _) =>
         && leader == p.src && t in c.elections && c.elections[t].leader == leader
         && t in c.leaderLog && (Genuine(p.msg, c.leaderLog[t]) || Blank(p.msg))
       case AppendReply(_, _, follower, _) => follower == p.src
  }

  ghost predicate BallotOk(c: Cluster, k: VoteKey, b: Ballot) {
    var own := VoteKey(b.candidate, k.term);
    && k.voter in c.nodes && b.candidate in c.nodes
    && own in c.ballots && c.ballots[own].candidate == b.candidate
    && UpToDate(LastTerm(c.ballots[own].log), |c.ballots[own].log| - 1, b.log)
    && Rooted(c.leaderLog, b.log)
    && (b.early ==> TermsBelow(b.log, k.term))
    && (k.term !in c.elections ==> b.early)
  }

  ghost predicate ElectionOk(c: Cluster, t: nat, e: Election) {
    && t >= 1 && e.leader in c.nodes && c.nodes[e.leader].term >= t
    && IsMajority(e.electors, c.members)
    && (forall v :: v in e.electors ==>
          VoteKey(v, t) in c.ballots && c.ballots[VoteKey(v, t)].candidate == e.leader
          && c.ballots[VoteKey(v, t)].early)
    && VoteKey(e.leader, t) in c.ballots && c.ballots[VoteKey(e.leader, t)].early
    && t in c.leaderLog && LeaderLogOk(c, t, c.ballots[VoteKey(e.leader, t)].log)
  }

  /** A leader's log is its log at election, extended with entries of its own term. */
  ghost predicate LeaderLogOk(c: Cluster, t: nat, first: Log)
    requires t in c.leaderLog
  {
    && first <= c.leaderLog[t]
    && (forall i :: |first| <= i < |c.leaderLog[t]| ==> c.leaderLog[t][i].term == t)
    && Rooted(c.leaderLog, c.leaderLog[t])
  }

  ghost predicate Inv(c: Cluster) {
    && c.nodes.Keys == c.members
    && c.elections.Keys == c.leaderLog.Keys
    && (forall n {:trigger NodeOk(c, n, c.nodes[n])} :: n in c.nodes ==> NodeOk(c, n, c.nodes[n]))
    && (forall p {:trigger PacketOk(c, p)} :: p in c.net ==> PacketOk(c, p))
    && (forall k {:trigger BallotOk(c, k, c.ballots[k])} :: k in c.ballots ==> BallotOk(c, k, c.ballots[k]))
    && (forall t {:trigger ElectionOk(c, t, c.elections[t])} :: t in c.elections ==> ElectionOk(c, t, c.elections[t]))
  }

  // ---------------------------------------------------------------- quorums

  lemma MajoritiesMeet(a: set<NodeId>, b: set<NodeId>, members: set<NodeId>) returns (v: NodeId)
    requires IsMajority(a, members) && IsMajority(b, members)
    ensures v in a && v in b
  {
    if a * b == {} {
      assert |a + b| == |a| + |b|;
      SubsetSize(a + b, members);
      assert false;
    }
    v :| v in a * b;
  }

  lemma DistinctCount(s: seq<NodeId>, elems: set<NodeId>)
    requires forall i, j :: 0 <= i < j < |s| ==> s[i] != s[j]
    requires forall x :: x in s <==> x in elems
    ensures |elems| == |s|
  {
    if s == [] {
      assert elems == {};
    } else {
      var rest := elems - {s[0]};
      forall x ensures x in s[1..] <==> x in rest {
        if x in rest { assert x in s; }
      }
      DistinctCount(s[1..], rest);
      assert elems == rest + {s[0]};
    }
  }

  lemma MajorityMeaning(c: Cluster, n: NodeId, s: Node)
    requires n in c.members && PeersOf(s.peers, n, c.members)
    ensures 2 * Majority(s) > |c.members|
  {
    DistinctCount(s.peers, c.members - {n});
    assert c.members == (c.members - {n}) + {n};
  }

  // ------------------------------------------------------- logs against a leader's log

  lemma RootedPrefix(leaderLog: map<nat, Log>, log: Log, k: nat)
    requires Rooted(leaderLog, log) && k <= |log|
    ensures Rooted(leaderLog, log[..k])
  {
    forall i | 0 <= i < k ensures RootedAt(leaderLog, log[..k], i) {
      assert RootedAt(leaderLog, log, i);
      assert log[..k][..i + 1] == log[..i + 1];
    }
  }

  /** Two rooted logs that agree on the term at an index are identical up to it. */
  lemma AgreeingTerms(leaderLog: map<nat, Log>, a: Log, b: Log, i: nat)
    requires Rooted(leaderLog, a) && Rooted(leaderLog, b)
    requires i < |a| && i < |b| && a[i].term == b[i].term
    ensures a[..i + 1] == b[..i + 1]
  {
    assert RootedAt(leaderLog, a, i) && RootedAt(leaderLog, b, i);
  }

  /** Where the two logs agree on a term they agree on everything up to it. */
  ghost predicate Tracks(log: Log, ref: Log) {
    forall i :: 0 <= i < |log| && i < |ref| && log[i].term == ref[i].term ==> log[..i + 1] == ref[..i + 1]
  }

  lemma MergeOneAgainst(log: Log, at: nat, e: Entry, ref: Log)
    requires at <= |log| && at < |ref| && e == ref[at] && log[..at] == ref[..at] && Tracks(log, ref)
    ensures var r := MergeOne(log, at, e);
      && Tracks(r, ref) && r[..at + 1] == ref[..at + 1]
      && (if at < |log| && log[at].term == e.term then r == log else r == ref[..at + 1])
  {
    assert ref[..at + 1] == ref[..at] + [ref[at]];
    if at >= |log| || log[at].term != e.term {
      var r := MergeOne(log, at, e);
      assert r == ref[..at + 1];
      forall i | 0 <= i < |r| && i < |ref| && r[i].term == ref[i].term ensures r[..i + 1] == ref[..i + 1] {
        assert ref[..at + 1][..i + 1] == ref[..i + 1];
      }
    }
  }

  /** Merging a stretch of `ref` into a log that matches `ref` before it either changes
      nothing or leaves exactly the prefix of `ref` that ends with the stretch. */
  lemma {:induction false} MergeAgainst(log: Log, at: nat, entries: Log, ref: Log)
    requires at <= |log| && at + |entries| <= |ref| && entries == ref[at..at + |entries|]
    requires log[..at] == ref[..at] && Tracks(log, ref)
    ensures var r := Merge(log, at, entries); var upto := at + |entries|;
      && (r == log || r == ref[..upto])
      && |r| >= upto && r[..upto] == ref[..upto]
      && (upto <= |log| && log[..upto] == ref[..upto] ==> r == log)
    decreases |entries|
  {
    if entries != [] {
      var log1 := MergeOne(log, at, entries[0]);
      MergeOneAgainst(log, at, entries[0], ref);
      assert entries[1..] == ref[at + 1..at + 1 + |entries[1..]|];
      MergeAgainst(log1, at + 1, entries[1..], ref);
      var upto := at + |entries|;
      if upto <= |log| && log[..upto] == ref[..upto] {
        assert log[at] == log[..upto][at] == ref[at];
      }
    }
  }

  // ---------------------------------------------------------------- one replica's step

  /** What a step of replica `n` may do to the history: add one ballot of its own, make it the
      leader of its term, or extend the log of a term it leads. */
  ghost predicate Grows(c: Cluster, d: Cluster, n: NodeId) {
    && d.members == c.members && n in c.nodes && d.nodes.Keys == c.nodes.Keys
    && (forall m :: m in c.nodes && m != n ==> d.nodes[m] == c.nodes[m])
    && c.nodes[n].term <= d.nodes[n].term
    && (forall k :: k in c.ballots ==> k in d.ballots && d.ballots[k] == c.ballots[k])
    && (forall k :: k in d.ballots && k !in c.ballots ==> k == VoteKey(n, d.nodes[n].term))
    && (forall t :: t in c.elections ==> t in d.elections && d.elections[t] == c.elections[t])
    && (forall t :: t in d.elections && t !in c.elections ==>
          t == d.nodes[n].term && d.elections[t].leader == n)
    && (forall t :: t in c.leaderLog ==> t in d.leaderLog && c.leaderLog[t] <= d.leaderLog[t])
    && (forall t :: t in c.leaderLog && t in c.elections && c.elections[t].leader != n ==>
          d.leaderLog[t] == c.leaderLog[t])
    && (forall t :: t in c.leaderLog && t != d.nodes[n].term ==> d.leaderLog[t] == c.leaderLog[t])
    && d.elections.Keys == d.leaderLog.Keys
  }

  lemma RootedGrows(c: Cluster, d: Cluster, n: NodeId, log: Log)
    requires Grows(c, d, n) && Rooted(c.leaderLog, log)
    ensures Rooted(d.leaderLog, log)
  {
    forall i | 0 <= i < |log| ensures RootedAt(d.leaderLog, log, i) {
      assert RootedAt(c.leaderLog, log, i);
      var t := log[i].term;
      assert d.leaderLog[t][..i + 1] == c.leaderLog[t][..i + 1];
    }
  }

  lemma OtherNodeOk(c: Cluster, d: Cluster, n: NodeId, m: NodeId)
    requires Grows(c, d, n) && m in c.nodes && m != n && NodeOk(c, m, c.nodes[m])
    ensures NodeOk(d, m, d.nodes[m])
  {
    var s := c.nodes[m];
    RootedGrows(c, d, n, s.log);
    if s.term in d.elections && d.elections[s.term].leader == m {
      assert s.term in c.elections;
    }
  }

  lemma GenuineGrows(m: Message, a: Log, b: Log)
    requires m.AppendEntries? && Genuine(m, a) && a <= b
    ensures Genuine(m, b)
  {
    var at := m.prevLogIndex + 1;
    assert b[at..at + |m.entries|] == a[at..at + |m.entries|];
  }

  lemma PacketStillOk(c: Cluster, d: Cluster, n: NodeId, p: Packet)
    requires Grows(c, d, n) && PacketOk(c, p)
    ensures PacketOk(d, p)
  {
    if p.msg.AppendEntries? && Genuine(p.msg, c.leaderLog[p.msg.term]) {
      GenuineGrows(p.msg, c.leaderLog[p.msg.term], d.leaderLog[p.msg.term]);
    }
  }

  lemma BallotStillOk(c: Cluster, d: Cluster, n: NodeId, k: VoteKey)
    requires Grows(c, d, n) && k in c.ballots && BallotOk(c, k, c.ballots[k])
    ensures BallotOk(d, k, d.ballots[k])
  {
    RootedGrows(c, d, n, c.ballots[k].log);
  }

  lemma ElectionStillOk(c: Cluster, d: Cluster, n: NodeId, t: nat)
    requires Grows(c, d, n) && t in c.elections && t in c.leaderLog && ElectionOk(c, t, c.elections[t])
    requires d.leaderLog[t] == c.leaderLog[t]
    ensures ElectionOk(d, t, d.elections[t])
  {
    RootedGrows(c, d, n, c.leaderLog[t]);
  }

  /** The framing argument: only what the step itself adds has to be looked at. */
  lemma StepKeepsInv(c: Cluster, d: Cluster, n: NodeId)
    requires Inv(c) && Grows(c, d, n)
    requires NodeOk(d, n, d.nodes[n])
    requires forall p :: p in d.net && p !in c.net ==> PacketOk(d, p)
    requires forall k :: k in d.ballots && k !in c.ballots ==> BallotOk(d, k, d.ballots[k])
    requires forall t :: t in d.elections && (t !in c.elections || d.leaderLog[t] != c.leaderLog[t])
               ==> ElectionOk(d, t, d.elections[t])
    ensures Inv(d)
  {
    forall m | m in d.nodes ensures NodeOk(d, m, d.nodes[m]) {
      if m != n { assert NodeOk(c, m, c.nodes[m]); OtherNodeOk(c, d, n, m); }
    }
    forall p | p in d.net ensures PacketOk(d, p) {
      if p in c.net { assert PacketOk(c, p); PacketStillOk(c, d, n, p); }
    }
    forall k | k in d.ballots ensures BallotOk(d, k, d.ballots[k]) {
      if k in c.ballots { assert BallotOk(c, k, c.ballots[k]); BallotStillOk(c, d, n, k); }
    }
    forall t | t in d.elections ensures ElectionOk(d, t, d.elections[t]) {
      if t in c.elections && d.leaderLog[t] == c.leaderLog[t] {
        assert ElectionOk(c, t, c.elections[t]);
        ElectionStillOk(c, d, n, t);
      }
    }
  }

  // ---------------------------------------------------------------- step by step

  /** A step that casts no ballot, elects nobody and extends no leader's log. */
  lemma QuietStep(c: Cluster, n: NodeId, s: Node, out: Outbox)
    requires Inv(c) && n in c.nodes && c.nodes[n].term <= s.term
    requires NodeOk(c, n, s)
    requires forall p :: p in Sent(n, out) ==> PacketOk(c.(nodes := c.nodes[n := s]), p)
    ensures Inv(Install(c, n, s, out)) && Grows(c, Install(c, n, s, out), n)
  {
    var d := Install(c, n, s, out);
    assert d.ballots == c.ballots && d.elections == c.elections;
    assert d.leaderLog == c.leaderLog;
    assert Grows(c, d, n);
    assert NodeOk(d, n, s);
    forall p | p in d.net && p !in c.net ensures PacketOk(d, p) {
      assert PacketOk(c.(nodes := c.nodes[n := s]), p);
    }
    StepKeepsInv(c, d, n);
  }

  /** A step that only casts a ballot. */
  lemma BallotStep(c: Cluster, n: NodeId, s: Node, out: Outbox)
    requires Inv(c) && n in c.nodes && c.nodes[n].term <= s.term
    requires s.votedFor.Some? && VoteKey(n, s.term) !in c.ballots
    requires s.role.Leader? ==> s.term in c.elections && s.term in c.leaderLog && c.leaderLog[s.term] == s.log
    requires var d := Install(c, n, s, out);
      && NodeOk(d, n, s) && BallotOk(d, VoteKey(n, s.term), d.ballots[VoteKey(n, s.term)])
      && forall p :: p in Sent(n, out) ==> PacketOk(d, p)
    ensures Inv(Install(c, n, s, out)) && Grows(c, Install(c, n, s, out), n)
  {
    var d := Install(c, n, s, out);
    assert d.elections == c.elections;
    assert d.leaderLog == c.leaderLog;
    assert Grows(c, d, n);
    StepKeepsInv(c, d, n);
  }

  lemma StepDownOk(c: Cluster, n: NodeId, t: nat)
    requires Inv(c) && n in c.nodes
    ensures NodeOk(c, n, StepDown(c.nodes[n], t))
  {
    var s := c.nodes[n];
    assert NodeOk(c, n, s);
    if t > s.term {
      assert t in c.elections ==> ElectionOk(c, t, c.elections[t]);
    }
  }

  lemma AppendForOk(c: Cluster, n: NodeId, s: Node, peer: NodeId)
    requires n in c.nodes && c.nodes[n] == s && NodeOk(c, n, s) && s.role.Leader?
    requires peer in c.nodes && peer != n
    ensures PacketOk(c, Packet(n, peer, AppendFor(s, peer)))
  {
  }

  lemma AppendToAllOk(c: Cluster, n: NodeId, s: Node)
    requires n in c.nodes && c.nodes[n] == s && NodeOk(c, n, s) && s.role.Leader?
    requires c.nodes.Keys == c.members
    ensures forall p :: p in Sent(n, AppendToAll(s)) ==> PacketOk(c, p)
  {
    forall p | p in Sent(n, AppendToAll(s)) ensures PacketOk(c, p) {
      var i :| 0 <= i < |s.peers| && p == Packet(n, s.peers[i], AppendFor(s, s.peers[i]));
      assert s.peers[i] in s.peers;
      AppendForOk(c, n, s, s.peers[i]);
    }
  }

  lemma HeartbeatKeepsInv(c: Cluster, n: NodeId)
    requires Inv(c) && n in c.nodes
    ensures var d := Install(c, n, c.nodes[n], OnHeartbeat(c.nodes[n])); Inv(d) && Grows(c, d, n)
  {
    var s := c.nodes[n];
    assert c.nodes[n := s] == c.nodes;
    assert NodeOk(c, n, s);
    if s.role.Leader? { AppendToAllOk(c, n, s); }
    QuietStep(c, n, s, OnHeartbeat(s));
  }

  lemma TimeoutKeepsInv(c: Cluster, n: NodeId)
    requires Inv(c) && n in c.nodes
    ensures var r := OnElectionTimeout(c.nodes[n]); var d := Install(c, n, r.0, r.1); Inv(d) && Grows(c, d, n)
  {
    var s := c.nodes[n];
    assert NodeOk(c, n, s);
    var (s', out) := OnElectionTimeout(s);
    if s.role.Leader? {
      QuietStep(c, n, s, []);
    } else {
      var d := Install(c, n, s', out);
      assert VoteKey(n, s'.term) !in c.ballots;
      assert s'.term in c.elections ==> ElectionOk(c, s'.term, c.elections[s'.term]);
      forall p | p in Sent(n, out) ensures PacketOk(d, p) {
        var i :| 0 <= i < |out| && p == Packet(n, out[i].0, out[i].1);
        assert s.peers[i] in s.peers;
      }
      BallotStep(c, n, s', out);
    }
  }

  lemma RootedExtended(leaderLog: map<nat, Log>, log: Log, t: nat, command: Command)
    requires Rooted(leaderLog, log) && t in leaderLog && leaderLog[t] == log + [Entry(t, command)]
    ensures Rooted(leaderLog, leaderLog[t])
  {
    var l := leaderLog[t];
    forall i | 0 <= i < |l| ensures RootedAt(leaderLog, l, i) {
      if i < |log| {
        assert RootedAt(leaderLog, log, i);
        assert l[..i + 1] == log[..i + 1];
      }
    }
  }

  lemma ProposeKeepsInv(c: Cluster, n: NodeId, command: Command)
    requires Inv(c) && n in c.nodes
    ensures var d := Install(c, n, Propose(c.nodes[n], command), []); Inv(d) && Grows(c, d, n)
  {
    var s := c.nodes[n];
    assert NodeOk(c, n, s);
    var s' := Propose(s, command);
    if !s.role.Leader? {
      QuietStep(c, n, s, []);
    } else {
      var d := Install(c, n, s', []);
      var t := s.term;
      assert d.ballots == c.ballots && d.elections == c.elections;
      assert d.elections.Keys == d.leaderLog.Keys;
      assert Grows(c, d, n);
      RootedGrows(c, d, n, s.log);
      RootedExtended(d.leaderLog, s.log, t, command);
      assert NodeOk(d, n, s');
      assert ElectionOk(c, t, c.elections[t]);
      assert ElectionOk(d, t, d.elections[t]);
      StepKeepsInv(c, d, n);
    }
  }

  lemma RequestVoteKeepsInv(c: Cluster, p: Packet)
    requires Inv(c) && p in c.net && p.dst in c.nodes && p.msg.RequestVote?
    ensures var r := HandleRequestVote(c.nodes[p.dst], p.msg);
      var d := Install(c, p.dst, r.0, [(p.src, r.1)]); Inv(d) && Grows(c, d, p.dst)
  {
    var n, m := p.dst, p.msg;
    assert PacketOk(c, p);
    var s := StepDown(c.nodes[n], m.term);
    StepDownOk(c, n, m.term);
    var (s', reply) := HandleRequestVote(c.nodes[n], m);
    var out := [(p.src, reply)];
    assert forall q :: q in Sent(n, out) ==> q == Packet(n, p.src, reply);
    if s'.votedFor == s.votedFor {
      assert s' == s;
      QuietStep(c, n, s, out);
    } else {
      GrantOk(c, p, s);
      BallotStep(c, n, s', out);
    }
  }

  /** A first vote of the term: the candidate's log is at least as up to date as the voter's. */
  lemma GrantOk(c: Cluster, p: Packet, s: Node)
    requires p.msg.RequestVote? && PacketOk(c, p) && NodeOk(c, p.dst, s) && s.votedFor.None?
    requires c.elections.Keys == c.leaderLog.Keys
    requires s.term == p.msg.term && UpToDate(p.msg.lastLogTerm, p.msg.lastLogIndex, s.log)
    ensures var s' := s.(votedFor := Some(p.src));
      var d := Install(c, p.dst, s', [(p.src, VoteReply(s.term, true, p.dst))]);
      && NodeOk(d, p.dst, s')
      && BallotOk(d, VoteKey(p.dst, s.term), d.ballots[VoteKey(p.dst, s.term)])
      && PacketOk(d, Packet(p.dst, p.src, VoteReply(s.term, true, p.dst)))
  {
    var s' := s.(votedFor := Some(p.src));
    var d := Install(c, p.dst, s', [(p.src, VoteReply(s.term, true, p.dst))]);
    assert d.elections == c.elections;
    assert d.leaderLog == c.leaderLog;
    if s.term !in c.elections { EarlyTerms(c, s.log, s.term); }
  }

  /** A rooted log cannot hold entries of a term that has no leader yet. */
  lemma EarlyTerms(c: Cluster, log: Log, t: nat)
    requires Rooted(c.leaderLog, log) && TermsUpTo(log, t) && t !in c.leaderLog
    ensures TermsBelow(log, t)
  {
    forall i | 0 <= i < |log| ensures log[i].term < t { assert RootedAt(c.leaderLog, log, i); }
  }

  /** Counting a granted vote for a candidate of the reply's term. */
  lemma CountVote(c: Cluster, p: Packet, s: Node)
    requires PacketOk(c, p) && p.msg.VoteReply? && p.msg.voteGranted && c.nodes.Keys == c.members
    requires NodeOk(c, p.dst, s) && s.role.Candidate? && s.term == p.msg.term
    ensures NodeOk(c, p.dst, s.(votes := s.votes + {p.msg.voterId}))
  {
  }

  lemma VoteReplyKeepsInv(c: Cluster, p: Packet)
    requires Inv(c) && p in c.net && p.dst in c.nodes && p.msg.VoteReply?
    ensures var r := HandleVoteReply(c.nodes[p.dst], p.msg);
      var d := Install(c, p.dst, r.0, r.1); Inv(d) && Grows(c, d, p.dst)
  {
    var n, m := p.dst, p.msg;
    assert PacketOk(c, p);
    var s := StepDown(c.nodes[n], m.term);
    StepDownOk(c, n, m.term);
    var (s', out) := HandleVoteReply(c.nodes[n], m);
    if s.role.Candidate? && s.term == m.term && m.voteGranted { CountVote(c, p, s); }
    if !s'.role.Leader? || s.role.Leader? {
      QuietStep(c, n, s', out);
    } else {
      ElectionKeepsInv(c, n, s.(votes := s.votes + {m.voterId}));
    }
  }

  /** Two majorities of one term share a voter, who cast one ballot: the term had no leader. */
  lemma NoSecondLeader(c: Cluster, n: NodeId, s: Node)
    requires Inv(c) && n in c.nodes && s.role.Candidate? && CandidateOk(c, n, s)
    requires IsMajority(s.votes, c.members)
    ensures s.term !in c.elections
  {
    if s.term in c.elections {
      var e := c.elections[s.term];
      assert ElectionOk(c, s.term, e);
      var v := MajoritiesMeet(s.votes, e.electors, c.members);
      assert false;
    }
  }

  lemma ElectionKeepsInv(c: Cluster, n: NodeId, s: Node)
    requires Inv(c) && n in c.nodes && NodeOk(c, n, s) && s.role.Candidate?
    requires c.nodes[n].term <= s.term && |s.votes| >= Majority(s)
    ensures var d := Install(c, n, BecomeLeader(s), AppendToAll(BecomeLeader(s))); Inv(d) && Grows(c, d, n)
  {
    var s' := BecomeLeader(s);
    MajorityMeaning(c, n, s);
    NoSecondLeader(c, n, s);
    var t := s.term;
    var d := Install(c, n, s', AppendToAll(s'));
    assert d.ballots == c.ballots;
    assert d.elections == c.elections[t := Election(n, s.votes)];
    assert d.leaderLog == c.leaderLog[t := s.log];
    assert Grows(c, d, n);
    RootedGrows(c, d, n, s.log);
    assert NodeOk(d, n, s');
    forall v | v in s.votes ensures c.ballots[VoteKey(v, t)].early {
      assert BallotOk(c, VoteKey(v, t), c.ballots[VoteKey(v, t)]);
    }
    assert BallotOk(c, VoteKey(n, t), c.ballots[VoteKey(n, t)]);
    assert ElectionOk(d, t, d.elections[t]);
    AppendToAllOk(d, n, s');
    StepKeepsInv(c, d, n);
  }

  /** What a follower's log becomes: the old log, a prefix of it, or a prefix of the leader's. */
  lemma AppendedLog(c: Cluster, log: Log, m: Message, ref: Log)
    requires m.AppendEntries? && m.prevLogIndex >= -1 && (Genuine(m, ref) || Blank(m))
    requires Rooted(c.leaderLog, log) && Rooted(c.leaderLog, ref)
    ensures AppendedTo(log, m) <= log || AppendedTo(log, m) <= ref
  {
    if Matches(log, m) && Genuine(m, ref) { GenuineMerge(c, log, m, ref); }
  }

  lemma GenuineMerge(c: Cluster, log: Log, m: Message, ref: Log)
    requires m.AppendEntries? && Genuine(m, ref) && Rooted(c.leaderLog, log) && Rooted(c.leaderLog, ref)
    requires -1 <= m.prevLogIndex < |log|
    requires m.prevLogIndex >= 0 ==> log[m.prevLogIndex].term == m.prevLogTerm
    ensures var at := m.prevLogIndex + 1; var upto := at + |m.entries|;
      var r := Merge(log, at, m.entries);
      && (r == log || r == ref[..upto])
      && |r| >= upto && r[..upto] == ref[..upto]
      && (upto <= |log| && log[..upto] == ref[..upto] ==> r == log)
  {
    var at := m.prevLogIndex + 1;
    if m.prevLogIndex >= 0 { AgreeingTerms(c.leaderLog, log, ref, m.prevLogIndex); }
    forall i | 0 <= i < |log| && i < |ref| && log[i].term == ref[i].term
      ensures log[..i + 1] == ref[..i + 1]
    {
      AgreeingTerms(c.leaderLog, log, ref, i);
    }
    MergeAgainst(log, at, m.entries, ref);
  }

  lemma AppendKeepsInv(c: Cluster, p: Packet)
    requires Inv(c) && p in c.net && p.dst in c.nodes && p.msg.AppendEntries? && p.msg.prevLogIndex >= -1
    ensures var r := HandleAppend(c.nodes[p.dst], p.msg);
      var d := Install(c, p.dst, r.0, [(p.src, r.1)]); Inv(d) && Grows(c, d, p.dst)
  {
    var n, m := p.dst, p.msg;
    assert PacketOk(c, p);
    var s := StepDown(c.nodes[n], m.term);
    StepDownOk(c, n, m.term);
    var (s', reply) := HandleAppend(c.nodes[n], m);
    var out := [(p.src, reply)];
    assert forall q :: q in Sent(n, out) ==> q == Packet(n, p.src, reply);
    if m.term >= s.term {
      var ref := c.leaderLog[m.term];
      assert ElectionOk(c, m.term, c.elections[m.term]);
      AppendedLog(c, s.log, m, ref);
      if s'.log <= s.log {
        RootedPrefix(c.leaderLog, s.log, |s'.log|);
        assert s'.log == s.log[..|s'.log|];
      } else {
        RootedPrefix(c.leaderLog, ref, |s'.log|);
        assert s'.log == ref[..|s'.log|];
        LeaderTerms(c, m.term);
      }
      assert NodeOk(c, n, s');
    }
    QuietStep(c, n, s', out);
  }

  /** A leader's log holds no entry of a later term. */
  lemma LeaderTerms(c: Cluster, t: nat)
    requires Inv(c) && t in c.elections
    ensures t in c.leaderLog && TermsUpTo(c.leaderLog[t], t)
  {
    var e := c.elections[t];
    assert ElectionOk(c, t, e);
    assert BallotOk(c, VoteKey(e.leader, t), c.ballots[VoteKey(e.leader, t)]);
    var first := c.ballots[VoteKey(e.leader, t)].log;
    forall i | 0 <= i < |c.leaderLog[t]| ensures c.leaderLog[t][i].term <= t {
      if i < |first| { assert c.leaderLog[t][i] == first[i]; }
    }
  }

  lemma AppendReplyKeepsInv(c: Cluster, p: Packet)
    requires Inv(c) && p in c.net && p.dst in c.nodes && p.msg.AppendReply?
    ensures var r := HandleAppendReply(c.nodes[p.dst], p.src, p.msg);
      var d := Install(c, p.dst, r.0, r.1); Inv(d) && Grows(c, d, p.dst)
  {
    var n, m := p.dst, p.msg;
    assert PacketOk(c, p);
    StepDownOk(c, n, m.term);
    var (s', out) := HandleAppendReply(c.nodes[n], p.src, m);
    assert NodeOk(c, n, s');
    var c' := c.(nodes := c.nodes[n := s']);
    if s'.role.Leader? { AppendForOk(c', n, s', p.src); }
    QuietStep(c, n, s', out);
  }

  lemma DeliverKeepsInv(c: Cluster, p: Packet)
    requires Inv(c) && Enabled(c, Deliver(p))
    ensures var r := React(c.nodes[p.dst], p);
      var d := Install(c, p.dst, r.0, r.1); Inv(d) && Grows(c, d, p.dst)
  {
    match p.msg {
      case RequestVote(_, _, _, _) => RequestVoteKeepsInv(c, p);
      case VoteReply(_, _, _) => VoteReplyKeepsInv(c, p);
      case AppendEntries(_, _, _, _, _, _) => AppendKeepsInv(c, p);
      case AppendReply(_, _, _, _) => AppendReplyKeepsInv(c, p);
    }
  }

  lemma LocalKeepsInv(c: Cluster, step: Step)
    requires Inv(c) && Enabled(c, step)
    ensures var n := StepNode(step); var r := Local(c.nodes[n], step);
      var d := Install(c, n, r.0, r.1); Inv(d) && Grows(c, d, n)
  {
    var n := StepNode(step);
    assert NodeOk(c, n, c.nodes[n]);
    match step {
      case Timeout(_) => TimeoutKeepsInv(c, n);
      case Heartbeat(_) => HeartbeatKeepsInv(c, n);
      case ClientPropose(_, command) => ProposeKeepsInv(c, n, command);
      case Apply(_) => QuietStep(c, n, TakeNewlyCommitted(c.nodes[n]), []);
      case Restart(_) => QuietStep(c, n, Restarted(c.nodes[n]), []);
      case Deliver(p) => DeliverKeepsInv(c, p);
    }
  }

  lemma NextKeepsInv(c: Cluster, step: Step)
    requires Inv(c)
    ensures Inv(Next(c, step))
    ensures Enabled(c, step) ==> Grows(c, Next(c, step), StepNode(step))
  {
    if Enabled(c, step) {
      var n := StepNode(step);
      var r := Local(c.nodes[n], step);
      LocalKeepsInv(c, step);
      AppliedIrrelevant(Install(c, n, r.0, r.1), n, c.applied + Applies(c.nodes[n], step));
    }
  }

  lemma AppliedIrrelevant(c: Cluster, n: NodeId, applied: set<Applied>)
    requires Inv(c) && n in c.nodes
    ensures Inv(c.(applied := applied))
  {
    assert NodeOk(c, n, c.nodes[n]);
    StepKeepsInv(c, c.(applied := applied), n);
  }

  lemma {:induction false} RunKeepsInv(states: seq<Cluster>, steps: seq<Step>, i: nat)
    requires IsRun(states, steps) && i < |states|
    ensures Inv(states[i])
  {
    if i > 0 {
      RunKeepsInv(states, steps, i - 1);
      assert Follows(states, steps, i - 1);
      NextKeepsInv(states[i - 1], steps[i - 1]);
    }
  }

  /** History only grows along a run. */
  ghost predicate Extends(a: Cluster, b: Cluster) {
    && (forall t :: t in a.elections ==> t in b.elections && b.elections[t] == a.elections[t])
    && (forall t :: t in a.leaderLog ==> t in b.leaderLog && a.leaderLog[t] <= b.leaderLog[t])
  }

  lemma NextExtends(c: Cluster, step: Step)
    requires Inv(c)
    ensures Extends(c, Next(c, step))
  {
    NextKeepsInv(c, step);
  }

  lemma {:induction false} HistoryGrows(states: seq<Cluster>, steps: seq<Step>, i: nat, j: nat)
    requires IsRun(states, steps) && i <= j < |states|
    ensures Extends(states[i], states[j])
    decreases j - i
  {
    if i < j {
      HistoryGrows(states, steps, i, j - 1);
      RunKeepsInv(states, steps, j - 1);
      NextExtends(states[j - 1], steps[j - 1]);
      assert Follows(states, steps, j - 1);
    }
  }

  lemma RootedNode(c: Cluster, n: NodeId)
    requires Inv(c) && n in c.nodes
    ensures Rooted(c.leaderLog, c.nodes[n].log)
  {
    assert NodeOk(c, n, c.nodes[n]);
  }

  lemma RootedLeader(c: Cluster, t: nat)
    requires Inv(c) && t in c.leaderLog
    ensures Rooted(c.leaderLog, c.leaderLog[t])
  {
    assert ElectionOk(c, t, c.elections[t]);
  }

  // ---------------------------------------------------------------- results

  ghost predicate LeadsIn(c: Cluster, n: NodeId, t: nat) {
    n in c.nodes && c.nodes[n].role.Leader? && c.nodes[n].term == t
  }

  lemma LeaderIsElected(c: Cluster, n: NodeId, t: nat)
    requires Inv(c) && LeadsIn(c, n, t)
    ensures t in c.elections && c.elections[t].leader == n
    ensures t in c.leaderLog && c.leaderLog[t] == c.nodes[n].log
  {
    assert NodeOk(c, n, c.nodes[n]);
  }

  /** Election safety: over a whole run at most one node is ever leader in a term. */
  lemma ElectionSafety(states: seq<Cluster>, steps: seq<Step>, i: nat, j: nat, a: NodeId, b: NodeId, t: nat)
    requires IsRun(states, steps) && i < |states| && j < |states|
    requires LeadsIn(states[i], a, t) && LeadsIn(states[j], b, t)
    ensures a == b
  {
    RunKeepsInv(states, steps, i);
    RunKeepsInv(states, steps, j);
    LeaderIsElected(states[i], a, t);
    LeaderIsElected(states[j], b, t);
    if i <= j { HistoryGrows(states, steps, i, j); } else { HistoryGrows(states, steps, j, i); }
  }

  /** Log matching: in every run, two logs that agree on the term at an index are identical
      up to it, and that stretch is a prefix of the log of that term's leader. */
  lemma LogMatching(states: seq<Cluster>, steps: seq<Step>, j: nat, a: NodeId, b: NodeId, i: nat)
    requires IsRun(states, steps) && j < |states|
    requires var d := states[j];
      a in d.nodes && b in d.nodes && i < |d.nodes[a].log| && i < |d.nodes[b].log|
      && d.nodes[a].log[i].term == d.nodes[b].log[i].term
    ensures var d := states[j]; var t := d.nodes[a].log[i].term;
      && d.nodes[a].log[..i + 1] == d.nodes[b].log[..i + 1]
      && t in d.leaderLog && d.nodes[a].log[..i + 1] <= d.leaderLog[t]
  {
    var d := states[j];
    RunKeepsInv(states, steps, j);
    RootedNode(d, a);
    RootedNode(d, b);
    AgreeingTerms(d.leaderLog, d.nodes[a].log, d.nodes[b].log, i);
    assert RootedAt(d.leaderLog, d.nodes[a].log, i);
  }

  /** A leader never shortens or rewrites its own log while it leads. */
  lemma LeaderAppendOnly(states: seq<Cluster>, steps: seq<Step>, i: nat, j: nat, n: NodeId, t: nat)
    requires IsRun(states, steps) && i <= j < |states|
    requires LeadsIn(states[i], n, t) && LeadsIn(states[j], n, t)
    ensures states[i].nodes[n].log <= states[j].nodes[n].log
  {
    RunKeepsInv(states, steps, i);
    RunKeepsInv(states, steps, j);
    LeaderIsElected(states[i], n, t);
    LeaderIsElected(states[j], n, t);
    HistoryGrows(states, steps, i, j);
  }
}
