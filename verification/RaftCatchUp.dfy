/** Catching up: a leader and one follower that exchange append requests and replies without
    interruption (fleetqox/raft.py). */
module RaftCatchUp {
  import opened Wrappers
  import opened RaftCore
  import opened RaftCluster
  import opened RaftSafety

  /** One request, its handling, and the handling of its reply. */
  function Exchange(l: Node, f: Node): (Node, Node) {
    var (f', reply) := HandleAppend(f, AppendFor(l, f.id));
    (HandleAppendReply(l, f.id, reply).0, f')
  }

  predicate Exchanged(a: (Node, Node), b: (Node, Node)) { b == Exchange(a.0, a.1) }

  /** Consecutive states of a leader and its follower. */
  ghost predicate IsExchange(run: seq<(Node, Node)>) {
    && run != []
    && forall i {:trigger Exchanged(run[i], run[i + 1])} :: 0 <= i < |run| - 1 ==> Exchanged(run[i], run[i + 1])
  }

  lemma LongerExchange(a: (Node, Node), run: seq<(Node, Node)>)
    requires IsExchange(run) && Exchanged(a, run[0])
    ensures IsExchange([a] + run)
  {
    var more := [a] + run;
    forall i | 0 <= i < |more| - 1 ensures Exchanged(more[i], more[i + 1]) {
      if i > 0 {
        var j := i - 1;
        assert Exchanged(run[j], run[j + 1]);
      }
    }
  }

  /** A leader facing a follower whose log agrees with its own up to every common term. */
  ghost predicate Facing(l: Node, f: Node) {
    && l.role.Leader? && f.term <= l.term
    && Tracks(f.log, l.log)
    && forall i :: 0 <= i < |f.log| ==> f.log[i].term >= 1
  }

  lemma CutTracks(log: Log, ref: Log, n: nat)
    requires n <= |log| && Tracks(log, ref)
    ensures Tracks(log[..n], ref)
  {
    var r := log[..n];
    forall i | 0 <= i < |r| && i < |ref| && r[i].term == ref[i].term ensures r[..i + 1] == ref[..i + 1] {
      assert log[i].term == ref[i].term;
      assert r[..i + 1] == log[..i + 1];
    }
  }

  lemma AgreeBefore(log: Log, ref: Log, n: nat)
    requires Tracks(log, ref) && n <= |log| && n <= |ref| && (n > 0 ==> log[n - 1].term == ref[n - 1].term)
    ensures log[..n] == ref[..n]
  {
    if n > 0 {
      var i := n - 1;
      assert log[..i + 1] == ref[..i + 1];
    }
  }

  lemma MergeReaches(log: Log, at: nat, entries: Log, ref: Log, upto: nat)
    requires at <= |log| && upto == at + |entries| <= |ref| && entries == ref[at..upto]
    requires log[..at] == ref[..at] && Tracks(log, ref)
    ensures var r := Merge(log, at, entries); |r| >= upto && r[..upto] == ref[..upto]
  {
    MergeAgainst(log, at, entries, ref);
  }

  lemma MergeBringsAll(log: Log, ref: Log, n: nat)
    requires Tracks(log, ref) && n <= |log| && n <= |ref| && log[..n] == ref[..n]
    ensures ref <= Merge(log, n, ref[n..])
  {
    MergeReaches(log, n, ref[n..], ref, |ref|);
    StartsWith(Merge(log, n, ref[n..]), ref, |ref|);
  }

  lemma StartsWith(log: Log, ref: Log, n: nat)
    requires n == |ref| <= |log| && log[..n] == ref[..n]
    ensures ref <= log
  {
  }

  /** A request whose previous entry matches leaves the leader's whole log at the front of the
      follower's; only a request within the leader's log can match. */
  lemma MatchReplicates(l: Node, f: Node)
    requires Facing(l, f) && Matches(f.log, AppendFor(l, f.id))
    ensures l.log <= AppendedTo(f.log, AppendFor(l, f.id))
  {
    var next := NextOf(l, f.id);
    var m := AppendFor(l, f.id);
    assert next <= |l.log| && (next > 0 ==> f.log[next - 1].term == l.log[next - 1].term);
    AgreeBefore(f.log, l.log, next);
    MergeBringsAll(f.log, l.log, next);
  }

  /** A rejection moves the next index at least one step down and keeps the two facing. */
  lemma RejectionBacksOff(l: Node, f: Node)
    requires Facing(l, f) && !Matches(f.log, AppendFor(l, f.id))
    ensures var (l', f') := Exchange(l, f);
            Facing(l', f') && f'.id == f.id && l'.log == l.log && NextOf(l', f.id) < NextOf(l, f.id)
  {
    var m := AppendFor(l, f.id);
    AppendParts(f, m);
    var at := m.prevLogIndex;
    if 0 <= at < |f.log| { CutTracks(f.log, l.log, at); }
  }

  lemma Accepted(l: Node, f: Node)
    requires Facing(l, f) && Matches(f.log, AppendFor(l, f.id))
    ensures l.log <= Exchange(l, f).1.log
  {
    AppendParts(f, AppendFor(l, f.id));
    MatchReplicates(l, f);
  }

  lemma OneExchange(l: Node, f: Node, l': Node, f': Node)
    requires Facing(l, f) && (l', f') == Exchange(l, f)
    ensures l.log <= f'.log
            || (Facing(l', f') && f'.id == f.id && l'.log == l.log && NextOf(l', f.id) < NextOf(l, f.id))
  {
    if Matches(f.log, AppendFor(l, f.id)) { Accepted(l, f); } else { RejectionBacksOff(l, f); }
  }

  /** From any next index, an undisturbed exchange puts the leader's whole log at the front of
      the follower's after at most as many rejections as that index, and one acceptance. */
  lemma {:induction false} CatchesUp(l: Node, f: Node) returns (run: seq<(Node, Node)>)
    requires Facing(l, f)
    ensures IsExchange(run) && run[0] == (l, f) && |run| <= NextOf(l, f.id) + 2
    ensures l.log <= run[|run| - 1].1.log
    decreases NextOf(l, f.id)
  {
    var next := Exchange(l, f);
    OneExchange(l, f, next.0, next.1);
    if l.log <= next.1.log { run := [next]; } else { run := CatchesUp(next.0, next.1); }
    LongerExchange((l, f), run);
    run := [(l, f)] + run;
  }

  /** So it does between any leader and any other node of no newer term in a reachable cluster. */
  lemma CatchesUpInRun(states: seq<Cluster>, steps: seq<Step>, j: nat, a: NodeId, b: NodeId)
    returns (run: seq<(Node, Node)>)
    requires IsRun(states, steps) && j < |states| && a in states[j].nodes && b in states[j].nodes && a != b
    requires states[j].nodes[a].role.Leader? && states[j].nodes[b].term <= states[j].nodes[a].term
    ensures var l, f := states[j].nodes[a], states[j].nodes[b];
            && IsExchange(run) && run[0] == (l, f) && |run| <= NextOf(l, b) + 2
            && l.log <= run[|run| - 1].1.log
  {
    var d := states[j];
    RunKeepsInv(states, steps, j);
    RootedNode(d, a);
    RootedNode(d, b);
    assert NodeOk(d, a, d.nodes[a]) && NodeOk(d, b, d.nodes[b]);
    RootedFacing(d, d.nodes[a], d.nodes[b]);
    run := CatchesUp(d.nodes[a], d.nodes[b]);
  }

  lemma RootedFacing(d: Cluster, l: Node, f: Node)
    requires Inv(d) && Rooted(d.leaderLog, l.log) && Rooted(d.leaderLog, f.log)
    requires l.role.Leader? && f.term <= l.term
    ensures Facing(l, f)
  {
    forall i | 0 <= i < |f.log| && i < |l.log| && f.log[i].term == l.log[i].term
      ensures f.log[..i + 1] == l.log[..i + 1]
    {
      AgreeingTerms(d.leaderLog, f.log, l.log, i);
    }
    forall i | 0 <= i < |f.log| ensures f.log[i].term >= 1 {
      assert RootedAt(d.leaderLog, f.log, i);
      assert ElectionOk(d, f.log[i].term, d.elections[f.log[i].term]);
    }
  }
}
