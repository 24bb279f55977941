/** What votes have to do with logs: whoever is elected had a log at least as up to date as its voters'. */
module Elections {
  import opened Types
  import opened LogModel
  import opened Replica
  import opened Cluster
  import opened Votes

  function LastTermOf(s: seq<Entry>): nat { if s == [] then 0 else s[|s| - 1].term }

  /** `a` is at least as up to date as `b`. */
  predicate AtLeast(a: seq<Entry>, b: seq<Entry>) {
    LastTermOf(a) > LastTermOf(b) || (LastTermOf(a) == LastTermOf(b) && |a| >= |b|)
  }

  // ----- invariants

  ghost predicate LeadersRecorded(c: Cluster)
    requires |c.nodes| == |c.full|
  {
    forall i :: 0 <= i < |c.nodes| && c.nodes[i].role.Leader? ==>
                  c.nodes[i].term in c.leaderLog && c.leaderLog[c.nodes[i].term] == c.full[i]
  }

  /** A candidate's request tells the end of its log. */
  ghost predicate RequestOk(c: Cluster, m: Message)
    requires |c.nodes| == |c.full|
  {
    m.VoteReq? && m.src < |c.nodes| && c.nodes[m.src].term == m.vote.term && c.nodes[m.src].role.Candidate? ==>
      m.vote.lastIndex == |c.full[m.src]| && m.vote.lastTerm == LastTermOf(c.full[m.src])
  }

  ghost predicate RequestsOk(c: Cluster)
    requires |c.nodes| == |c.full|
  {
    forall m :: m in c.net ==> RequestOk(c, m)
  }

  ghost predicate GrantUpToDate(c: Cluster, v: NodeId, t: nat)
    requires |c.nodes| == |c.full| && (v, t) in c.grants
  {
    var g := c.grants[(v, t)];
    g.candidate < |c.nodes| && c.nodes[g.candidate].term == t && c.nodes[g.candidate].role.Candidate? ==>
      AtLeast(c.full[g.candidate], g.log)
  }

  ghost predicate GrantsUpToDate(c: Cluster)
    requires |c.nodes| == |c.full|
  {
    forall v, t :: (v, t) in c.grants ==> GrantUpToDate(c, v, t)
  }

  /** Every voter of a leader had a log no more up to date than the leader's. */
  ghost predicate ElectionsUpToDate(c: Cluster) {
    forall t, u :: t in c.elections && u in c.elections[t].voters ==>
                     (u, t) in c.grants && AtLeast(c.elections[t].log, c.grants[(u, t)].log)
  }

  ghost predicate ElectionInv(c: Cluster) {
    VoteInv(c) && LeadersRecorded(c) && RequestsOk(c) && GrantsUpToDate(c) && ElectionsUpToDate(c)
  }

  // ----- what a step does to the acting node

  ghost predicate AskedWith(c: Cluster, x: NodeId, t: nat, log: seq<Entry>) {
    exists m :: m in c.net && m.VoteReq? && m.vote.candidate == x && m.vote.term == t
                && (if m.vote.lastTerm != LastTermOf(log) then m.vote.lastTerm > LastTermOf(log) else m.vote.lastIndex >= |log|)
  }

  /** Nothing is added to a log while a vote is cast or counted, and a vote goes to a log as up to date. */
  ghost predicate LogStep(c: Cluster, i: nat, n: Replica, whole: seq<Entry>)
    requires i < |c.nodes| == |c.full|
  {
    var o := c.nodes[i];
    && (n.votedFor.Some? && !(n.term == o.term && n.votedFor == o.votedFor) ==>
          whole == c.full[i] && (n.votedFor == Some(i) || AskedWith(c, n.votedFor.value, n.term, whole)))
    && (n.role.Candidate? || (n.role.Leader? && !(o.role.Leader? && n.term == o.term)) ==> whole == c.full[i])
  }

  ghost predicate Local(c: Cluster, i: nat, n: Replica, whole: seq<Entry>)
    requires i < |c.nodes| == |c.full|
  {
    VoteStep(c, i, n) && LogStep(c, i, n, whole)
  }

  // ----- preservation

  lemma KeepRecorded(c: Cluster, i: nat, n: Replica, whole: seq<Entry>, out: set<Message>, begun: seq<Read>)
    requires i < |c.nodes| == |c.full| && ElectionsSound(c) && PollsOk(c) && c.leaderLog.Keys == c.elections.Keys
    requires LeadersElected(c) && LeadersRecorded(c) && Local(c, i, n, whole)
    ensures LeadersRecorded(Put(c, i, n, whole, out, begun))
  {
    var d := Put(c, i, n, whole, out, begun);
    if n.role.Leader? && !(c.nodes[i].role.Leader? && n.term == c.nodes[i].term) {
      WinsOnce(c, i, n);
    }
    forall j | 0 <= j < |d.nodes| && d.nodes[j].role.Leader?
      ensures d.nodes[j].term in d.leaderLog && d.leaderLog[d.nodes[j].term] == d.full[j]
    {
      if j != i {
        assert d.nodes[j] == c.nodes[j];
      }
    }
  }

  lemma KeepRequests(c: Cluster, i: nat, n: Replica, whole: seq<Entry>, out: set<Message>, begun: seq<Read>)
    requires i < |c.nodes| == |c.full| && BallotsOk(c) && RequestsOk(c) && Local(c, i, n, whole)
    requires forall m :: m in out ==> RequestOk(Put(c, i, n, whole, out, begun), m)
    ensures RequestsOk(Put(c, i, n, whole, out, begun))
  {
    var d := Put(c, i, n, whole, out, begun);
    forall m | m in d.net ensures RequestOk(d, m) {
      if m in c.net {
        assert RequestOk(c, m) && BallotOk(c, m);
      }
    }
  }

  lemma NewGrantUpToDate(c: Cluster, i: nat, n: Replica, whole: seq<Entry>, out: set<Message>, begun: seq<Read>)
    requires i < |c.nodes| == |c.full| && BallotsOk(c) && VotesRecorded(c) && RequestsOk(c) && Local(c, i, n, whole)
    requires (i, n.term) in Put(c, i, n, whole, out, begun).grants && (i, n.term) !in c.grants
    ensures GrantUpToDate(Put(c, i, n, whole, out, begun), i, n.term)
  {
    var d := Put(c, i, n, whole, out, begun);
    var x := n.votedFor.value;
    if x != i {
      var m :| m in c.net && m.VoteReq? && m.vote.candidate == x && m.vote.term == n.term
               && (if m.vote.lastTerm != LastTermOf(whole) then m.vote.lastTerm > LastTermOf(whole) else m.vote.lastIndex >= |whole|);
      assert RequestOk(c, m) && BallotOk(c, m);
    }
  }

  lemma KeepUpToDate(c: Cluster, i: nat, n: Replica, whole: seq<Entry>, out: set<Message>, begun: seq<Read>)
    requires i < |c.nodes| == |c.full| && GrantsKept(c) && BallotsOk(c) && VotesRecorded(c)
    requires RequestsOk(c) && GrantsUpToDate(c) && Local(c, i, n, whole)
    ensures GrantsUpToDate(Put(c, i, n, whole, out, begun))
  {
    var d := Put(c, i, n, whole, out, begun);
    forall v, t | (v, t) in d.grants
      ensures GrantUpToDate(d, v, t)
    {
      if (v, t) in c.grants {
        assert GrantUpToDate(c, v, t) && GrantKept(c, v, t);
      } else {
        NewGrantUpToDate(c, i, n, whole, out, begun);
      }
    }
  }

  lemma KeepElectionsUpToDate(c: Cluster, i: nat, n: Replica, whole: seq<Entry>, out: set<Message>, begun: seq<Read>)
    requires i < |c.nodes| == |c.full| && GrantsKept(c) && PollsOk(c) && LeadersElected(c)
    requires GrantsUpToDate(c) && ElectionsUpToDate(c) && Local(c, i, n, whole)
    ensures ElectionsUpToDate(Put(c, i, n, whole, out, begun))
  {
    var d := Put(c, i, n, whole, out, begun);
    forall t, u | t in d.elections && u in d.elections[t].voters
      ensures (u, t) in d.grants && AtLeast(d.elections[t].log, d.grants[(u, t)].log)
    {
      if t !in c.elections {
        assert t == n.term && Polling(c, i, n);
        if c.nodes[i].role.Candidate? && n.term == c.nodes[i].term {
          assert VoteOk(c, u, i, t);
          assert GrantUpToDate(c, u, t);
        }
      }
    }
  }

  /** Every step that acts on one node as `Local` allows keeps the whole election invariant. */
  lemma KeepElectionInv(c: Cluster, i: nat, n: Replica, whole: seq<Entry>, out: set<Message>, begun: seq<Read>)
    requires ElectionInv(c) && i < |c.nodes| && Local(c, i, n, whole)
    requires forall m :: m in out ==> BallotOk(Put(c, i, n, whole, out, begun), m)
    requires forall m :: m in out ==> RequestOk(Put(c, i, n, whole, out, begun), m)
    ensures ElectionInv(Put(c, i, n, whole, out, begun))
  {
    KeepVoteInv(c, i, n, whole, out, begun);
    KeepRecorded(c, i, n, whole, out, begun);
    KeepRequests(c, i, n, whole, out, begun);
    KeepUpToDate(c, i, n, whole, out, begun);
    KeepElectionsUpToDate(c, i, n, whole, out, begun);
  }
}
