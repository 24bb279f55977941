/** What every step of every run keeps about votes and leaders, whatever the logs. */
module Votes {
  import opened Types
  import opened LogModel
  import opened Replica
  import opened Cluster

  // ----- quorums

  ghost predicate Quorum(n: nat, q: set<NodeId>) {
    (forall v :: v in q ==> v < n) && 2 * |q| > n
  }

  function Ids(n: nat): (s: set<NodeId>)
    ensures forall v: NodeId :: v in s <==> v < n
    ensures |s| == n
  {
    if n == 0 then {} else Ids(n - 1) + {n - 1}
  }

  lemma SubsetSize(a: set<NodeId>, b: set<NodeId>)
    requires a <= b
    ensures |a| <= |b|
  {
    assert b == a + (b - a);
  }

  /** Two majorities share a node. */
  lemma QuorumsMeet(n: nat, a: set<NodeId>, b: set<NodeId>) returns (v: NodeId)
    requires Quorum(n, a) && Quorum(n, b)
    ensures v in a && v in b
  {
    SubsetSize(a + b, Ids(n));
    assert |a + b| == |a| + |b| - |a * b|;
    v :| v in a * b;
  }

  // ----- invariants, though a node that steps down at its own term forgets its vote and may vote again

  ghost predicate Members(c: Cluster) {
    && |c.nodes| > 0 && |c.full| == |c.nodes|
    && (forall i :: 0 <= i < |c.nodes| ==> c.nodes[i].cfg.id == i && c.nodes[i].cfg.peers == Others(|c.nodes|, i))
    && c.leaderLog.Keys == c.elections.Keys
  }

  ghost predicate RolesVoteSelf(c: Cluster) {
    forall i :: 0 <= i < |c.nodes| && !c.nodes[i].role.Follower? ==>
                  c.nodes[i].votedFor == Some(i) && c.nodes[i].term >= 1
  }

  ghost predicate VotesRecorded(c: Cluster) {
    forall i :: 0 <= i < |c.nodes| && c.nodes[i].votedFor.Some? && c.nodes[i].term !in c.elections ==>
                  (i, c.nodes[i].term) in c.grants
  }

  /** While a term has no leader, a voter that is still in it sticks to its vote. */
  ghost predicate GrantKept(c: Cluster, v: NodeId, t: nat)
    requires (v, t) in c.grants
  {
    var x := c.grants[(v, t)].candidate;
    && v < |c.nodes| && x < |c.nodes|
    && c.nodes[v].term >= t && c.nodes[x].term >= t
    && (c.nodes[v].term == t && t !in c.elections ==> c.nodes[v].votedFor == Some(x))
  }

  ghost predicate GrantsKept(c: Cluster) { forall v, t :: (v, t) in c.grants ==> GrantKept(c, v, t) }

  /** The voters of a leader are pinned to it for the rest of the term. */
  ghost predicate VoterPinned(c: Cluster, t: nat, u: NodeId)
    requires t in c.elections
  {
    && u < |c.nodes|
    && c.nodes[u].term >= t
    && (c.nodes[u].term == t ==> c.nodes[u].votedFor == Some(c.elections[t].leader))
    && (u, t) in c.grants
    && c.grants[(u, t)].candidate == c.elections[t].leader
  }

  ghost predicate ElectionSound(c: Cluster, t: nat)
    requires t in c.elections
  {
    var e := c.elections[t];
    && e.leader < |c.nodes|
    && c.nodes[e.leader].term >= t
    && (c.nodes[e.leader].term == t ==> !c.nodes[e.leader].role.Candidate?)
    && Quorum(|c.nodes|, e.voters)
    && forall u :: u in e.voters ==> VoterPinned(c, t, u)
  }

  ghost predicate ElectionsSound(c: Cluster) { forall t :: t in c.elections ==> ElectionSound(c, t) }

  ghost predicate LeadersElected(c: Cluster) {
    forall i :: 0 <= i < |c.nodes| && c.nodes[i].role.Leader? ==>
                  c.nodes[i].term in c.elections && c.elections[c.nodes[i].term].leader == i
  }

  /** What a granted vote of `v` for `x` in term `t` is worth: it was recorded before the term had a
      leader, or it came from outside that leader's quorum, or it is for that leader. */
  ghost predicate VoteOk(c: Cluster, v: NodeId, x: NodeId, t: nat) {
    && v < |c.nodes|
    && c.nodes[v].term >= t
    && (((v, t) in c.grants && c.grants[(v, t)].candidate == x)
        || (t in c.elections && (v !in c.elections[t].voters || c.elections[t].leader == x)))
  }

  ghost predicate PollsOk(c: Cluster) {
    forall i, v :: 0 <= i < |c.nodes| && c.nodes[i].role.Candidate? && v in c.nodes[i].votes ==>
                     VoteOk(c, v, i, c.nodes[i].term)
  }

  ghost predicate BallotOk(c: Cluster, m: Message) {
    match m
    case VoteReq(src, dst, vote) =>
      vote.candidate == src && src < |c.nodes| && dst != src && c.nodes[src].term >= vote.term
    case VoteRep(src, dst, asked, voted) => voted.granted ==> VoteOk(c, src, dst, asked)
    case AppendReq(src, dst, append) =>
      append.term in c.elections && c.elections[append.term].leader == src && dst != src
    case BeatReq(src, dst, read, beat) =>
      beat.term in c.elections && c.elections[beat.term].leader == src && dst != src
    case _ => true
  }

  ghost predicate BallotsOk(c: Cluster) { forall m :: m in c.net ==> BallotOk(c, m) }

  ghost predicate VoteInv(c: Cluster) {
    && Members(c) && RolesVoteSelf(c) && VotesRecorded(c) && GrantsKept(c) && ElectionsSound(c)
    && LeadersElected(c) && PollsOk(c) && BallotsOk(c)
  }

  // ----- what a step does to the acting node

  /** The term is not to fall, and a vote is kept, cast for oneself in a new term, or granted on request by
      a node that has none. */
  ghost predicate VoteKept(c: Cluster, i: nat, n: Replica)
    requires i < |c.nodes|
  {
    var o := c.nodes[i];
    && o.term <= n.term
    && (n.votedFor.Some? ==>
          || (n.term == o.term && n.votedFor == o.votedFor)
          || (n.term == o.term + 1 && n.votedFor == Some(i) && !n.role.Follower?)
          || ((n.term > o.term || o.votedFor.None?) && n.votedFor.value != i && n.role.Follower?
              && Asked(c, n.votedFor.value, n.term)))
    && (n.term == o.term && o.votedFor.Some? && n.votedFor != o.votedFor ==>
          !o.role.Follower? && o.term in c.elections && c.elections[o.term].leader != i)
    && (!n.role.Follower? ==> n.votedFor == Some(i))
  }

  ghost predicate Asked(c: Cluster, x: NodeId, t: nat) {
    exists m :: m in c.net && m.VoteReq? && m.vote.candidate == x && m.vote.term == t
  }

  /** Votes counted so far: those of the running election, or just one's own. */
  ghost predicate Polling(c: Cluster, i: nat, n: Replica)
    requires i < |c.nodes|
  {
    var o := c.nodes[i];
    || (o.role.Candidate? && n.term == o.term && forall v :: v in n.votes ==> v in o.votes || VoteOk(c, v, i, n.term))
    || (n.term == o.term + 1 && n.votes == {i})
  }

  ghost predicate RoleKept(c: Cluster, i: nat, n: Replica)
    requires i < |c.nodes|
  {
    var o := c.nodes[i];
    && (n.role.Candidate? ==> Polling(c, i, n))
    && (n.role.Leader? ==>
          || (o.role.Leader? && n.term == o.term)
          || (Polling(c, i, n) && 2 * |n.votes| > |c.nodes| && forall v :: v in n.votes ==> v < |c.nodes|))
    && n.cfg == o.cfg
  }

  ghost predicate VoteStep(c: Cluster, i: nat, n: Replica)
    requires i < |c.nodes|
  {
    VoteKept(c, i, n) && RoleKept(c, i, n)
  }

  // ----- preservation

  /** A node can only win a term that has no leader yet. */
  lemma WinsOnce(c: Cluster, i: nat, n: Replica)
    requires i < |c.nodes| == |c.full| && VoteStep(c, i, n) && ElectionsSound(c) && PollsOk(c)
    requires n.role.Leader? && !(c.nodes[i].role.Leader? && n.term == c.nodes[i].term)
    ensures n.term !in c.elections
  {
    var t := n.term;
    if t in c.elections {
      var e := c.elections[t];
      assert ElectionSound(c, t);
      var u := QuorumsMeet(|c.nodes|, e.voters, n.votes);
      assert false;
    }
  }

  lemma KeepGrants(c: Cluster, i: nat, n: Replica, whole: seq<Entry>, out: set<Message>, begun: seq<Read>)
    requires i < |c.nodes| == |c.full| && VoteStep(c, i, n)
    requires Members(c) && RolesVoteSelf(c) && VotesRecorded(c) && GrantsKept(c) && BallotsOk(c)
    ensures GrantsKept(Put(c, i, n, whole, out, begun)) && VotesRecorded(Put(c, i, n, whole, out, begun)) && RolesVoteSelf(Put(c, i, n, whole, out, begun))
  {
    var d := Put(c, i, n, whole, out, begun);
    forall v, t | (v, t) in d.grants
      ensures GrantKept(d, v, t)
    {
      if (v, t) in c.grants {
        assert GrantKept(c, v, t);
      }
    }
  }

  lemma KeepVoter(c: Cluster, i: nat, n: Replica, whole: seq<Entry>, out: set<Message>, begun: seq<Read>, t: nat, u: NodeId)
    requires i < |c.nodes| == |c.full| && VoteStep(c, i, n) && RolesVoteSelf(c)
    requires t in c.elections && VoterPinned(c, t, u)
    ensures VoterPinned(Put(c, i, n, whole, out, begun), t, u)
  {
  }

  lemma KeepElection(c: Cluster, i: nat, n: Replica, whole: seq<Entry>, out: set<Message>, begun: seq<Read>, t: nat)
    requires i < |c.nodes| == |c.full| && VoteStep(c, i, n) && RolesVoteSelf(c)
    requires t in c.elections && ElectionSound(c, t)
    ensures ElectionSound(Put(c, i, n, whole, out, begun), t)
  {
    var d := Put(c, i, n, whole, out, begun);
    forall u | u in c.elections[t].voters ensures VoterPinned(d, t, u) {
      KeepVoter(c, i, n, whole, out, begun, t, u);
    }
  }

  lemma KeepElections(c: Cluster, i: nat, n: Replica, whole: seq<Entry>, out: set<Message>, begun: seq<Read>)
    requires i < |c.nodes| == |c.full| && VoteStep(c, i, n)
    requires Members(c) && RolesVoteSelf(c) && ElectionsSound(c) && PollsOk(c) && GrantsKept(c) && LeadersElected(c)
    ensures ElectionsSound(Put(c, i, n, whole, out, begun))
  {
    var d := Put(c, i, n, whole, out, begun);
    forall t | t in d.elections
      ensures ElectionSound(d, t)
    {
      if t in c.elections {
        KeepElection(c, i, n, whole, out, begun, t);
      } else {
        NewElection(c, i, n, whole, out, begun);
      }
    }
  }

  lemma NewElection(c: Cluster, i: nat, n: Replica, whole: seq<Entry>, out: set<Message>, begun: seq<Read>)
    requires i < |c.nodes| == |c.full| && VoteStep(c, i, n)
    requires Members(c) && PollsOk(c) && GrantsKept(c) && LeadersElected(c)
    requires n.role.Leader? && n.term !in c.elections
    ensures ElectionSound(Put(c, i, n, whole, out, begun), n.term)
  {
    var d := Put(c, i, n, whole, out, begun);
    assert Polling(c, i, n);
    forall u | u in n.votes
      ensures VoterPinned(d, n.term, u)
    {
      if c.nodes[i].role.Candidate? && n.term == c.nodes[i].term {
        assert VoteOk(c, u, i, n.term);
        assert GrantKept(c, u, n.term);
      } else {
        assert u == i;
      }
    }
  }

  lemma KeepLeaders(c: Cluster, i: nat, n: Replica, whole: seq<Entry>, out: set<Message>, begun: seq<Read>)
    requires i < |c.nodes| == |c.full| && VoteStep(c, i, n)
    requires ElectionsSound(c) && PollsOk(c) && LeadersElected(c)
    ensures LeadersElected(Put(c, i, n, whole, out, begun))
  {
    var d := Put(c, i, n, whole, out, begun);
    if n.role.Leader? && !(c.nodes[i].role.Leader? && n.term == c.nodes[i].term) {
      WinsOnce(c, i, n);
    }
    forall j | 0 <= j < |d.nodes| && d.nodes[j].role.Leader?
      ensures d.nodes[j].term in d.elections && d.elections[d.nodes[j].term].leader == j
    {
      if j != i {
        assert d.nodes[j] == c.nodes[j];
      }
    }
  }

  lemma KeepVote(c: Cluster, i: nat, n: Replica, whole: seq<Entry>, out: set<Message>, begun: seq<Read>, v: NodeId, x: NodeId, t: nat)
    requires i < |c.nodes| == |c.full| && VoteStep(c, i, n) && VoteOk(c, v, x, t)
    ensures VoteOk(Put(c, i, n, whole, out, begun), v, x, t)
  {
  }

  /** Own votes and granted votes are good votes. */
  lemma CastVote(d: Cluster, v: NodeId, x: NodeId)
    requires v < |d.nodes| && d.nodes[v].votedFor == Some(x)
    requires VotesRecorded(d) && GrantsKept(d) && ElectionsSound(d)
    ensures VoteOk(d, v, x, d.nodes[v].term)
  {
    var t := d.nodes[v].term;
    if t in d.elections {
      assert ElectionSound(d, t);
      if v in d.elections[t].voters {
        assert VoterPinned(d, t, v);
      }
    } else {
      assert GrantKept(d, v, t);
    }
  }

  lemma KeepPolls(c: Cluster, i: nat, n: Replica, whole: seq<Entry>, out: set<Message>, begun: seq<Read>)
    requires i < |c.nodes| == |c.full| && VoteStep(c, i, n) && PollsOk(c)
    requires VotesRecorded(Put(c, i, n, whole, out, begun)) && GrantsKept(Put(c, i, n, whole, out, begun)) && ElectionsSound(Put(c, i, n, whole, out, begun))
    ensures PollsOk(Put(c, i, n, whole, out, begun))
  {
    var d := Put(c, i, n, whole, out, begun);
    forall j, v | 0 <= j < |d.nodes| && d.nodes[j].role.Candidate? && v in d.nodes[j].votes
      ensures VoteOk(d, v, j, d.nodes[j].term)
    {
      if j != i {
        KeepVote(c, i, n, whole, out, begun, v, j, c.nodes[j].term);
      } else if c.nodes[i].role.Candidate? && n.term == c.nodes[i].term {
        KeepVote(c, i, n, whole, out, begun, v, i, n.term);
      } else {
        CastVote(d, i, i);
      }
    }
  }

  lemma KeepBallots(c: Cluster, i: nat, n: Replica, whole: seq<Entry>, out: set<Message>, begun: seq<Read>)
    requires i < |c.nodes| == |c.full| && VoteStep(c, i, n) && BallotsOk(c)
    requires forall m :: m in out ==> BallotOk(Put(c, i, n, whole, out, begun), m)
    ensures BallotsOk(Put(c, i, n, whole, out, begun))
  {
    var d := Put(c, i, n, whole, out, begun);
    forall m | m in d.net
      ensures BallotOk(d, m)
    {
      if m in c.net {
        assert BallotOk(c, m);
        if m.VoteRep? && m.voted.granted {
          KeepVote(c, i, n, whole, out, begun, m.src, m.dst, m.asked);
        }
      }
    }
  }

  /** Every step that acts on one node as `VoteStep` allows keeps the whole invariant. */
  lemma KeepVoteInv(c: Cluster, i: nat, n: Replica, whole: seq<Entry>, out: set<Message>, begun: seq<Read>)
    requires i < |c.nodes| && VoteInv(c) && VoteStep(c, i, n)
    requires forall m :: m in out ==> BallotOk(Put(c, i, n, whole, out, begun), m)
    ensures VoteInv(Put(c, i, n, whole, out, begun))
  {
    KeepGrants(c, i, n, whole, out, begun);
    KeepElections(c, i, n, whole, out, begun);
    KeepLeaders(c, i, n, whole, out, begun);
    KeepPolls(c, i, n, whole, out, begun);
    KeepBallots(c, i, n, whole, out, begun);
  }

  // ----- the steps

  /** What the invariants say of one node. */
  ghost predicate VoterOk(c: Cluster, i: nat) {
    && i < |c.nodes| == |c.full|
    && var n := c.nodes[i];
    && n.cfg.id == i && |n.cfg.peers| == |c.nodes| - 1
    && (forall p: NodeId :: p in n.cfg.peers ==> p != i)
    && (!n.role.Follower? ==> n.votedFor == Some(i) && n.term >= 1)
    && (n.role.Leader? ==> n.term in c.elections && c.elections[n.term].leader == i)
  }

  lemma KnowVoter(c: Cluster, i: nat)
    requires i < |c.nodes| && Members(c) && RolesVoteSelf(c) && LeadersElected(c)
    ensures VoterOk(c, i)
  {
  }

  /** Applying entries and compacting the log touch neither votes nor roles nor terms. */
  lemma ApplyVotes(r: Replica)
    ensures var a := ApplyCommitted(r); a == r.(boards := a.boards, lastApplied := a.lastApplied, log := a.log)
  {
  }

  /** A node that only follows a higher term, or keeps what matters. */
  lemma QuietVotes(c: Cluster, i: nat, n: Replica)
    requires VoterOk(c, i) && n.cfg == c.nodes[i].cfg
    requires || (n.term > c.nodes[i].term && n.votedFor.None? && n.role.Follower?)
             || (n.term == c.nodes[i].term && n.votedFor == c.nodes[i].votedFor
                 && (n.role.Follower? || (n.role == c.nodes[i].role && n.votes == c.nodes[i].votes)))
    ensures VoteStep(c, i, n)
  {
  }

  lemma TimeoutVotes(c: Cluster, i: nat)
    requires VoterOk(c, i) && !c.nodes[i].role.Leader?
    ensures VoteStep(c, i, RunElection(c.nodes[i]))
  {
    var n := RunElection(c.nodes[i]);
    assert n.votes == {i} && n.term == c.nodes[i].term + 1;
    assert Polling(c, i, n);
    if n.role.Leader? { assert |c.nodes| == 1; }
  }

  lemma VoteReqVotes(c: Cluster, m: Message)
    requires VoterOk(c, m.dst) && m in c.net && m.VoteReq? && BallotOk(c, m)
    ensures VoteStep(c, m.dst, HandleRequestVote(c.nodes[m.dst], m.vote).0)
  {
    var (n, rep) := HandleRequestVote(c.nodes[m.dst], m.vote);
    if rep.granted { assert Asked(c, m.vote.candidate, n.term); }
  }

  lemma VoteRepVotes(c: Cluster, m: Message)
    requires VoterOk(c, m.dst) && m.VoteRep? && BallotOk(c, m) && PollsOk(c)
    ensures VoteStep(c, m.dst, OnVoteReply(c.nodes[m.dst], m.asked, m.src, m.voted))
  {
    var i, o := m.dst, c.nodes[m.dst];
    var n := OnVoteReply(o, m.asked, m.src, m.voted);
    if !n.role.Follower? && !o.role.Leader? {
      forall v | v in n.votes ensures VoteOk(c, v, i, n.term) {
        if v in o.votes { assert VoteOk(c, v, i, o.term); }
      }
    }
  }

  /** The same for whatever follows from hearing a leader. */
  lemma HeardVotes(c: Cluster, i: nat, term: nat, n: Replica)
    requires VoterOk(c, i) && term >= c.nodes[i].term
    requires term in c.elections && c.elections[term].leader != i
    requires var h := Hear(c.nodes[i], term);
             n.term == h.term && n.votedFor == h.votedFor && n.role == h.role && n.votes == h.votes && n.cfg == h.cfg
    ensures VoteStep(c, i, n)
  {
  }

  lemma AppendVotes(r: Replica, args: AppendArgs)
    ensures var (n, h) := (HandleAppendEntries(r, args).0, if args.term < r.term then r else Hear(r, args.term));
            n.term == h.term && n.votedFor == h.votedFor && n.role == h.role && n.votes == h.votes && n.cfg == h.cfg
  {
    var f := Hear(r, args.term);
    var g := f.(log := Merge(f.log, f.commitIndex, args.entries).0);
    ApplyVotes(g.(commitIndex := Min(args.commit, g.log.LastIndex())));
  }

  lemma BeatVotes(r: Replica, args: BeatArgs)
    ensures var (n, h) := (HandleHeartbeat(r, args).0, if args.term < r.term then r else Hear(r, args.term));
            n.term == h.term && n.votedFor == h.votedFor && n.role == h.role && n.votes == h.votes && n.cfg == h.cfg
  {
    var f := Hear(r, args.term);
    ApplyVotes(f.(commitIndex := Min(args.commit, f.log.LastIndex())));
  }

  lemma MessageVotes(c: Cluster, s: Step)
    requires PollsOk(c) && BallotsOk(c) && Enabled(c, s) && VoterOk(c, Actor(s))
    requires s.OnVoteReq? || s.OnVoteRep? || s.OnAppendReq? || s.OnAppendRep? || s.OnBeat?
    ensures VoteStep(c, Actor(s), Effect(c, s).0)
  {
    var r := c.nodes[Actor(s)];
    assert BallotOk(c, s.m);
    match s {
      case OnVoteReq(m) => VoteReqVotes(c, m);
      case OnVoteRep(m) => VoteRepVotes(c, m);
      case OnAppendReq(m) =>
        AppendVotes(r, m.append);
        if m.append.term < r.term { QuietVotes(c, m.dst, r); } else { HeardVotes(c, m.dst, m.append.term, Effect(c, s).0); }
      case OnAppendRep(m) => QuietVotes(c, m.dst, OnAppendReply(r, m.src, m.sent, m.appended));
      case OnBeat(m) =>
        BeatVotes(r, m.beat);
        if m.beat.term < r.term { QuietVotes(c, m.dst, r); } else { HeardVotes(c, m.dst, m.beat.term, Effect(c, s).0); }
    }
  }

  lemma OwnVotes(c: Cluster, s: Step)
    requires Enabled(c, s) && VoterOk(c, Actor(s))
    requires !(s.OnVoteReq? || s.OnVoteRep? || s.OnAppendReq? || s.OnAppendRep? || s.OnBeat?)
    ensures VoteStep(c, Actor(s), Effect(c, s).0)
  {
    var r := c.nodes[Actor(s)];
    if s.Timeout? {
      TimeoutVotes(c, s.node);
    } else {
      if s.Advance? { ApplyVotes(r.(commitIndex := CommitPoint(r, r.log.LastIndex()))); }
      if s.EndRead? { ReadFrame(r, c.started[s.read].term, 1, Results(s.replies)); }
      QuietVotes(c, Actor(s), Effect(c, s).0);
    }
  }

  /** What is sent is as the invariant says of messages. */
  lemma SentBallots(c: Cluster, s: Step, whole: seq<Entry>, begun: seq<Read>)
    requires Enabled(c, s) && VoterOk(c, Actor(s)) && VoteStep(c, Actor(s), Effect(c, s).0) && !s.OnVoteReq?
    ensures forall m :: m in Effect(c, s).1 ==> BallotOk(Put(c, Actor(s), Effect(c, s).0, whole, Effect(c, s).1, begun), m)
  {
  }

  /** A granted vote is worth what the records say. */
  lemma SentVote(c: Cluster, s: Step, whole: seq<Entry>, begun: seq<Read>)
    requires VoteInv(c) && Enabled(c, s) && VoteStep(c, Actor(s), Effect(c, s).0) && s.OnVoteReq?
    ensures forall m :: m in Effect(c, s).1 ==> BallotOk(Put(c, Actor(s), Effect(c, s).0, whole, Effect(c, s).1, begun), m)
  {
    var m := s.m;
    var (n, out) := Effect(c, s);
    KeepGrants(c, m.dst, n, whole, out, begun);
    KeepElections(c, m.dst, n, whole, out, begun);
    assert BallotOk(c, m);
    if HandleRequestVote(c.nodes[m.dst], m.vote).1.granted {
      CastVote(Put(c, m.dst, n, whole, out, begun), m.dst, m.src);
    }
  }

  lemma NextVotes(c: Cluster, s: Step, d: Cluster)
    requires VoteInv(c) && Next(c, s, d)
    ensures VoteInv(d) && VoteStep(c, Actor(s), Effect(c, s).0)
  {
    KnowVoter(c, Actor(s));
    if s.OnVoteReq? || s.OnVoteRep? || s.OnAppendReq? || s.OnAppendRep? || s.OnBeat? {
      MessageVotes(c, s);
    } else {
      OwnVotes(c, s);
    }
    if s.OnVoteReq? {
      SentVote(c, s, Whole(c, s), Begun(c, s));
    } else {
      SentBallots(c, s, Whole(c, s), Begun(c, s));
    }
    KeepVoteInv(c, Actor(s), Effect(c, s).0, Whole(c, s), Effect(c, s).1, Begun(c, s));
  }

  lemma InitVotes(c: Cluster)
    requires Init(c)
    ensures VoteInv(c)
  {
  }

  // ----- whole runs

  lemma {:induction false} RunVotes(states: seq<Cluster>, steps: seq<Step>, k: nat)
    requires IsRun(states, steps) && k < |states|
    ensures VoteInv(states[k]) && |states[k].nodes| == |states[0].nodes|
  {
    if k == 0 {
      InitVotes(states[0]);
    } else {
      RunVotes(states, steps, k - 1);
      assert Taken(states, steps, k - 1);
      NextVotes(states[k - 1], steps[k - 1], states[k]);
    }
  }

  /** Elections are never revised. */
  ghost predicate Elected(c: Cluster, d: Cluster) {
    |c.nodes| == |d.nodes| && forall t :: t in c.elections ==> t in d.elections && c.elections[t] == d.elections[t]
  }

  lemma {:induction false} RunElected(states: seq<Cluster>, steps: seq<Step>, j: nat, k: nat)
    requires IsRun(states, steps) && j <= k < |states|
    ensures Elected(states[j], states[k])
    decreases k
  {
    if j < k {
      RunElected(states, steps, j, k - 1);
      assert Taken(states, steps, k - 1);
    }
  }

  /** Whoever leads is on record, now and later. */
  lemma LeaderRecorded(states: seq<Cluster>, steps: seq<Step>, j: nat, k: nat, a: NodeId)
    requires IsRun(states, steps) && j <= k < |states| && a < |states[j].nodes| && states[j].nodes[a].role.Leader?
    ensures var t := states[j].nodes[a].term;
            t in states[k].elections && states[k].elections[t].leader == a
  {
    RunVotes(states, steps, j);
    RunElected(states, steps, j, k);
  }

  /** Election Safety: at most one node ever leads a term, whatever the size of the cluster, the order of
      messages, the restarts and the snapshots taken. */
  lemma ElectionSafety(states: seq<Cluster>, steps: seq<Step>, j: nat, k: nat, a: NodeId, b: NodeId)
    requires IsRun(states, steps) && j < |states| && k < |states|
    requires a < |states[j].nodes| && b < |states[k].nodes|
    requires states[j].nodes[a].role.Leader? && states[k].nodes[b].role.Leader?
    requires states[j].nodes[a].term == states[k].nodes[b].term
    ensures a == b
  {
    LeaderRecorded(states, steps, j, |states| - 1, a);
    LeaderRecorded(states, steps, k, |states| - 1, b);
  }
}
