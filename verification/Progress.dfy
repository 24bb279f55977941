/** A leader that can reach a majority gets its log committed. */
module Progress {
  import opened Types
  import opened LogModel
  import opened Replica
  import opened ReplicaRuns
  import opened Votes
  import opened Nodes
  import opened Steps
  import opened Commits
  import opened CatchUp
  import opened Answers

  /** A leader and the peers it replicates to. */
  datatype Team = Team(leader: Replica, followers: map<NodeId, Replica>)

  function PairOf(t: Team, p: NodeId): Pair
    requires p in t.followers
  {
    Pair(t.leader, t.followers[p])
  }

  /** One round with peer `p`. */
  function Visit(t: Team, p: NodeId): Team {
    if p !in t.followers then t
    else Team(Round(PairOf(t, p)).leader, t.followers[p := Round(PairOf(t, p)).follower])
  }

  /** Rounds with the peers in the order of the schedule, however they interleave. */
  function VisitAll(t: Team, schedule: seq<NodeId>): Team {
    if schedule == [] then t else Visit(VisitAll(t, schedule[..|schedule| - 1]), schedule[|schedule| - 1])
  }

  function Visits(schedule: seq<NodeId>, p: NodeId): nat {
    if schedule == [] then 0
    else Visits(schedule[..|schedule| - 1], p) + if schedule[|schedule| - 1] == p then 1 else 0
  }

  /** Nobody is in a higher term than the leader. */
  ghost predicate InTerm(t: Team) {
    t.leader.role.Leader? && forall p :: p in t.followers ==> t.followers[p].cfg.id == p && t.followers[p].term <= t.leader.term
  }

  // ----- one visit

  /** Whatever the follower's log: a round in term changes only what the leader knows of this peer. */
  lemma RoundInTerm(p: Pair)
    requires p.leader.role.Leader? && p.follower.term <= p.leader.term
    ensures Follows(p, Round(p)) && Round(p).follower.term <= p.leader.term
  {
    var peer := p.follower.cfg.id;
    if PrepareAppend(p.leader, peer).Some? {
      var args := PrepareAppend(p.leader, peer).value;
      AppendTerm(p.follower, args);
      AppendVotes(p.follower, args);
      LearnExactly(p.leader, peer, args, HandleAppendEntries(p.follower, args).1);
    }
  }

  lemma OtherWithin(l: Replica, m: Replica, f: Replica, g: Replica, h: Replica, all: seq<Entry>, n: nat)
    requires Within(Pair(l, f), all, n) && Follows(Pair(l, g), Pair(m, h)) && g.cfg.id != f.cfg.id
    ensures Within(Pair(m, f), all, n)
  {
  }

  ghost predicate Owes(t: Team, p: NodeId, all: seq<Entry>, n: nat) { p in t.followers && Within(PairOf(t, p), all, n) }

  lemma VisitOwes(t: Team, x: NodeId, p: NodeId, all: seq<Entry>, n: nat)
    requires InTerm(t) && Owes(t, p, all, n)
    ensures Owes(Visit(t, x), p, all, if x == p && n > 0 then n - 1 else n)
  {
    if x == p {
      RoundWithin(PairOf(t, p), all, n);
    } else if x in t.followers {
      RoundInTerm(PairOf(t, x));
      OtherWithin(t.leader, Visit(t, x).leader, t.followers[p], t.followers[x], Visit(t, x).followers[x], all, n);
    }
  }

  /** The leader is the same but for what it knows of its peers. */
  ghost predicate SameLeader(t: Team, u: Team) {
    u.leader == t.leader.(nextIndex := u.leader.nextIndex, matchIndex := u.leader.matchIndex)
  }

  lemma VisitInTerm(t: Team, x: NodeId)
    requires InTerm(t)
    ensures InTerm(Visit(t, x)) && SameLeader(t, Visit(t, x))
  {
    if x in t.followers { RoundInTerm(PairOf(t, x)); }
  }

  lemma {:induction false} VisitAllInTerm(t: Team, schedule: seq<NodeId>)
    requires InTerm(t)
    ensures InTerm(VisitAll(t, schedule)) && SameLeader(t, VisitAll(t, schedule))
  {
    if schedule != [] {
      VisitAllInTerm(t, schedule[..|schedule| - 1]);
      VisitInTerm(VisitAll(t, schedule[..|schedule| - 1]), schedule[|schedule| - 1]);
    }
  }

  function Left(due: nat, visits: nat): nat { due - Min(due, visits) }

  lemma {:induction false} VisitAllOwes(t: Team, schedule: seq<NodeId>, p: NodeId, all: seq<Entry>, n: nat)
    requires InTerm(t) && Owes(t, p, all, n)
    ensures Owes(VisitAll(t, schedule), p, all, Left(n, Visits(schedule, p)))
  {
    if schedule != [] {
      var before, x := schedule[..|schedule| - 1], schedule[|schedule| - 1];
      VisitAllInTerm(t, before);
      VisitAllOwes(t, before, p, all, n);
      VisitOwes(VisitAll(t, before), x, p, all, Left(n, Visits(before, p)));
    }
  }

  // ----- the leader's knowledge

  /** The leader can serve peer `p`, and the schedule visits it often enough. */
  ghost predicate Reached(t: Team, p: NodeId, all: seq<Entry>, schedule: seq<NodeId>) {
    && p in t.followers && Lagging(PairOf(t, p), all) && Serves(PairOf(t, p))
    && Visits(schedule, p) >= Due(PairOf(t, p), all)
  }

  lemma ReachedIsDone(t: Team, p: NodeId, all: seq<Entry>, schedule: seq<NodeId>)
    requires InTerm(t) && Reached(t, p, all, schedule)
    ensures var u := VisitAll(t, schedule); p in u.followers && Done(PairOf(u, p), all)
  {
    VisitAllOwes(t, schedule, p, all, Due(PairOf(t, p), all));
  }

  lemma KnownToMajority(l: Replica, size: nat, i: NodeId, q: set<NodeId>, n: nat)
    requires Seated(l, size, i) && Quorum(size, q + {i}) && i !in q && forall p :: p in q ==> MatchIndex(l, p) >= n
    ensures Quorum(size, Holders(l, l.cfg.peers, n) + {i})
  {
    forall p | p in q ensures p in l.cfg.peers { assert p in q + {i}; }
    HoldersApart(l, size, i, n);
    SubsetSize(q + {i}, Holders(l, l.cfg.peers, n) + {i});
  }

  /** When a leader's last entry is of its own term, nobody is in a higher term, and it has reached enough peers
      to make a majority with itself, in whatever order and whoever else it visited meanwhile: each of them has
      its whole log, its next commit advance commits and shows all of it, and a write at any index of it is
      answered with success. */
  lemma MajorityCommits(t: Team, all: seq<Entry>, size: nat, i: NodeId, q: set<NodeId>, schedule: seq<NodeId>)
    requires InTerm(t) && Seated(t.leader, size, i) && Stands(t.leader, all)
    requires all != [] && all[|all| - 1].term == t.leader.term
    requires Quorum(size, q + {i}) && i !in q && forall p :: p in q ==> Reached(t, p, all, schedule)
    ensures var u := VisitAll(t, schedule);
            && (forall p :: p in q ==> p in u.followers && Refines(u.followers[p].log, all))
            && UpdateCommitIndex(u.leader).commitIndex == |all| && Stands(UpdateCommitIndex(u.leader), all)
            && forall n :: 1 <= n <= |all| ==> FinishWrite(u.leader, n).1
  {
    var u := VisitAll(t, schedule);
    VisitAllInTerm(t, schedule);
    forall p | p in q ensures p in u.followers && Refines(u.followers[p].log, all) && MatchIndex(u.leader, p) >= |all| {
      ReachedIsDone(t, p, all, schedule);
      DoneRefines(PairOf(u, p), all);
      VisitAllInTerm(t, schedule);
    }
    AllCommitted(u.leader, all, size, i, q);
  }

  lemma AllCommitted(l: Replica, all: seq<Entry>, size: nat, i: NodeId, q: set<NodeId>)
    requires l.role.Leader? && Seated(l, size, i) && Stands(l, all) && all != [] && all[|all| - 1].term == l.term
    requires Quorum(size, q + {i}) && i !in q && forall p :: p in q ==> MatchIndex(l, p) >= |all|
    ensures UpdateCommitIndex(l).commitIndex == |all| && Stands(UpdateCommitIndex(l), all)
    ensures forall n :: 1 <= n <= |all| ==> FinishWrite(l, n).1
  {
    KnownToMajority(l, size, i, q, |all|);
    assert Backed(l, size, i, all, |all|);
    AdvanceExactly(l, size, i, all);
    forall n | 1 <= n <= |all| ensures FinishWrite(l, n).1 {
      KnownToMajority(l, size, i, q, n);
      WriteExactly(l, size, i, n);
    }
  }
}
