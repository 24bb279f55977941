/** Every step of an anchored run acts on its node's log as the invariants allow: elections add nothing to
    it, a leader's write appends, and a follower that takes a batch comes nearer to its leader's log. What
    a node sends tells the truth about its full log. */
module Steps {
  import opened Types
  import opened LogModel
  import opened Replica
  import opened ReplicaRuns
  import opened Cluster
  import opened Votes
  import opened Nodes
  import opened Elections
  import opened Logs

  ghost predicate Inv(c: Cluster) { ElectionInv(c) && LogInv(c) && NodesStand(c) && BatchesOf(c) }

  // ----- a log and the full log it stands for

  lemma LogEnd(log: Log, full: seq<Entry>)
    requires Refines(log, full)
    ensures log.LastIndex() == |full| && log.LastTerm() == LastTermOf(full)
  {
  }

  /** A slice of the leader's log, or nothing from beyond its end. */
  ghost predicate TakenFrom(s: seq<Entry>, a: AppendArgs, cap: nat) {
    && a.entries == SliceOf(s, a.prevIndex, cap)
    && a.prevTerm == (if 1 <= a.prevIndex <= |s| then s[a.prevIndex - 1].term else 0)
  }

  lemma TakenIsOk(c: Cluster, a: AppendArgs, cap: nat)
    requires a.term in c.leaderLog && TakenFrom(c.leaderLog[a.term], a, cap)
    ensures AppendOk(c, a)
  {
  }

  /** What a leader sends is a slice of its full log. */
  lemma BatchOk(d: Cluster, r: Replica, full: seq<Entry>, p: NodeId)
    requires Refines(r.log, full) && r.term in d.leaderLog && d.leaderLog[r.term] == full
    requires PrepareAppend(r, p).Some?
    ensures AppendOk(d, PrepareAppend(r, p).value)
  {
    RequestExactly(r, full, p);
    TakenIsOk(d, PrepareAppend(r, p).value, r.cfg.batchCap);
  }

  lemma RootedMatch(c: Cluster, a: seq<Entry>, b: seq<Entry>)
    requires AllRooted(c, a) && AllRooted(c, b)
    ensures Matching(a, b)
  {
    forall k | 0 <= k < |a| && k < |b| && a[k].term == b[k].term
      ensures a[..k + 1] == b[..k + 1]
    {
      assert Rooted(c, a, k) && Rooted(c, b, k);
    }
  }

  /** The compacted part of a node's log is a prefix of the leader's log. */
  ghost predicate AnchoredTo(base: nat, full: seq<Entry>, s: seq<Entry>) {
    base <= |full| && base <= |s| && full[..base] == s[..base]
  }

  lemma BatchAgrees(c: Cluster, log: Log, full: seq<Entry>, a: AppendArgs)
    requires a.term in c.leaderLog && AllRooted(c, c.leaderLog[a.term]) && AllRooted(c, full) && AppendOk(c, a)
    requires Refines(log, full) && PrevMatches(log, a) && AnchoredTo(log.base, full, c.leaderLog[a.term])
    ensures a.prevIndex + |a.entries| <= |c.leaderLog[a.term]|
    ensures a.entries == c.leaderLog[a.term][a.prevIndex..a.prevIndex + |a.entries|]
    ensures Agreed(Max(a.prevIndex, log.base), full, c.leaderLog[a.term])
  {
    var s := c.leaderLog[a.term];
    if a.prevIndex > log.base {
      LogTermAt(log, full, a.prevIndex);
      assert Rooted(c, full, a.prevIndex - 1);
      if a.prevIndex <= |s| && s[a.prevIndex - 1].term == a.prevTerm {
        assert Rooted(c, s, a.prevIndex - 1);
        assert full[..a.prevIndex - 1 + 1] == s[..a.prevIndex - 1 + 1];
      }
    }
  }

  /** What a batch in flight does to the log that receives it. */
  lemma MergeFromLeader(c: Cluster, log: Log, full: seq<Entry>, a: AppendArgs, commit: nat) returns (after: seq<Entry>)
    requires a.term in c.leaderLog && AllRooted(c, c.leaderLog[a.term]) && AllRooted(c, full) && AppendOk(c, a)
    requires Refines(log, full) && PrevMatches(log, a) && AnchoredTo(log.base, full, c.leaderLog[a.term])
    requires Consecutive(a.prevIndex, a.entries)
    ensures Merged(Merge(log, commit, a.entries), log, full, c.leaderLog[a.term], a.prevIndex + |a.entries|, after)
    ensures after == full[..log.base] + Merge(log, commit, a.entries).0.entries
  {
    var s := c.leaderLog[a.term];
    RootedMatch(c, full, s);
    BatchAgrees(c, log, full, a);
    after := MergeAdopts(log, full, s, commit, a.prevIndex, a.entries);
    AdoptsKeeps(s, full, after, log.base);
    Reassembled(Merge(log, commit, a.entries).0, full, after);
  }

  lemma Reassembled(log: Log, full: seq<Entry>, after: seq<Entry>)
    requires Refines(log, after) && log.base <= |full| && after[..log.base] == full[..log.base]
    ensures after == full[..log.base] + log.entries
  {
    assert after == after[..log.base] + after[log.base..];
  }

  lemma AdoptsKeeps(source: seq<Entry>, before: seq<Entry>, after: seq<Entry>, n: nat)
    requires Adopts(source, before, after) && AnchoredTo(n, before, source)
    ensures n <= |after| && after[..n] == before[..n]
  {
    if after != before { assert after[..n] == source[..n]; }
  }

  /** The follower's full log after a request. */
  lemma AppendOutcome(c: Cluster, r: Replica, full: seq<Entry>, a: AppendArgs)
    requires a.term in c.leaderLog && AllRooted(c, c.leaderLog[a.term]) && AllRooted(c, full) && AppendOk(c, a)
    requires Refines(r.log, full) && Consecutive(a.prevIndex, a.entries) && a.term >= r.term
    requires PrevMatches(r.log, a) ==> AnchoredTo(r.log.base, full, c.leaderLog[a.term])
    ensures var after, rep := full[..r.log.base] + TakenIn(r, a).entries, HandleAppendEntries(r, a).1;
            && rep.term == a.term
            && Adopts(c.leaderLog[a.term], full, after)
            && (rep.success ==> a.prevIndex + |a.entries| <= |c.leaderLog[a.term]|
                                && c.leaderLog[a.term][..a.prevIndex + |a.entries|] <= after)
            && (!rep.success ==> after == full)
  {
    AppendAnswer(r, a);
    if PrevMatches(r.log, a) {
      var after := MergeFromLeader(c, r.log, full, a, r.commitIndex);
    } else {
      assert full[..r.log.base] + full[r.log.base..] == full;
    }
  }

  lemma AppendAnswer(r: Replica, a: AppendArgs)
    requires a.term >= r.term
    ensures var (n, rep) := HandleAppendEntries(r, a);
            && rep.term == n.term == a.term && n.role.Follower?
            && (rep.success <==> PrevMatches(r.log, a) && Merge(r.log, r.commitIndex, a.entries).1)
  {
    AppendVotes(r, a);
  }

  // ----- the steps

  /** A step that adds nothing to the full log. */
  lemma SameFits(c: Cluster, s: Step)
    requires |c.nodes| == |c.full| && Enabled(c, s) && VoteStep(c, Actor(s), Effect(c, s).0)
    requires Whole(c, s) == c.full[Actor(s)]
    requires s.OnVoteReq? ==> BallotOk(c, s.m) && Refines(c.nodes[s.m.dst].log, c.full[s.m.dst])
    ensures Local(c, Actor(s), Effect(c, s).0, Whole(c, s))
    ensures LogLocal(c, Actor(s), Effect(c, s).0, Whole(c, s), Same)
  {
    var n := Effect(c, s).0;
    if s.OnVoteReq? {
      LogEnd(c.nodes[s.m.dst].log, c.full[s.m.dst]);
      if HandleRequestVote(c.nodes[s.m.dst], s.m.vote).1.granted {
        assert AskedWith(c, s.m.vote.candidate, n.term, c.full[s.m.dst]);
      }
    } else {
      OwnBallot(c, s);
    }
  }

  /** Only a request makes a node vote for another. */
  lemma OwnBallot(c: Cluster, s: Step)
    requires |c.nodes| == |c.full| && Enabled(c, s) && !s.OnVoteReq?
    ensures var o, n := c.nodes[Actor(s)], Effect(c, s).0;
            n.votedFor.Some? && !(n.term == o.term && n.votedFor == o.votedFor) ==> n.votedFor == Some(o.cfg.id) && s.Timeout?
  {
    var r := c.nodes[Actor(s)];
    if s.OnAppendReq? {
      AppendVotes(r, s.m.append);
    } else if s.OnBeat? {
      BeatVotes(r, s.m.beat);
    } else if s.Advance? {
      ApplyVotes(r.(commitIndex := CommitPoint(r, r.log.LastIndex())));
    } else if s.EndRead? {
      ReadFrame(r, c.started[s.read].term, 1, Results(s.replies));
    }
  }

  lemma WriteFits(c: Cluster, i: nat, stroke: Stroke)
    requires i < |c.nodes| == |c.full| && Refines(c.nodes[i].log, c.full[i]) && c.nodes[i].role.Leader?
    requires VoteStep(c, i, ClientAppend(c.nodes[i], stroke))
    ensures Local(c, i, ClientAppend(c.nodes[i], stroke), Whole(c, Write(i, stroke)))
    ensures LogLocal(c, i, ClientAppend(c.nodes[i], stroke), Whole(c, Write(i, stroke)), Wrote)
  {
    LogEnd(c.nodes[i].log, c.full[i]);
  }

  lemma AppendFits(c: Cluster, m: Message)
    requires LogInv(c) && NodesStand(c) && BatchesOf(c) && Enabled(c, OnAppendReq(m)) && Anchored(c, OnAppendReq(m))
    requires VoteStep(c, m.dst, HandleAppendEntries(c.nodes[m.dst], m.append).0) && m.append.term >= c.nodes[m.dst].term
    ensures Local(c, m.dst, HandleAppendEntries(c.nodes[m.dst], m.append).0, Whole(c, OnAppendReq(m)))
    ensures LogLocal(c, m.dst, HandleAppendEntries(c.nodes[m.dst], m.append).0, Whole(c, OnAppendReq(m)), Adopted)
  {
    var i, r, a := m.dst, c.nodes[m.dst], m.append;
    assert Stands(r, c.full[i]) && BatchOf(m);
    assert AppendOk(c, a) && NodeLogOk(c, r, c.full[i]) && LeaderLogOk(c, a.term);
    AppendOutcome(c, r, c.full[i], a);
    AppendAnswer(r, a);
    OwnBallot(c, OnAppendReq(m));
  }

  /** A stale request changes nothing. */
  lemma StaleAppend(c: Cluster, m: Message)
    requires NodesStand(c) && Enabled(c, OnAppendReq(m)) && m.append.term < c.nodes[m.dst].term
    ensures Whole(c, OnAppendReq(m)) == c.full[m.dst]
  {
    assert Stands(c.nodes[m.dst], c.full[m.dst]);
    var b := c.nodes[m.dst].log.base;
    assert c.full[m.dst][..b] + c.full[m.dst][b..] == c.full[m.dst];
  }

  lemma StepFits(c: Cluster, s: Step) returns (change: LogChange)
    requires Inv(c) && Enabled(c, s) && Anchored(c, s) && VoteStep(c, Actor(s), Effect(c, s).0)
    ensures Local(c, Actor(s), Effect(c, s).0, Whole(c, s))
    ensures LogLocal(c, Actor(s), Effect(c, s).0, Whole(c, s), change)
  {
    assert Stands(c.nodes[Actor(s)], c.full[Actor(s)]);
    change := Same;
    if s.OnAppendReq? {
      if s.m.append.term >= c.nodes[s.m.dst].term {
        AppendFits(c, s.m);
        change := Adopted;
      } else {
        StaleAppend(c, s.m);
        SameFits(c, s);
      }
    } else if s.Write? && c.nodes[s.node].role.Leader? {
      WriteFits(c, s.node, s.stroke);
      change := Wrote;
    } else {
      if s.OnVoteReq? { assert BallotOk(c, s.m); }
      SameFits(c, s);
    }
  }

  /** What is sent tells the truth about the sender's log. */
  lemma SentRequests(c: Cluster, s: Step)
    requires NodesStand(c) && Enabled(c, s) && c.nodes[Actor(s)].cfg.id == Actor(s)
    ensures forall m :: m in Effect(c, s).1 ==>
                          RequestOk(Put(c, Actor(s), Effect(c, s).0, Whole(c, s), Effect(c, s).1, Begun(c, s)), m)
  {
    assert Stands(c.nodes[Actor(s)], c.full[Actor(s)]);
    LogEnd(c.nodes[Actor(s)].log, c.full[Actor(s)]);
  }

  lemma SentAppends(c: Cluster, s: Step)
    requires NodesStand(c) && LeadersRecorded(c) && Enabled(c, s)
    ensures forall m :: m in Effect(c, s).1 && m.AppendReq? ==>
                          AppendOk(Put(c, Actor(s), Effect(c, s).0, Whole(c, s), Effect(c, s).1, Begun(c, s)), m.append)
  {
    if s.SendAppend? && PrepareAppend(c.nodes[s.node], s.peer).Some? {
      assert Stands(c.nodes[s.node], c.full[s.node]);
      BatchOk(Put(c, s.node, Effect(c, s).0, Whole(c, s), Effect(c, s).1, Begun(c, s)), c.nodes[s.node], c.full[s.node], s.peer);
    }
  }

  lemma InitInv(c: Cluster)
    requires Init(c)
    ensures Inv(c)
  {
  }

  lemma NextInv(c: Cluster, s: Step, d: Cluster)
    requires Inv(c) && Next(c, s, d) && Anchored(c, s)
    ensures Inv(d) && Grows(c, d)
  {
    NextVotes(c, s, d);
    NextStands(c, s, d);
    var change := StepFits(c, s);
    NextElections(c, s, d);
    SentAppends(c, s);
    KeepLogInv(c, Actor(s), Effect(c, s).0, Whole(c, s), Effect(c, s).1, Begun(c, s), change);
  }

  lemma NextElections(c: Cluster, s: Step, d: Cluster)
    requires ElectionInv(c) && NodesStand(c) && Next(c, s, d) && VoteInv(d)
    requires Local(c, Actor(s), Effect(c, s).0, Whole(c, s))
    ensures ElectionInv(d)
  {
    var i, n, whole, out := Actor(s), Effect(c, s).0, Whole(c, s), Effect(c, s).1;
    KnowVoter(c, i);
    SentRequests(c, s);
    KeepRecorded(c, i, n, whole, out, Begun(c, s));
    KeepRequests(c, i, n, whole, out, Begun(c, s));
    KeepUpToDate(c, i, n, whole, out, Begun(c, s));
    KeepElectionsUpToDate(c, i, n, whole, out, Begun(c, s));
  }
}
