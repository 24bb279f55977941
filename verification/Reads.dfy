/** ReadIndex (section 6.4 of Ongaro's dissertation): what a confirmed read has seen. */
module Reads {
  import opened Types
  import opened Board
  import opened LogModel
  import opened Replica
  import opened Cluster
  import opened Votes
  import opened Nodes
  import opened Elections
  import opened Logs
  import opened Steps
  import opened Safety
  import opened Commits

  // ----- invariants about reads

  ghost predicate StartedOk(c: Cluster) {
    forall r :: 0 <= r < |c.started| ==> c.started[r].elected <= c.elections.Keys
  }

  /** The replier of an acknowledged heartbeat never voted in a later term that had had a leader when
      the read began. */
  ghost predicate BeatMsgOk(c: Cluster, m: Message) {
    match m
    case BeatReq(src, dst, read, beat) => read < |c.started| && beat.term == c.started[read].term
    case BeatRep(src, dst, read, beaten) =>
      && read < |c.started| && src != dst && src < |c.nodes|
      && (beaten.success ==> forall t :: t in c.started[read].elected && t in c.elections && src in c.elections[t].voters ==>
                                           t <= c.started[read].term)
    case _ => true
  }

  ghost predicate BeatsOk(c: Cluster) { StartedOk(c) && forall m :: m in c.net ==> BeatMsgOk(c, m) }

  lemma BeatStays(c: Cluster, d: Cluster, m: Message)
    requires Elected(c, d) && c.started <= d.started && StartedOk(c) && BeatMsgOk(c, m)
    ensures BeatMsgOk(d, m)
  {
  }

  lemma HeartbeatTerm(r: Replica, args: BeatArgs)
    ensures HandleHeartbeat(r, args).1.success ==> HandleHeartbeat(r, args).0.term == args.term
  {
  }

  /** A voter's term is at least that of every election it voted in. */
  lemma VotedBelow(d: Cluster, v: NodeId)
    requires ElectionsSound(d) && v < |d.nodes|
    ensures forall t :: t in d.elections && v in d.elections[t].voters ==> t <= d.nodes[v].term
  {
    forall t | t in d.elections && v in d.elections[t].voters ensures t <= d.nodes[v].term {
      assert ElectionSound(d, t);
      assert VoterPinned(d, t, v);
    }
  }

  lemma NewBeatRep(c: Cluster, m: Message, d: Cluster)
    requires Next(c, OnBeat(m), d) && Elected(c, d) && BallotOk(c, m) && BeatMsgOk(c, m)
    requires ElectionsSound(d) && |d.nodes| == |c.nodes| && d.started == c.started
    ensures forall x :: x in Effect(c, OnBeat(m)).1 ==> BeatMsgOk(d, x)
  {
    var (n, rep) := HandleHeartbeat(c.nodes[m.dst], m.beat);
    assert d.nodes[m.dst] == n;
    HeartbeatTerm(c.nodes[m.dst], m.beat);
    VotedBelow(d, m.dst);
    var x := BeatRep(m.dst, m.src, m.read, rep);
    assert Effect(c, OnBeat(m)).1 == {x};
    assert BeatMsgOk(d, x) by {
      assert rep.success ==> d.nodes[m.dst].term == d.started[m.read].term;
    }
  }

  /** Only heartbeats and their replies are about reads. */
  lemma QuietBeats(c: Cluster, s: Step, d: Cluster)
    requires Next(c, s, d) && !s.OnBeat?
    ensures forall x :: x in Effect(c, s).1 ==> BeatMsgOk(d, x)
  {
  }

  lemma StepStarted(c: Cluster, s: Step, d: Cluster)
    requires Next(c, s, d) && StartedOk(c) && Elected(c, d)
    ensures StartedOk(d) && c.started <= d.started && d.net == c.net + Effect(c, s).1
    ensures s.OnBeat? ==> d.started == c.started
  {
  }

  lemma StepBeats(c: Cluster, s: Step, d: Cluster)
    requires Next(c, s, d) && Elected(c, d) && BeatsOk(c)
    requires BallotsOk(c) && ElectionsSound(d)
    ensures BeatsOk(d) && c.started <= d.started
  {
    StepStarted(c, s, d);
    assert forall x :: x in Effect(c, s).1 ==> BeatMsgOk(d, x) by {
      if s.OnBeat? {
        assert BallotOk(c, s.m) && BeatMsgOk(c, s.m);
        NewBeatRep(c, s.m, d);
      } else {
        QuietBeats(c, s, d);
      }
    }
    forall m | m in d.net ensures BeatMsgOk(d, m) {
      if m in c.net { BeatStays(c, d, m); }
    }
  }

  lemma RunStepBeats(states: seq<Cluster>, steps: seq<Step>, k: nat)
    requires IsRun(states, steps) && k < |steps| && BeatsOk(states[k])
    ensures BeatsOk(states[k + 1]) && states[k].started <= states[k + 1].started
  {
    RunVotes(states, steps, k);
    RunVotes(states, steps, k + 1);
    RunElected(states, steps, k, k + 1);
    assert Taken(states, steps, k);
    StepBeats(states[k], steps[k], states[k + 1]);
  }

  lemma {:induction false} RunBeats(states: seq<Cluster>, steps: seq<Step>, k: nat)
    requires IsRun(states, steps) && k < |states|
    ensures BeatsOk(states[k])
  {
    if k > 0 {
      RunBeats(states, steps, k - 1);
      RunStepBeats(states, steps, k - 1);
    }
  }

  lemma {:induction false} StartedGrows(states: seq<Cluster>, steps: seq<Step>, j: nat, k: nat)
    requires IsRun(states, steps) && j <= k < |states|
    ensures states[j].started <= states[k].started
    decreases k
  {
    if j < k {
      StartedGrows(states, steps, j, k - 1);
      assert Taken(states, steps, k - 1);
      Chained(states[j].started, states[k - 1].started, states[k].started);
    }
  }

  // ----- counting acknowledgements

  /** The peers whose replies were acknowledgements. */
  function Ackers(replies: seq<Message>): (s: set<NodeId>)
    requires forall k :: 0 <= k < |replies| ==> replies[k].BeatRep?
    ensures forall v :: v in s <==> exists k :: 0 <= k < |replies| && replies[k].src == v && replies[k].beaten.success
  {
    if replies == [] then {}
    else
      var n := |replies| - 1;
      var rest := Ackers(replies[..n]);
      assert forall k :: 0 <= k < n ==> replies[..n][k] == replies[k];
      if replies[n].beaten.success then rest + {replies[n].src} else rest
  }

  function Successes(results: seq<BeatResult>): nat {
    if results == [] then 0 else (if results[0].success then 1 else 0) + Successes(results[1..])
  }

  lemma {:induction false} SuccessesSnoc(results: seq<BeatResult>, last: BeatResult)
    ensures Successes(results + [last]) == Successes(results) + (if last.success then 1 else 0)
  {
    if results == [] {
      assert results + [last] == [last];
    } else {
      SuccessesSnoc(results[1..], last);
      assert (results + [last])[1..] == results[1..] + [last];
    }
  }

  lemma AckersSnoc(replies: seq<Message>, last: Message)
    requires last.BeatRep? && forall k :: 0 <= k < |replies| ==> replies[k].BeatRep? && replies[k].src != last.src
    ensures last.src !in Ackers(replies)
    ensures Ackers(replies + [last]) == Ackers(replies) + if last.beaten.success then {last.src} else {}
  {
    var all := replies + [last];
    assert all[..|replies|] == replies;
  }

  lemma ResultsSnoc(replies: seq<Message>, last: Message)
    requires last.BeatRep? && forall k :: 0 <= k < |replies| ==> replies[k].BeatRep?
    ensures Results(replies + [last]) == Results(replies) + [last.beaten]
  {
  }

  ghost predicate FromDistinct(replies: seq<Message>) {
    && (forall k :: 0 <= k < |replies| ==> replies[k].BeatRep?)
    && forall j, k :: 0 <= j < k < |replies| ==> replies[j].src != replies[k].src
  }

  lemma FrontDistinct(replies: seq<Message>)
    requires replies != [] && FromDistinct(replies)
    ensures var rest, last := replies[..|replies| - 1], replies[|replies| - 1];
            && FromDistinct(rest) && last.BeatRep? && replies == rest + [last]
            && forall k :: 0 <= k < |rest| ==> rest[k].src != last.src
  {
    var n := |replies| - 1;
    assert forall k :: 0 <= k < n ==> replies[..n][k] == replies[k];
  }

  lemma {:induction false} AckersCount(replies: seq<Message>)
    requires FromDistinct(replies)
    ensures |Ackers(replies)| == Successes(Results(replies))
  {
    if replies != [] {
      var rest, last := replies[..|replies| - 1], replies[|replies| - 1];
      FrontDistinct(replies);
      AckersCount(rest);
      AckersSnoc(rest, last);
      ResultsSnoc(rest, last);
      SuccessesSnoc(Results(rest), last.beaten);
    }
  }

  lemma {:induction false} FinishCounts(r: Replica, term: nat, acks: nat, results: seq<BeatResult>)
    requires FinishRead(r, term, acks, results).1
    ensures r.role.Leader? && r.term == term && acks + Successes(results) >= Majority(r.cfg)
    ensures FinishRead(r, term, acks, results).0 == r
    decreases |results|
  {
    if results != [] {
      FinishCounts(r, term, acks + (if results[0].success then 1 else 0), results[1..]);
    }
  }

  // ----- ReadIndex safety

  /** A read by `a` begins with step `b`, ends with step `e` and succeeds. */
  ghost predicate ReadSucceeds(states: seq<Cluster>, steps: seq<Step>, a: NodeId, b: nat, e: nat, replies: seq<Message>) {
    && IsRun(states, steps) && b < e < |steps|
    && steps[b] == StartRead(a) && steps[e] == EndRead(a, |states[b].started|, replies)
    && a < |states[b].nodes| && a < |states[e].nodes| == |states[e].full|
    && (forall k :: 0 <= k < |replies| ==> replies[k].BeatRep?)
    && FinishRead(states[e].nodes[a], states[b].nodes[a].term, 1, Results(replies)).1
  }

  lemma AckerReplied(c: Cluster, a: NodeId, read: nat, replies: seq<Message>, v: NodeId)
    requires Replies(c, a, read, replies) && BeatsOk(c) && v in Ackers(replies)
    ensures v != a && v < |c.nodes| && read < |c.started|
    ensures forall t :: t in c.started[read].elected && t in c.elections && v in c.elections[t].voters ==>
                          t <= c.started[read].term
  {
    var k :| 0 <= k < |replies| && replies[k].src == v && replies[k].beaten.success;
    assert BeatMsgOk(c, replies[k]);
  }

  /** The reader and the peers that acknowledged make a majority. */
  lemma AckersAreQuorum(c: Cluster, a: NodeId, read: nat, replies: seq<Message>)
    requires a < |c.nodes| && c.nodes[a].cfg.peers == Others(|c.nodes|, a) && read < |c.started|
    requires Replies(c, a, read, replies) && BeatsOk(c)
    requires FinishRead(c.nodes[a], c.started[read].term, 1, Results(replies)).1
    ensures Quorum(|c.nodes|, Ackers(replies) + {a})
  {
    FinishCounts(c.nodes[a], c.started[read].term, 1, Results(replies));
    AckersCount(replies);
    forall v | v in Ackers(replies) ensures v != a && v < |c.nodes| {
      AckerReplied(c, a, read, replies, v);
    }
    assert |Ackers(replies) + {a}| == |Ackers(replies)| + 1;
  }

  /** A successful read of term `t` was confirmed by a majority, none of which had voted in a later term
      that already had a leader. */
  lemma ConfirmedBy(c: Cluster, a: NodeId, read: nat, replies: seq<Message>, t: nat)
    requires a < |c.nodes| && read < |c.started| && c.nodes[a].term == c.started[read].term
    requires Replies(c, a, read, replies) && BeatsOk(c) && ElectionsSound(c)
    requires Quorum(|c.nodes|, Ackers(replies) + {a})
    requires t in c.started[read].elected
    ensures t <= c.started[read].term
  {
    assert ElectionSound(c, t);
    var v := QuorumsMeet(|c.nodes|, c.elections[t].voters, Ackers(replies) + {a});
    assert VoterPinned(c, t, v);
    if v != a {
      AckerReplied(c, a, read, replies, v);
    }
  }

  lemma StartRecorded(states: seq<Cluster>, steps: seq<Step>, a: NodeId, b: nat, e: nat)
    requires IsRun(states, steps) && b < e < |steps| && steps[b] == StartRead(a) && a < |states[b].nodes|
    ensures var read := |states[b].started|;
            && read < |states[e].started|
            && states[e].started[read] == Read(a, states[b].nodes[a].term, states[b].elections.Keys)
  {
    assert Taken(states, steps, b);
    StartedGrows(states, steps, b + 1, e);
  }

  lemma ReadQuorum(states: seq<Cluster>, steps: seq<Step>, a: NodeId, b: nat, e: nat, replies: seq<Message>, t: nat)
    requires ReadSucceeds(states, steps, a, b, e, replies)
    requires t in states[b].elections
    ensures t <= states[b].nodes[a].term
  {
    RunVotes(states, steps, e);
    RunBeats(states, steps, e);
    StartRecorded(states, steps, a, b, e);
    assert Taken(states, steps, e);
    FinishCounts(states[e].nodes[a], states[b].nodes[a].term, 1, Results(replies));
    AckersAreQuorum(states[e], a, |states[b].started|, replies);
    ConfirmedBy(states[e], a, |states[b].started|, replies, t);
  }

  /** ReadIndex safety: if a read succeeds in term `t`, its node still leads `t` and no replica had been
      elected in a later term by the time the read began. */
  lemma ReadIndexSafety(states: seq<Cluster>, steps: seq<Step>, a: NodeId, b: nat, e: nat, replies: seq<Message>)
    requires ReadSucceeds(states, steps, a, b, e, replies)
    ensures states[e].nodes[a].role.Leader? && states[e].nodes[a].term == states[b].nodes[a].term
    ensures forall k: nat, x: NodeId :: k <= b && x < |states[k].nodes| && states[k].nodes[x].role.Leader? ==>
                                          states[k].nodes[x].term <= states[b].nodes[a].term
  {
    FinishCounts(states[e].nodes[a], states[b].nodes[a].term, 1, Results(replies));
    forall k: nat, x: NodeId | k <= b && x < |states[k].nodes| && states[k].nodes[x].role.Leader?
      ensures states[k].nodes[x].term <= states[b].nodes[a].term
    {
      LeaderRecorded(states, steps, k, b, x);
      ReadQuorum(states, steps, a, b, e, replies, states[k].nodes[x].term);
    }
  }

  // ----- freshness

  /** No commit before the read began was of a later term than the read's. */
  lemma ReaderNotBehind(states: seq<Cluster>, steps: seq<Step>, a: NodeId, b: nat, e: nat, replies: seq<Message>,
                        j: nat, x: NodeId)
    requires ReadSucceeds(states, steps, a, b, e, replies)
    requires Advances(states, steps, j, x) && j < b
    ensures states[e].nodes[a].role.Leader? && states[j].nodes[x].role.Leader? && states[j + 1].nodes[x].role.Leader?
    ensures states[j + 1].nodes[x].term == states[j].nodes[x].term
    ensures states[j].nodes[x].term <= states[e].nodes[a].term
    ensures states[j].nodes[x].term == states[e].nodes[a].term ==> x == a
  {
    ReadIndexSafety(states, steps, a, b, e, replies);
    AdvancerLeads(states, steps, j, x);
    if states[j].nodes[x].term == states[e].nodes[a].term {
      ElectionSafety(states, steps, j, e, x, a);
    }
  }

  /** The reader's log holds everything any leader had committed before the read began. */
  lemma ReaderHasCommits(states: seq<Cluster>, steps: seq<Step>, a: NodeId, b: nat, e: nat, replies: seq<Message>,
                         j: nat, x: NodeId)
    requires IsTimelyRun(states, steps) && ReadSucceeds(states, steps, a, b, e, replies)
    requires Advances(states, steps, j, x) && j < b
    ensures Committed(states[j + 1], x) <= states[e].full[a]
  {
    ReaderNotBehind(states, steps, a, b, e, replies, j, x);
    var q, n := CommitIsChosen(states, steps, j, x);
    if x == a && states[j].nodes[x].term == states[e].nodes[a].term {
      LeaderKeepsLog(states, steps, j + 1, e, a);
    } else {
      LeaderHas(states, steps, states[j].nodes[x].term, n, q, e, a);
    }
  }

  lemma LeaderHas(states: seq<Cluster>, steps: seq<Step>, t: nat, n: nat, q: set<NodeId>, e: nat, a: NodeId)
    requires IsAnchoredRun(states, steps) && e < |states| && a < |states[e].nodes| == |states[e].full| && states[e].nodes[a].role.Leader?
    requires Chosen(states[|states| - 1], t, n, q) && t < states[e].nodes[a].term
    ensures var c := states[|states| - 1];
            && t in c.leaderLog && 1 <= n <= |c.leaderLog[t]| && states[e].nodes[a].term in c.elections
            && c.leaderLog[t][..n] <= states[e].full[a]
            && n <= |c.elections[states[e].nodes[a].term].log|
  {
    var c := states[|states| - 1];
    var u := states[e].nodes[a].term;
    LeaderLogGrows(states, steps, e, a);
    EarlierCommitBelow(states, steps, t, n, q, u);
    Chained(c.leaderLog[t][..n], c.elections[u].log, states[e].full[a]);
  }

  lemma AdvancerLeads(states: seq<Cluster>, steps: seq<Step>, j: nat, x: NodeId)
    requires IsRun(states, steps) && Advances(states, steps, j, x)
    ensures states[j].nodes[x].role.Leader? && states[j + 1].nodes[x].role.Leader?
    ensures states[j + 1].nodes[x].term == states[j].nodes[x].term
  {
    assert Taken(states, steps, j);
    ApplyVotes(states[j].nodes[x].(commitIndex := CommitPoint(states[j].nodes[x], states[j].nodes[x].log.LastIndex())));
  }

  /** A leader of the same term at two moments has only added to its log. */
  lemma LeaderKeepsLog(states: seq<Cluster>, steps: seq<Step>, j: nat, k: nat, a: NodeId)
    requires IsAnchoredRun(states, steps) && j <= k < |states|
    requires a < |states[j].nodes| == |states[j].full| && a < |states[k].nodes| == |states[k].full|
    requires states[j].nodes[a].role.Leader? && states[k].nodes[a].role.Leader?
    requires states[j].nodes[a].term == states[k].nodes[a].term
    ensures states[j].full[a] <= states[k].full[a]
  {
    RunInv(states, steps, j);
    RunInv(states, steps, k);
    RunGrows(states, steps, j, k);
  }

  /** What the node last committed is of its current term. */
  predicate CommittedInTerm(r: Replica) { r.commitIndex >= 1 && r.log.TermAt(r.commitIndex) == r.term }

  /** Once the reader has committed an entry of its own term, a confirmed read is current: its committed
      log extends everything any leader had committed before the read began, and each board it returns
      is the replay of that log. */
  lemma ReadIsCurrent(states: seq<Cluster>, steps: seq<Step>, a: NodeId, b: nat, e: nat, replies: seq<Message>,
                      j: nat, x: NodeId)
    requires IsTimelyRun(states, steps) && ReadSucceeds(states, steps, a, b, e, replies)
    requires Advances(states, steps, j, x) && j < b
    requires CommittedInTerm(states[e].nodes[a])
    ensures Committed(states[j + 1], x) <= Committed(states[e], a)
    ensures forall board :: At(states[e].nodes[a].boards, board)
                            == Replay(OnBoard(StrokesOf(Committed(states[e], a)), board))
  {
    var theirs, ours := Committed(states[j + 1], x), Committed(states[e], a);
    RunShows(states, steps, e, a);
    assert theirs <= ours by {
      ReaderHasCommits(states, steps, a, b, e, replies, j, x);
      ReaderCommitsMore(states, steps, a, b, e, replies, j, x);
      PrefixByLength(theirs, states[e].full[a], states[e].nodes[a].commitIndex);
    }
    forall board ensures At(states[e].nodes[a].boards, board) == Replay(OnBoard(StrokesOf(ours), board)) {
      BoardsAreIndependent(StrokesOf(ours), board);
    }
  }

  lemma CommittedLength(states: seq<Cluster>, steps: seq<Step>, k: nat, i: NodeId)
    requires IsRun(states, steps) && k < |states| && i < |states[k].nodes|
    ensures |states[k].full| == |states[k].nodes| && states[k].nodes[i].commitIndex <= |states[k].full[i]|
    ensures |Committed(states[k], i)| == states[k].nodes[i].commitIndex
    ensures Committed(states[k], i) == states[k].full[i][..states[k].nodes[i].commitIndex]
  {
    RunShows(states, steps, k, i);
  }

  /** In general a confirmed read is current, with respect to a commit made before it began, if and only if
      the reader's commit index has reached that commit. */
  lemma ReadCurrentExactly(states: seq<Cluster>, steps: seq<Step>, a: NodeId, b: nat, e: nat, replies: seq<Message>,
                           j: nat, x: NodeId)
    requires IsTimelyRun(states, steps) && ReadSucceeds(states, steps, a, b, e, replies)
    requires Advances(states, steps, j, x) && j < b
    ensures Committed(states[j + 1], x) <= Committed(states[e], a) <==>
            states[j + 1].nodes[x].commitIndex <= states[e].nodes[a].commitIndex
  {
    ReaderHasCommits(states, steps, a, b, e, replies, j, x);
    CommittedLength(states, steps, e, a);
    CommittedLength(states, steps, j + 1, x);
    PrefixByLength(Committed(states[j + 1], x), states[e].full[a], states[e].nodes[a].commitIndex);
  }

  lemma PrefixByLength(x: seq<Entry>, y: seq<Entry>, n: nat)
    requires x <= y && n <= |y|
    ensures x <= y[..n] <==> |x| <= n
  {
    if |x| <= n { assert x == y[..|x|] == y[..n][..|x|]; }
  }

  lemma ReaderCommitsMore(states: seq<Cluster>, steps: seq<Step>, a: NodeId, b: nat, e: nat, replies: seq<Message>,
                          j: nat, x: NodeId)
    requires IsTimelyRun(states, steps) && ReadSucceeds(states, steps, a, b, e, replies)
    requires Advances(states, steps, j, x) && j < b
    requires CommittedInTerm(states[e].nodes[a])
    ensures |Committed(states[j + 1], x)| <= states[e].nodes[a].commitIndex
  {
    ReaderNotBehind(states, steps, a, b, e, replies, j, x);
    var q, n := CommitIsChosen(states, steps, j, x);
    if x == a && states[j].nodes[x].term == states[e].nodes[a].term {
      CommitNeverFalls(states, steps, j + 1, e, x);
    } else {
      LeaderHas(states, steps, states[j].nodes[x].term, n, q, e, a);
      ReaderPastElection(states, steps, e, a);
    }
  }

  lemma ReaderPastElection(states: seq<Cluster>, steps: seq<Step>, e: nat, a: NodeId)
    requires IsAnchoredRun(states, steps) && e < |states| && a < |states[e].nodes| == |states[e].full| && states[e].nodes[a].role.Leader?
    requires CommittedInTerm(states[e].nodes[a])
    ensures var c, r := states[|states| - 1], states[e].nodes[a];
            r.term in c.elections && |c.elections[r.term].log| < r.commitIndex
  {
    CommitEntry(states, steps, e, a);
    CommitLasts(states, steps, e, a, states[e].nodes[a].commitIndex);
  }

  lemma CommitEntry(states: seq<Cluster>, steps: seq<Step>, e: nat, a: NodeId)
    requires IsAnchoredRun(states, steps) && e < |states| && a < |states[e].nodes| == |states[e].full|
    requires states[e].nodes[a].role.Leader? && CommittedInTerm(states[e].nodes[a])
    ensures var r := states[e].nodes[a];
            && 1 <= r.commitIndex <= |states[e].full[a]|
            && states[e].full[a][r.commitIndex - 1].term == r.term
  {
    RunShows(states, steps, e, a);
    LogTermAt(states[e].nodes[a].log, states[e].full[a], states[e].nodes[a].commitIndex);
  }
}
