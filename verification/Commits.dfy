/** What the leaders' commit rule guarantees over a run. */
module Commits {
  import opened Types
  import opened LogModel
  import opened Replica
  import opened Cluster
  import opened Votes
  import opened Nodes
  import opened Elections
  import opened Logs
  import opened Steps
  import opened Safety

  // ----- acknowledgements

  /** Node `v` held, in term `t`, the entries of term `t` in that leader's log up to index `upto`. */
  ghost predicate HeldUpTo(c: Cluster, v: NodeId, t: nat, upto: nat) {
    && t in c.leaderLog && upto <= |c.leaderLog[t]|
    && forall n :: 1 <= n <= upto ==> c.leaderLog[t][n - 1].term != t || Held(v, t, n) in c.held
  }

  ghost predicate AckOk(c: Cluster, m: Message)
    requires m.AppendRep?
  {
    m.appended.success ==> HeldUpTo(c, m.src, m.sent.term, m.sent.prevIndex + |m.sent.entries|)
  }

  ghost predicate AcksOk(c: Cluster) { forall m :: m in c.net && m.AppendRep? ==> AckOk(c, m) }

  /** What a leader believes of a peer is true. */
  ghost predicate MatchOk(c: Cluster, i: nat)
    requires i < |c.nodes|
  {
    var r := c.nodes[i];
    r.role.Leader? ==> forall p :: p in r.cfg.peers ==> HeldUpTo(c, p, r.term, MatchIndex(r, p))
  }

  ghost predicate MatchesOk(c: Cluster) { forall i :: 0 <= i < |c.nodes| ==> MatchOk(c, i) }

  lemma HeldBelow(c: Cluster, v: NodeId, t: nat, upto: nat, n: nat)
    requires HeldUpTo(c, v, t, upto) && 1 <= n <= upto && c.leaderLog[t][n - 1].term == t
    ensures Held(v, t, n) in c.held
  {
  }

  lemma HeldUpToStays(c: Cluster, d: Cluster, v: NodeId, t: nat, upto: nat)
    requires Later(c, d) && HeldUpTo(c, v, t, upto)
    ensures HeldUpTo(d, v, t, upto)
  {
    forall n | 1 <= n <= upto && d.leaderLog[t][n - 1].term == t
      ensures Held(v, t, n) in d.held
    {
      assert c.leaderLog[t][n - 1] == d.leaderLog[t][n - 1];
    }
  }

  /** A success reply means its sender held, in the request's term, all the entries of that term in
      the leader's log up to the end of the batch. */
  lemma NewAck(c: Cluster, d: Cluster, v: NodeId, t: nat, upto: nat)
    requires |d.nodes| == |d.full| && Grows(c, d) && HeldComplete(d) && v < |d.nodes| && d.nodes[v].term == t
    requires t in c.leaderLog && upto <= |c.leaderLog[t]| && c.leaderLog[t][..upto] <= d.full[v]
    ensures HeldUpTo(d, v, t, upto)
  {
    forall n | 1 <= n <= upto && d.leaderLog[t][n - 1].term == t ensures Held(v, t, n) in d.held {
      assert d.full[v][n - 1] == c.leaderLog[t][..upto][n - 1] == d.leaderLog[t][n - 1];
    }
  }

  lemma AckedBatch(c: Cluster, m: Message)
    requires Enabled(c, OnAppendReq(m)) && Anchored(c, OnAppendReq(m)) && |c.nodes| == |c.full|
    requires Stands(c.nodes[m.dst], c.full[m.dst]) && NodeLogOk(c, c.nodes[m.dst], c.full[m.dst])
    requires BatchOf(m) && AppendOk(c, m.append) && LeaderLogOk(c, m.append.term)
    requires HandleAppendEntries(c.nodes[m.dst], m.append).1.success
    ensures var t, upto := m.append.term, m.append.prevIndex + |m.append.entries|;
            && HandleAppendEntries(c.nodes[m.dst], m.append).0.term == t
            && upto <= |c.leaderLog[t]| && c.leaderLog[t][..upto] <= Whole(c, OnAppendReq(m))
  {
    var r, full, a := c.nodes[m.dst], c.full[m.dst], m.append;
    assert PrevMatches(r.log, a) ==> AnchoredTo(r.log.base, full, c.leaderLog[a.term]);
    TakenOutcome(c, r, full, a);
    assert Whole(c, OnAppendReq(m)) == full[..r.log.base] + TakenIn(r, a).entries;
  }

  lemma TakenOutcome(c: Cluster, r: Replica, full: seq<Entry>, a: AppendArgs)
    requires a.term in c.leaderLog && AllRooted(c, c.leaderLog[a.term]) && AllRooted(c, full) && AppendOk(c, a)
    requires Refines(r.log, full) && Consecutive(a.prevIndex, a.entries) && HandleAppendEntries(r, a).1.success
    requires PrevMatches(r.log, a) ==> AnchoredTo(r.log.base, full, c.leaderLog[a.term])
    ensures HandleAppendEntries(r, a).0.term == a.term && a.prevIndex + |a.entries| <= |c.leaderLog[a.term]|
    ensures c.leaderLog[a.term][..a.prevIndex + |a.entries|] <= full[..r.log.base] + TakenIn(r, a).entries
  {
    AppendOutcome(c, r, full, a);
    AppendAnswer(r, a);
  }

  lemma NewAckOk(c: Cluster, m: Message, d: Cluster)
    requires LogInv(c) && NodesStand(c) && BatchesOf(c)
    requires Next(c, OnAppendReq(m), d) && Anchored(c, OnAppendReq(m)) && Grows(c, d)
    requires |d.nodes| == |d.full| && HeldComplete(d)
    requires HandleAppendEntries(c.nodes[m.dst], m.append).1.success
    ensures HeldUpTo(d, m.dst, m.append.term, m.append.prevIndex + |m.append.entries|)
  {
    var r, full, a := c.nodes[m.dst], c.full[m.dst], m.append;
    assert Stands(r, full) && BatchOf(m);
    assert AppendOk(c, a) && NodeLogOk(c, r, full) && LeaderLogOk(c, a.term);
    AckedBatch(c, m);
    NewAck(c, d, m.dst, a.term, a.prevIndex + |a.entries|);
  }

  lemma KeepAcks(c: Cluster, s: Step, d: Cluster)
    requires Next(c, s, d) && Later(c, d) && AcksOk(c)
    requires s.OnAppendReq? && HandleAppendEntries(c.nodes[s.m.dst], s.m.append).1.success ==>
               HeldUpTo(d, s.m.dst, s.m.append.term, s.m.append.prevIndex + |s.m.append.entries|)
    ensures AcksOk(d)
  {
    forall m | m in d.net && m.AppendRep? && m.appended.success
      ensures HeldUpTo(d, m.src, m.sent.term, m.sent.prevIndex + |m.sent.entries|)
    {
      if m in c.net {
        assert AckOk(c, m);
        HeldUpToStays(c, d, m.src, m.sent.term, m.sent.prevIndex + |m.sent.entries|);
      }
    }
  }

  /** Nothing of the term `t` itself lies within the log its leader was elected with. */
  lemma ElectedLogHeld(c: Cluster, v: NodeId, t: nat, upto: nat)
    requires t in c.leaderLog && LeaderLogOk(c, t) && upto <= |c.elections[t].log|
    ensures HeldUpTo(c, v, t, upto)
  {
  }

  /** What a timely success tells of its sender. */
  lemma TimelyAck(c: Cluster, m: Message)
    requires Enabled(c, OnAppendRep(m)) && Timely(c, OnAppendRep(m)) && AckOk(c, m)
    requires c.nodes[m.dst].role.Leader? && m.appended.success
    requires c.nodes[m.dst].term in c.leaderLog && LeaderLogOk(c, c.nodes[m.dst].term)
    ensures HeldUpTo(c, m.src, c.nodes[m.dst].term, m.sent.prevIndex + |m.sent.entries|)
  {
    if m.sent.term != c.nodes[m.dst].term {
      ElectedLogHeld(c, m.src, c.nodes[m.dst].term, m.sent.prevIndex + |m.sent.entries|);
    }
  }

  /** The one step that learns about a peer. */
  lemma LearnMatch(c: Cluster, m: Message, d: Cluster)
    requires Next(c, OnAppendRep(m), d) && Later(c, d) && MatchOk(c, m.dst)
    requires d.nodes[m.dst].role.Leader? && m.appended.success ==>
               HeldUpTo(c, m.src, c.nodes[m.dst].term, m.sent.prevIndex + |m.sent.entries|)
    ensures MatchOk(d, m.dst)
  {
    var o, n := c.nodes[m.dst], d.nodes[m.dst];
    assert n == OnAppendReply(o, m.src, m.sent, m.appended);
    if n.role.Leader? {
      forall p | p in n.cfg.peers ensures HeldUpTo(d, p, n.term, MatchIndex(n, p)) {
        HeldUpToStays(c, d, p, o.term, MatchIndex(o, p));
        if p == m.src && m.appended.success {
          HeldUpToStays(c, d, p, o.term, m.sent.prevIndex + |m.sent.entries|);
        }
      }
    }
  }

  /** A leader after the step led before, knowing the same of its peers, or knows nothing of them. */
  ghost predicate MatchesFrom(o: Replica, n: Replica) {
    n.cfg == o.cfg && (n.role.Leader? ==>
      || (o.role.Leader? && n.term == o.term
          && (n.matchIndex == o.matchIndex || n.matchIndex == o.matchIndex[o.cfg.id := n.log.LastIndex()]))
      || forall p :: p in n.cfg.peers ==> MatchIndex(n, p) == 0)
  }

  lemma OwnMatches(c: Cluster, s: Step)
    requires Enabled(c, s) && (s.Timeout? || s.SendAppend? || s.Write? || s.Advance? || s.StartRead? || s.EndRead? || s.Crash?)
    ensures MatchesFrom(c.nodes[Actor(s)], Effect(c, s).0)
  {
    if s.EndRead? { ReadFrame(c.nodes[s.node], c.started[s.read].term, 1, Results(s.replies)); }
  }

  lemma VoteMatches(r: Replica, args: VoteArgs)
    ensures MatchesFrom(r, HandleRequestVote(r, args).0)
  {
  }

  lemma ElectedMatches(r: Replica, asked: nat, from: NodeId, reply: VoteResult)
    ensures MatchesFrom(r, OnVoteReply(r, asked, from, reply))
  {
  }

  lemma AppendMatches(r: Replica, args: AppendArgs)
    ensures MatchesFrom(r, HandleAppendEntries(r, args).0)
  {
  }

  lemma BeatMatches(r: Replica, args: BeatArgs)
    ensures MatchesFrom(r, HandleHeartbeat(r, args).0)
  {
  }

  /** A node's bookkeeping about its peers only changes on winning and on a reply. */
  lemma SameMatches(c: Cluster, s: Step)
    requires Enabled(c, s) && !s.OnAppendRep?
    ensures MatchesFrom(c.nodes[Actor(s)], Effect(c, s).0)
  {
    var r := c.nodes[Actor(s)];
    match s {
      case OnVoteReq(m) => VoteMatches(r, m.vote);
      case OnVoteRep(m) => ElectedMatches(r, m.asked, m.src, m.voted);
      case OnAppendReq(m) => AppendMatches(r, m.append);
      case OnBeat(m) => BeatMatches(r, m.beat);
      case _ => OwnMatches(c, s);
    }
  }

  lemma MatchKept(c: Cluster, d: Cluster, i: nat)
    requires Later(c, d) && i < |c.nodes| && MatchOk(c, i)
    requires d.nodes[i].role.Leader? ==> d.nodes[i].term in d.leaderLog
    requires MatchesFrom(c.nodes[i], d.nodes[i]) && c.nodes[i].cfg.id !in c.nodes[i].cfg.peers
    ensures MatchOk(d, i)
  {
    var o, n := c.nodes[i], d.nodes[i];
    if n.role.Leader? {
      forall p | p in n.cfg.peers ensures HeldUpTo(d, p, n.term, MatchIndex(n, p)) {
        if MatchIndex(n, p) != 0 {
          HeldUpToStays(c, d, p, o.term, MatchIndex(o, p));
        }
      }
    }
  }

  lemma KeepMatches(c: Cluster, s: Step, d: Cluster)
    requires Next(c, s, d) && Later(c, d) && AcksOk(c) && MatchesOk(c) && Timely(c, s)
    requires Members(c) && LeadersElected(c) && LeaderLogsOk(c) && Members(d) && LeadersElected(d)
    ensures MatchesOk(d)
  {
    forall i | 0 <= i < |d.nodes| ensures MatchOk(d, i) {
      assert MatchOk(c, i);
      if i == Actor(s) && s.OnAppendRep? {
        assert AckOk(c, s.m);
        if d.nodes[i].role.Leader? && s.m.appended.success {
          assert LeaderLogOk(c, c.nodes[i].term);
          TimelyAck(c, s.m);
        }
        LearnMatch(c, s.m, d);
      } else {
        if i == Actor(s) { SameMatches(c, s); }
        MatchKept(c, d, i);
      }
    }
  }

  lemma StepAcks(c: Cluster, s: Step, d: Cluster)
    requires Inv(c) && Next(c, s, d) && Anchored(c, s) && Timely(c, s) && AcksOk(c) && MatchesOk(c)
    requires Later(c, d) && Members(d) && LeadersElected(d) && HeldComplete(d)
    ensures AcksOk(d) && MatchesOk(d)
  {
    if s.OnAppendReq? && HandleAppendEntries(c.nodes[s.m.dst], s.m.append).1.success {
      NewAckOk(c, s.m, d);
    }
    KeepAcks(c, s, d);
    KeepMatches(c, s, d);
  }

  lemma AcksAfter(states: seq<Cluster>, steps: seq<Step>, k: nat)
    requires IsAnchoredRun(states, steps) && k < |steps| && TimelyAt(states, steps, k)
    requires AcksOk(states[k]) && MatchesOk(states[k])
    ensures AcksOk(states[k + 1]) && MatchesOk(states[k + 1])
  {
    RunInv(states, steps, k);
    RunVotes(states, steps, k + 1);
    RunHeld(states, steps, k + 1);
    StepLater(states, steps, k);
    assert Taken(states, steps, k) && AnchoredAt(states, steps, k);
    StepAcks(states[k], steps[k], states[k + 1]);
  }

  lemma {:induction false} RunAcks(states: seq<Cluster>, steps: seq<Step>, k: nat)
    requires IsTimelyRun(states, steps) && k < |states|
    ensures AcksOk(states[k]) && MatchesOk(states[k])
  {
    if k > 0 {
      RunAcks(states, steps, k - 1);
      assert TimelyAt(states, steps, k - 1);
      AcksAfter(states, steps, k - 1);
    }
  }

  // ----- commits

  /** The peers known to hold the log up to `n`. */
  function Holders(r: Replica, peers: seq<NodeId>, n: nat): (s: set<NodeId>)
    ensures forall p: NodeId :: p in s <==> p in peers && MatchIndex(r, p) >= n
  {
    set p | p in peers && MatchIndex(r, p) >= n
  }

  lemma HoldersSnoc(r: Replica, rest: seq<NodeId>, last: NodeId, n: nat)
    requires last !in rest
    ensures Holders(r, rest + [last], n) == Holders(r, rest, n) + (if MatchIndex(r, last) >= n then {last} else {})
    ensures last !in Holders(r, rest, n)
  {
  }

  lemma {:induction false} MatchedCounts(r: Replica, peers: seq<NodeId>, n: nat)
    requires forall a, b :: 0 <= a < b < |peers| ==> peers[a] < peers[b]
    ensures Matched(r, peers, n) == |Holders(r, peers, n)|
  {
    if peers != [] {
      var rest, last := peers[..|peers| - 1], peers[|peers| - 1];
      MatchedCounts(r, rest, n);
      assert peers == rest + [last];
      HoldersSnoc(r, rest, last, n);
    }
  }

  /** This node and the peers it counts make a majority. */
  lemma HoldersAreQuorum(r: Replica, size: nat, i: NodeId, n: nat)
    requires i < size && r.cfg.peers == Others(size, i) && 1 + Matched(r, r.cfg.peers, n) >= Majority(r.cfg)
    ensures Quorum(size, Holders(r, r.cfg.peers, n) + {i})
  {
    MatchedCounts(r, r.cfg.peers, n);
    assert i !in Holders(r, r.cfg.peers, n);
  }

  /** An index of the leader's term that a majority is believed to have is chosen. */
  lemma MatchedIsChosen(c: Cluster, i: nat, n: nat, holders: set<NodeId>)
    requires i < |c.nodes| && c.nodes[i].role.Leader? && MatchOk(c, i)
    requires forall v :: v in holders ==> v in c.nodes[i].cfg.peers && MatchIndex(c.nodes[i], v) >= n
    requires var t := c.nodes[i].term;
             && t in c.leaderLog && 1 <= n <= |c.leaderLog[t]| && c.leaderLog[t][n - 1].term == t
             && Held(i, t, n) in c.held
    requires Quorum(|c.nodes|, holders + {i})
    ensures Chosen(c, c.nodes[i].term, n, holders + {i})
  {
    var r := c.nodes[i];
    forall v | v in holders ensures Held(v, r.term, n) in c.held {
      HeldBelow(c, v, r.term, MatchIndex(r, v), n);
    }
  }

  /** Step `k` is a commit advance by node `i`. */
  ghost predicate Advances(states: seq<Cluster>, steps: seq<Step>, k: nat, i: NodeId) {
    && k < |steps| && |states| == |steps| + 1
    && steps[k] == Advance(i) && i < |states[k].nodes| && i < |states[k + 1].nodes| == |states[k + 1].full|
    && states[k + 1].nodes[i].commitIndex > states[k].nodes[i].commitIndex
  }

  /** Where the commit loop stops, if it moves at all. */
  lemma AdvancePoint(r: Replica)
    requires UpdateCommitIndex(r).commitIndex > r.commitIndex
    ensures Committable(r, UpdateCommitIndex(r).commitIndex)
  {
    CommitPointIsGreatest(r, r.log.LastIndex());
  }

  lemma EntryAt(log: Log, full: seq<Entry>, n: nat)
    requires Refines(log, full) && log.Get(n).Some?
    ensures 1 <= n <= |full| && log.Get(n).value == full[n - 1]
  {
  }

  lemma CommittableIsChosen(c: Cluster, i: nat, n: nat) returns (q: set<NodeId>)
    requires i < |c.nodes| == |c.full| && Refines(c.nodes[i].log, c.full[i]) && c.nodes[i].role.Leader?
    requires Committable(c.nodes[i], n)
    requires c.nodes[i].cfg.peers == Others(|c.nodes|, i) && MatchOk(c, i) && HeldComplete(c)
    requires c.nodes[i].term in c.leaderLog && c.leaderLog[c.nodes[i].term] == c.full[i]
    ensures Chosen(c, c.nodes[i].term, n, q)
    ensures 1 <= n <= |c.full[i]| && c.full[i][n - 1].term == c.nodes[i].term
  {
    var r := c.nodes[i];
    HoldersAreQuorum(r, |c.nodes|, i, n);
    q := Holders(r, r.cfg.peers, n) + {i};
    EntryAt(r.log, c.full[i], n);
    MatchedIsChosen(c, i, n, Holders(r, r.cfg.peers, n));
  }

  lemma AdvancerKnown(states: seq<Cluster>, steps: seq<Step>, k: nat, i: NodeId)
    requires IsTimelyRun(states, steps) && Advances(states, steps, k, i)
    ensures var c, d := states[k], states[k + 1];
            && |c.nodes| == |c.full| && c.nodes[i].role.Leader? && Refines(c.nodes[i].log, c.full[i])
            && d.nodes[i] == UpdateCommitIndex(c.nodes[i]) && d.full[i] == c.full[i]
            && c.nodes[i].cfg.peers == Others(|c.nodes|, i) && MatchOk(c, i) && HeldComplete(c)
            && c.nodes[i].term in c.leaderLog && c.leaderLog[c.nodes[i].term] == c.full[i]
  {
    assert Taken(states, steps, k);
    RunInv(states, steps, k);
    RunHeld(states, steps, k);
    RunAcks(states, steps, k);
    RunShows(states, steps, k, i);
  }

  lemma CommitIsChosen(states: seq<Cluster>, steps: seq<Step>, k: nat, i: NodeId) returns (q: set<NodeId>, n: nat)
    requires IsTimelyRun(states, steps) && Advances(states, steps, k, i)
    ensures var c := states[|states| - 1];
            var t := states[k].nodes[i].term;
            && Chosen(c, t, n, q) && t in c.leaderLog && t in c.elections
            && states[k + 1].nodes[i].commitIndex == n && 1 <= n <= |c.leaderLog[t]|
            && Committed(states[k + 1], i) == c.leaderLog[t][..n]
            && |c.elections[t].log| < n
  {
    AdvancerKnown(states, steps, k, i);
    AdvancePoint(states[k].nodes[i]);
    n := states[k + 1].nodes[i].commitIndex;
    q := CommittableIsChosen(states[k], i, n);
    CommitLasts(states, steps, k, i, n);
  }

  lemma CommitLasts(states: seq<Cluster>, steps: seq<Step>, k: nat, i: NodeId, n: nat)
    requires IsAnchoredRun(states, steps) && k < |states| && i < |states[k].nodes| == |states[k].full| && states[k].nodes[i].role.Leader?
    requires 1 <= n <= |states[k].full[i]|
    requires states[k].full[i][n - 1].term == states[k].nodes[i].term
    ensures var c := states[|states| - 1];
            var t := states[k].nodes[i].term;
            && Later(states[k], c) && t in c.leaderLog && t in c.elections && n <= |c.leaderLog[t]|
            && states[k].full[i][..n] == c.leaderLog[t][..n]
            && |c.elections[t].log| < n
  {
    LeaderLogGrows(states, steps, k, i);
    RunGrows(states, steps, k, |states| - 1);
    OwnEntriesAfterElection(states, steps, k, i, n);
  }

  lemma OwnEntryAfterElection(c: Cluster, t: nat, n: nat)
    requires t in c.leaderLog && LeaderLogOk(c, t) && 1 <= n <= |c.leaderLog[t]| && c.leaderLog[t][n - 1].term == t
    ensures |c.elections[t].log| < n
  {
  }

  lemma OwnEntriesAfterElection(states: seq<Cluster>, steps: seq<Step>, k: nat, i: NodeId, n: nat)
    requires IsAnchoredRun(states, steps) && k < |states| && i < |states[k].nodes| == |states[k].full| && states[k].nodes[i].role.Leader?
    requires 1 <= n <= |states[k].full[i]|
    requires states[k].full[i][n - 1].term == states[k].nodes[i].term
    ensures states[k].nodes[i].term in states[k].elections
    ensures |states[k].elections[states[k].nodes[i].term].log| < n
  {
    LeaderKnown(states, steps, k, i);
    OwnEntryAfterElection(states[k], states[k].nodes[i].term, n);
  }

  lemma LeaderKnown(states: seq<Cluster>, steps: seq<Step>, k: nat, i: NodeId)
    requires IsAnchoredRun(states, steps) && k < |states| && i < |states[k].nodes| == |states[k].full| && states[k].nodes[i].role.Leader?
    ensures var c, t := states[k], states[k].nodes[i].term;
            t in c.leaderLog && c.leaderLog[t] == c.full[i] && LeaderLogOk(c, t)
  {
    RunInv(states, steps, k);
  }

  /** Leader-side commits never disagree: of any two commit advances of a run, by any leaders, the
      committed log of the one is a prefix of that of the other. Rests on the current-term rule. */
  lemma CommitsAgree(states: seq<Cluster>, steps: seq<Step>, j: nat, a: NodeId, k: nat, b: NodeId)
    requires IsTimelyRun(states, steps)
    requires Advances(states, steps, j, a) && Advances(states, steps, k, b)
    ensures Committed(states[j + 1], a) <= Committed(states[k + 1], b)
            || Committed(states[k + 1], b) <= Committed(states[j + 1], a)
  {
    var t, u := states[j].nodes[a].term, states[k].nodes[b].term;
    var q, n := CommitIsChosen(states, steps, j, a);
    var p, m := CommitIsChosen(states, steps, k, b);
    if t <= u {
      InOrder(states, steps, t, n, q, u, m);
    } else {
      InOrder(states, steps, u, m, p, t, n);
    }
  }

  lemma InOrder(states: seq<Cluster>, steps: seq<Step>, t: nat, n: nat, q: set<NodeId>, u: nat, m: nat)
    requires IsAnchoredRun(states, steps) && t <= u
    requires var c := states[|states| - 1];
             && Chosen(c, t, n, q) && t in c.leaderLog && 1 <= n <= |c.leaderLog[t]|
             && u in c.leaderLog && u in c.elections && |c.elections[u].log| < m <= |c.leaderLog[u]|
    ensures var c := states[|states| - 1];
            c.leaderLog[t][..n] <= c.leaderLog[u][..m] || c.leaderLog[u][..m] <= c.leaderLog[t][..n]
  {
    var c := states[|states| - 1];
    if t < u {
      EarlierCommitBelow(states, steps, t, n, q, u);
      PrefixChain(c.leaderLog[t][..n], c.elections[u].log, c.leaderLog[u], m);
    }
  }

  lemma PrefixChain(x: seq<Entry>, y: seq<Entry>, z: seq<Entry>, n: nat)
    requires x <= y <= z && |y| <= n <= |z|
    ensures x <= z[..n]
  {
    assert y == z[..|y|];
    assert x == y[..|x|];
  }

  /** What was chosen earlier lies within the election log of every later leader. */
  lemma EarlierCommitBelow(states: seq<Cluster>, steps: seq<Step>, t: nat, n: nat, q: set<NodeId>, u: nat)
    requires IsAnchoredRun(states, steps)
    requires var c := states[|states| - 1]; Chosen(c, t, n, q) && u in c.elections && t < u
    ensures var c := states[|states| - 1];
            && t in c.leaderLog && u in c.leaderLog && 1 <= n <= |c.leaderLog[t]|
            && c.leaderLog[t][..n] <= c.elections[u].log <= c.leaderLog[u]
  {
    RunInv(states, steps, |states| - 1);
    RunLaterHave(states, steps, t, n, q, u);
    assert LeaderLogOk(states[|states| - 1], u);
  }
}
