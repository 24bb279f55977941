/** State Machine Safety: the one guard that it takes, and that it takes no less. */
module Agreement {
  import opened Types
  import opened Board
  import opened LogModel
  import opened Replica
  import opened Cluster
  import opened Votes
  import opened Nodes
  import opened Elections
  import opened Logs
  import opened Steps
  import opened Safety
  import opened Commits
  import opened Followers

  // ----- the guard

  ghost predicate Hears(s: Step) { (s.OnBeat? && s.m.BeatReq?) || (s.OnAppendReq? && s.m.AppendReq?) }

  ghost predicate IsAnnouncement(m: Message) { m.BeatReq? || m.AppendReq? }

  /** The term of a leader and the commit index it announces. */
  function Told(m: Message): (nat, nat)
    requires IsAnnouncement(m)
  {
    if m.BeatReq? then (m.beat.term, m.beat.commit) else (m.append.term, m.append.commit)
  }

  ghost predicate SameTermAt(x: seq<Entry>, y: seq<Entry>, n: nat) {
    1 <= n <= |x| && n <= |y| && x[n - 1].term == y[n - 1].term
  }

  ghost predicate Rises(c: Cluster, d: Cluster, i: NodeId) {
    i < |c.nodes| && i < |d.nodes| && d.nodes[i].commitIndex > c.nodes[i].commitIndex
  }

  /** A follower that raises its commit index has there an entry of the same term as its leader's. The
      handlers do not check this; it would also keep the compacted part of every log right. */
  ghost predicate Guarded(c: Cluster, s: Step, d: Cluster) {
    Hears(s) && Rises(c, d, s.m.dst) ==>
      && s.m.dst < |d.full| && Told(s.m).0 in c.leaderLog
      && SameTermAt(d.full[s.m.dst], c.leaderLog[Told(s.m).0], d.nodes[s.m.dst].commitIndex)
  }

  ghost predicate GuardedAt(states: seq<Cluster>, steps: seq<Step>, k: int)
    requires 0 <= k < |steps| < |states|
  {
    Guarded(states[k], steps[k], states[k + 1])
  }

  ghost predicate GuardedBelow(states: seq<Cluster>, steps: seq<Step>, n: nat)
    requires n <= |steps| < |states|
  {
    forall k :: 0 <= k < n ==> GuardedAt(states, steps, k)
  }

  ghost predicate IsGuardedRun(states: seq<Cluster>, steps: seq<Step>) {
    IsRun(states, steps) && AllTimely(states, steps) && GuardedBelow(states, steps, |steps|)
  }

  // ----- secured prefixes

  /** `p` is part of what a majority has accepted in a term no later than `last`. */
  ghost predicate SecuredBy(c: Cluster, p: seq<Entry>, t: nat, n: nat, q: set<NodeId>) {
    Chosen(c, t, n, q) && t in c.leaderLog && n <= |c.leaderLog[t]| && p <= c.leaderLog[t][..n]
  }

  ghost predicate Secured(c: Cluster, p: seq<Entry>, last: nat) {
    p == [] || exists t: nat, n: nat, q: set<NodeId> :: t <= last && SecuredBy(c, p, t, n, q)
  }

  lemma SecuredStays(c: Cluster, d: Cluster, p: seq<Entry>, last: nat, after: nat)
    requires Later(c, d) && Secured(c, p, last) && last <= after
    ensures Secured(d, p, after)
  {
    if p != [] {
      var t: nat, n: nat, q: set<NodeId> :| t <= last && SecuredBy(c, p, t, n, q);
      assert c.leaderLog[t][..n] == d.leaderLog[t][..n];
      assert Chosen(d, t, n, q);
      assert SecuredBy(d, p, t, n, q);
    }
  }

  lemma SecuredPart(c: Cluster, p: seq<Entry>, part: seq<Entry>, last: nat)
    requires Secured(c, p, last) && part <= p
    ensures Secured(c, part, last)
  {
    if part != [] {
      var t: nat, n: nat, q: set<NodeId> :| t <= last && SecuredBy(c, p, t, n, q);
      Chained(part, p, c.leaderLog[t][..n]);
      assert SecuredBy(c, part, t, n, q);
    }
  }

  /** Every leader of a later term has what was chosen. */
  ghost predicate ChosenLasts(c: Cluster) {
    forall t: nat, n: nat, q: set<NodeId>, u: nat ::
      Chosen(c, t, n, q) && u in c.leaderLog && t < u ==>
        t in c.leaderLog && n <= |c.leaderLog[t]| && c.leaderLog[t][..n] <= c.leaderLog[u]
  }

  lemma ChosenStays(c: Cluster)
    requires ElectionInv(c) && LogInv(c)
    ensures ChosenLasts(c)
  {
    forall t: nat, n: nat, q: set<NodeId>, u: nat | Chosen(c, t, n, q) && u in c.leaderLog && t < u
      ensures t in c.leaderLog && n <= |c.leaderLog[t]| && c.leaderLog[t][..n] <= c.leaderLog[u]
    {
      LaterLeadersHave(c, t, n, q, u);
      assert LeaderLogOk(c, u);
      Chained(c.leaderLog[t][..n], c.elections[u].log, c.leaderLog[u]);
    }
  }

  /** Every leader of that term or a later one has what is secured. */
  lemma SecuredHas(c: Cluster, p: seq<Entry>, last: nat, u: nat)
    requires ChosenLasts(c) && Secured(c, p, last) && u in c.leaderLog && last <= u
    ensures p <= c.leaderLog[u]
  {
    if p != [] {
      var t: nat, n: nat, q: set<NodeId> :| t <= last && SecuredBy(c, p, t, n, q);
      assert c.leaderLog[t][..n] <= c.leaderLog[u];
      Chained(p, c.leaderLog[t][..n], c.leaderLog[u]);
    }
  }

  lemma SecuredInOne(c: Cluster, p: seq<Entry>, last: nat) returns (t: nat)
    requires p != [] && Secured(c, p, last)
    ensures t in c.leaderLog && t <= last && Secured(c, p, t)
  {
    var u: nat, n: nat, q: set<NodeId> :| u <= last && SecuredBy(c, p, u, n, q);
    t := u;
  }

  /** Secured prefixes never disagree. */
  lemma SecuredAgree(c: Cluster, x: seq<Entry>, a: nat, y: seq<Entry>, b: nat)
    requires ChosenLasts(c) && Secured(c, x, a) && Secured(c, y, b)
    ensures Comparable(x, y)
  {
    if x != [] && y != [] {
      var t := SecuredInOne(c, x, a);
      var u := SecuredInOne(c, y, b);
      SecuredHas(c, x, t, Max(t, u));
      SecuredHas(c, y, u, Max(t, u));
      PrefixesCompare(x, y, c.leaderLog[Max(t, u)]);
    }
  }

  // ----- the invariant

  ghost predicate NodeSecured(c: Cluster, i: NodeId)
    requires i < |c.nodes| == |c.full|
  {
    Secured(c, Committed(c, i), c.nodes[i].term)
  }

  ghost predicate ToldSecured(c: Cluster, m: Message) {
    IsAnnouncement(m) ==>
      var (t, commit) := Told(m);
      t in c.leaderLog && commit <= |c.leaderLog[t]| && Secured(c, c.leaderLog[t][..commit], t)
  }

  ghost predicate AllSecured(c: Cluster) {
    && |c.nodes| == |c.full|
    && (forall i :: 0 <= i < |c.nodes| ==> NodeSecured(c, i))
    && (forall m :: m in c.net ==> ToldSecured(c, m))
  }

  ghost predicate Believed(c: Cluster) { |c.nodes| == |c.full| && HeldComplete(c) && AcksOk(c) && MatchesOk(c) }

  /** Nothing compacted is in doubt: it was committed, so every leader that is heard has it. */
  lemma SecuredIsAnchored(c: Cluster, s: Step)
    requires NodesStand(c) && AppendNetOk(c) && ChosenLasts(c) && AllSecured(c) && Enabled(c, s)
    ensures Anchored(c, s)
  {
    if s.OnAppendReq? && s.m.append.term >= c.nodes[s.m.dst].term {
      var r, full, t := c.nodes[s.m.dst], c.full[s.m.dst], s.m.append.term;
      assert Stands(r, full) && AppendOk(c, s.m.append) && NodeSecured(c, s.m.dst);
      SecuredHas(c, Committed(c, s.m.dst), r.term, t);
      assert full[..r.log.base] == full[..r.commitIndex][..r.log.base];
    }
  }

  // ----- who moves a commit index

  /** What hearing a leader does to the commit index. */
  lemma BeatCommit(r: Replica, args: BeatArgs)
    requires HandleHeartbeat(r, args).0.commitIndex > r.commitIndex
    ensures var n := HandleHeartbeat(r, args).0; n.commitIndex <= args.commit && n.term == args.term
  {
    BeatOutcome(r, args);
    BeatVotes(r, args);
  }

  lemma AppendCommit(r: Replica, args: AppendArgs)
    requires HandleAppendEntries(r, args).0.commitIndex > r.commitIndex
    ensures var n := HandleAppendEntries(r, args).0; n.commitIndex <= args.commit && n.term == args.term
  {
    AppendCommits(r, args);
    AppendVotes(r, args);
  }

  lemma HeardCommit(c: Cluster, s: Step, d: Cluster)
    requires Next(c, s, d) && Hears(s) && Rises(c, d, s.m.dst) && NodesStand(d)
    ensures var i := s.m.dst;
            && d.nodes[i].commitIndex <= Told(s.m).1 && d.nodes[i].commitIndex <= |d.full[i]|
            && d.nodes[i].term == Told(s.m).0
  {
    assert Stands(d.nodes[s.m.dst], d.full[s.m.dst]);
    if s.OnBeat? {
      BeatCommit(c.nodes[s.m.dst], s.m.beat);
    } else {
      AppendCommit(c.nodes[s.m.dst], s.m.append);
    }
  }

  lemma OthersDoNot(c: Cluster, s: Step)
    requires Enabled(c, s) && !Hears(s) && !s.Advance?
    ensures Effect(c, s).0.commitIndex == c.nodes[Actor(s)].commitIndex
  {
    if s.EndRead? { ReadFrame(c.nodes[s.node], c.started[s.read].term, 1, Results(s.replies)); }
  }

  lemma TermsRise(c: Cluster, s: Step, d: Cluster)
    requires VoteInv(c) && Next(c, s, d)
    ensures c.nodes[Actor(s)].term <= d.nodes[Actor(s)].term
  {
    NextVotes(c, s, d);
  }

  lemma SameTermPart(c: Cluster, d: Cluster, own: seq<Entry>, s: seq<Entry>, n: nat, upto: nat)
    requires Grows(c, d) && AllRooted(c, s) && AllRooted(d, own) && SameTermAt(own, s, n) && n <= upto <= |s|
    ensures own[..n] <= s[..upto]
  {
    RootsAgree(c, d, s, own, n - 1);
    assert own[..n - 1 + 1] == s[..n - 1 + 1] == s[..upto][..n];
  }

  /** A follower that meets the guard commits a part of what its leader had committed. */
  lemma HeardPart(c: Cluster, s: Step, d: Cluster)
    requires Next(c, s, d) && Grows(c, d) && Guarded(c, s, d) && Hears(s) && Rises(c, d, s.m.dst) && ToldSecured(c, s.m)
    requires NodesStand(c) && NodesStand(d)
    requires AllRooted(c, c.leaderLog[Told(s.m).0]) && AllRooted(d, d.full[s.m.dst])
    ensures d.nodes[s.m.dst].term == Told(s.m).0
    ensures Committed(d, s.m.dst) <= c.leaderLog[Told(s.m).0][..Told(s.m).1]
  {
    HeardCommit(c, s, d);
    SameTermPart(c, d, d.full[s.m.dst], c.leaderLog[Told(s.m).0], d.nodes[s.m.dst].commitIndex, Told(s.m).1);
  }

  lemma HeardSecured(c: Cluster, s: Step, d: Cluster)
    requires LeaderLogsOk(c) && |d.nodes| == |d.full| && NodeLogsOk(d) && NodesStand(c) && NodesStand(d)
    requires Next(c, s, d) && Later(c, d) && Guarded(c, s, d) && Hears(s) && Rises(c, d, s.m.dst) && ToldSecured(c, s.m)
    ensures NodeSecured(d, s.m.dst)
  {
    var (t, commit) := Told(s.m);
    assert LeaderLogOk(c, t) && NodeLogOk(d, d.nodes[s.m.dst], d.full[s.m.dst]);
    HeardPart(c, s, d);
    SecuredPart(c, c.leaderLog[t][..commit], Committed(d, s.m.dst), t);
    SecuredStays(c, d, Committed(d, s.m.dst), t, t);
  }

  /** A leader commits what a majority has accepted. */
  lemma AdvanceChosen(c: Cluster, i: NodeId)
    requires VoteInv(c) && |c.nodes| == |c.full| && LeadersRecorded(c) && Believed(c) && NodesStand(c)
    requires i < |c.nodes| && c.nodes[i].role.Leader? && UpdateCommitIndex(c.nodes[i]).commitIndex > c.nodes[i].commitIndex
    ensures var n := UpdateCommitIndex(c.nodes[i]).commitIndex;
            n <= |c.full[i]| && Secured(c, c.full[i][..n], c.nodes[i].term)
  {
    var n, t := UpdateCommitIndex(c.nodes[i]).commitIndex, c.nodes[i].term;
    assert Stands(c.nodes[i], c.full[i]) && MatchOk(c, i);
    AdvancePoint(c.nodes[i]);
    var q := CommittableIsChosen(c, i, n);
    assert SecuredBy(c, c.full[i][..n], t, n, q);
  }

  lemma AdvanceSecured(c: Cluster, i: NodeId, d: Cluster)
    requires VoteInv(c) && Next(c, Advance(i), d) && Later(c, d)
    requires var n := UpdateCommitIndex(c.nodes[i]).commitIndex;
             n <= |c.full[i]| && Secured(c, c.full[i][..n], c.nodes[i].term)
    ensures NodeSecured(d, i)
  {
    TermsRise(c, Advance(i), d);
    SecuredStays(c, d, Committed(d, i), c.nodes[i].term, d.nodes[i].term);
  }

  lemma QuietCommitted(c: Cluster, s: Step, d: Cluster)
    requires NodesStand(c) && BatchesOf(c) && Next(c, s, d) && !Rises(c, d, Actor(s))
    ensures Committed(d, Actor(s)) == Committed(c, Actor(s))
  {
    StepStands(c, s);
    assert Stands(c.nodes[Actor(s)], c.full[Actor(s)]);
  }

  lemma QuietSecured(c: Cluster, s: Step, d: Cluster)
    requires VoteInv(c) && NodesStand(c) && BatchesOf(c) && Next(c, s, d) && Later(c, d)
    requires NodeSecured(c, Actor(s)) && !Rises(c, d, Actor(s))
    ensures NodeSecured(d, Actor(s))
  {
    QuietCommitted(c, s, d);
    TermsRise(c, s, d);
    SecuredStays(c, d, Committed(c, Actor(s)), c.nodes[Actor(s)].term, d.nodes[Actor(s)].term);
  }

  lemma ActorSecured(c: Cluster, s: Step, d: Cluster)
    requires VoteInv(c) && |c.nodes| == |c.full| && LeadersRecorded(c) && LeaderLogsOk(c) && NodesStand(c) && BatchesOf(c)
    requires Believed(c) && AllSecured(c) && Next(c, s, d) && Later(c, d) && Guarded(c, s, d)
    requires |d.nodes| == |d.full| && NodeLogsOk(d) && NodesStand(d)
    ensures NodeSecured(d, Actor(s))
  {
    assert NodeSecured(c, Actor(s));
    if !Rises(c, d, Actor(s)) {
      QuietSecured(c, s, d);
    } else if s.Advance? {
      AdvanceChosen(c, s.node);
      AdvanceSecured(c, s.node, d);
    } else if Hears(s) {
      assert ToldSecured(c, s.m);
      HeardSecured(c, s, d);
    } else {
      OthersDoNot(c, s);
    }
  }

  lemma OthersSecured(c: Cluster, s: Step, d: Cluster, i: NodeId)
    requires Next(c, s, d) && Later(c, d) && AllSecured(c) && i < |c.nodes| && i != Actor(s)
    ensures |d.nodes| == |d.full| && NodeSecured(d, i)
  {
    assert NodeSecured(c, i);
    SecuredStays(c, d, Committed(c, i), c.nodes[i].term, c.nodes[i].term);
  }

  /** What a leader announces, it has committed. */
  lemma NewTold(c: Cluster, s: Step, d: Cluster, m: Message)
    requires Next(c, s, d) && VoterOk(c, Actor(s)) && LeadersRecorded(c) && NodesStand(c)
    requires m in Effect(c, s).1 && IsAnnouncement(m)
    ensures var i, (t, commit) := Actor(s), Told(m);
            && c.nodes[i].term == t && t in c.leaderLog && commit <= |c.leaderLog[t]|
            && Committed(c, i) == c.leaderLog[t][..commit]
  {
    assert Stands(c.nodes[Actor(s)], c.full[Actor(s)]);
  }

  /** Announcements stay what they were. */
  lemma ToldStays(c: Cluster, d: Cluster, t: nat, commit: nat)
    requires Grows(c, d) && t in c.leaderLog && commit <= |c.leaderLog[t]|
    ensures t in d.leaderLog && commit <= |d.leaderLog[t]| && d.leaderLog[t][..commit] == c.leaderLog[t][..commit]
  {
  }

  lemma MessagesSecured(c: Cluster, s: Step, d: Cluster, m: Message)
    requires VoterOk(c, Actor(s)) && LeadersRecorded(c) && NodesStand(c) && AllSecured(c) && Next(c, s, d) && Later(c, d)
    requires m in d.net
    ensures ToldSecured(d, m)
  {
    if IsAnnouncement(m) {
      var (t, commit) := Told(m);
      if m in c.net {
        assert ToldSecured(c, m);
      } else {
        NewTold(c, s, d, m);
        assert NodeSecured(c, Actor(s));
      }
      ToldStays(c, d, t, commit);
      SecuredStays(c, d, c.leaderLog[t][..commit], t, t);
    }
  }

  lemma NextSecured(c: Cluster, s: Step, d: Cluster)
    requires Inv(c) && Believed(c) && AllSecured(c) && Inv(d) && Next(c, s, d) && Later(c, d) && Guarded(c, s, d)
    ensures AllSecured(d)
  {
    KnowVoter(c, Actor(s));
    forall m | m in d.net ensures ToldSecured(d, m) {
      MessagesSecured(c, s, d, m);
    }
    forall i: NodeId | i < |d.nodes| ensures NodeSecured(d, i) {
      if i == Actor(s) {
        ActorSecured(c, s, d);
      } else {
        OthersSecured(c, s, d, i);
      }
    }
  }

  // ----- runs

  ghost predicate Sure(c: Cluster) { Inv(c) && Believed(c) && AllSecured(c) }

  lemma SureIsAnchored(c: Cluster, s: Step)
    requires Sure(c) && Enabled(c, s)
    ensures Anchored(c, s)
  {
    ChosenStays(c);
    SecuredIsAnchored(c, s);
  }

  lemma SureStep(c: Cluster, s: Step, d: Cluster)
    requires Sure(c) && Next(c, s, d) && Timely(c, s) && |d.nodes| == |d.full| && HeldComplete(d)
    ensures Inv(d) && Believed(d) && Later(c, d)
  {
    SureIsAnchored(c, s);
    NextInv(c, s, d);
    SureAcks(c, s, d);
  }

  lemma SureAcks(c: Cluster, s: Step, d: Cluster)
    requires Inv(c) && Believed(c) && Next(c, s, d) && Anchored(c, s) && Timely(c, s)
    requires Members(d) && LeadersElected(d) && Later(c, d) && HeldComplete(d)
    ensures Believed(d)
  {
    StepAcks(c, s, d);
  }

  lemma SureNext(c: Cluster, s: Step, d: Cluster)
    requires Sure(c) && Next(c, s, d) && Timely(c, s) && Guarded(c, s, d) && |d.nodes| == |d.full| && HeldComplete(d)
    ensures Sure(d)
  {
    SureStep(c, s, d);
    NextSecured(c, s, d);
  }

  lemma SureInit(c: Cluster)
    requires Init(c)
    ensures Sure(c)
  {
    InitInv(c);
  }

  lemma SureAfter(states: seq<Cluster>, steps: seq<Step>, k: nat)
    requires k < |steps| < |states| && Taken(states, steps, k) && TimelyAt(states, steps, k) && GuardedAt(states, steps, k)
    requires Sure(states[k]) && |states[k + 1].nodes| == |states[k + 1].full| && HeldComplete(states[k + 1])
    ensures Sure(states[k + 1])
  {
    SureNext(states[k], steps[k], states[k + 1]);
  }

  lemma {:induction false} RunSure(states: seq<Cluster>, steps: seq<Step>, k: nat)
    requires IsRun(states, steps) && AllTimely(states, steps) && k < |states| && GuardedBelow(states, steps, k)
    ensures Sure(states[k])
  {
    if k == 0 {
      SureInit(states[0]);
    } else {
      RunSure(states, steps, k - 1);
      RunHeld(states, steps, k);
      assert TimelyAt(states, steps, k - 1) && GuardedAt(states, steps, k - 1);
      SureAfter(states, steps, k - 1);
    }
  }

  lemma RunSureLater(states: seq<Cluster>, steps: seq<Step>, k: nat)
    requires IsRun(states, steps) && AllTimely(states, steps) && k < |steps| && GuardedBelow(states, steps, k)
    ensures Later(states[k], states[k + 1]) && Inv(states[k + 1])
  {
    RunSure(states, steps, k);
    RunHeld(states, steps, k + 1);
    assert Taken(states, steps, k) && TimelyAt(states, steps, k);
    SureStep(states[k], steps[k], states[k + 1]);
  }

  /** A guarded run never takes in a batch over a wrong compacted part, so everything proved of timely
      runs holds of it, snapshots included. */
  lemma GuardedIsTimely(states: seq<Cluster>, steps: seq<Step>)
    requires IsGuardedRun(states, steps)
    ensures IsTimelyRun(states, steps)
  {
    forall k | 0 <= k < |steps| ensures AnchoredAt(states, steps, k) {
      RunSure(states, steps, k);
      assert Taken(states, steps, k);
      SureIsAnchored(states[k], steps[k]);
    }
  }

  // ----- State Machine Safety

  /** What two nodes have committed, each at a moment of its own, does not disagree. */
  ghost predicate Agree(states: seq<Cluster>, j: nat, a: NodeId, k: nat, b: NodeId) {
    (j < |states| && k < |states| && a < |states[j].nodes| == |states[j].full| && b < |states[k].nodes| == |states[k].full|) ==>
      Comparable(Committed(states[j], a), Committed(states[k], b))
  }

  ghost predicate AllAgree(states: seq<Cluster>) {
    forall j: nat, a: NodeId, k: nat, b: NodeId :: Agree(states, j, a, k, b)
  }

  lemma CommittedSecured(states: seq<Cluster>, steps: seq<Step>, k: nat, i: NodeId)
    requires IsGuardedRun(states, steps) && k < |states| && i < |states[k].nodes| == |states[k].full|
    ensures Secured(states[|states| - 1], Committed(states[k], i), states[k].nodes[i].term)
  {
    GuardedIsTimely(states, steps);
    RunSure(states, steps, k);
    RunGrows(states, steps, k, |states| - 1);
    assert NodeSecured(states[k], i);
    SecuredStays(states[k], states[|states| - 1], Committed(states[k], i), states[k].nodes[i].term, states[k].nodes[i].term);
  }

  lemma GuardedAgree(states: seq<Cluster>, steps: seq<Step>)
    requires IsGuardedRun(states, steps)
    ensures AllAgree(states)
  {
    RunSure(states, steps, |states| - 1);
    ChosenStays(states[|states| - 1]);
    forall j: nat, a: NodeId, k: nat, b: NodeId ensures Agree(states, j, a, k, b) {
      if (j < |states| && k < |states| && a < |states[j].nodes| == |states[j].full| && b < |states[k].nodes| == |states[k].full|) {
        CommittedSecured(states, steps, j, a);
        CommittedSecured(states, steps, k, b);
        SecuredAgree(states[|states| - 1], Committed(states[j], a), states[j].nodes[a].term, Committed(states[k], b), states[k].nodes[b].term);
      }
    }
  }

  /** State Machine Safety: in a guarded run no two nodes, at any two moments, with whatever restarts and
      snapshots, ever commit different entries at an index; with equal commit indices they show equal
      boards, and otherwise the one ahead shows the other's boards with further strokes applied. */
  lemma StateMachineSafety(states: seq<Cluster>, steps: seq<Step>, j: nat, a: NodeId, k: nat, b: NodeId)
    requires IsGuardedRun(states, steps) && j < |states| && k < |states|
    requires a < |states[j].nodes| == |states[j].full| && b < |states[k].nodes| == |states[k].full|
    requires states[j].nodes[a].commitIndex <= states[k].nodes[b].commitIndex
    ensures Committed(states[j], a) <= Committed(states[k], b)
    ensures states[k].nodes[b].boards ==
            ApplyAll(states[j].nodes[a].boards, StrokesOf(Committed(states[k], b)[|Committed(states[j], a)|..]))
  {
    RunShows(states, steps, j, a);
    RunShows(states, steps, k, b);
    AheadHas(states, steps, j, a, k, b);
    BoardsGoOn(Committed(states[j], a), Committed(states[k], b));
  }

  lemma AheadHas(states: seq<Cluster>, steps: seq<Step>, j: nat, a: NodeId, k: nat, b: NodeId)
    requires IsGuardedRun(states, steps) && j < |states| && k < |states|
    requires a < |states[j].nodes| == |states[j].full| && b < |states[k].nodes| == |states[k].full|
    requires |Committed(states[j], a)| <= |Committed(states[k], b)|
    ensures Committed(states[j], a) <= Committed(states[k], b)
  {
    GuardedAgree(states, steps);
    assert Agree(states, j, a, k, b);
  }

  lemma BoardsGoOn(x: seq<Entry>, y: seq<Entry>)
    requires x <= y
    ensures ApplyAll(map[], StrokesOf(y)) == ApplyAll(ApplyAll(map[], StrokesOf(x)), StrokesOf(y[|x|..]))
  {
    assert StrokesOf(y) == StrokesOf(x) + StrokesOf(y[|x|..]);
    ApplyAllConcat(map[], StrokesOf(x), StrokesOf(y[|x|..]));
  }

  // ----- and only then

  ghost predicate CommittedBy(c: Cluster, b: NodeId, p: seq<Entry>) {
    b < |c.nodes| == |c.full| && Committed(c, b) == p
  }

  /** Some node had, by moment `k`, committed exactly `p`. */
  ghost predicate OnceCommitted(states: seq<Cluster>, k: nat, p: seq<Entry>) {
    exists j: nat, b: NodeId :: j <= k && j < |states| && CommittedBy(states[j], b, p)
  }

  ghost predicate ToldOnce(states: seq<Cluster>, k: nat, m: Message)
    requires k < |states|
  {
    IsAnnouncement(m) ==>
      var (t, commit) := Told(m);
      var logs := states[k].leaderLog;
      t in logs && commit <= |logs[t]| && OnceCommitted(states, k, logs[t][..commit])
  }

  ghost predicate AllToldOnce(states: seq<Cluster>, k: nat)
    requires k < |states|
  {
    forall m :: m in states[k].net ==> ToldOnce(states, k, m)
  }

  lemma OnceStays(states: seq<Cluster>, k: nat, m: Message)
    requires k + 1 < |states| && Grows(states[k], states[k + 1]) && ToldOnce(states, k, m)
    ensures ToldOnce(states, k + 1, m)
  {
    if IsAnnouncement(m) {
      var (t, commit) := Told(m);
      ToldStays(states[k], states[k + 1], t, commit);
      var p := states[k].leaderLog[t][..commit];
      var j: nat, b: NodeId :| j <= k && j < |states| && CommittedBy(states[j], b, p);
      assert OnceCommitted(states, k + 1, p);
    }
  }

  lemma NewToldOnce(states: seq<Cluster>, steps: seq<Step>, k: nat, m: Message)
    requires k < |steps| < |states| && Next(states[k], steps[k], states[k + 1]) && Grows(states[k], states[k + 1])
    requires VoterOk(states[k], Actor(steps[k])) && LeadersRecorded(states[k]) && NodesStand(states[k])
    requires m in Effect(states[k], steps[k]).1
    ensures ToldOnce(states, k + 1, m)
  {
    if IsAnnouncement(m) {
      var (t, commit) := Told(m);
      NewTold(states[k], steps[k], states[k + 1], m);
      ToldStays(states[k], states[k + 1], t, commit);
      assert CommittedBy(states[k], Actor(steps[k]), states[k].leaderLog[t][..commit]);
    }
  }

  lemma ToldOnceAfter(states: seq<Cluster>, steps: seq<Step>, k: nat)
    requires k < |steps| < |states| && Next(states[k], steps[k], states[k + 1]) && Grows(states[k], states[k + 1])
    requires VoteInv(states[k]) && LeadersRecorded(states[k]) && NodesStand(states[k]) && AllToldOnce(states, k)
    ensures AllToldOnce(states, k + 1)
  {
    var d := states[k + 1];
    KnowVoter(states[k], Actor(steps[k]));
    forall m | m in d.net ensures ToldOnce(states, k + 1, m) {
      if m in states[k].net { OnceStays(states, k, m); } else { NewToldOnce(states, steps, k, m); }
    }
  }

  lemma {:induction false} RunToldOnce(states: seq<Cluster>, steps: seq<Step>, k: nat)
    requires IsRun(states, steps) && AllTimely(states, steps) && k < |states| && GuardedBelow(states, steps, k)
    ensures AllToldOnce(states, k)
  {
    if k > 0 {
      RunToldOnce(states, steps, k - 1);
      RunSure(states, steps, k - 1);
      RunSureLater(states, steps, k - 1);
      assert Taken(states, steps, k - 1);
      ToldOnceAfter(states, steps, k - 1);
    }
  }

  lemma PartHasTerm(own: seq<Entry>, n: nat, s: seq<Entry>, upto: nat)
    requires 1 <= n <= |own| && n <= upto <= |s| && Comparable(own[..n], s[..upto])
    ensures SameTermAt(own, s, n)
  {
    assert own[n - 1] == own[..n][n - 1] && s[n - 1] == s[..upto][n - 1];
  }

  /** A follower that fails the guard commits against the leader that it heard. */
  lemma AgreeIsGuarded(states: seq<Cluster>, steps: seq<Step>, k: nat)
    requires IsRun(states, steps) && AllTimely(states, steps) && k < |steps| && GuardedBelow(states, steps, k)
    requires AllAgree(states)
    ensures GuardedAt(states, steps, k)
  {
    var c, s, d := states[k], steps[k], states[k + 1];
    if Hears(s) && Rises(c, d, s.m.dst) {
      var (t, commit) := Told(s.m);
      assert Taken(states, steps, k);
      RunStands(states, steps, k);
      RunStands(states, steps, k + 1);
      HeardCommit(c, s, d);
      assert ToldOnce(states, k, s.m) by { RunToldOnce(states, steps, k); }
      var j: nat, b: NodeId :| j <= k && j < |states| && CommittedBy(states[j], b, c.leaderLog[t][..commit]);
      assert Agree(states, k + 1, s.m.dst, j, b);
      PartHasTerm(d.full[s.m.dst], d.nodes[s.m.dst].commitIndex, c.leaderLog[t], commit);
    }
  }

  lemma {:induction false} AgreeIsGuardedBelow(states: seq<Cluster>, steps: seq<Step>, n: nat)
    requires IsRun(states, steps) && AllTimely(states, steps) && n <= |steps| && AllAgree(states)
    ensures GuardedBelow(states, steps, n)
  {
    if n > 0 {
      AgreeIsGuardedBelow(states, steps, n - 1);
      AgreeIsGuarded(states, steps, n - 1);
    }
  }

  /** Over every run with timely replies: no two nodes ever commit different entries at an index if and
      only if each follower that raises its commit index meets the guard. */
  lemma SafeExactly(states: seq<Cluster>, steps: seq<Step>)
    requires IsRun(states, steps) && AllTimely(states, steps)
    ensures AllAgree(states) <==> GuardedBelow(states, steps, |steps|)
  {
    if AllAgree(states) {
      AgreeIsGuardedBelow(states, steps, |steps|);
    }
    if GuardedBelow(states, steps, |steps|) {
      GuardedAgree(states, steps);
    }
  }
}
