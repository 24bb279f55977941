/** When the commits of followers agree with the log of their leader. */
module Followers {
  import opened Types
  import opened LogModel
  import opened Replica
  import opened Cluster
  import opened Votes
  import opened Nodes
  import opened Elections
  import opened Logs
  import opened Steps
  import opened Safety
  import opened Commits

  // ----- what leaders announce

  /** A commit index sent by a leader lies within its log. */
  ghost predicate Announced(c: Cluster, term: nat, commit: nat) {
    term in c.leaderLog && commit <= |c.leaderLog[term]|
  }

  ghost predicate CommitOk(c: Cluster, m: Message) {
    && (m.AppendReq? ==> Announced(c, m.append.term, m.append.commit))
    && (m.BeatReq? ==> Announced(c, m.beat.term, m.beat.commit))
  }

  ghost predicate CommitsOk(c: Cluster) { forall m :: m in c.net ==> CommitOk(c, m) }

  lemma NewCommitOk(c: Cluster, s: Step, d: Cluster)
    requires Next(c, s, d) && Grows(c, d) && VoterOk(c, Actor(s)) && LeadersRecorded(c)
    requires c.nodes[Actor(s)].commitIndex <= |c.full[Actor(s)]|
    ensures forall m :: m in Effect(c, s).1 ==> CommitOk(d, m)
  {
  }

  lemma StepCommitsOk(c: Cluster, s: Step, d: Cluster)
    requires Inv(c) && Next(c, s, d) && Grows(c, d) && CommitsOk(c)
    ensures CommitsOk(d)
  {
    KnowVoter(c, Actor(s));
    assert Stands(c.nodes[Actor(s)], c.full[Actor(s)]);
    NewCommitOk(c, s, d);
    forall m | m in d.net ensures CommitOk(d, m) {
      assert m in c.net ==> CommitOk(c, m);
    }
  }

  lemma AfterCommitsOk(states: seq<Cluster>, steps: seq<Step>, k: nat)
    requires IsAnchoredRun(states, steps) && k < |steps| && CommitsOk(states[k])
    ensures CommitsOk(states[k + 1])
  {
    assert Taken(states, steps, k);
    RunInv(states, steps, k);
    StepLater(states, steps, k);
    StepCommitsOk(states[k], steps[k], states[k + 1]);
  }

  lemma {:induction false} RunCommitsOk(states: seq<Cluster>, steps: seq<Step>, k: nat)
    requires IsAnchoredRun(states, steps) && k < |states|
    ensures CommitsOk(states[k])
  {
    if k > 0 {
      RunCommitsOk(states, steps, k - 1);
      AfterCommitsOk(states, steps, k - 1);
    }
  }

  lemma NodeBounds(states: seq<Cluster>, steps: seq<Step>, k: nat, i: NodeId)
    requires IsAnchoredRun(states, steps) && k < |states| && i < |states[k].nodes|
    ensures |states[k].full| == |states[k].nodes| && NodeLogOk(states[k], states[k].nodes[i], states[k].full[i])
    ensures Stands(states[k].nodes[i], states[k].full[i])
  {
    RunInv(states, steps, k);
    RunShows(states, steps, k, i);
  }

  // ----- prefixes and terms

  /** A rooted log agrees with the log of a leader up to `n` exactly when the terms at `n` are the same. */
  lemma PrefixByTerm(c: Cluster, s: seq<Entry>, t: nat, n: nat)
    requires t in c.leaderLog && AllRooted(c, c.leaderLog[t]) && AllRooted(c, s) && 1 <= n <= |s|
    ensures s[..n] <= c.leaderLog[t] <==> n <= |c.leaderLog[t]| && c.leaderLog[t][n - 1].term == s[n - 1].term
  {
    var l := c.leaderLog[t];
    RootedMatch(c, s, l);
    if s[..n] <= l {
      assert l[n - 1] == s[..n][n - 1];
    }
    if n <= |l| && l[n - 1].term == s[n - 1].term {
      assert s[..n - 1 + 1] == l[..n - 1 + 1];
    }
  }

  lemma LeaderRooted(states: seq<Cluster>, steps: seq<Step>, k: nat, t: nat)
    requires IsAnchoredRun(states, steps) && k < |states| && t in states[k].leaderLog
    ensures AllRooted(states[k], states[k].leaderLog[t])
  {
    RunInv(states, steps, k);
    assert LeaderLogOk(states[k], t);
  }

  /** In every state of a run, a node's committed log is part of the log of the leader of term `t` if and
      only if it is no longer and its last entry has the same term in both. */
  lemma CommittedByTerm(states: seq<Cluster>, steps: seq<Step>, k: nat, i: NodeId, t: nat)
    requires IsAnchoredRun(states, steps) && k < |states| && i < |states[k].nodes| == |states[k].full|
    requires t in states[k].leaderLog && states[k].nodes[i].commitIndex >= 1
    ensures var l, n := states[k].leaderLog[t], states[k].nodes[i].commitIndex;
            && n <= |states[k].full[i]|
            && (Committed(states[k], i) <= l <==> n <= |l| && l[n - 1].term == states[k].full[i][n - 1].term)
  {
    NodeBounds(states, steps, k, i);
    LeaderRooted(states, steps, k, t);
    var own, n := states[k].full[i], states[k].nodes[i].commitIndex;
    assert Committed(states[k], i) == own[..n];
    PrefixByTerm(states[k], own, t, n);
  }

  // ----- heartbeats

  lemma BeatOutcome(r: Replica, args: BeatArgs)
    ensures HandleHeartbeat(r, args).0.commitIndex ==
            if args.term >= r.term && args.commit > r.commitIndex then Min(args.commit, r.log.LastIndex()) else r.commitIndex
  {
  }

  ghost predicate BeatEffect(c: Cluster, d: Cluster, m: Message)
    requires m.BeatReq? && m.dst < |c.nodes| && m.dst < |d.nodes|
  {
    && |c.full| == |c.nodes| && |d.full| == |d.nodes| && Announced(c, m.beat.term, m.beat.commit)
    && m.beat.term in d.leaderLog && c.leaderLog[m.beat.term] <= d.leaderLog[m.beat.term]
    && d.full[m.dst] == c.full[m.dst] && d.nodes[m.dst] == HandleHeartbeat(c.nodes[m.dst], m.beat).0
    && (d.nodes[m.dst].commitIndex > c.nodes[m.dst].commitIndex ==>
          d.nodes[m.dst].commitIndex == Min(m.beat.commit, c.nodes[m.dst].log.LastIndex()))
  }

  lemma BeatTaken(states: seq<Cluster>, steps: seq<Step>, k: nat, m: Message)
    requires IsAnchoredRun(states, steps) && k < |steps| && steps[k] == OnBeat(m) && m.BeatReq?
    requires m.dst < |states[k].nodes| && m.dst < |states[k + 1].nodes|
    ensures BeatEffect(states[k], states[k + 1], m)
  {
    var c, d := states[k], states[k + 1];
    assert Taken(states, steps, k);
    BeatOutcome(c.nodes[m.dst], m.beat);
    assert Grows(c, d) by { StepLater(states, steps, k); }
    assert CommitOk(c, m) by { RunCommitsOk(states, steps, k); }
    assert |d.full| == |d.nodes|;
  }

  /** When a heartbeat moves a follower's commit index, to `n`, what the follower has then committed is
      part of its leader's log if and only if the two logs have the same term at `n`: the consistency
      check that a heartbeat does not carry. */
  lemma HeartbeatCommitsExactly(states: seq<Cluster>, steps: seq<Step>, k: nat, m: Message)
    requires IsAnchoredRun(states, steps) && k < |steps| && steps[k] == OnBeat(m) && m.BeatReq?
    requires m.dst < |states[k].nodes| == |states[k].full| && m.dst < |states[k + 1].nodes| == |states[k + 1].full|
    requires states[k + 1].nodes[m.dst].commitIndex > states[k].nodes[m.dst].commitIndex
    ensures var own, d := states[k].full[m.dst], states[k + 1];
            var n := Min(m.beat.commit, |own|);
            && m.beat.term in states[k].leaderLog && m.beat.term in d.leaderLog
            && 1 <= n <= |states[k].leaderLog[m.beat.term]|
            && d.nodes[m.dst].commitIndex == n && d.full[m.dst] == own
            && (Committed(d, m.dst) <= d.leaderLog[m.beat.term] <==>
                states[k].leaderLog[m.beat.term][n - 1].term == own[n - 1].term)
  {
    BeatTaken(states, steps, k, m);
    NodeBounds(states, steps, k, m.dst);
    CommittedByTerm(states, steps, k + 1, m.dst, m.beat.term);
  }

  // ----- AppendEntries

  ghost predicate Share(x: seq<Entry>, y: seq<Entry>, n: nat) { n <= |x| && n <= |y| && x[..n] == y[..n] }

  lemma TakesOver(c: Cluster, m: Message)
    requires LogInv(c) && NodesStand(c) && BatchesOf(c) && Enabled(c, OnAppendReq(m)) && Anchored(c, OnAppendReq(m))
    requires HandleAppendEntries(c.nodes[m.dst], m.append).1.success
    ensures m.append.term in c.leaderLog
    ensures Share(Whole(c, OnAppendReq(m)), c.leaderLog[m.append.term], m.append.prevIndex + |m.append.entries|)
  {
    assert Stands(c.nodes[m.dst], c.full[m.dst]) && BatchOf(m);
    assert AppendOk(c, m.append) && NodeLogOk(c, c.nodes[m.dst], c.full[m.dst]) && LeaderLogOk(c, m.append.term);
    AckedBatch(c, m);
  }

  /** After a successful AppendEntries the follower's log agrees with its leader's up to the batch's end. */
  lemma FollowerTakesOver(states: seq<Cluster>, steps: seq<Step>, k: nat, m: Message)
    requires IsAnchoredRun(states, steps) && k < |steps| && steps[k] == OnAppendReq(m) && m.dst < |states[k].nodes|
    requires m.AppendReq? && HandleAppendEntries(states[k].nodes[m.dst], m.append).1.success
    requires m.dst < |states[k + 1].nodes| == |states[k + 1].full|
    ensures m.append.term in states[k].leaderLog
    ensures var upto := m.append.prevIndex + |m.append.entries|;
            Share(states[k + 1].full[m.dst], states[k].leaderLog[m.append.term], upto)
  {
    RunInv(states, steps, k);
    assert Taken(states, steps, k) && AnchoredAt(states, steps, k);
    TakesOver(states[k], m);
  }

  lemma AppendCommits(r: Replica, args: AppendArgs)
    requires HandleAppendEntries(r, args).0.commitIndex != r.commitIndex
    ensures HandleAppendEntries(r, args).1.success
    ensures HandleAppendEntries(r, args).0.commitIndex == Min(args.commit, TakenIn(r, args).LastIndex())
  {
  }

  lemma WholeLength(states: seq<Cluster>, steps: seq<Step>, k: nat, m: Message)
    requires IsRun(states, steps) && k < |steps| && steps[k] == OnAppendReq(m)
    requires m.dst < |states[k + 1].full|
    ensures m.AppendReq? && m.dst < |states[k].nodes| && |states[k + 1].full[m.dst]| == TakenIn(states[k].nodes[m.dst], m.append).LastIndex()
  {
    assert Taken(states, steps, k);
    RunShows(states, steps, k, m.dst);
  }

  /** When AppendEntries moves a follower's commit index, to `n`, what is then committed is part of its
      leader's log if and only if the two logs have the same term at `n`; it always is when `n` lies
      within the batch. */
  lemma AppendCommitsExactly(states: seq<Cluster>, steps: seq<Step>, k: nat, m: Message)
    requires IsAnchoredRun(states, steps) && k < |steps| && steps[k] == OnAppendReq(m) && m.AppendReq?
    requires m.dst < |states[k].nodes| == |states[k].full| && m.dst < |states[k + 1].nodes| == |states[k + 1].full|
    requires states[k + 1].nodes[m.dst].commitIndex > states[k].nodes[m.dst].commitIndex
    ensures var d := states[k + 1];
            var own, n := d.full[m.dst], d.nodes[m.dst].commitIndex;
            && m.append.term in d.leaderLog
            && n == Min(m.append.commit, |own|) && 1 <= n <= |d.leaderLog[m.append.term]|
            && (Committed(d, m.dst) <= d.leaderLog[m.append.term] <==>
                d.leaderLog[m.append.term][n - 1].term == own[n - 1].term)
            && (n <= m.append.prevIndex + |m.append.entries| ==> Committed(d, m.dst) <= d.leaderLog[m.append.term])
  {
    var c, d := states[k], states[k + 1];
    assert Taken(states, steps, k);
    AppendCommits(c.nodes[m.dst], m.append);
    assert Grows(c, d) by { StepLater(states, steps, k); }
    assert CommitOk(c, m) by { RunCommitsOk(states, steps, k); }
    WholeLength(states, steps, k, m);
    CommittedByTerm(states, steps, k + 1, m.dst, m.append.term);
    FollowerTakesOver(states, steps, k, m);
    WithinBatch(c, d, m.append.term, d.full[m.dst], m.append.prevIndex + |m.append.entries|,
                d.nodes[m.dst].commitIndex);
  }

  lemma WithinBatch(c: Cluster, d: Cluster, t: nat, own: seq<Entry>, upto: nat, n: nat)
    requires Grows(c, d) && t in c.leaderLog && Share(own, c.leaderLog[t], upto) && 1 <= n
    ensures n <= upto ==> n <= |d.leaderLog[t]| && d.leaderLog[t][n - 1].term == own[n - 1].term
  {
    if n <= upto {
      assert own[..upto][n - 1] == c.leaderLog[t][..upto][n - 1];
    }
  }

  ghost predicate Comparable(x: seq<Entry>, y: seq<Entry>) { x <= y || y <= x }

  lemma PrefixesCompare(x: seq<Entry>, y: seq<Entry>, z: seq<Entry>)
    requires x <= z && y <= z
    ensures Comparable(x, y)
  {
    if |x| <= |y| {
      assert x == z[..|x|] == y[..|x|];
    } else {
      assert y == z[..|y|] == x[..|y|];
    }
  }

  /** After a successful AppendEntries the follower's log up to the batch's end, and with it every commit
      up to there, agrees with the log of the sending leader at every moment of that leadership. */
  lemma FollowerCommitAgrees(states: seq<Cluster>, steps: seq<Step>, k: nat, m: Message, j: nat, b: NodeId)
    requires IsAnchoredRun(states, steps) && k < |steps| && steps[k] == OnAppendReq(m) && m.dst < |states[k].nodes|
    requires m.AppendReq? && HandleAppendEntries(states[k].nodes[m.dst], m.append).1.success
    requires m.dst < |states[k + 1].nodes| == |states[k + 1].full|
    requires j < |states| && b < |states[j].nodes| == |states[j].full| && states[j].nodes[b].role.Leader?
    requires states[j].nodes[b].term == m.append.term
    ensures var own, upto := states[k + 1].full[m.dst], m.append.prevIndex + |m.append.entries|;
            && upto <= |own| && states[k + 1].nodes[m.dst].commitIndex <= |own|
            && Comparable(own[..upto], states[j].full[b])
            && (states[k + 1].nodes[m.dst].commitIndex <= upto ==>
                  Comparable(Committed(states[k + 1], m.dst), states[j].full[b]))
  {
    var own, upto := states[k + 1].full[m.dst], m.append.prevIndex + |m.append.entries|;
    var last, n := states[|states| - 1].leaderLog, states[k + 1].nodes[m.dst].commitIndex;
    NodeBounds(states, steps, k + 1, m.dst);
    FollowerTakesOver(states, steps, k, m);
    RunGrows(states, steps, k, |states| - 1);
    LeaderLogGrows(states, steps, j, b);
    assert own[..upto] <= last[m.append.term];
    PrefixesCompare(own[..upto], states[j].full[b], last[m.append.term]);
    if n <= upto {
      assert own[..n] == own[..upto][..n];
      PrefixesCompare(own[..n], states[j].full[b], last[m.append.term]);
    }
  }
}
