/** Log Matching and Leader Completeness, sections 5.3 and 5.4 of the Raft paper. */
module Safety {
  import opened Types
  import opened LogModel
  import opened Replica
  import opened Cluster
  import opened Votes
  import opened Elections
  import opened Logs
  import opened Steps

  // ----- whole anchored runs, and the full logs that the compacted ones stand for

  /** `d` comes after `c` in a run: records are never revised. */
  ghost predicate Later(c: Cluster, d: Cluster) {
    Grows(c, d) && c.held <= d.held && |c.nodes| == |d.nodes|
  }

  lemma StepInv(states: seq<Cluster>, steps: seq<Step>, k: nat)
    requires k < |steps| < |states| && Taken(states, steps, k) && AnchoredAt(states, steps, k)
    requires Inv(states[k])
    ensures Inv(states[k + 1]) && Later(states[k], states[k + 1])
  {
    NextInv(states[k], steps[k], states[k + 1]);
  }

  lemma {:induction false} RunInv(states: seq<Cluster>, steps: seq<Step>, k: nat)
    requires IsAnchoredRun(states, steps) && k < |states|
    ensures Inv(states[k]) && |states[k].nodes| == |states[0].nodes|
  {
    if k == 0 {
      InitInv(states[0]);
    } else {
      RunInv(states, steps, k - 1);
      assert AnchoredAt(states, steps, k - 1);
      StepInv(states, steps, k - 1);
    }
  }

  lemma StepLater(states: seq<Cluster>, steps: seq<Step>, k: nat)
    requires IsAnchoredRun(states, steps) && k < |steps|
    ensures Later(states[k], states[k + 1])
  {
    RunInv(states, steps, k);
    assert AnchoredAt(states, steps, k);
    StepInv(states, steps, k);
  }

  lemma LaterStill(a: Cluster, b: Cluster, c: Cluster)
    requires Later(a, b) && Later(b, c)
    ensures Later(a, c)
  {
  }

  lemma {:induction false} RunGrows(states: seq<Cluster>, steps: seq<Step>, j: nat, k: nat)
    requires IsAnchoredRun(states, steps) && j <= k < |states|
    ensures Later(states[j], states[k])
    decreases k
  {
    if j < k {
      RunGrows(states, steps, j, k - 1);
      StepLater(states, steps, k - 1);
      LaterStill(states[j], states[k - 1], states[k]);
    }
  }

  /** What a node has of its own term is on record. */
  ghost predicate HeldComplete(c: Cluster)
    requires |c.nodes| == |c.full|
  {
    forall i, n :: 0 <= i < |c.nodes| && 1 <= n <= |c.full[i]| && c.full[i][n - 1].term == c.nodes[i].term ==>
                     Held(i, c.nodes[i].term, n) in c.held
  }

  lemma {:induction false} RunHeld(states: seq<Cluster>, steps: seq<Step>, k: nat)
    requires IsRun(states, steps) && k < |states|
    ensures |states[k].nodes| == |states[k].full| && HeldComplete(states[k])
  {
    if k > 0 {
      RunHeld(states, steps, k - 1);
      assert Taken(states, steps, k - 1);
    }
  }

  // ----- anchored runs

  ghost predicate Uncompacted(c: Cluster) { forall i :: 0 <= i < |c.nodes| ==> c.nodes[i].log.base == 0 }

  /** While nobody has compacted its log there is nothing to be wrong about. */
  lemma UncompactedIsAnchored(states: seq<Cluster>, steps: seq<Step>)
    requires IsRun(states, steps) && forall c :: c in states ==> Uncompacted(c)
    ensures IsAnchoredRun(states, steps)
  {
    forall k | 0 <= k < |steps| ensures AnchoredAt(states, steps, k) {
      assert Uncompacted(states[k]);
    }
  }

  // ----- Log Matching

  lemma RootsAgree(c: Cluster, d: Cluster, x: seq<Entry>, y: seq<Entry>, n: nat)
    requires Grows(c, d) && AllRooted(c, x) && AllRooted(d, y)
    requires n < |x| && n < |y| && x[n].term == y[n].term
    ensures x[..n + 1] == y[..n + 1]
  {
    StaysRooted(c, d, x);
    assert Rooted(d, x, n) && Rooted(d, y, n);
  }

  /** Two logs, at any two moments of a run, that hold an entry of the same index and term are
      identical up to it. */
  lemma LogMatching(states: seq<Cluster>, steps: seq<Step>, j: nat, k: nat, a: NodeId, b: NodeId, n: nat)
    requires IsAnchoredRun(states, steps) && j < |states| && k < |states|
    requires a < |states[j].full| && b < |states[k].full|
    requires n < |states[j].full[a]| && n < |states[k].full[b]|
    requires states[j].full[a][n].term == states[k].full[b][n].term
    ensures states[j].full[a][..n + 1] == states[k].full[b][..n + 1]
  {
    RunInv(states, steps, j);
    RunInv(states, steps, k);
    assert NodeLogOk(states[j], states[j].nodes[a], states[j].full[a]) && NodeLogOk(states[k], states[k].nodes[b], states[k].full[b]);
    if j <= k {
      RunGrows(states, steps, j, k);
      RootsAgree(states[j], states[k], states[j].full[a], states[k].full[b], n);
    } else {
      RunGrows(states, steps, k, j);
      RootsAgree(states[k], states[j], states[k].full[b], states[j].full[a], n);
    }
  }

  // ----- Leader Completeness

  /** A majority has, each while in term `t`, held the entry of term `t` at index `n`. */
  ghost predicate Chosen(c: Cluster, t: nat, n: nat, q: set<NodeId>) {
    Quorum(|c.nodes|, q) && forall v :: v in q ==> Held(v, t, n) in c.held
  }

  /** A log at least as up to date as one holding the chosen prefix holds it too, if every leader in
      between does. */
  lemma UpToDateHas(c: Cluster, p: seq<Entry>, t: nat, ours: seq<Entry>, theirs: seq<Entry>, next: nat)
    requires LeaderLogsOk(c) && AllRooted(c, ours) && AllRooted(c, theirs)
    requires p != [] && p[|p| - 1].term == t && p <= theirs && t < next
    requires AtLeast(ours, theirs) && TermsUpTo(ours, next - 1)
    requires forall u :: u in c.elections && t < u < next ==> p <= c.elections[u].log
    ensures p <= ours
  {
    var last := |theirs| - 1;
    assert Rooted(c, theirs, last) && Rooted(c, theirs, |p| - 1);
    var lt := theirs[last].term;
    assert lt >= t by {
      assert LeaderLogOk(c, lt);
      assert c.leaderLog[lt][|p| - 1] == theirs[|p| - 1];
      assert TermsUpTo(c.leaderLog[lt], lt);
    }
    var mine := |ours| - 1;
    assert Rooted(c, ours, mine);
    if LastTermOf(ours) == lt {
      assert ours[..last + 1] == ours[..mine + 1][..last + 1];
      assert theirs == theirs[..last + 1];
      assert ours[..last + 1] == c.leaderLog[lt][..mine + 1][..last + 1];
    } else {
      var u := LastTermOf(ours);
      assert LeaderLogOk(c, u);
      assert p <= c.elections[u].log <= c.leaderLog[u];
      assert |c.elections[u].log| <= mine;
      assert ours == ours[..mine + 1];
    }
  }

  /** If the leaders in between have the chosen prefix, a voter of `u` who held it still had it. */
  lemma VoterHad(c: Cluster, h: Held, u: nat)
    requires HeldOk(c, h) && (h.node, u) in c.grants && GrantRetained(c, h, u)
    requires forall w :: w in c.elections && h.term < w < u ==> c.leaderLog[h.term][..h.index] <= c.elections[w].log
    ensures c.leaderLog[h.term][..h.index] <= c.grants[(h.node, u)].log
  {
    assert Inherited(c, h, u - 1);
  }

  lemma ElectedHas(c: Cluster, h: Held, u: nat)
    requires LeaderLogsOk(c) && GrantLogsOk(c)
    requires u in c.leaderLog && u in c.elections && h.term < u
    requires HeldOk(c, h) && (h.node, u) in c.grants && GrantRetained(c, h, u)
    requires AtLeast(c.elections[u].log, c.grants[(h.node, u)].log)
    requires forall w :: w in c.elections && h.term < w < u ==> c.leaderLog[h.term][..h.index] <= c.elections[w].log
    ensures c.leaderLog[h.term][..h.index] <= c.elections[u].log
  {
    VoterHad(c, h, u);
    assert LeaderLogOk(c, u);
    PrefixRooted(c, c.leaderLog[u], c.elections[u].log);
    UpToDateHas(c, c.leaderLog[h.term][..h.index], h.term, c.elections[u].log, c.grants[(h.node, u)].log, u);
  }

  /** A node that held the chosen entry and voted for the later leader. */
  lemma SharedVoter(c: Cluster, t: nat, n: nat, q: set<NodeId>, u: nat) returns (v: NodeId)
    requires |c.nodes| == |c.full| && ElectionsSound(c) && ElectionsUpToDate(c) && HeldRetained(c) && GrantsRetained(c)
    requires Chosen(c, t, n, q) && u in c.elections && t < u
    ensures HeldOk(c, Held(v, t, n))
    ensures (v, u) in c.grants && GrantRetained(c, Held(v, t, n), u)
    ensures AtLeast(c.elections[u].log, c.grants[(v, u)].log)
  {
    assert ElectionSound(c, u);
    v := QuorumsMeet(|c.nodes|, q, c.elections[u].voters);
    assert VoterPinned(c, u, v);
    assert Held(v, t, n) in c.held;
  }

  /** Section 5.4.3: every later leader was elected with the chosen prefix. */
  lemma {:induction false} LaterLeadersHave(c: Cluster, t: nat, n: nat, q: set<NodeId>, u: nat)
    requires |c.nodes| == |c.full| && ElectionsSound(c) && ElectionsUpToDate(c) && HeldRetained(c) && GrantsRetained(c)
    requires LeaderLogsOk(c) && GrantLogsOk(c) && c.leaderLog.Keys == c.elections.Keys
    requires Chosen(c, t, n, q)
    requires u in c.elections && t < u
    ensures t in c.leaderLog && 1 <= n <= |c.leaderLog[t]| && c.leaderLog[t][..n] <= c.elections[u].log
    decreases u
  {
    var v := SharedVoter(c, t, n, q, u);
    forall w | w in c.elections && t < w < u
      ensures c.leaderLog[t][..n] <= c.elections[w].log
    {
      LaterLeadersHave(c, t, n, q, w);
    }
    ElectedHas(c, Held(v, t, n), u);
  }

  /** In state `k`, node `v` is in term `t` and has an entry of that term at index `n`. */
  ghost predicate HoldsAt(states: seq<Cluster>, k: nat, v: NodeId, t: nat, n: nat) {
    && k < |states| && v < |states[k].nodes| == |states[k].full|
    && states[k].nodes[v].term == t
    && 1 <= n <= |states[k].full[v]|
    && states[k].full[v][n - 1].term == t
  }

  /** A majority has accepted, each member in term `t` itself, the entry of term `t` at index `n`. */
  ghost predicate Accepted(states: seq<Cluster>, t: nat, n: nat, q: set<NodeId>) {
    && |states| > 0 && Quorum(|states[0].nodes|, q)
    && forall v :: v in q ==> exists k :: HoldsAt(states, k, v, t, n)
  }

  lemma HoldsRecorded(states: seq<Cluster>, steps: seq<Step>, k: nat, v: NodeId, t: nat, n: nat)
    requires IsAnchoredRun(states, steps) && HoldsAt(states, k, v, t, n)
    ensures var c := states[|states| - 1];
            && Held(v, t, n) in c.held
            && t in c.leaderLog && n <= |c.leaderLog[t]|
            && c.leaderLog[t][..n] == states[k].full[v][..n]
  {
    var c, s := states[|states| - 1], states[k].full[v];
    RunHeld(states, steps, k);
    RunInv(states, steps, k);
    RunGrows(states, steps, k, |states| - 1);
    assert NodeLogOk(states[k], states[k].nodes[v], states[k].full[v]);
    StaysRooted(states[k], c, s);
    assert Rooted(c, s, n - 1);
  }

  lemma AcceptedIsChosen(states: seq<Cluster>, steps: seq<Step>, t: nat, n: nat, q: set<NodeId>)
    requires IsAnchoredRun(states, steps) && Accepted(states, t, n, q)
    ensures Chosen(states[|states| - 1], t, n, q)
  {
    forall v | v in q ensures Held(v, t, n) in states[|states| - 1].held {
      var k: nat :| HoldsAt(states, k, v, t, n);
      HoldsRecorded(states, steps, k, v, t, n);
    }
    RunGrows(states, steps, 0, |states| - 1);
  }

  lemma RunLaterHave(states: seq<Cluster>, steps: seq<Step>, t: nat, n: nat, q: set<NodeId>, u: nat)
    requires IsAnchoredRun(states, steps)
    requires var c := states[|states| - 1]; Chosen(c, t, n, q) && u in c.elections && t < u
    ensures var c := states[|states| - 1];
            t in c.leaderLog && 1 <= n <= |c.leaderLog[t]| && c.leaderLog[t][..n] <= c.elections[u].log
  {
    RunInv(states, steps, |states| - 1);
    LaterLeadersHave(states[|states| - 1], t, n, q, u);
  }

  lemma LeaderLogGrows(states: seq<Cluster>, steps: seq<Step>, j: nat, b: NodeId)
    requires IsAnchoredRun(states, steps) && j < |states| && b < |states[j].nodes|
    requires states[j].nodes[b].role.Leader?
    ensures |states[j].full| == |states[j].nodes|
    ensures var u := states[j].nodes[b].term;
            && u in states[|states| - 1].elections && u in states[|states| - 1].leaderLog
            && states[j].full[b] <= states[|states| - 1].leaderLog[u]
            && states[|states| - 1].elections[u].log <= states[j].full[b]
  {
    RunInv(states, steps, j);
    RunGrows(states, steps, j, |states| - 1);
    assert LeaderLogOk(states[j], states[j].nodes[b].term);
  }

  /** Leader Completeness: once a majority has accepted in term `t` the entry of term `t` at index `n`,
      every leader of a later term, at every moment of its leadership, holds that entry and all before
      it, exactly as each acceptor did, compacted or not. */
  lemma LeaderCompleteness(states: seq<Cluster>, steps: seq<Step>, t: nat, n: nat, q: set<NodeId>, j: nat, b: NodeId)
    requires IsAnchoredRun(states, steps) && Accepted(states, t, n, q)
    requires j < |states| && b < |states[j].nodes|
    requires states[j].nodes[b].role.Leader? && states[j].nodes[b].term > t
    ensures |states[j].full| == |states[j].nodes|
    ensures forall k: nat, v: NodeId :: HoldsAt(states, k, v, t, n) ==>
                                          states[k].full[v][..n] <= states[j].full[b]
  {
    AcceptedIsChosen(states, steps, t, n, q);
    LeaderLogGrows(states, steps, j, b);
    RunLaterHave(states, steps, t, n, q, states[j].nodes[b].term);
    forall k: nat, v: NodeId | HoldsAt(states, k, v, t, n)
      ensures states[k].full[v][..n] <= states[j].full[b]
    {
      HoldsRecorded(states, steps, k, v, t, n);
    }
  }
}
