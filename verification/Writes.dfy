/** What a client may conclude from the answer to its write. */
module Writes {
  import opened Types
  import opened Board
  import opened LogModel
  import opened Replica
  import opened ReplicaRuns
  import opened Cluster
  import opened Votes
  import opened Nodes
  import opened Elections
  import opened Logs
  import opened Steps
  import opened Safety
  import opened Commits
  import opened Reads

  lemma {:induction false} AppliedIsListed(bs: Boards, strokes: seq<Stroke>, s: Stroke)
    requires s in strokes
    ensures s in At(ApplyAll(bs, strokes), s.boardId).events
  {
    var n := |strokes| - 1;
    if s != strokes[n] {
      assert strokes == strokes[..n] + [strokes[n]];
      AppliedIsListed(bs, strokes[..n], s);
    }
  }

  // ----- writes in a run

  /** Step `j` is a client write that node `i`, leading, accepts. */
  ghost predicate Accepts(states: seq<Cluster>, steps: seq<Step>, j: nat, i: NodeId, stroke: Stroke) {
    && IsRun(states, steps) && j < |steps| && steps[j] == Write(i, stroke)
    && i < |states[j].nodes| && states[j].nodes[i].role.Leader?
  }

  /** The entry it becomes. */
  function Written(r: Replica, stroke: Stroke): Entry { Entry(r.log.LastIndex() + 1, r.term, stroke) }

  /** At moment `k` the write that step `j` accepted at node `i` is answered with success. */
  ghost predicate Reported(states: seq<Cluster>, steps: seq<Step>, j: nat, i: NodeId, stroke: Stroke, k: nat) {
    && Accepts(states, steps, j, i, stroke) && j < k < |states| && i < |states[k].nodes| == |states[k].full|
    && FinishWrite(states[k].nodes[i], Written(states[j].nodes[i], stroke).index).1
  }

  lemma WriteAppends(states: seq<Cluster>, steps: seq<Step>, j: nat, i: NodeId, stroke: Stroke)
    requires Accepts(states, steps, j, i, stroke)
    ensures var r, d := states[j].nodes[i], states[j + 1];
            && i < |d.nodes| == |d.full| && d.nodes[i].role.Leader? && d.nodes[i].term == r.term
            && |d.full[i]| == Written(r, stroke).index && d.full[i][|d.full[i]| - 1] == Written(r, stroke)
  {
    assert Taken(states, steps, j);
    RunShows(states, steps, j, i);
  }

  /** `e` is in its place in the log, compacted or not. */
  ghost predicate Holds(full: seq<Entry>, e: Entry) { 1 <= e.index <= |full| && full[e.index - 1] == e }

  ghost predicate HoldsTerm(full: seq<Entry>, e: Entry) { 1 <= e.index <= |full| && full[e.index - 1].term == e.term }

  /** Index and term tell whether a log holds the written entry: nothing else can sit there. */
  lemma WrittenByTerm(states: seq<Cluster>, steps: seq<Step>, j: nat, i: NodeId, stroke: Stroke, k: nat, x: NodeId)
    requires IsAnchoredRun(states, steps) && Accepts(states, steps, j, i, stroke) && k < |states| && x < |states[k].full|
    ensures var e := Written(states[j].nodes[i], stroke);
            Holds(states[k].full[x], e) <==> HoldsTerm(states[k].full[x], e)
  {
    var e, full := Written(states[j].nodes[i], stroke), states[k].full[x];
    WriteAppends(states, steps, j, i, stroke);
    if HoldsTerm(full, e) {
      LogMatching(states, steps, j + 1, k, i, x, e.index - 1);
      assert full[..e.index - 1 + 1][e.index - 1] == states[j + 1].full[i][..e.index - 1 + 1][e.index - 1];
    }
  }

  /** The entry `e` stands in its place, committed and applied, and its stroke is on its board. */
  ghost predicate Applies(full: seq<Entry>, after: Replica, e: Entry) {
    && Holds(full, e) && e.index <= after.commitIndex == after.lastApplied
    && e.stroke in At(after.boards, e.stroke.boardId).events
  }

  lemma AdvanceStands(r: Replica, full: seq<Entry>)
    requires Stands(r, full) && r.role.Leader?
    ensures Stands(UpdateCommitIndex(r), full)
  {
    CallStands(r, full, OnAdvance);
    assert Do(r, OnAdvance) == UpdateCommitIndex(r);
  }

  lemma CommittedIsListed(committed: seq<Entry>, n: nat)
    requires 1 <= n <= |committed|
    ensures var s := committed[n - 1].stroke; s in At(ApplyAll(map[], StrokesOf(committed)), s.boardId).events
  {
    assert StrokesOf(committed)[n - 1] == committed[n - 1].stroke;
    AppliedIsListed(map[], StrokesOf(committed), committed[n - 1].stroke);
  }

  lemma ShownApplies(u: Replica, full: seq<Entry>, e: Entry)
    requires u.lastApplied == u.commitIndex <= |full| && u.boards == ApplyAll(map[], StrokesOf(full[..u.commitIndex]))
    ensures Applies(full, u, e) <==> e.index <= u.commitIndex && Holds(full, e)
  {
    if e.index <= u.commitIndex && Holds(full, e) {
      assert full[..u.commitIndex][e.index - 1] == e;
      CommittedIsListed(full[..u.commitIndex], e.index);
    }
  }

  lemma AppliesWithin(r: Replica, full: seq<Entry>, e: Entry)
    requires Stands(r, full) && r.role.Leader?
    ensures var u := UpdateCommitIndex(r);
            Applies(full, u, e) <==> e.index <= u.commitIndex && Holds(full, e)
  {
    AdvanceStands(r, full);
    ShownApplies(UpdateCommitIndex(r), full, e);
  }

  /** The commit index has reached the reported index exactly when it was there before or some index at or
      above it may be committed. */
  lemma SuccessCommitsExactly(r: Replica, index: nat)
    requires Sound(r) && FinishWrite(r, index).1
    ensures FinishWrite(r, index).0.commitIndex >= index <==>
            index <= r.commitIndex || exists k: nat :: k >= index && Committable(r, k)
  {
    CommitPointIsGreatest(r, r.log.LastIndex());
    var p := CommitPoint(r, r.log.LastIndex());
    if p > r.commitIndex {
      CommitApplies(r, p);
    }
    if k: nat :| k >= index && Committable(r, k) {
      assert k <= r.log.LastIndex();
    }
  }

  /** An entry of the leader's own term that a majority has is committed. */
  lemma BackedIsCommitted(r: Replica, full: seq<Entry>, e: Entry)
    requires Stands(r, full) && Holds(full, e) && e.term == r.term && FinishWrite(r, e.index).1
    ensures FinishWrite(r, e.index).0.commitIndex >= e.index
  {
    if e.index > r.commitIndex {
      assert r.log.Get(e.index).value == full[r.log.base..][e.index - r.log.base - 1] == e;
      assert Committable(r, e.index);
    }
    SuccessCommitsExactly(r, e.index);
  }

  /** Within one unbroken leadership a success means what it says: a majority has the written entry, it is
      committed and applied, and its stroke is on its board's event list. */
  lemma SuccessMeansCommitted(states: seq<Cluster>, steps: seq<Step>, j: nat, i: NodeId, stroke: Stroke, k: nat)
    requires IsAnchoredRun(states, steps)
    requires Reported(states, steps, j, i, stroke, k) && states[k].nodes[i].term == states[j].nodes[i].term
    ensures var r, e := states[k].nodes[i], Written(states[j].nodes[i], stroke);
            && 1 + Matched(r, r.cfg.peers, e.index) >= Majority(r.cfg)
            && Applies(states[k].full[i], FinishWrite(r, e.index).0, e)
  {
    var r, e := states[k].nodes[i], Written(states[j].nodes[i], stroke);
    WriteAppends(states, steps, j, i, stroke);
    LeaderKeepsLog(states, steps, j + 1, k, i);
    assert Holds(states[k].full[i], e);
    RunShows(states, steps, k, i);
    BackedIsCommitted(r, states[k].full[i], e);
    AppliesWithin(r, states[k].full[i], e);
  }

  /** In general the written entry has been applied exactly when the commit index has reached it and the
      log still has the term of the write at its index. The handler checks neither, nor that the node is
      still in the term of the write. */
  lemma SuccessAppliesExactly(states: seq<Cluster>, steps: seq<Step>, j: nat, i: NodeId, stroke: Stroke, k: nat)
    requires IsAnchoredRun(states, steps) && Reported(states, steps, j, i, stroke, k)
    ensures var r, e := states[k].nodes[i], Written(states[j].nodes[i], stroke);
            var after := FinishWrite(r, e.index).0;
            Applies(states[k].full[i], after, e) <==> e.index <= after.commitIndex && HoldsTerm(states[k].full[i], e)
  {
    RunShows(states, steps, k, i);
    AppliesWithin(states[k].nodes[i], states[k].full[i], Written(states[j].nodes[i], stroke));
    WrittenByTerm(states, steps, j, i, stroke, k, i);
  }

  // ----- what later leaders keep of a write

  /** A write answered with success while its leader is still in the term of the write: a majority has
      accepted its entry in that term. */
  lemma BackedIsChosen(c: Cluster, i: NodeId, index: nat) returns (q: set<NodeId>)
    requires i < |c.nodes| == |c.full| && c.nodes[i].cfg.peers == Others(|c.nodes|, i) && FinishWrite(c.nodes[i], index).1
    requires 1 <= index <= |c.full[i]| && c.full[i][index - 1].term == c.nodes[i].term
    requires MatchOk(c, i) && HeldComplete(c)
    requires c.nodes[i].term in c.leaderLog && c.leaderLog[c.nodes[i].term] == c.full[i]
    ensures Chosen(c, c.nodes[i].term, index, q)
  {
    var r := c.nodes[i];
    HoldersAreQuorum(r, |c.nodes|, i, index);
    q := Holders(r, r.cfg.peers, index) + {i};
    MatchedIsChosen(c, i, index, Holders(r, r.cfg.peers, index));
  }

  lemma SuccessIsChosen(states: seq<Cluster>, steps: seq<Step>, j: nat, i: NodeId, stroke: Stroke, k: nat) returns (q: set<NodeId>)
    requires IsTimelyRun(states, steps)
    requires Reported(states, steps, j, i, stroke, k) && states[k].nodes[i].term == states[j].nodes[i].term
    ensures var e := Written(states[j].nodes[i], stroke);
            && Chosen(states[k], e.term, e.index, q) && Holds(states[k].full[i], e)
            && states[k].nodes[i].role.Leader?
  {
    WriteAppends(states, steps, j, i, stroke);
    LeaderKeepsLog(states, steps, j + 1, k, i);
    RunInv(states, steps, k);
    RunHeld(states, steps, k);
    RunAcks(states, steps, k);
    q := BackedIsChosen(states[k], i, Written(states[j].nodes[i], stroke).index);
  }

  lemma ChosenStillIs(c: Cluster, d: Cluster, t: nat, n: nat, q: set<NodeId>)
    requires Later(c, d) && Chosen(c, t, n, q)
    ensures Chosen(d, t, n, q)
  {
  }

  /** And no later leader ever lacks it: every leader of a later term, at every moment of its leadership,
      holds the entry of a write that was answered with success in the term of the write. */
  lemma SuccessLasts(states: seq<Cluster>, steps: seq<Step>, j: nat, i: NodeId, stroke: Stroke, k: nat, l: nat, b: NodeId)
    requires IsTimelyRun(states, steps)
    requires Reported(states, steps, j, i, stroke, k) && states[k].nodes[i].term == states[j].nodes[i].term
    requires l < |states| && b < |states[l].nodes| == |states[l].full|
    requires states[l].nodes[b].role.Leader? && states[l].nodes[b].term > states[j].nodes[i].term
    ensures Holds(states[l].full[b], Written(states[j].nodes[i], stroke))
  {
    var e, last := Written(states[j].nodes[i], stroke), states[|states| - 1];
    var q := SuccessIsChosen(states, steps, j, i, stroke, k);
    RunGrows(states, steps, k, |states| - 1);
    ChosenStillIs(states[k], last, e.term, e.index, q);
    LeaderHas(states, steps, e.term, e.index, q, l, b);
    LeaderLogGrows(states, steps, k, i);
    assert last.leaderLog[e.term][..e.index][e.index - 1] == states[k].full[i][e.index - 1] == e;
    assert states[l].full[b][e.index - 1] == last.leaderLog[e.term][..e.index][e.index - 1];
  }
}
