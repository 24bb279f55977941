/** Concrete runs of five replicas, showing what the theorems about runs cannot do without: the guard of
    followers, timely replies, a right compacted part, the term check of a write, the index check of a read. */
module Witnesses {
  import opened Types
  import opened LogModel
  import opened Replica
  import opened Cluster
  import opened Nodes
  import opened Steps
  import opened Commits
  import opened Agreement
  import opened Reads
  import Writes
  import opened Stage

  // ----- the runs

  /** What node 0 wrote in term 1. */
  function Old(x: Stroke, lost: Stroke): seq<Entry> { [Entry(1, 1, x), Entry(2, 1, lost)] }

  /** The reply of node 1 to both. */
  function Late(x: Stroke, lost: Stroke): Message {
    AppendRep(1, 0, AppendArgs(1, 0, 0, 0, Old(x, lost), 0), AppendResult(1, true, 2))
  }

  /** Node 0 leads term 1 with the votes of 3 and 4. */
  ghost predicate Opening(w: Past, c: Cluster, log: seq<Entry>) {
    && Reached(c, w) && Five(c)
    && Holds(c.nodes[0], 1, Leader, log) && Starts(c.nodes[0], 0, 1)
    && Holds(c.nodes[1], 0, Follower, []) && Holds(c.nodes[2], 0, Follower, [])
    && Holds(c.nodes[3], 1, Follower, []) && Holds(c.nodes[4], 1, Follower, [])
  }

  lemma Open(timely: bool, guarded: bool) returns (w: Past, c: Cluster)
    ensures w == Past(timely, guarded, [], []) && Opening(w, c, [])
  {
    var c0;
    w, c0 := Begin(timely, guarded);
    assert HasLog(c0.nodes[0], []) && HasLog(c0.nodes[3], []) && HasLog(c0.nodes[4], []);
    assert MayWin(c0, 0, 3) && MayWin(c0, 0, 4);
    var logs := [[], [], []];
    c := Elect(w, c0, 0, 3, 4, logs);
  }

  lemma WriteMore(w: Past, c: Cluster, log: seq<Entry>, x: Stroke) returns (d: Cluster)
    requires Opening(w, c, log)
    ensures Opening(w, d, log + [Entry(|log| + 1, 1, x)])
  {
    d := Go(w, c, Write(0, x));
  }

  /** The same, keeping the whole run in mind. */
  lemma WriteLast(w: Past, c: Cluster, log: seq<Entry>, x: Stroke) returns (after: Past, d: Cluster)
    requires Opening(w, c, log) && EndsAt(w, c)
    ensures after == w.(states := w.states + [d], steps := w.steps + [Write(0, x)])
    ensures Opening(after, d, log + [Entry(|log| + 1, 1, x)])
  {
    d, after := GoOn(w, c, Write(0, x));
  }

  /** The run so far ends with node 0 accepting the write of `lost`, at index 2. */
  ghost predicate Remembers(w: Past, x: Stroke, lost: Stroke) {
    && |w.states| == |w.steps| + 1 && |w.steps| >= 1 && w.steps[|w.steps| - 1] == Write(0, lost)
    && var c := w.states[|w.steps| - 1]; |c.nodes| == 5 && Holds(c.nodes[0], 1, Leader, [Entry(1, 1, x)])
  }

  /** Node 0 wrote twice in term 1 and reached node 1 only; the reply of node 1 is still under way. */
  ghost predicate FirstTerm(w: Past, c: Cluster, x: Stroke, lost: Stroke) {
    && Reached(c, w) && Five(c)
    && Holds(c.nodes[0], 1, Leader, Old(x, lost)) && Holds(c.nodes[1], 1, Follower, Old(x, lost))
    && Holds(c.nodes[2], 0, Follower, []) && Holds(c.nodes[3], 1, Follower, []) && Holds(c.nodes[4], 1, Follower, [])
    && Late(x, lost) in c.net
  }

  lemma RunFirst(timely: bool, guarded: bool, x: Stroke, lost: Stroke) returns (w: Past, c: Cluster)
    ensures FirstTerm(w, c, x, lost) && Remembers(w, x, lost) && w.timely == timely && w.guarded == guarded
  {
    var w0, blank := Open(timely, guarded);
    var once := WriteMore(w0, blank, [], x);
    assert [] + [Entry(1, 1, x)] == [Entry(1, 1, x)];
    var w1 := Mark(w0, once);
    Arrived(w1, once);
    var c0;
    w, c0 := WriteLast(w1, once, [Entry(1, 1, x)], lost);
    c := ReachOne(w, c0, x, lost);
  }

  lemma ReachOne(w: Past, c: Cluster, x: Stroke, lost: Stroke) returns (d: Cluster)
    requires Opening(w, c, [Entry(1, 1, x)] + [Entry(2, 1, lost)])
    ensures FirstTerm(w, d, x, lost)
  {
    assert [Entry(1, 1, x)] + [Entry(2, 1, lost)] == Old(x, lost);
    assert Member(c.nodes[0], 0);
    assert Batch(c.nodes[0], 1) == AppendArgs(1, 0, 0, 0, Old(x, lost), 0);
    d := Replicate(w, c, 0, 1);
  }

  /** Then node 3 was elected in term 2 and brought nodes 2 and 4, not 0 and 1, to its log `[y]`. */
  ghost predicate SecondTerm(w: Past, c: Cluster, x: Stroke, lost: Stroke, y: Stroke) {
    && Reached(c, w) && Five(c)
    && var now := [Entry(1, 2, y)];
    && Holds(c.nodes[0], 1, Leader, Old(x, lost)) && Holds(c.nodes[1], 1, Follower, Old(x, lost))
    && Holds(c.nodes[2], 2, Follower, now) && Holds(c.nodes[3], 2, Leader, now) && Holds(c.nodes[4], 2, Follower, now)
    && Late(x, lost) in c.net
    && Starts(c.nodes[3], 3, 1)
    && Acked(c.nodes[3], 2) in c.net && Acked(c.nodes[3], 4) in c.net
  }

  lemma TakeOver(timely: bool, guarded: bool, x: Stroke, lost: Stroke, y: Stroke) returns (w: Past, c: Cluster)
    ensures Reached(c, w) && Five(c) && Remembers(w, x, lost) && Late(x, lost) in c.net
    ensures w.timely == timely && w.guarded == guarded
    ensures Holds(c.nodes[0], 1, Leader, Old(x, lost)) && Holds(c.nodes[1], 1, Follower, Old(x, lost))
    ensures Holds(c.nodes[2], 2, Follower, []) && Holds(c.nodes[4], 2, Follower, [])
    ensures Holds(c.nodes[3], 2, Leader, [Entry(1, 2, y)]) && Starts(c.nodes[3], 3, 1)
  {
    var c0;
    w, c0 := RunFirst(timely, guarded, x, lost);
    var c1 := Elect(w, c0, 3, 2, 4, [[], [], []]);
    c := Accept(w, c1, 3, y);
  }

  lemma RunSecond(timely: bool, guarded: bool, x: Stroke, lost: Stroke, y: Stroke) returns (w: Past, c: Cluster)
    ensures SecondTerm(w, c, x, lost, y) && Remembers(w, x, lost) && w.timely == timely && w.guarded == guarded
  {
    var c0;
    w, c0 := TakeOver(timely, guarded, x, lost, y);
    var c1 := Replicate(w, c0, 3, 2);
    c := Replicate(w, c1, 3, 4);
  }

  /** A heartbeat alone makes a follower commit entries its leader never had: it checks no log. Node 0
      ends up with `x` committed at index 1, where the leader of its term has committed `y`, in a run
      whose replies are all timely. */
  lemma HeartbeatCommitsUnverified(x: Stroke, y: Stroke) returns (states: seq<Cluster>, steps: seq<Step>)
    requires x != y
    ensures IsTimelyRun(states, steps) && !AllAgree(states)
    ensures var c := states[|steps|];
            && |c.nodes| == 5 && c.nodes[3].role.Leader? && c.nodes[0].term == c.nodes[3].term
            && c.nodes[0].commitIndex == 1 && c.nodes[3].commitIndex == 1
            && c.nodes[0].log.Get(1) == Some(Entry(1, 1, x)) && c.nodes[3].log.Get(1) == Some(Entry(1, 2, y))
  {
    var w, c0 := RunSecond(true, false, x, x, y);
    var c1 := Acknowledge(w, c0, Acked(c0.nodes[3], 2));
    var c2 := Acknowledge(w, c1, Acked(c0.nodes[3], 4));
    var c3 := CommitAll(w, c2, 3, 2, 4);
    var c := BeatOnce(w, c3, 3, 0);
    states, steps := Differ(w, c, 0, 3, 1);
  }

  /** Two nodes that have committed different entries at `n`. */
  lemma Differ(w: Past, c: Cluster, a: nat, b: nat, n: nat) returns (states: seq<Cluster>, steps: seq<Step>)
    requires Reached(c, w) && Five(c) && a < 5 && b < 5 && 1 <= n
    requires n <= c.nodes[a].commitIndex <= |c.nodes[a].log.entries|
    requires n <= c.nodes[b].commitIndex <= |c.nodes[b].log.entries|
    requires c.nodes[a].log.entries[n - 1] != c.nodes[b].log.entries[n - 1]
    ensures IsAnchoredRun(states, steps) && states[|steps|] == c && !AllAgree(states)
    ensures w.timely ==> AllTimely(states, steps)
    ensures w.guarded ==> GuardedBelow(states, steps, |steps|)
  {
    states, steps :| Continues(states, steps, w) && states[|states| - 1] == c;
    RunOf(states, steps, w);
    assert Member(c.nodes[a], a) && Member(c.nodes[b], b);
    AllOf(w, c, a);
    AllOf(w, c, b);
    assert Committed(c, a)[n - 1] != Committed(c, b)[n - 1];
    assert !Agree(states, |steps|, a, |steps|, b);
  }

  lemma BeatOnce(w: Past, c: Cluster, i: nat, p: nat) returns (d: Cluster)
    requires Reached(c, w) && Five(c) && i < 5 && p < 5 && i != p && c.nodes[i].role.Leader? && !w.guarded
    requires c.nodes[i].term > c.nodes[p].term && c.nodes[p].commitIndex < c.nodes[i].commitIndex < Threshold(p)
    ensures Reached(d, w) && Five(d) && forall q: NodeId :: q < 5 && q != p ==> d.nodes[q] == c.nodes[q]
    ensures var f, g := c.nodes[p], d.nodes[p];
            && g.term == c.nodes[i].term && g.log == f.log
            && g.commitIndex == Min(c.nodes[i].commitIndex, f.log.LastIndex())
  {
    assert Member(c.nodes[p], p) && Member(c.nodes[i], i);
    var args := BeatArgs(c.nodes[i].term, i, c.nodes[i].commitIndex);
    var c1 := Go(w, c, StartRead(i));
    assert c1.nodes == c.nodes;
    CommitFrame(Hear(c.nodes[p], args.term), args.commit);
    assert HandleHeartbeat(c.nodes[p], args).0.log == c.nodes[p].log;
    d := Go(w, c1, OnBeat(BeatReq(i, p, |c.started|, args)));
  }

  /** Node 0 leads again in term 3, over the log `[y, z]`, counts the old reply of node 1 for its new
      entry, and with one genuine reply commits it. */
  ghost predicate ThirdTerm(w: Past, c: Cluster, x: Stroke, lost: Stroke, y: Stroke, z: Stroke) {
    && Reached(c, w) && Five(c)
    && var before, now := [Entry(1, 2, y)], [Entry(1, 2, y), Entry(2, 3, z)];
    && c.nodes[0].role.Leader? && c.nodes[0].log == Log(0, 0, now) && c.nodes[0].commitIndex == 2
    && MatchIndex(c.nodes[0], 1) == 2 && MatchIndex(c.nodes[0], 2) == 2
    && Holds(c.nodes[1], 1, Follower, Old(x, lost))
    && Holds(c.nodes[2], 3, Follower, now) && Holds(c.nodes[3], 2, Leader, before) && Holds(c.nodes[4], 3, Follower, before)
  }

  /** Node 0, too, now has the log of node 3. */
  ghost predicate CaughtUp(w: Past, c: Cluster, x: Stroke, lost: Stroke, y: Stroke) {
    && Reached(c, w) && Five(c)
    && var now := [Entry(1, 2, y)];
    && Holds(c.nodes[0], 2, Follower, now) && Holds(c.nodes[1], 1, Follower, Old(x, lost))
    && Holds(c.nodes[2], 2, Follower, now) && Holds(c.nodes[3], 2, Leader, now) && Holds(c.nodes[4], 2, Follower, now)
    && Late(x, lost) in c.net
  }

  lemma CatchUp(w: Past, c: Cluster, x: Stroke, lost: Stroke, y: Stroke) returns (d: Cluster)
    requires SecondTerm(w, c, x, lost, y)
    ensures CaughtUp(w, d, x, lost, y)
  {
    d := Replicate(w, c, 3, 0);
  }

  /** Node 0 leads again. */
  ghost predicate Regained(w: Past, c: Cluster, x: Stroke, lost: Stroke, y: Stroke) {
    && Reached(c, w) && Five(c)
    && var now := [Entry(1, 2, y)];
    && Holds(c.nodes[0], 3, Leader, now) && Starts(c.nodes[0], 0, 2) && Holds(c.nodes[1], 1, Follower, Old(x, lost))
    && Holds(c.nodes[2], 3, Follower, now) && Holds(c.nodes[3], 2, Leader, now) && Holds(c.nodes[4], 3, Follower, now)
    && Late(x, lost) in c.net
  }

  lemma LeadAgain(w: Past, c: Cluster, x: Stroke, lost: Stroke, y: Stroke) returns (d: Cluster)
    requires CaughtUp(w, c, x, lost, y)
    ensures Regained(w, d, x, lost, y)
  {
    var now := [Entry(1, 2, y)];
    assert MayWin(c, 0, 2) && MayWin(c, 0, 4);
    d := Elect(w, c, 0, 2, 4, [now, now, now]);
  }

  lemma Regain(timely: bool, guarded: bool, x: Stroke, lost: Stroke, y: Stroke) returns (w: Past, c: Cluster)
    ensures Regained(w, c, x, lost, y) && Remembers(w, x, lost) && w.timely == timely && w.guarded == guarded
  {
    var c0;
    w, c0 := RunSecond(timely, guarded, x, lost, y);
    var c1 := CatchUp(w, c0, x, lost, y);
    c := LeadAgain(w, c1, x, lost, y);
  }

  lemma CountLate(x: Stroke, lost: Stroke, y: Stroke, z: Stroke) returns (w: Past, c: Cluster)
    ensures Reached(c, w) && Five(c) && !w.timely && w.guarded
    ensures var before, now := [Entry(1, 2, y)], [Entry(1, 2, y), Entry(2, 3, z)];
            && Holds(c.nodes[0], 3, Leader, now) && MatchIndex(c.nodes[0], 1) == 2
            && 2 in c.nodes[0].nextIndex && c.nodes[0].nextIndex[2] == 2
            && Holds(c.nodes[1], 1, Follower, Old(x, lost))
            && Holds(c.nodes[2], 3, Follower, before) && Holds(c.nodes[3], 2, Leader, before) && Holds(c.nodes[4], 3, Follower, before)
  {
    var c0;
    w, c0 := Regain(false, true, x, lost, y);
    var c1 := Acknowledge(w, c0, Late(x, lost));
    c := Accept(w, c1, 0, z);
    assert c.nodes[0].log == Log(0, 0, [Entry(1, 2, y), Entry(2, 3, z)]);
  }

  lemma RunThird(x: Stroke, lost: Stroke, y: Stroke, z: Stroke) returns (w: Past, c: Cluster)
    ensures ThirdTerm(w, c, x, lost, y, z) && !w.timely && w.guarded
  {
    var c0;
    w, c0 := CountLate(x, lost, y, z);
    var c1 := Replicate(w, c0, 0, 2);
    var c2 := Acknowledge(w, c1, Acked(c0.nodes[0], 2));
    c := CommitAll(w, c2, 0, 1, 2);
  }

  lemma Overtake(x: Stroke, y: Stroke) returns (w: Past, c: Cluster)
    ensures Reached(c, w) && Five(c) && !w.timely && w.guarded
    ensures var before, now := [Entry(1, 2, y)], [Entry(1, 2, y), Entry(2, 3, x)];
            && c.nodes[0].role.Leader? && c.nodes[0].log == Log(0, 0, now) && c.nodes[0].commitIndex == 2
            && Holds(c.nodes[2], 3, Follower, now) && Holds(c.nodes[3], 4, Follower, before)
            && Holds(c.nodes[4], 4, Leader, before) && Starts(c.nodes[4], 4, 2)
  {
    var c0;
    w, c0 := RunThird(x, x, y, x);
    var before := [Entry(1, 2, y)];
    c := Elect(w, c0, 4, 1, 3, [before, Old(x, x), before]);
  }

  /** Without the assumption that replies are counted only in the leadership that asked, commits of leaders
      do disagree, though no commit index ever rises unguarded: nodes 0 and 4 lead, both have committed
      index 2, and hold different entries there. */
  lemma StaleRepliesBreakCommits(x: Stroke, y: Stroke) returns (states: seq<Cluster>, steps: seq<Step>)
    requires x != y
    ensures IsAnchoredRun(states, steps) && GuardedBelow(states, steps, |steps|) && !AllAgree(states)
    ensures var c := states[|steps|];
            && |c.nodes| == 5
            && c.nodes[0].role.Leader? && c.nodes[0].commitIndex == 2 && c.nodes[0].log.Get(2) == Some(Entry(2, 3, x))
            && c.nodes[4].role.Leader? && c.nodes[4].commitIndex == 2 && c.nodes[4].log.Get(2) == Some(Entry(2, 4, y))
  {
    var w, c1 := Overtake(x, y);
    var c2 := Accept(w, c1, 4, y);
    assert c2.nodes[4].log == Log(0, 0, [Entry(1, 2, y), Entry(2, 4, y)]);
    var c3 := Replicate(w, c2, 4, 3);
    var c4 := Replicate(w, c3, 4, 2);
    var c5 := Acknowledge(w, c4, Acked(c2.nodes[4], 3));
    var c6 := Acknowledge(w, c5, Acked(c2.nodes[4], 2));
    var c := CommitAll(w, c6, 4, 3, 2);
    states, steps := Differ(w, c, 0, 4, 2);
  }

  // ----- a lost write

  /** Node 0 leads term 3 over `[y, z]`, and nodes 2 and 4 have truly told that they hold it. */
  ghost predicate Restored(w: Past, c: Cluster, y: Stroke, z: Stroke) {
    && Reached(c, w) && Five(c) && c.nodes[0].role.Leader?
    && c.nodes[0].log == Log(0, 0, [Entry(1, 2, y), Entry(2, 3, z)])
    && MatchIndex(c.nodes[0], 1) == 0 && MatchIndex(c.nodes[0], 2) == 2 && MatchIndex(c.nodes[0], 4) == 2
  }

  lemma Respread(x: Stroke, lost: Stroke, y: Stroke, z: Stroke) returns (w: Past, c: Cluster)
    ensures Reached(c, w) && Five(c) && Remembers(w, x, lost) && w.timely && w.guarded
    ensures Holds(c.nodes[0], 3, Leader, [Entry(1, 2, y), Entry(2, 3, z)])
    ensures Starts(c.nodes[0], 0, 2) && Acked(c.nodes[0], 2) in c.net && Acked(c.nodes[0], 4) in c.net
  {
    var c0;
    w, c0 := Regain(true, true, x, lost, y);
    var c1 := Accept(w, c0, 0, z);
    assert c1.nodes[0].log == Log(0, 0, [Entry(1, 2, y), Entry(2, 3, z)]);
    var c2 := Replicate(w, c1, 0, 2);
    c := Replicate(w, c2, 0, 4);
  }

  lemma Restore(x: Stroke, lost: Stroke, y: Stroke, z: Stroke) returns (w: Past, c: Cluster)
    ensures Restored(w, c, y, z) && Remembers(w, x, lost) && w.timely && w.guarded
  {
    var c0;
    w, c0 := Respread(x, lost, y, z);
    var c1 := Acknowledge(w, c0, Acked(c0.nodes[0], 2));
    c := Acknowledge(w, c1, Acked(c0.nodes[0], 4));
  }

  /** A lost write is reported as a success, in a guarded run with timely replies: node 0 accepts `lost` at
      index 2 in term 1, leads again in term 3 over a log without it, and finds index 2 held by a majority. */
  lemma LostWriteIsReported(x: Stroke, lost: Stroke, y: Stroke, z: Stroke)
      returns (states: seq<Cluster>, steps: seq<Step>, j: nat, k: nat)
    requires lost != y && lost != z
    ensures IsGuardedRun(states, steps) && Writes.Reported(states, steps, j, 0, lost, k)
    ensures Writes.Written(states[j].nodes[0], lost) == Entry(2, 1, lost)
    ensures MatchIndex(states[k].nodes[0], 1) == 0
    ensures forall e :: e in states[k].full[0] ==> e.stroke != lost
  {
    var w, c := Restore(x, lost, y, z);
    states, steps :| Continues(states, steps, w) && states[|states| - 1] == c;
    j, k := |w.steps| - 1, |states| - 1;
    RunOf(states, steps, w);
    assert KeptAt(w, states, steps, j);
    assert Member(c.nodes[0], 0);
    AllOf(w, c, 0);
    LogOf(w.states[j].nodes[0], x, lost);
    TwoMatched(c.nodes[0], c.nodes[0].cfg.peers, 2, 2, 4);
  }

  lemma LogOf(r: Replica, x: Stroke, lost: Stroke)
    requires Holds(r, 1, Leader, [Entry(1, 1, x)])
    ensures Writes.Written(r, lost) == Entry(2, 1, lost)
  {
  }

  // ----- a read that lags

  /** Node 0 has just committed `x`, and nodes 1 and 2 hold it without knowing. */
  ghost predicate CommittedByZero(w: Past, c: Cluster, x: Stroke) {
    && EndsAt(w, c) && w.timely && w.guarded && Five(c)
    && |w.steps| >= 1 && w.steps[|w.steps| - 1] == Advance(0)
    && |w.states[|w.steps| - 1].nodes| == 5 && w.states[|w.steps| - 1].nodes[0].commitIndex == 0
    && var now := [Entry(1, 1, x)];
    && c.nodes[0].role.Leader? && c.nodes[0].commitIndex == 1 && c.nodes[0].log == Log(0, 0, now)
    && Holds(c.nodes[1], 1, Follower, now) && Holds(c.nodes[2], 1, Follower, now)
    && Holds(c.nodes[3], 0, Follower, [])
  }

  lemma CommitOne(x: Stroke) returns (w: Past, c: Cluster)
    ensures CommittedByZero(w, c, x)
  {
    var w0, c0 := Begin(true, true);
    assert MayWin(c0, 0, 1) && MayWin(c0, 0, 2);
    var c1 := Elect(w0, c0, 0, 1, 2, [[], [], []]);
    var c2 := Accept(w0, c1, 0, x);
    var c3 := SpreadOne(w0, c2, x);
    w, c := CommitLast(w0, c3, x);
  }

  ghost predicate SpreadByZero(w: Past, c: Cluster, x: Stroke) {
    && Reached(c, w) && w.timely && w.guarded && Five(c) && Backed(c.nodes[0], 0, 1, 2)
    && var now := [Entry(1, 1, x)];
    && Holds(c.nodes[0], 1, Leader, now) && Holds(c.nodes[1], 1, Follower, now) && Holds(c.nodes[2], 1, Follower, now)
    && Holds(c.nodes[3], 0, Follower, [])
  }

  lemma SpreadOne(w: Past, c: Cluster, x: Stroke) returns (d: Cluster)
    requires Reached(c, w) && w.timely && w.guarded
    requires Five(c) && Starts(c.nodes[0], 0, 1) && Holds(c.nodes[0], 1, Leader, [Entry(1, 1, x)])
    requires Holds(c.nodes[1], 1, Follower, []) && Holds(c.nodes[2], 1, Follower, []) && Holds(c.nodes[3], 0, Follower, [])
    ensures SpreadByZero(w, d, x)
  {
    var c1 := Replicate(w, c, 0, 1);
    var c2 := Replicate(w, c1, 0, 2);
    var c3 := Acknowledge(w, c2, Acked(c.nodes[0], 1));
    d := Acknowledge(w, c3, Acked(c.nodes[0], 2));
  }

  lemma CommitLast(w: Past, c: Cluster, x: Stroke) returns (after: Past, d: Cluster)
    requires SpreadByZero(w, c, x)
    ensures CommittedByZero(after, d, x)
  {
    var here := Mark(w, c);
    AdvancesAll(c.nodes[0], 0, 1, 2);
    d, after := GoOn(here, c, Advance(0));
  }

  /** A heartbeat of a read that finds its receiver in the reader's term. */
  lemma BeatBack(w: Past, c: Cluster, m: Message) returns (d: Cluster)
    requires Reached(c, w) && Five(c) && m in c.net && m.BeatReq? && m.dst < 5 && m.beat.commit == 0
    requires c.nodes[m.dst].role.Follower? && c.nodes[m.dst].term == m.beat.term
    ensures After(w, c, d, {}) && BeatRep(m.dst, m.src, m.read, BeatResult(m.beat.term, true)) in d.net
  {
    var r := c.nodes[m.dst];
    assert Member(r, m.dst);
    assert HandleHeartbeat(r, m.beat) == (r, BeatResult(m.beat.term, true));
    d := Go(w, c, OnBeat(m));
  }

  /** A run through `c0`, where node 0 has just committed `x`, `c1`, where node 1 starts a read, and `c2`,
      where it ends it. */
  ghost predicate Lags(w0: Past, c0: Cluster, w1: Past, c1: Cluster, w2: Past, c2: Cluster, w3: Past, x: Stroke, replies: seq<Message>) {
    && CommittedByZero(w0, c0, x) && EndsAt(w1, c1) && EndsAt(w2, c2)
    && Continues(w3.states, w3.steps, w3) && w3.timely && w3.guarded
    && Kept(w0, w3.states, w3.steps) && Kept(w1, w3.states, w3.steps) && Kept(w2, w3.states, w3.steps)
    && |w0.steps| <= |w1.steps| < |w2.steps| < |w3.steps|
    && w3.steps[|w1.steps|] == StartRead(1) && w3.steps[|w2.steps|] == EndRead(1, |c1.started|, replies)
    && Five(c1) && Five(c2) && c2.nodes == c1.nodes && c2.nodes[1].commitIndex == 0
    && (forall k :: 0 <= k < |replies| ==> replies[k].BeatRep?)
    && FinishRead(c2.nodes[1], c1.nodes[1].term, 1, Results(replies)).1
  }

  lemma LaggingRun(x: Stroke)
      returns (w0: Past, c0: Cluster, w1: Past, c1: Cluster, w2: Past, c2: Cluster, w3: Past, replies: seq<Message>)
    ensures Lags(w0, c0, w1, c1, w2, c2, w3, x, replies)
  {
    w0, c0 := CommitOne(x);
    w1, c1 := ElectOne(w0, c0, x);
    w2, c2, replies := ReadOnce(w1, c1);
    w3 := EndOnce(w2, c2, c1, replies);
    KeptStill(w1, w2, w3.states, w3.steps);
    KeptStill(w0, w1, w3.states, w3.steps);
    assert KeptAt(w2, w3.states, w3.steps, |w1.steps|);
  }

  lemma EndOnce(w: Past, c: Cluster, before: Cluster, replies: seq<Message>) returns (after: Past)
    requires EndsAt(w, c) && Five(c) && |before.nodes| == 5 && c.nodes == before.nodes
    requires c.started == before.started + [Read(1, c.nodes[1].term, before.elections.Keys)]
    requires Replies(c, 1, |before.started|, replies) && FinishRead(c.nodes[1], c.nodes[1].term, 1, Results(replies)).1
    ensures Continues(after.states, after.steps, after) && Kept(w, after.states, after.steps)
    ensures after.timely == w.timely && after.guarded == w.guarded
    ensures after.steps == w.steps + [EndRead(1, |before.started|, replies)]
  {
    var d;
    FinishCounts(c.nodes[1], c.nodes[1].term, 1, Results(replies));
    assert Member(c.nodes[1], 1);
    d, after := GoOn(w, c, EndRead(1, |before.started|, replies));
  }

  lemma StateOf(w: Past, c: Cluster, states: seq<Cluster>, steps: seq<Step>)
    requires EndsAt(w, c) && Kept(w, states, steps) && |states| == |steps| + 1
    ensures states[|w.steps|] == c
  {
    assert KeptAt(w, states, steps, |w.steps|);
  }

  /** A read confirmed by a majority can still lag: node 1, newly elected over a log that holds `x`, answers
      with nothing committed, though node 0 had committed `x` before the read began. The run meets every
      condition of `ReadCurrentExactly`, whose own condition is what fails. */
  lemma ConfirmedReadLags(x: Stroke)
      returns (states: seq<Cluster>, steps: seq<Step>, b: nat, e: nat, replies: seq<Message>, j: nat)
    ensures IsGuardedRun(states, steps) && IsTimelyRun(states, steps) && ReadSucceeds(states, steps, 1, b, e, replies)
    ensures Advances(states, steps, j, 0) && j < b
    ensures Committed(states[j + 1], 0) == [Entry(1, 1, x)] && Committed(states[e], 1) == []
  {
    var w0, c0, w1, c1, w2, c2, w3;
    w0, c0, w1, c1, w2, c2, w3, replies := LaggingRun(x);
    states, steps, b, e, j := w3.states, w3.steps, |w1.steps|, |w2.steps|, |w0.steps| - 1;
    RunOf(states, steps, w3);
    StateOf(w0, c0, states, steps);
    StateOf(w1, c1, states, steps);
    StateOf(w2, c2, states, steps);
    assert KeptAt(w0, states, steps, j);
    ShowsOne(states, steps, j + 1, x);
    ShowsNothing(states, steps, e);
  }

  lemma ShowsOne(states: seq<Cluster>, steps: seq<Step>, k: nat, x: Stroke)
    requires IsRun(states, steps) && k < |states| && |states[k].nodes| == 5
    requires states[k].nodes[0].log == Log(0, 0, [Entry(1, 1, x)]) && states[k].nodes[0].commitIndex == 1
    ensures |states[k].full| == 5 && Committed(states[k], 0) == [Entry(1, 1, x)]
  {
    RunShows(states, steps, k, 0);
  }

  lemma ShowsNothing(states: seq<Cluster>, steps: seq<Step>, k: nat)
    requires IsRun(states, steps) && k < |states| && |states[k].nodes| == 5 && states[k].nodes[1].commitIndex == 0
    ensures |states[k].full| == 5 && Committed(states[k], 1) == []
  {
    RunShows(states, steps, k, 1);
  }

  lemma ElectOne(w: Past, c: Cluster, x: Stroke) returns (after: Past, d: Cluster)
    requires CommittedByZero(w, c, x)
    ensures EndsAt(after, d) && Five(d) && after.timely && after.guarded && Kept(w, after.states, after.steps)
    ensures d.nodes[1].role.Leader? && d.nodes[1].commitIndex == 0
    ensures d.nodes[2].role.Follower? && d.nodes[3].role.Follower?
    ensures d.nodes[2].term == d.nodes[1].term && d.nodes[3].term == d.nodes[1].term
  {
    var now := [Entry(1, 1, x)];
    Arrived(w, c);
    assert MayWin(c, 1, 2) && MayWin(c, 1, 3);
    d := Elect(w, c, 1, 2, 3, [now, now, []]);
    after := Mark(w, d);
  }

  lemma ReadOnce(w: Past, c: Cluster) returns (after: Past, d: Cluster, replies: seq<Message>)
    requires EndsAt(w, c) && Five(c)
    requires c.nodes[1].role.Leader? && c.nodes[1].commitIndex == 0
    requires c.nodes[2].role.Follower? && c.nodes[3].role.Follower?
    requires c.nodes[2].term == c.nodes[1].term && c.nodes[3].term == c.nodes[1].term
    ensures EndsAt(after, d) && after.timely == w.timely && after.guarded == w.guarded
    ensures |w.steps| < |after.steps| && Kept(w, after.states, after.steps) && after.steps[|w.steps|] == StartRead(1)
    ensures Five(d) && d.nodes == c.nodes && d.started == c.started + [Read(1, c.nodes[1].term, c.elections.Keys)]
    ensures Replies(d, 1, |c.started|, replies) && FinishRead(d.nodes[1], c.nodes[1].term, 1, Results(replies)).1
  {
    var t, read := c.nodes[1].term, |c.started|;
    var w1, c1 := AskRead(w, c);
    var c2 := BeatBack(w1, c1, BeatReq(1, 2, read, BeatArgs(t, 1, 0)));
    d := BeatBack(w1, c2, BeatReq(1, 3, read, BeatArgs(t, 1, 0)));
    after := Mark(w1, d);
    KeptStill(w, w1, after.states, after.steps);
    assert KeptAt(w1, after.states, after.steps, |w.steps|);
    assert d.nodes == c.nodes by { SameNodes(c1, c2, d); }
    replies := [BeatRep(2, 1, read, BeatResult(t, true)), BeatRep(3, 1, read, BeatResult(t, true))];
    assert Member(d.nodes[1], 1);
    assert Results(replies) == [BeatResult(t, true), BeatResult(t, true)];
    TwoAcks(d.nodes[1], Results(replies));
  }

  lemma AskRead(w: Past, c: Cluster) returns (after: Past, d: Cluster)
    requires EndsAt(w, c) && Five(c) && c.nodes[1].role.Leader? && c.nodes[1].commitIndex == 0
    ensures after == w.(states := w.states + [d], steps := w.steps + [StartRead(1)]) && Kept(w, after.states, after.steps)
    ensures Reached(d, after) && Five(d) && d.nodes == c.nodes
    ensures d.started == c.started + [Read(1, c.nodes[1].term, c.elections.Keys)]
    ensures forall p: NodeId :: p < 5 && p != 1 ==> BeatReq(1, p, |c.started|, BeatArgs(c.nodes[1].term, 1, 0)) in d.net
  {
    assert Member(c.nodes[1], 1);
    d, after := GoOn(w, c, StartRead(1));
    assert d.nodes == c.nodes;
  }

  lemma SameNodes(c: Cluster, d: Cluster, e: Cluster)
    requires |c.nodes| == |d.nodes| == |e.nodes| == 5
    requires forall i :: 0 <= i < 5 ==> d.nodes[i] == c.nodes[i]
    requires forall i :: 0 <= i < 5 ==> e.nodes[i] == d.nodes[i]
    ensures e.nodes == c.nodes
  {
  }

  lemma TwoAcks(r: Replica, results: seq<BeatResult>)
    requires Member(r, 1) && r.role.Leader? && results == [BeatResult(r.term, true), BeatResult(r.term, true)]
    ensures FinishRead(r, r.term, 1, results).1
  {
    assert results[1..] == [BeatResult(r.term, true)] && results[1..][1..] == [];
    assert FinishRead(r, r.term, 3, []).1;
    assert FinishRead(r, r.term, 2, results[1..]).1;
  }

  // ----- a snapshot of what nobody checked

  function Same(term: nat, x: Stroke, n: nat): (log: seq<Entry>)
    ensures |log| == n && forall k :: 0 <= k < n ==> log[k] == Entry(k + 1, term, x)
  {
    seq(n, k requires 0 <= k < n => Entry(k + 1, term, x))
  }

  /** Leader `i` writes `x` until it has it `n` times. */
  lemma {:induction false} Fill(w: Past, c: Cluster, i: nat, x: Stroke, next: nat, from: nat, n: nat) returns (d: Cluster)
    requires Reached(c, w) && Five(c) && i < 5 && from <= n
    requires Holds(c.nodes[i], c.nodes[i].term, Leader, Same(c.nodes[i].term, x, from)) && Starts(c.nodes[i], i, next)
    ensures After(w, c, d, {i}) && d.nodes[i].term == c.nodes[i].term && Starts(d.nodes[i], i, next)
    ensures Holds(d.nodes[i], c.nodes[i].term, Leader, Same(c.nodes[i].term, x, n))
    decreases n - from
  {
    if from == n {
      d := c;
    } else {
      var c1 := Accept(w, c, i, x);
      assert Same(c.nodes[i].term, x, from) + [Entry(from + 1, c.nodes[i].term, x)] == Same(c.nodes[i].term, x, from + 1);
      d := Fill(w, c1, i, x, next, from + 1, n);
    }
  }

  /** Node 0 holds `x` three times from term 1; node 3 leads term 2 with `y` four times. */
  ghost predicate Rivals(w: Past, c: Cluster, x: Stroke, y: Stroke) {
    && Reached(c, w) && Five(c) && w.timely && !w.guarded
    && Holds(c.nodes[0], 1, Leader, Same(1, x, 3)) && Holds(c.nodes[3], 2, Leader, Same(2, y, 4)) && Starts(c.nodes[3], 3, 1)
    && Holds(c.nodes[2], 2, Follower, []) && Holds(c.nodes[4], 2, Follower, [])
  }

  lemma Rival(x: Stroke, y: Stroke) returns (w: Past, c: Cluster)
    ensures Rivals(w, c, x, y)
  {
    var c0;
    w, c0 := Open(true, false);
    assert Same(1, x, 0) == [] && Same(2, y, 0) == [];
    var c1 := Fill(w, c0, 0, x, 1, 0, 3);
    assert MayWin(c1, 3, 2) && MayWin(c1, 3, 4);
    var c2 := Elect(w, c1, 3, 2, 4, [[], [], []]);
    c := Fill(w, c2, 3, y, 1, 0, 4);
  }

  function WholeBatch(y: Stroke): AppendArgs { AppendArgs(2, 3, 0, 0, Same(2, y, 4), 0) }

  /** Its batch for node 0 is on the way, and the other two hold what it has. */
  ghost predicate Sent(w: Past, c: Cluster, x: Stroke, y: Stroke) {
    && Reached(c, w) && Five(c) && w.timely && !w.guarded
    && Holds(c.nodes[0], 1, Leader, Same(1, x, 3)) && Holds(c.nodes[3], 2, Leader, Same(2, y, 4)) && Starts(c.nodes[3], 3, 1)
    && AppendReq(3, 0, WholeBatch(y)) in c.net
    && Acked(c.nodes[3], 2) in c.net && Acked(c.nodes[3], 4) in c.net
  }

  lemma SendAll(w: Past, c: Cluster, x: Stroke, y: Stroke) returns (d: Cluster)
    requires Rivals(w, c, x, y)
    ensures Sent(w, d, x, y)
  {
    assert Member(c.nodes[3], 3) && Batch(c.nodes[3], 0) == WholeBatch(y);
    var c1 := Send(w, c, 3, 0);
    var c2 := Replicate(w, c1, 3, 2);
    d := Replicate(w, c2, 3, 4);
  }

  /** It has committed all four, and says so in a heartbeat. */
  ghost predicate Announces(w: Past, c: Cluster, x: Stroke, y: Stroke, read: nat) {
    && Reached(c, w) && Five(c) && w.timely && !w.guarded
    && Holds(c.nodes[0], 1, Leader, Same(1, x, 3))
    && c.nodes[3].role.Leader? && c.nodes[3].term == 2 && c.nodes[3].log == Log(0, 0, Same(2, y, 4))
    && AppendReq(3, 0, WholeBatch(y)) in c.net && BeatReq(3, 0, read, BeatArgs(2, 3, 4)) in c.net
  }

  lemma Announce(w: Past, c: Cluster, x: Stroke, y: Stroke) returns (d: Cluster, read: nat)
    requires Sent(w, c, x, y)
    ensures Announces(w, d, x, y, read)
  {
    var c1 := Acknowledge(w, c, Acked(c.nodes[3], 2));
    var c2 := Acknowledge(w, c1, Acked(c.nodes[3], 4));
    var c3 := CommitAll(w, c2, 3, 2, 4);
    read := |c3.started|;
    assert Member(c3.nodes[3], 3);
    d := Go(w, c3, StartRead(3));
    assert d.nodes == c3.nodes;
  }

  /** The heartbeat makes node 0 commit its own three, and compact them. */
  lemma BeatCompacts(r: Replica, x: Stroke)
    requires Member(r, 0) && Holds(r, 1, Leader, Same(1, x, 3))
    ensures var n := HandleHeartbeat(r, BeatArgs(2, 3, 4)).0;
            n.log == Log(3, 1, []) && n.commitIndex == 3 && n.term == 2 && n.role.Follower?
  {
    var f := Hear(r, 2).(commitIndex := 3);
    assert f.log.TermAt(3) == 1 && f.log.Compact(3, 1) == Log(3, 1, []);
  }

  /** Then the batch passes the check below the boundary, and its last entry is appended. */
  lemma {:induction false} MergeSkips(log: Log, commit: nat, y: Stroke, n: nat)
    requires log == Log(3, 1, []) && n <= 3
    ensures Merge(log, commit, Same(2, y, 4)[n..]) == (Log(3, 1, [Entry(4, 2, y)]), true)
    decreases 3 - n
  {
    var batch := Same(2, y, 4)[n..];
    assert batch[0] == Entry(n + 1, 2, y) && batch[1..] == Same(2, y, 4)[n + 1..];
    if n < 3 {
      MergeSkips(log, commit, y, n + 1);
    } else {
      assert log.Append(Entry(4, 2, y)) == Log(3, 1, [Entry(4, 2, y)]);
    }
  }

  lemma BatchPasses(r: Replica, y: Stroke)
    requires r.log == Log(3, 1, []) && r.commitIndex == 3 && r.term == 2 && r.role.Follower?
    ensures TakenIn(r, WholeBatch(y)) == Log(3, 1, [Entry(4, 2, y)])
    ensures var (n, reply) := HandleAppendEntries(r, WholeBatch(y));
            n == r.(log := Log(3, 1, [Entry(4, 2, y)])) && reply == AppendResult(2, true, 1)
  {
    MergeSkips(r.log, 3, y, 0);
    assert Same(2, y, 4)[0..] == Same(2, y, 4);
  }

  lemma ExtendRun(states: seq<Cluster>, steps: seq<Step>, s: Step, d: Cluster)
    requires IsRun(states, steps) && AllTimely(states, steps) && Next(states[|steps|], s, d) && Timely(states[|steps|], s)
    ensures IsRun(states + [d], steps + [s]) && AllTimely(states + [d], steps + [s])
  {
    var states', steps' := states + [d], steps + [s];
    forall k | 0 <= k < |steps'| ensures Taken(states', steps', k) && TimelyAt(states', steps', k) {
      if k < |steps| { assert Taken(states, steps, k) && TimelyAt(states, steps, k); }
    }
  }

  /** The state after that heartbeat, at the end of an anchored and timely run. */
  ghost predicate Compacted(states: seq<Cluster>, steps: seq<Step>, x: Stroke, y: Stroke) {
    && IsAnchoredRun(states, steps) && AllTimely(states, steps)
    && var c := states[|steps|];
    && |c.nodes| == 5 && |c.full| == 5
    && c.nodes[0].log == Log(3, 1, []) && c.nodes[0].commitIndex == 3 && c.nodes[0].term == 2 && c.nodes[0].role.Follower?
    && c.full[0] == Same(1, x, 3)
    && c.nodes[3].role.Leader? && c.nodes[3].term == 2 && c.full[3] == Same(2, y, 4)
    && AppendReq(3, 0, WholeBatch(y)) in c.net
  }

  lemma CompactWrong(x: Stroke, y: Stroke) returns (states: seq<Cluster>, steps: seq<Step>)
    ensures Compacted(states, steps, x, y)
  {
    var w, c0 := Rival(x, y);
    var c1 := SendAll(w, c0, x, y);
    var c, read := Announce(w, c1, x, y);
    states, steps := HearWrong(w, c, x, y, read);
  }

  lemma HearWrong(w: Past, c: Cluster, x: Stroke, y: Stroke, read: nat) returns (states: seq<Cluster>, steps: seq<Step>)
    requires Announces(w, c, x, y, read)
    ensures Compacted(states, steps, x, y)
  {
    var s := OnBeat(BeatReq(3, 0, read, BeatArgs(2, 3, 4)));
    AllOf(w, c, 0);
    AllOf(w, c, 3);
    assert Member(c.nodes[0], 0);
    BeatCompacts(c.nodes[0], x);
    var here := Mark(w, c);
    var d := Put(c, 0, Effect(c, s).0, Whole(c, s), Effect(c, s).1, Begun(c, s));
    assert Next(c, s, d);
    Extend(here, here.states, here.steps, s, d);
    states, steps := here.states + [d], here.steps + [s];
    RunOf(states, steps, here);
  }

  /** A snapshot makes an unchecked commit worse: node 0 commits three entries of its own on a heartbeat and
      compacts them; the handler then trusts the compacted part, appends the leader's fourth entry after
      them and acknowledges it, so that two logs agree on an entry and differ below it. All but this last
      step meet the condition of `LogMatching`. */
  lemma SnapshotBreaksMatching(x: Stroke, y: Stroke) returns (states: seq<Cluster>, steps: seq<Step>)
    requires x != y
    ensures IsRun(states, steps) && AllTimely(states, steps) && steps != []
    ensures forall k :: 0 <= k < |steps| - 1 ==> AnchoredAt(states, steps, k)
    ensures var c := states[|steps|];
            && |c.nodes| == |c.full| == 5 && c.nodes[3].role.Leader? && c.nodes[0].term == c.nodes[3].term
            && c.nodes[0].log == Log(3, 1, [Entry(4, 2, y)])
            && |c.full[0]| == |c.full[3]| == 4 && c.full[0][3] == c.full[3][3]
            && forall k :: 0 <= k < 3 ==> c.full[0][k].stroke == x && c.full[3][k].stroke == y
    ensures AppendRep(0, 3, WholeBatch(y), AppendResult(2, true, 1)) in states[|steps|].net
  {
    var before, taken := CompactWrong(x, y);
    var c, s := before[|taken|], OnAppendReq(AppendReq(3, 0, WholeBatch(y)));
    BatchPasses(c.nodes[0], y);
    var d := Put(c, 0, Effect(c, s).0, Whole(c, s), Effect(c, s).1, Begun(c, s));
    assert Next(c, s, d);
    ExtendRun(before, taken, s, d);
    states, steps := before + [d], taken + [s];
    forall k | 0 <= k < |steps| - 1 ensures AnchoredAt(states, steps, k) {
      assert AnchoredAt(before, taken, k);
    }
  }
}
