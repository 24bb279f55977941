/** Building concrete runs of five replicas: one lemma for each thing that a replica may do in such a run, with what
    it leaves of every node. A run is remembered by its beginning, so that a later lemma may speak of moments in
    it, and by the conditions that it has kept all along: whether it counted only timely replies, and whether it
    raised commit indices only under the guard. Node 0 takes a snapshot after three commits, the others after 500;
    none of the lemmas here lets a node get that far. */
module Stage {
  import opened Types
  import opened LogModel
  import opened Replica
  import opened Cluster
  import opened Nodes
  import opened Steps
  import opened Commits
  import opened Agreement
  import opened Reads

  // ----- building runs

  /** How a run began, and which conditions it keeps. */
  datatype Past = Past(timely: bool, guarded: bool, states: seq<Cluster>, steps: seq<Step>)

  ghost predicate KeptAt(w: Past, states: seq<Cluster>, steps: seq<Step>, k: nat) {
    && (k < |w.states| ==> k < |states| && states[k] == w.states[k])
    && (k < |w.steps| ==> k < |steps| && steps[k] == w.steps[k])
  }

  ghost predicate Kept(w: Past, states: seq<Cluster>, steps: seq<Step>) {
    |w.states| <= |states| && |w.steps| <= |steps| && forall k: nat :: KeptAt(w, states, steps, k)
  }

  ghost predicate GoodAt(w: Past, states: seq<Cluster>, steps: seq<Step>, k: nat)
    requires |states| == |steps| + 1
  {
    && (k == 0 ==> Init(states[0]))
    && (k < |steps| ==>
          && Taken(states, steps, k) && AnchoredAt(states, steps, k)
          && (w.timely ==> TimelyAt(states, steps, k))
          && (w.guarded ==> GuardedAt(states, steps, k)))
  }

  /** The run goes on from `w`, and nothing wrong was ever compacted in it. */
  ghost predicate Continues(states: seq<Cluster>, steps: seq<Step>, w: Past) {
    |states| == |steps| + 1 && Kept(w, states, steps) && forall k: nat :: GoodAt(w, states, steps, k)
  }

  lemma RunOf(states: seq<Cluster>, steps: seq<Step>, w: Past)
    requires Continues(states, steps, w)
    ensures IsAnchoredRun(states, steps)
    ensures w.timely ==> AllTimely(states, steps)
    ensures w.guarded ==> GuardedBelow(states, steps, |steps|)
  {
    assert GoodAt(w, states, steps, 0);
    forall k | 0 <= k < |steps|
      ensures Taken(states, steps, k) && AnchoredAt(states, steps, k)
      ensures w.timely ==> TimelyAt(states, steps, k)
      ensures w.guarded ==> GuardedAt(states, steps, k)
    {
      assert GoodAt(w, states, steps, k);
    }
  }

  ghost predicate Reached(c: Cluster, w: Past) {
    exists states, steps :: Continues(states, steps, w) && states[|states| - 1] == c
  }

  /** `w` is a whole run up to `c`. */
  ghost predicate EndsAt(w: Past, c: Cluster) { Continues(w.states, w.steps, w) && w.states[|w.steps|] == c }

  function Threshold(i: nat): nat { if i == 0 then 3 else 500 }

  ghost predicate Five(c: Cluster) {
    |c.nodes| == 5 && forall i :: 0 <= i < 5 ==> Member(c.nodes[i], i)
  }

  ghost predicate Member(r: Replica, i: nat) {
    && r.cfg.id == i && r.cfg.threshold == Threshold(i) && r.cfg.batchCap == 128
    && |r.cfg.peers| == 4 && (forall p: NodeId :: p in r.cfg.peers <==> p < 5 && p != i)
    && r.log.base == 0 && r.log.baseTerm == 0
  }

  ghost predicate Allowed(w: Past, c: Cluster, s: Step, d: Cluster) {
    Anchored(c, s) && (w.timely ==> Timely(c, s)) && (w.guarded ==> Guarded(c, s, d))
  }

  lemma Extend(w: Past, states: seq<Cluster>, steps: seq<Step>, s: Step, d: Cluster)
    requires Continues(states, steps, w) && Next(states[|states| - 1], s, d) && Allowed(w, states[|states| - 1], s, d)
    ensures Continues(states + [d], steps + [s], w) && (states + [d])[|states|] == d
  {
    var states', steps' := states + [d], steps + [s];
    forall k: nat ensures GoodAt(w, states', steps', k) {
      assert GoodAt(w, states, steps, k);
    }
    forall k: nat ensures KeptAt(w, states', steps', k) {
      assert KeptAt(w, states, steps, k);
    }
  }

  lemma KeptStill(w: Past, here: Past, states: seq<Cluster>, steps: seq<Step>)
    requires Kept(w, here.states, here.steps) && Kept(here, states, steps)
    ensures Kept(w, states, steps)
  {
    forall k: nat ensures KeptAt(w, states, steps, k) {
      assert KeptAt(w, here.states, here.steps, k) && KeptAt(here, states, steps, k);
    }
  }

  /** The run so far, to be gone on from. */
  lemma Mark(w: Past, c: Cluster) returns (here: Past)
    requires Reached(c, w)
    ensures EndsAt(here, c) && here.timely == w.timely && here.guarded == w.guarded
    ensures Kept(w, here.states, here.steps)
  {
    var states, steps :| Continues(states, steps, w) && states[|states| - 1] == c;
    here := w.(states := states, steps := steps);
    LookBack(w, here);
  }

  lemma Arrived(w: Past, c: Cluster)
    requires EndsAt(w, c)
    ensures Reached(c, w)
  {
  }

  /** What is reached by a later part of a run is reached by an earlier one. */
  lemma Before(w: Past, here: Past, c: Cluster)
    requires Reached(c, here) && here.timely == w.timely && here.guarded == w.guarded
    requires Kept(w, here.states, here.steps)
    ensures Reached(c, w)
  {
    var states, steps :| Continues(states, steps, here) && states[|states| - 1] == c;
    KeptStill(w, here, states, steps);
    forall k: nat ensures GoodAt(w, states, steps, k) { assert GoodAt(here, states, steps, k); }
    assert Continues(states, steps, w);
  }

  lemma LookBack(w: Past, after: Past)
    requires Continues(after.states, after.steps, w) && after.timely == w.timely && after.guarded == w.guarded
    ensures Continues(after.states, after.steps, after)
  {
    forall k: nat ensures GoodAt(after, after.states, after.steps, k) { assert GoodAt(w, after.states, after.steps, k); }
    forall k: nat ensures KeptAt(after, after.states, after.steps, k) {}
  }

  /** A step that needs no condition: no late acknowledgement counted, no commit index moved on hearsay. */
  ghost predicate Harmless(w: Past, c: Cluster, s: Step)
    requires Enabled(c, s)
  {
    && (w.timely ==> Timely(c, s))
    && (w.guarded && Hears(s) ==> Effect(c, s).0.commitIndex == c.nodes[Actor(s)].commitIndex)
  }

  lemma EveryoneHasAll(w: Past, c: Cluster)
    requires EndsAt(w, c)
    ensures |c.full| == |c.nodes|
  {
    RunOf(w.states, w.steps, w);
    RunStands(w.states, w.steps, |w.steps|);
  }

  lemma Lengthen(w: Past, c: Cluster, s: Step, d: Cluster) returns (after: Past)
    requires EndsAt(w, c) && Next(c, s, d) && Allowed(w, c, s, d)
    ensures after == w.(states := w.states + [d], steps := w.steps + [s])
    ensures EndsAt(after, d) && Reached(d, after) && Kept(w, after.states, after.steps)
  {
    Extend(w, w.states, w.steps, s, d);
    after := w.(states := w.states + [d], steps := w.steps + [s]);
    assert Kept(w, after.states, after.steps) by {
      forall k: nat ensures KeptAt(w, after.states, after.steps, k) {}
    }
    LookBack(w, after);
    Arrived(after, d);
  }

  /** One step onward from a whole run: only the acting node changes, and messages are never lost. */
  lemma GoOn(w: Past, c: Cluster, s: Step) returns (d: Cluster, after: Past)
    requires EndsAt(w, c) && Five(c) && Enabled(c, s) && Harmless(w, c, s)
    requires Member(Effect(c, s).0, Actor(s))
    ensures EndsAt(after, d) && Reached(d, after) && Five(d) && Kept(w, after.states, after.steps)
    ensures after == w.(states := w.states + [d], steps := w.steps + [s])
    ensures d.nodes == c.nodes[Actor(s) := Effect(c, s).0] && d.net == c.net + Effect(c, s).1
    ensures d.started == c.started + Begun(c, s)
  {
    EveryoneHasAll(w, c);
    d := Put(c, Actor(s), Effect(c, s).0, Whole(c, s), Effect(c, s).1, Begun(c, s));
    assert Next(c, s, d) && Allowed(w, c, s, d) by { assert Member(c.nodes[Actor(s)], Actor(s)); }
    after := Lengthen(w, c, s, d);
  }

  lemma Go(w: Past, c: Cluster, s: Step) returns (d: Cluster)
    requires Reached(c, w) && Five(c) && Enabled(c, s) && Harmless(w, c, s)
    requires Member(Effect(c, s).0, Actor(s))
    ensures Reached(d, w) && Five(d)
    ensures d.nodes == c.nodes[Actor(s) := Effect(c, s).0] && d.net == c.net + Effect(c, s).1
    ensures d.started == c.started + Begun(c, s)
  {
    var here := Mark(w, c);
    var after;
    d, after := GoOn(here, c, s);
    KeptStill(w, here, after.states, after.steps);
    Before(w, after, d);
  }

  /** An uncompacted log is all there is. */
  lemma AllOf(w: Past, c: Cluster, i: nat)
    requires Reached(c, w) && i < |c.nodes| && c.nodes[i].log.base == 0
    ensures |c.full| == |c.nodes| && c.full[i] == c.nodes[i].log.entries
  {
    var states, steps :| Continues(states, steps, w) && states[|states| - 1] == c;
    RunOf(states, steps, w);
    RunShows(states, steps, |steps|, i);
  }

  /** `d` comes after `c`, and only the nodes in `touched` may have changed. */
  ghost predicate After(w: Past, c: Cluster, d: Cluster, touched: set<NodeId>) {
    && Reached(d, w) && Five(d) && c.net <= d.net && d.started == c.started
    && |c.nodes| == 5 && forall i :: 0 <= i < 5 && i !in touched ==> d.nodes[i] == c.nodes[i]
  }

  // ----- what the runs need to know of a node

  ghost predicate HasLog(r: Replica, log: seq<Entry>) { r.log == Log(0, 0, log) && r.commitIndex == 0 }

  ghost predicate Holds(r: Replica, term: nat, role: Role, log: seq<Entry>) {
    r.term == term && r.role == role && HasLog(r, log)
  }

  /** A leader that knows nothing of its peers' logs beyond `next - 1`. */
  ghost predicate Starts(r: Replica, i: nat, next: nat) {
    forall p: NodeId :: p < 5 && p != i ==> p in r.nextIndex && p in r.matchIndex && r.nextIndex[p] == next && r.matchIndex[p] == 0
  }

  lemma Begin(timely: bool, guarded: bool) returns (w: Past, c: Cluster)
    ensures w == Past(timely, guarded, [], [])
    ensures Reached(c, w) && Five(c) && forall i :: 0 <= i < 5 ==> Holds(c.nodes[i], 0, Follower, [])
  {
    c := Cluster(seq(5, i requires 0 <= i < 5 => Fresh(Config(i, Others(5, i), Threshold(i), 128))),
                 {}, seq(5, _ => []), map[], map[], map[], {}, []);
    w := Past(timely, guarded, [], []);
    var states: seq<Cluster>, steps: seq<Step> := [c], [];
    assert forall k: nat :: KeptAt(w, states, steps, k);
    assert forall k: nat :: GoodAt(w, states, steps, k);
    assert Continues(states, steps, w) && states[|states| - 1] == c;
  }

  // ----- elections

  ghost predicate MayWin(c: Cluster, i: nat, p: nat) {
    && i < 5 && p < 5 && i != p && Five(c)
    && c.nodes[p].term < c.nodes[i].term + 1
    && IsLogUpToDate(c.nodes[p].log, c.nodes[i].log.LastIndex(), c.nodes[i].log.LastTerm())
  }

  lemma AskVote(w: Past, c: Cluster, m: Message) returns (d: Cluster)
    requires Reached(c, w) && Five(c) && m in c.net && m.VoteReq? && m.dst < 5
    requires m.vote.term > c.nodes[m.dst].term
    requires IsLogUpToDate(c.nodes[m.dst].log, m.vote.lastIndex, m.vote.lastTerm)
    ensures After(w, c, d, {m.dst})
    ensures d.nodes[m.dst] == c.nodes[m.dst].(role := Follower, term := m.vote.term, votedFor := Some(m.vote.candidate))
    ensures VoteRep(m.dst, m.src, m.vote.term, VoteResult(m.vote.term, true)) in d.net
  {
    d := Go(w, c, OnVoteReq(m));
  }

  lemma CountVote(w: Past, c: Cluster, m: Message) returns (d: Cluster)
    requires Reached(c, w) && Five(c) && m in c.net && m.dst < 5
    requires m.VoteRep? && m.voted == VoteResult(m.asked, true)
    requires c.nodes[m.dst].role.Candidate? && c.nodes[m.dst].term == m.asked
    ensures After(w, c, d, {m.dst})
    ensures d.nodes[m.dst] == Finalize(c.nodes[m.dst].(votes := c.nodes[m.dst].votes + {m.src}))
  {
    var n := c.nodes[m.dst];
    assert Member(OnVoteReply(n, m.asked, m.src, m.voted), m.dst);
    d := Go(w, c, OnVoteRep(m));
  }

  lemma Stand(w: Past, c: Cluster, i: nat) returns (d: Cluster)
    requires Reached(c, w) && Five(c) && i < 5 && !c.nodes[i].role.Leader?
    ensures After(w, c, d, {i}) && d.nodes[i] == BecomeCandidate(c.nodes[i])
    ensures forall p :: p < 5 && p != i ==> VoteReq(i, p, VoteRequest(BecomeCandidate(c.nodes[i]))) in d.net
  {
    assert Member(c.nodes[i], i);
    assert RunElection(c.nodes[i]) == BecomeCandidate(c.nodes[i]);
    d := Go(w, c, Timeout(i));
  }

  lemma TwoVotesWin(r: Replica, i: nat, p: nat, q: nat)
    requires Member(r, i) && i < 5 && i != p && i != q && p != q && r.role.Candidate?
    ensures Finalize(r.(votes := {i} + {p})) == r.(votes := {i} + {p})
    ensures Finalize(r.(votes := {i} + {p} + {q})) == BecomeLeader(r.(votes := {i, p, q}))
  {
    assert {i} + {p} == {i, p} && |{i, p}| == 2;
    assert {i} + {p} + {q} == {i, p, q} && |{i, p, q}| == 3;
  }

  lemma LeaderStarts(r: Replica, i: nat)
    requires Member(r, i)
    ensures Starts(BecomeLeader(r), i, |r.log.entries| + 1)
  {
    assert forall v: NodeId :: v < 5 && v != i ==> v in r.cfg.peers;
  }

  lemma Wins(w: Past, c: Cluster, i: nat, p: nat, q: nat) returns (d: Cluster)
    requires Reached(c, w) && MayWin(c, i, p) && MayWin(c, i, q) && p != q && !c.nodes[i].role.Leader?
    ensures After(w, c, d, {i, p, q})
    ensures var t := c.nodes[i].term + 1;
            && d.nodes[p] == c.nodes[p].(role := Follower, term := t, votedFor := Some(i))
            && d.nodes[q] == c.nodes[q].(role := Follower, term := t, votedFor := Some(i))
            && d.nodes[i] == BecomeLeader(BecomeCandidate(c.nodes[i]).(votes := {i, p, q}))
  {
    var r := BecomeCandidate(c.nodes[i]);
    var c1 := Stand(w, c, i);
    var c2 := AskVote(w, c1, VoteReq(i, p, VoteRequest(r)));
    var c3 := AskVote(w, c2, VoteReq(i, q, VoteRequest(r)));
    assert c3.nodes[i] == r && Member(c3.nodes[i], i);
    TwoVotesWin(r, i, p, q);
    var c4 := CountVote(w, c3, VoteRep(p, i, r.term, VoteResult(r.term, true)));
    d := CountVote(w, c4, VoteRep(q, i, r.term, VoteResult(r.term, true)));
  }

  /** Node `i` stands for the next term and wins with the votes of `p` and `q`. */
  lemma Elect(w: Past, c: Cluster, i: nat, p: nat, q: nat, logs: seq<seq<Entry>>) returns (d: Cluster)
    requires Reached(c, w) && MayWin(c, i, p) && MayWin(c, i, q) && p != q && !c.nodes[i].role.Leader? && |logs| == 3
    requires HasLog(c.nodes[i], logs[0]) && HasLog(c.nodes[p], logs[1]) && HasLog(c.nodes[q], logs[2])
    ensures After(w, c, d, {i, p, q}) && Starts(d.nodes[i], i, |logs[0]| + 1)
    ensures Holds(d.nodes[i], c.nodes[i].term + 1, Leader, logs[0])
    ensures Holds(d.nodes[p], c.nodes[i].term + 1, Follower, logs[1])
    ensures Holds(d.nodes[q], c.nodes[i].term + 1, Follower, logs[2])
  {
    d := Wins(w, c, i, p, q);
    LeaderStarts(BecomeCandidate(c.nodes[i]).(votes := {i, p, q}), i);
  }

  // ----- replication

  lemma Accept(w: Past, c: Cluster, i: nat, stroke: Stroke) returns (d: Cluster)
    requires Reached(c, w) && Five(c) && i < 5 && c.nodes[i].role.Leader?
    ensures After(w, c, d, {i}) && d.nodes[i] == ClientAppend(c.nodes[i], stroke)
  {
    d := Go(w, c, Write(i, stroke));
  }

  /** A consecutive batch lands right after `prev` when the log ends there or conflicts there. */
  lemma {:induction false} MergeLands(log: Log, commit: nat, prev: nat, batch: seq<Entry>)
    requires log.base == 0 && prev <= |log.entries| && commit <= prev
    requires batch != [] && forall k :: 0 <= k < |batch| ==> batch[k].index == prev + k + 1
    requires prev < |log.entries| ==> log.entries[prev].term != batch[0].term
    ensures Merge(log, commit, batch) == (log.(entries := log.entries[..prev] + batch), true)
    decreases |batch|
  {
    var log' := log.(entries := log.entries[..prev] + [batch[0]]);
    assert Merge(log, commit, batch) == Merge(log', commit, batch[1..]) by {
      assert log.entries[..|log.entries|] == log.entries;
    }
    if |batch| > 1 {
      MergeLands(log', commit, prev + 1, batch[1..]);
      assert log'.entries[..prev + 1] + batch[1..] == log.entries[..prev] + batch;
    } else {
      assert log'.entries == log.entries[..prev] + batch;
    }
  }

  /** What leader `i` would send `p` now. */
  ghost predicate Sendable(c: Cluster, i: nat, p: nat) {
    && Five(c) && i < 5 && p < 5 && i != p && c.nodes[i].role.Leader?
    && p in c.nodes[i].nextIndex && 1 <= c.nodes[i].nextIndex[p] <= |c.nodes[i].log.entries| <= 128
    && c.nodes[i].commitIndex == 0
  }

  function Batch(r: Replica, p: NodeId): AppendArgs
    requires p in r.nextIndex && 1 <= r.nextIndex[p] <= |r.log.entries|
  {
    AppendArgs(r.term, r.cfg.id, r.nextIndex[p] - 1, r.log.TermAt(r.nextIndex[p] - 1),
               r.log.entries[r.nextIndex[p] - 1..], r.commitIndex)
  }

  lemma Receives(f: Replica, args: AppendArgs)
    requires f.log.base == 0 && args.term >= f.term && args.commit == 0 && f.commitIndex <= args.prevIndex
    requires args.prevIndex <= |f.log.entries| && PrevMatches(f.log, args)
    requires args.entries != [] && forall k :: 0 <= k < |args.entries| ==> args.entries[k].index == args.prevIndex + k + 1
    requires args.prevIndex < |f.log.entries| ==> f.log.entries[args.prevIndex].term != args.entries[0].term
    ensures var (g, reply) := HandleAppendEntries(f, args);
            && g == Hear(f, args.term).(log := f.log.(entries := f.log.entries[..args.prevIndex] + args.entries))
            && reply == AppendResult(args.term, true, args.prevIndex + |args.entries|)
  {
    MergeLands(f.log, f.commitIndex, args.prevIndex, args.entries);
  }

  lemma Send(w: Past, c: Cluster, i: nat, p: nat) returns (d: Cluster)
    requires Reached(c, w) && Sendable(c, i, p)
    ensures After(w, c, d, {}) && AppendReq(i, p, Batch(c.nodes[i], p)) in d.net
  {
    assert Member(c.nodes[i], i);
    assert PrepareAppend(c.nodes[i], p) == Some(Batch(c.nodes[i], p));
    d := Go(w, c, SendAppend(i, p));
  }

  lemma Deliver(w: Past, c: Cluster, m: Message, after: Replica) returns (d: Cluster)
    requires Reached(c, w) && Five(c) && m in c.net && m.AppendReq? && m.dst < 5
    requires HandleAppendEntries(c.nodes[m.dst], m.append).0 == after && Member(after, m.dst)
    requires after.commitIndex == c.nodes[m.dst].commitIndex
    ensures After(w, c, d, {m.dst}) && d.nodes[m.dst] == after
    ensures AppendRep(m.dst, m.src, m.append, HandleAppendEntries(c.nodes[m.dst], m.append).1) in d.net
  {
    d := Go(w, c, OnAppendReq(m));
  }

  /** The follower's log splits where the leader's batch begins. */
  ghost predicate Lands(r: Replica, f: Replica, p: NodeId) {
    && p in r.nextIndex && 1 <= r.nextIndex[p] <= |r.log.entries|
    && var prev := r.nextIndex[p] - 1;
    && r.term >= f.term && f.commitIndex <= prev <= |f.log.entries|
    && f.log.entries[..prev] == r.log.entries[..prev]
    && (prev < |f.log.entries| ==> f.log.entries[prev].term != r.log.entries[prev].term)
  }

  lemma ReceivesAll(r: Replica, f: Replica, i: nat, p: nat)
    requires Member(r, i) && Member(f, p) && r.log.Placed() && r.commitIndex == 0 && Lands(r, f, p)
    ensures HandleAppendEntries(f, Batch(r, p)) ==
            (Hear(f, r.term).(log := r.log), AppendResult(r.term, true, |r.log.entries|))
  {
    var args := Batch(r, p);
    LandsPasses(r, f, i, p);
    Receives(f, args);
    assert f.log.entries[..args.prevIndex] + args.entries == r.log.entries by {
      assert r.log.entries == r.log.entries[..args.prevIndex] + r.log.entries[args.prevIndex..];
    }
  }

  lemma LandsPasses(r: Replica, f: Replica, i: nat, p: nat)
    requires Member(r, i) && Member(f, p) && r.log.Placed() && Lands(r, f, p)
    ensures var args := Batch(r, p);
            && PrevMatches(f.log, args)
            && forall k :: 0 <= k < |args.entries| ==> args.entries[k].index == args.prevIndex + k + 1
  {
    var prev := Batch(r, p).prevIndex;
    if prev > 0 { assert f.log.entries[..prev][prev - 1] == r.log.entries[..prev][prev - 1]; }
  }

  /** Leader `i` brings `p` to its own log; the acknowledgement is on the way. */
  lemma Replicate(w: Past, c: Cluster, i: nat, p: nat) returns (d: Cluster)
    requires Reached(c, w) && Sendable(c, i, p) && c.nodes[i].log.Placed() && Lands(c.nodes[i], c.nodes[p], p)
    ensures After(w, c, d, {p})
    ensures d.nodes[p] == Hear(c.nodes[p], c.nodes[i].term).(log := c.nodes[i].log)
    ensures Acked(c.nodes[i], p) in d.net
  {
    var r, f := c.nodes[i], c.nodes[p];
    assert Member(r, i) && Member(f, p);
    ReceivesAll(r, f, i, p);
    var sent := Send(w, c, i, p);
    d := Deliver(w, sent, AppendReq(i, p, Batch(r, p)), Hear(f, r.term).(log := r.log));
  }

  function Acked(r: Replica, p: NodeId): Message
    requires p in r.nextIndex && 1 <= r.nextIndex[p] <= |r.log.entries|
  {
    AppendRep(p, r.cfg.id, Batch(r, p), AppendResult(r.term, true, |r.log.entries|))
  }

  lemma Acknowledge(w: Past, c: Cluster, m: Message) returns (d: Cluster)
    requires Reached(c, w) && Five(c) && m in c.net && m.AppendRep? && m.dst < 5
    requires m.appended.success && m.appended.term <= c.nodes[m.dst].term && |m.sent.entries| > 0
    requires w.timely ==> m.sent.term == c.nodes[m.dst].term
    ensures After(w, c, d, {m.dst})
    ensures var r, n := c.nodes[m.dst], m.sent.prevIndex + |m.sent.entries|;
            d.nodes[m.dst] == r.(nextIndex := r.nextIndex[m.src := n + 1], matchIndex := r.matchIndex[m.src := n])
  {
    var r := c.nodes[m.dst];
    AckCounts(r, m.src, m.sent, m.appended);
    assert Member(OnAppendReply(r, m.src, m.sent, m.appended), m.dst) by { assert Member(r, m.dst); }
    assert Effect(c, OnAppendRep(m)) == (OnAppendReply(r, m.src, m.sent, m.appended), {});
    d := Go(w, c, OnAppendRep(m));
  }

  lemma AckCounts(r: Replica, peer: NodeId, sent: AppendArgs, reply: AppendResult)
    requires reply.success && reply.term <= r.term && |sent.entries| > 0
    ensures var n := sent.prevIndex + |sent.entries|;
            OnAppendReply(r, peer, sent, reply) ==
            r.(nextIndex := r.nextIndex[peer := n + 1], matchIndex := r.matchIndex[peer := n])
  {
  }

  lemma {:induction false} OneMatched(r: Replica, peers: seq<NodeId>, n: nat, p: NodeId)
    requires p in peers && MatchIndex(r, p) >= n
    ensures Matched(r, peers, n) >= 1
  {
    if peers[|peers| - 1] != p { OneMatched(r, peers[..|peers| - 1], n, p); }
  }

  lemma {:induction false} TwoMatched(r: Replica, peers: seq<NodeId>, n: nat, p: NodeId, q: NodeId)
    requires p in peers && q in peers && p != q && MatchIndex(r, p) >= n && MatchIndex(r, q) >= n
    ensures Matched(r, peers, n) >= 2
  {
    var rest, last := peers[..|peers| - 1], peers[|peers| - 1];
    if last == p {
      OneMatched(r, rest, n, q);
    } else if last == q {
      OneMatched(r, rest, n, p);
    } else {
      TwoMatched(r, rest, n, p, q);
    }
  }

  /** Enough is known to be replicated for leader `r` to commit its whole log. */
  ghost predicate Backed(r: Replica, i: nat, p: nat, q: nat) {
    && Member(r, i) && i < 5 && p < 5 && q < 5 && i != p && i != q && p != q
    && r.role.Leader? && r.commitIndex == 0
    && 0 < |r.log.entries| < Threshold(i) && r.log.LastTerm() == r.term
    && MatchIndex(r, p) >= |r.log.entries| && MatchIndex(r, q) >= |r.log.entries|
  }

  lemma AdvancesAll(r: Replica, i: nat, p: nat, q: nat)
    requires Backed(r, i, p, q)
    ensures var u := UpdateCommitIndex(r);
            u == r.(commitIndex := |r.log.entries|, boards := u.boards, lastApplied := u.lastApplied)
  {
    var n := |r.log.entries|;
    TwoMatched(r, r.cfg.peers, n, p, q);
    assert Committable(r, n);
    assert CommitPoint(r, r.log.LastIndex()) == n;
    SmallCommit(r, n);
  }

  /** A commit far below the threshold takes no snapshot. */
  lemma SmallCommit(r: Replica, n: nat)
    requires r.log.base == 0 && n < r.cfg.threshold
    ensures var a := ApplyCommitted(r.(commitIndex := n));
            a == r.(commitIndex := n, boards := a.boards, lastApplied := a.lastApplied)
  {
  }

  /** With acknowledgements of its whole log from `p` and `q`, leader `i` commits its whole log. */
  lemma CommitAll(w: Past, c: Cluster, i: nat, p: nat, q: nat) returns (d: Cluster)
    requires Reached(c, w) && Five(c) && i < 5 && Backed(c.nodes[i], i, p, q)
    ensures After(w, c, d, {i})
    ensures d.nodes[i] == c.nodes[i].(commitIndex := |c.nodes[i].log.entries|, boards := d.nodes[i].boards,
                                      lastApplied := d.nodes[i].lastApplied)
  {
    AdvancesAll(c.nodes[i], i, p, q);
    d := Go(w, c, Advance(i));
  }
}
