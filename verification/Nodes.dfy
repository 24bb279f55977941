/** Every node in every run: its log stands for a full log, and its boards show it. */
module Nodes {
  import opened Types
  import opened Board
  import opened LogModel
  import opened Replica
  import opened ReplicaRuns
  import opened Cluster
  import opened Votes

  // ----- one node, however often it compacts

  /** Entries sit at their own indices, from 1. */
  ghost predicate InPlace(s: seq<Entry>) { forall k :: 0 <= k < |s| ==> s[k].index == k + 1 }

  function StrokesOf(s: seq<Entry>): seq<Stroke> { seq(|s|, k requires 0 <= k < |s| => s[k].stroke) }

  ghost predicate Stands(r: Replica, full: seq<Entry>) {
    && Sound(r) && Refines(r.log, full) && InPlace(full)
    && r.commitIndex <= |full|
    && r.boards == ApplyAll(map[], StrokesOf(full[..r.commitIndex]))
  }

  lemma {:induction false} StrokesOfRange(log: Log, full: seq<Entry>, from: nat, upto: nat)
    requires Refines(log, full) && log.base <= from <= upto <= |full|
    ensures Strokes(log, from, upto) == StrokesOf(full[from..upto])
    decreases upto
  {
    if from < upto {
      StrokesOfRange(log, full, from, upto - 1);
      assert log.Get(upto).value == full[log.base..][upto - log.base - 1] == full[upto - 1];
      assert StrokesOf(full[from..upto]) == StrokesOf(full[from..upto - 1]) + [full[upto - 1].stroke];
    }
  }

  lemma CompactStands(log: Log, full: seq<Entry>, upto: nat)
    requires Refines(log, full) && upto <= |full|
    ensures Refines(log.Compact(upto, log.TermAt(upto)), full)
  {
    ActRefines(log, full, Shed(upto));
  }

  // ----- what a handler does to the log

  /** The log before any compaction. */
  function Filled(r: Replica, call: Call): Log {
    if call.OnWrite? && r.role.Leader? then r.log.Append(Entry(r.log.LastIndex() + 1, r.term, call.stroke))
    else Readied(r, call)
  }

  ghost predicate MaybeCompacted(log: Log, n: Replica) {
    n.log == log || n.log == log.Compact(n.commitIndex, log.TermAt(n.commitIndex))
  }

  lemma AppendLog(r: Replica, args: AppendArgs)
    ensures MaybeCompacted(TakenIn(r, args), HandleAppendEntries(r, args).0)
  {
  }

  lemma CallLog(r: Replica, call: Call)
    requires !call.OnInstall?
    ensures MaybeCompacted(Filled(r, call), Do(r, call))
  {
    if call.OnAppend? {
      AppendLog(r, call.append);
    } else if call.OnReadReplies? {
      ReadFrame(r, call.term, 1, call.replies);
    }
  }

  /** The full log after the call. */
  function FullAfter(r: Replica, full: seq<Entry>, call: Call): seq<Entry> {
    if call.OnAppend? then full[..Min(r.log.base, |full|)] + Readied(r, call).entries
    else if call.OnWrite? && r.role.Leader? then full + [Entry(r.log.LastIndex() + 1, r.term, call.stroke)]
    else full
  }

  /** Taking in a batch keeps the committed part, and so does every other call. */
  lemma FilledStands(r: Replica, full: seq<Entry>, call: Call)
    requires Stands(r, full) && WellFormed(call) && !call.OnInstall?
    ensures var whole := FullAfter(r, full, call);
            && Refines(Filled(r, call), whole) && InPlace(whole)
            && r.commitIndex <= |whole| && whole[..r.commitIndex] == full[..r.commitIndex]
  {
    var whole := FullAfter(r, full, call);
    if call.OnAppend? {
      BatchStands(r, full, call.append);
    } else if call.OnWrite? && r.role.Leader? {
      assert whole[r.log.base..] == full[r.log.base..] + [whole[|full|]];
    }
  }

  lemma BatchKept(r: Replica, a: AppendArgs)
    requires r.log.Placed() && r.log.base <= r.commitIndex <= r.log.LastIndex() && Consecutive(a.prevIndex, a.entries)
    ensures var log := TakenIn(r, a);
            && log.Placed() && log.base == r.log.base && log.baseTerm == r.log.baseTerm && r.commitIndex <= log.LastIndex()
            && log.entries[..r.commitIndex - r.log.base] == r.log.entries[..r.commitIndex - r.log.base]
  {
    if a.term >= r.term && PrevMatches(r.log, a) {
      MergeKeeps(r.log, r.commitIndex, a.entries, a.prevIndex);
    }
  }

  lemma BatchStands(r: Replica, full: seq<Entry>, a: AppendArgs)
    requires Stands(r, full) && Consecutive(a.prevIndex, a.entries)
    ensures var log := TakenIn(r, a);
            var whole := full[..r.log.base] + log.entries;
            && Refines(log, whole) && InPlace(whole)
            && r.commitIndex <= |whole| && whole[..r.commitIndex] == full[..r.commitIndex]
  {
    var log, b := TakenIn(r, a), r.log.base;
    var whole := full[..b] + log.entries;
    BatchKept(r, a);
    Rejoined(full, log.entries, b, r.commitIndex);
  }

  /** A log that keeps its entries up to `c` above its boundary `b` keeps those of the full log. */
  lemma Rejoined(full: seq<Entry>, entries: seq<Entry>, b: nat, c: nat)
    requires b <= c <= |full| && c - b <= |entries| && entries[..c - b] == full[b..][..c - b]
    ensures (full[..b] + entries)[b..] == entries && (full[..b] + entries)[..c] == full[..c]
  {
    assert (full[..b] + entries)[..c] == full[..b] + entries[..c - b];
    assert full[..c] == full[..b] + full[b..][..c - b];
  }

  lemma CallStands(r: Replica, full: seq<Entry>, call: Call)
    requires Stands(r, full) && WellFormed(call) && !call.OnInstall?
    ensures var n, whole := Do(r, call), FullAfter(r, full, call);
            && Stands(n, whole) && n.commitIndex >= r.commitIndex
            && whole[..r.commitIndex] == full[..r.commitIndex]
  {
    var n, whole := Do(r, call), FullAfter(r, full, call);
    FilledStands(r, full, call);
    CallKeeps(r, call);
    CallLog(r, call);
    assert Filled(r, call).LastIndex() == |whole|;
    CallWithin(r, call);
    FilledBase(r, call);
    CompactStands(Filled(r, call), whole, n.commitIndex);
    BoardsGrow(r, n, full, whole, call);
  }

  /** A commit index never passes the end of the log. */
  lemma CallWithin(r: Replica, call: Call)
    requires Sound(r) && !call.OnInstall? && r.commitIndex <= Filled(r, call).LastIndex()
    ensures Do(r, call).commitIndex <= Filled(r, call).LastIndex()
  {
    match call {
      case OnAdvance => CommitPointIsGreatest(r, r.log.LastIndex());
      case OnReadReplies(term, replies) => ReadFrame(r, term, 1, replies);
      case OnAppend(args) => AppendWithin(r, args);
      case OnHeartbeat(args) => BeatWithin(r, args);
      case _ => OtherWithin(r, call);
    }
  }

  lemma OtherWithin(r: Replica, call: Call)
    requires !(call.OnInstall? || call.OnAdvance? || call.OnReadReplies? || call.OnAppend? || call.OnHeartbeat?)
    ensures Do(r, call).commitIndex == r.commitIndex
  {
  }

  lemma BeatWithin(r: Replica, args: BeatArgs)
    requires r.commitIndex <= r.log.LastIndex()
    ensures HandleHeartbeat(r, args).0.commitIndex <= r.log.LastIndex()
  {
  }

  lemma AppendWithin(r: Replica, args: AppendArgs)
    requires r.commitIndex <= TakenIn(r, args).LastIndex()
    ensures HandleAppendEntries(r, args).0.commitIndex <= TakenIn(r, args).LastIndex()
  {
  }

  lemma StrokesSplit(s: seq<Entry>, a: nat, b: nat)
    requires a <= b <= |s|
    ensures StrokesOf(s[..b]) == StrokesOf(s[..a]) + StrokesOf(s[a..b])
  {
  }

  lemma AppliedRange(r: Replica, whole: seq<Entry>, call: Call)
    requires Refines(Filled(r, call), whole) && !call.OnInstall?
    requires Filled(r, call).base <= r.commitIndex <= Do(r, call).commitIndex <= |whole|
    requires call.OnWrite? ==> r.commitIndex == Do(r, call).commitIndex
    ensures Applied(r, call) == StrokesOf(whole[r.commitIndex..Do(r, call).commitIndex])
  {
    if !call.OnWrite? {
      StrokesOfRange(Filled(r, call), whole, r.commitIndex, Do(r, call).commitIndex);
    }
  }

  lemma BoardsGrow(r: Replica, n: Replica, full: seq<Entry>, whole: seq<Entry>, call: Call)
    requires Stands(r, full) && n == Do(r, call) && Moved(r, n, Applied(r, call)) && !call.OnInstall?
    requires Refines(Filled(r, call), whole) && Filled(r, call).base == r.log.base
    requires r.commitIndex <= n.commitIndex <= |whole|
    requires whole[..r.commitIndex] == full[..r.commitIndex]
    ensures n.boards == ApplyAll(map[], StrokesOf(whole[..n.commitIndex]))
  {
    var a, b := r.commitIndex, n.commitIndex;
    AppliedRange(r, whole, call);
    StrokesSplit(whole, a, b);
    ApplyAllConcat(map[], StrokesOf(whole[..a]), StrokesOf(whole[a..b]));
  }

  lemma FilledBase(r: Replica, call: Call)
    ensures Filled(r, call).base == r.log.base
  {
  }

  // ----- one step

  ghost predicate BatchOf(m: Message) { m.AppendReq? ==> Consecutive(m.append.prevIndex, m.append.entries) }

  ghost predicate BatchesOf(c: Cluster) { forall m :: m in c.net ==> BatchOf(m) }

  ghost predicate NodesStand(c: Cluster) {
    |c.full| == |c.nodes| && forall i :: 0 <= i < |c.nodes| ==> Stands(c.nodes[i], c.full[i])
  }

  /** Which call of a replica a step is; none for the two steps that only send. */
  function CallOf(c: Cluster, s: Step): Option<Call> {
    match s
    case Timeout(_) => Some(OnTimeout)
    case OnVoteReq(m) => if m.VoteReq? then Some(OnVoteRequest(m.vote)) else None
    case OnVoteRep(m) => if m.VoteRep? then Some(OnVoteReplied(m.asked, m.src, m.voted)) else None
    case SendAppend(_, _) => None
    case OnAppendReq(m) => if m.AppendReq? then Some(OnAppend(m.append)) else None
    case OnAppendRep(m) => if m.AppendRep? then Some(OnAppendReplied(m.src, m.sent, m.appended)) else None
    case Write(_, stroke) => Some(OnWrite(stroke))
    case Advance(_) => Some(OnAdvance)
    case StartRead(_) => None
    case OnBeat(m) => if m.BeatReq? then Some(OnHeartbeat(m.beat)) else None
    case EndRead(_, read, replies) =>
      if read < |c.started| && (forall k :: 0 <= k < |replies| ==> replies[k].BeatRep?)
      then Some(OnReadReplies(c.started[read].term, Results(replies))) else None
    case Crash(_) => Some(OnRestart)
  }

  /** A step is a call on its node, or changes nothing there. */
  lemma StepIsCall(c: Cluster, s: Step)
    requires |c.nodes| == |c.full| && Enabled(c, s)
    ensures var r, full := c.nodes[Actor(s)], c.full[Actor(s)];
            match CallOf(c, s)
            case None => Effect(c, s).0 == r && Whole(c, s) == full
            case Some(call) => Effect(c, s).0 == Do(r, call) && Whole(c, s) == FullAfter(r, full, call) && !call.OnInstall?
  {
  }

  lemma StepStands(c: Cluster, s: Step)
    requires NodesStand(c) && BatchesOf(c) && Enabled(c, s)
    ensures var r, full := c.nodes[Actor(s)], c.full[Actor(s)];
            && Stands(Effect(c, s).0, Whole(c, s)) && Effect(c, s).0.commitIndex >= r.commitIndex
            && r.commitIndex <= |Whole(c, s)| && Whole(c, s)[..r.commitIndex] == full[..r.commitIndex]
  {
    StepIsCall(c, s);
    var call := CallOf(c, s);
    if call.Some? {
      if s.OnAppendReq? { assert BatchOf(s.m); }
      CallStands(c.nodes[Actor(s)], c.full[Actor(s)], call.value);
    }
  }

  lemma SentBatches(c: Cluster, s: Step)
    requires NodesStand(c) && Enabled(c, s)
    ensures forall m :: m in Effect(c, s).1 ==> BatchOf(m)
  {
    if s.SendAppend? { assert Stands(c.nodes[s.node], c.full[s.node]); }
  }

  lemma NextStands(c: Cluster, s: Step, d: Cluster)
    requires NodesStand(c) && BatchesOf(c) && Next(c, s, d)
    ensures NodesStand(d) && BatchesOf(d)
  {
    StepStands(c, s);
    SentBatches(c, s);
  }

  // ----- whole runs

  lemma {:induction false} RunStands(states: seq<Cluster>, steps: seq<Step>, k: nat)
    requires IsRun(states, steps) && k < |states|
    ensures NodesStand(states[k]) && BatchesOf(states[k]) && |states[k].nodes| == |states[0].nodes|
  {
    if k > 0 {
      RunStands(states, steps, k - 1);
      assert Taken(states, steps, k - 1);
      NextStands(states[k - 1], steps[k - 1], states[k]);
    }
  }

  /** What a node has committed. */
  function Committed(c: Cluster, i: NodeId): seq<Entry>
    requires i < |c.full| == |c.nodes|
  {
    c.full[i][..Min(c.nodes[i].commitIndex, |c.full[i]|)]
  }

  /** In every state of every run a node's log stands for its full log, and its boards are exactly the
      replay of what it has committed. */
  lemma RunShows(states: seq<Cluster>, steps: seq<Step>, k: nat, i: NodeId)
    requires IsRun(states, steps) && k < |states| && i < |states[k].nodes|
    ensures |states[k].full| == |states[k].nodes| && Stands(states[k].nodes[i], states[k].full[i])
    ensures |Committed(states[k], i)| == states[k].nodes[i].commitIndex
    ensures states[k].nodes[i].boards == ApplyAll(map[], StrokesOf(Committed(states[k], i)))
  {
    RunStands(states, steps, k);
  }

  lemma StepKeepsCommitted(states: seq<Cluster>, steps: seq<Step>, k: nat, i: NodeId)
    requires IsRun(states, steps) && k < |steps| && i < |states[k].nodes|
    ensures |states[k].full| == |states[k].nodes| == |states[k + 1].nodes| == |states[k + 1].full|
    ensures Committed(states[k], i) <= Committed(states[k + 1], i)
  {
    RunStands(states, steps, k);
    RunStands(states, steps, k + 1);
    assert Taken(states, steps, k);
    StepStands(states[k], steps[k]);
    assert Stands(states[k].nodes[i], states[k].full[i]) && Stands(states[k + 1].nodes[i], states[k + 1].full[i]);
  }

  /** No node ever loses a committed entry: what it has committed only grows, in every run. */
  lemma {:induction false} CommittedStays(states: seq<Cluster>, steps: seq<Step>, j: nat, k: nat, i: NodeId)
    requires IsRun(states, steps) && j <= k < |states| && i < |states[j].nodes|
    ensures |states[j].full| == |states[j].nodes| == |states[k].nodes| == |states[k].full|
    ensures Committed(states[j], i) <= Committed(states[k], i)
    decreases k
  {
    RunStands(states, steps, j);
    if j < k {
      CommittedStays(states, steps, j, k - 1, i);
      StepKeepsCommitted(states, steps, k - 1, i);
      Chained(Committed(states[j], i), Committed(states[k - 1], i), Committed(states[k], i));
    }
  }

  lemma Chained<T>(x: seq<T>, y: seq<T>, z: seq<T>)
    requires x <= y <= z
    ensures x <= z
  {
  }

  lemma CommitNeverFalls(states: seq<Cluster>, steps: seq<Step>, j: nat, k: nat, i: NodeId)
    requires IsRun(states, steps) && j <= k < |states| && i < |states[j].nodes|
    ensures i < |states[k].nodes| && states[j].nodes[i].commitIndex <= states[k].nodes[i].commitIndex
  {
    CommittedStays(states, steps, j, k, i);
    RunShows(states, steps, j, i);
    RunShows(states, steps, k, i);
  }
}
