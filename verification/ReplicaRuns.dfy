/** One replica over any sequence of calls: what every handler keeps, and what a crash brings back. */
module ReplicaRuns {
  import opened Types
  import opened Board
  import opened LogModel
  import opened Replica

  datatype Call =
    | OnTimeout
    | OnVoteRequest(vote: VoteArgs)
    | OnVoteReplied(asked: nat, from: NodeId, voted: VoteResult)
    | OnAppend(append: AppendArgs)
    | OnAppendReplied(peer: NodeId, sent: AppendArgs, appended: AppendResult)
    | OnHeartbeat(beat: BeatArgs)
    | OnInstall(install: InstallArgs)
    | OnWrite(stroke: Stroke)
    | OnAdvance
    | OnReadReplies(term: nat, replies: seq<BeatResult>)
    | OnRestart

  function Do(r: Replica, call: Call): Replica {
    match call
    case OnTimeout => if r.role.Leader? then r else RunElection(r)
    case OnVoteRequest(args) => HandleRequestVote(r, args).0
    case OnVoteReplied(asked, from, voted) => OnVoteReply(r, asked, from, voted)
    case OnAppend(args) => HandleAppendEntries(r, args).0
    case OnAppendReplied(peer, sent, appended) => OnAppendReply(r, peer, sent, appended)
    case OnHeartbeat(args) => HandleHeartbeat(r, args).0
    case OnInstall(args) => HandleInstallSnapshot(r, args)
    case OnWrite(stroke) => ClientAppend(r, stroke)
    case OnAdvance => if r.role.Leader? then UpdateCommitIndex(r) else r
    case OnReadReplies(term, replies) => FinishRead(r, term, 1, replies).0
    case OnRestart => Restart(r)
  }

  /** What peers guarantee: batches are consecutive, snapshot lists are filed under their board. */
  ghost predicate WellFormed(call: Call) {
    match call
    case OnAppend(args) => Consecutive(args.prevIndex, args.entries)
    case OnInstall(args) => Filed(args.snapshot.boards)
    case _ => true
  }

  /** The invariant of a replica between calls. */
  ghost predicate Sound(r: Replica) {
    && r.log.Placed()
    && r.log.base <= r.lastApplied == r.commitIndex <= r.log.LastIndex()
    && Replayed(r.boards)
  }

  /** The strokes of the entries after `from` up to `to`. */
  function Strokes(log: Log, from: nat, upto: nat): seq<Stroke> {
    if upto <= from then []
    else Strokes(log, from, upto - 1) + (if log.Get(upto).Some? then [log.Get(upto).value.stroke] else [])
  }

  lemma {:induction false} StrokesCount(log: Log, from: nat, upto: nat)
    requires log.base <= from <= upto <= log.LastIndex()
    ensures |Strokes(log, from, upto)| == upto - from
    decreases upto
  {
    if from < upto { StrokesCount(log, from, upto - 1); }
  }

  lemma {:induction false} RangeIsApplyAll(bs: Boards, log: Log, from: nat, upto: nat)
    ensures ApplyRange(bs, log, from, upto) == ApplyAll(bs, Strokes(log, from, upto))
    decreases upto
  {
    if from < upto {
      RangeIsApplyAll(bs, log, from, upto - 1);
      if log.Get(upto).Some? {
        ApplyAllSnoc(bs, Strokes(log, from, upto - 1), log.Get(upto).value.stroke);
      } else {
        assert Strokes(log, from, upto - 1) + [] == Strokes(log, from, upto - 1);
      }
    }
  }

  // ----- one call

  /** The log whose entries a call may apply: the follower's after the merge, otherwise the current one. */
  function Readied(r: Replica, call: Call): Log {
    if call.OnAppend? then TakenIn(r, call.append) else r.log
  }

  function Applied(r: Replica, call: Call): seq<Stroke> {
    Strokes(Readied(r, call), r.commitIndex, Do(r, call).commitIndex)
  }

  /** From `r` to `n` exactly `strokes` were applied, and nothing went backward. */
  ghost predicate Moved(r: Replica, n: Replica, strokes: seq<Stroke>) {
    && Sound(n)
    && n.term >= r.term && n.commitIndex >= r.commitIndex
    && n.boards == ApplyAll(r.boards, strokes)
    && |strokes| == n.commitIndex - r.commitIndex
  }

  lemma Unmoved(r: Replica, n: Replica, log: Log)
    requires Sound(r) && n.term >= r.term
    requires n.log.base == r.log.base && n.log.Placed() && n.commitIndex <= n.log.LastIndex()
    requires n.commitIndex == r.commitIndex && n.lastApplied == r.lastApplied && n.boards == r.boards
    ensures Moved(r, n, Strokes(log, r.commitIndex, n.commitIndex))
  {
  }

  lemma SnapshotKeeps(r: Replica)
    requires Sound(r)
    ensures Sound(MaybeSnapshot(r)) && MaybeSnapshot(r) == r.(log := MaybeSnapshot(r).log)
  {
  }

  /** Moving the commit index within the log applies exactly the entries in between. */
  lemma CommitApplies(r: Replica, upto: nat)
    requires Sound(r) && r.commitIndex <= upto <= r.log.LastIndex()
    ensures Moved(r, ApplyCommitted(r.(commitIndex := upto)), Strokes(r.log, r.commitIndex, upto))
    ensures ApplyCommitted(r.(commitIndex := upto)).commitIndex == upto
  {
    RangeIsApplyAll(r.boards, r.log, r.commitIndex, upto);
    StrokesCount(r.log, r.commitIndex, upto);
    ApplyAllKeepsReplayed(r.boards, Strokes(r.log, r.commitIndex, upto));
    SnapshotKeeps(r.(commitIndex := upto, lastApplied := upto, boards := ApplyRange(r.boards, r.log, r.commitIndex, upto)));
  }

  lemma AdvanceApplies(r: Replica, leaderCommit: nat)
    requires Sound(r)
    ensures var n := AdvanceCommit(r, leaderCommit);
            Moved(r, n, Strokes(r.log, r.commitIndex, n.commitIndex))
  {
    if leaderCommit > r.commitIndex {
      CommitApplies(r, Min(leaderCommit, r.log.LastIndex()));
    }
  }

  lemma AppendKeeps(r: Replica, args: AppendArgs)
    requires Sound(r) && Consecutive(args.prevIndex, args.entries)
    ensures Moved(r, HandleAppendEntries(r, args).0, Applied(r, OnAppend(args)))
  {
    var n := HandleAppendEntries(r, args).0;
    if args.term < r.term || !PrevMatches(r.log, args) {
      Unmoved(r, n, r.log);
    } else {
      var f := Hear(r, args.term);
      MergeKeeps(f.log, f.commitIndex, args.entries, args.prevIndex);
      var (log, ok) := Merge(f.log, f.commitIndex, args.entries);
      if ok {
        AdvanceApplies(f.(log := log), args.commit);
      } else {
        Unmoved(r, n, log);
      }
    }
  }

  lemma InstallPlaced(log: Log, lastIndex: nat, lastTerm: nat)
    requires log.Placed() && log.base <= lastIndex
    ensures log.Install(lastIndex, lastTerm).Placed()
  {
    AbovePlaced(log.base, log.entries, lastIndex);
  }

  lemma InstallKeeps(r: Replica, args: InstallArgs)
    requires Sound(r) && Filed(args.snapshot.boards)
    ensures var n := HandleInstallSnapshot(r, args);
            Sound(n) && n.term >= r.term && n.commitIndex >= r.commitIndex
  {
    if args.snapshot.lastIndex > r.commitIndex {
      InstallPlaced(r.log, args.snapshot.lastIndex, args.snapshot.lastTerm);
    }
    RebuildIsReplayed(args.snapshot.boards);
  }

  lemma AdvanceKeeps(r: Replica)
    requires Sound(r)
    ensures Moved(r, UpdateCommitIndex(r), Strokes(r.log, r.commitIndex, UpdateCommitIndex(r).commitIndex))
  {
    CommitPointIsGreatest(r, r.log.LastIndex());
    var p := CommitPoint(r, r.log.LastIndex());
    if p > r.commitIndex {
      CommitApplies(r, p);
    } else {
      Unmoved(r, r, r.log);
    }
  }

  lemma WriteKeeps(r: Replica, stroke: Stroke)
    requires Sound(r)
    ensures Moved(r, ClientAppend(r, stroke), [])
  {
  }

  /** Neither the log nor the boards are touched. */
  ghost predicate Aside(r: Replica, n: Replica) {
    && n.log == r.log && n.boards == r.boards && n.lastApplied == r.lastApplied
    && n.commitIndex == r.commitIndex && n.term >= r.term
  }

  lemma VoteAside(r: Replica, args: VoteArgs)
    ensures Aside(r, HandleRequestVote(r, args).0)
  {
  }

  lemma ReplyAside(r: Replica, peer: NodeId, sent: AppendArgs, reply: AppendResult)
    ensures Aside(r, OnAppendReply(r, peer, sent, reply))
  {
  }

  /** The calls about roles, votes and bookkeeping. */
  lemma OthersAside(r: Replica, call: Call)
    requires !call.OnAppend? && !call.OnInstall? && !call.OnHeartbeat? && !call.OnAdvance? && !call.OnWrite?
    ensures Aside(r, Do(r, call))
  {
    if call.OnVoteRequest? {
      VoteAside(r, call.vote);
    } else if call.OnAppendReplied? {
      ReplyAside(r, call.peer, call.sent, call.appended);
    } else if call.OnReadReplies? {
      ReadFrame(r, call.term, 1, call.replies);
    } else if call.OnTimeout? {
      assert Aside(r, RunElection(r));
    } else if call.OnVoteReplied? {
      assert Aside(r, OnVoteReply(r, call.asked, call.from, call.voted));
    } else {
      assert Aside(r, Restart(r));
    }
  }

  /** Every call keeps the invariant; the term and the commit index never fall; and unless a snapshot is
      installed, the boards change by exactly the newly committed strokes, in log order. */
  lemma CallKeeps(r: Replica, call: Call)
    requires Sound(r) && WellFormed(call)
    ensures Sound(Do(r, call))
    ensures Do(r, call).term >= r.term && Do(r, call).commitIndex >= r.commitIndex
    ensures !call.OnInstall? ==> Moved(r, Do(r, call), Applied(r, call))
  {
    if call.OnAppend? {
      AppendKeeps(r, call.append);
    } else if call.OnInstall? {
      InstallKeeps(r, call.install);
    } else if call.OnHeartbeat? {
      if call.beat.term >= r.term {
        AdvanceApplies(Hear(r, call.beat.term), call.beat.commit);
      } else {
        Unmoved(r, r, r.log);
      }
    } else if call.OnAdvance? {
      AdvanceKeeps(r);
      Unmoved(r, r, r.log);
    } else if call.OnWrite? {
      WriteKeeps(r, call.stroke);
    } else {
      OthersAside(r, call);
      Unmoved(r, Do(r, call), r.log);
    }
  }

  // ----- whole runs

  function After(cfg: Config, calls: seq<Call>): Replica {
    if calls == [] then Fresh(cfg) else Do(After(cfg, calls[..|calls| - 1]), calls[|calls| - 1])
  }

  /** Everything applied by a sequence of calls, in order. */
  function History(cfg: Config, calls: seq<Call>): seq<Stroke> {
    if calls == [] then []
    else History(cfg, calls[..|calls| - 1]) + Applied(After(cfg, calls[..|calls| - 1]), calls[|calls| - 1])
  }

  ghost predicate AllWellFormed(calls: seq<Call>) { forall k :: 0 <= k < |calls| ==> WellFormed(calls[k]) }

  ghost predicate NoInstall(calls: seq<Call>) { forall k :: 0 <= k < |calls| ==> !calls[k].OnInstall? }

  /** The invariant holds after every sequence of well-formed calls and restarts. */
  lemma {:induction false} RunKeeps(cfg: Config, calls: seq<Call>)
    requires AllWellFormed(calls)
    ensures Sound(After(cfg, calls)) && After(cfg, calls).cfg == cfg
  {
    if calls != [] {
      RunKeeps(cfg, calls[..|calls| - 1]);
      CallKeeps(After(cfg, calls[..|calls| - 1]), calls[|calls| - 1]);
      ConfigKept(After(cfg, calls[..|calls| - 1]), calls[|calls| - 1]);
    }
  }

  lemma ConfigKept(r: Replica, call: Call)
    ensures Do(r, call).cfg == r.cfg
  {
    if call.OnReadReplies? { ReadConfig(r, call.term, 1, call.replies); }
  }

  lemma {:induction false} ReadConfig(r: Replica, term: nat, acks: nat, replies: seq<BeatResult>)
    ensures FinishRead(r, term, acks, replies).0.cfg == r.cfg
    decreases |replies|
  {
    if replies != [] && replies[0].term <= r.term {
      ReadConfig(r, term, acks + (if replies[0].success then 1 else 0), replies[1..]);
    }
  }

  /** Over a run the term and the commit index never fall. */
  lemma {:induction false} RunMonotone(cfg: Config, calls: seq<Call>, k: nat)
    requires AllWellFormed(calls) && k <= |calls|
    ensures After(cfg, calls[..k]).term <= After(cfg, calls).term
    ensures After(cfg, calls[..k]).commitIndex <= After(cfg, calls).commitIndex
  {
    if k < |calls| {
      var n := |calls| - 1;
      RunMonotone(cfg, calls[..n], k);
      RunKeeps(cfg, calls[..n]);
      CallKeeps(After(cfg, calls[..n]), calls[n]);
      assert calls[..n][..k] == calls[..k];
    } else {
      assert calls[..k] == calls;
    }
  }

  /** Without snapshot installs the boards are the replay of the applied strokes, one per committed
      index, and that sequence only ever grows at its end. */
  lemma {:induction false} AppliedOnlyGrows(cfg: Config, calls: seq<Call>, k: nat)
    requires AllWellFormed(calls) && NoInstall(calls) && k <= |calls|
    ensures After(cfg, calls).boards == ApplyAll(map[], History(cfg, calls))
    ensures |History(cfg, calls)| == After(cfg, calls).commitIndex
    ensures History(cfg, calls[..k]) <= History(cfg, calls)
  {
    if calls != [] {
      var n := |calls| - 1;
      AppliedOnlyGrows(cfg, calls[..n], Min(k, n));
      RunKeeps(cfg, calls[..n]);
      var r := After(cfg, calls[..n]);
      CallKeeps(r, calls[n]);
      ApplyAllConcat(map[], History(cfg, calls[..n]), Applied(r, calls[n]));
      if k < |calls| {
        assert calls[..n][..k] == calls[..k];
      } else {
        assert calls[..k] == calls;
      }
    }
  }

  // ----- the disk

  /** The contents of state.json, the write-ahead log and snapshot.json. */
  datatype Disk = Disk(term: nat, votedFor: Option<NodeId>, commitIndex: nat, wal: seq<Entry>, snapshot: Option<Snapshot>)

  function LoadLog(d: Disk): Log {
    match d.snapshot
    case None => Log(0, 0, d.wal)
    case Some(s) => Log(s.lastIndex, s.lastTerm, Above(d.wal, s.lastIndex))
  }

  function SavedBoards(d: Disk): Boards { if d.snapshot.Some? then Rebuild(d.snapshot.value.boards) else map[] }

  /** The constructor: load the log and the snapshot, then apply up to the saved commit index. */
  function Loading(cfg: Config, d: Disk, boards: Boards): Replica {
    var log := LoadLog(d);
    Replica(cfg, d.term, d.votedFor, Follower, {}, log, Max(d.commitIndex, log.base), log.base, map[], map[], boards)
  }

  function RecoverWith(cfg: Config, d: Disk, boards: Boards): Replica { ApplyCommitted(Loading(cfg, d, boards)) }

  function Recover(cfg: Config, d: Disk): Replica { RecoverWith(cfg, d, SavedBoards(d)) }

  /** The boards a saved snapshot can be restored to, listed in some order. */
  ghost predicate Saved(d: Disk, boards: Boards) {
    match d.snapshot
    case None => boards == map[]
    case Some(s) => exists order :: Lists(order, s.boards.Keys) && boards == Restore(order, s.boards)
  }

  ghost predicate FiledDisk(d: Disk) { d.snapshot.Some? ==> Filed(d.snapshot.value.boards) }

  /** The disk holds what the replica knows, the boards up to the log's boundary included. */
  ghost predicate Synced(r: Replica, d: Disk) {
    && d.term == r.term && d.votedFor == r.votedFor && Max(d.commitIndex, r.log.base) == r.commitIndex
    && LoadLog(d) == r.log
    && (d.snapshot.Some? ==> Filed(d.snapshot.value.boards))
    && r.boards == ApplyRange(SavedBoards(d), r.log, r.log.base, r.commitIndex)
  }

  /** A disk a node can start from: the log in place, and long enough for what was committed. */
  ghost predicate Intact(d: Disk) {
    && LoadLog(d).Placed()
    && Max(d.commitIndex, LoadLog(d).base) <= LoadLog(d).LastIndex()
    && (d.snapshot.Some? ==> Filed(d.snapshot.value.boards))
  }

  /** No snapshot is due. */
  predicate Settled(r: Replica) {
    r.commitIndex == r.log.base || r.commitIndex - r.log.base < r.cfg.threshold
  }

  /** A restart from a synced disk loses the role and the bookkeeping of leaders, and nothing else. */
  lemma RecoverRestarts(r: Replica, d: Disk)
    requires Sound(r) && Synced(r, d) && Settled(r)
    ensures Recover(r.cfg, d) == Restart(r)
  {
  }

  lemma {:induction false} AboveTwice(entries: seq<Entry>, low: nat, high: nat)
    requires low <= high
    ensures Above(Above(entries, low), high) == Above(entries, high)
  {
    if entries != [] {
      var rest, last := entries[..|entries| - 1], entries[|entries| - 1];
      AboveTwice(rest, low, high);
      if last.index > low {
        assert (Above(rest, low) + [last])[..|Above(rest, low)|] == Above(rest, low);
      }
    }
  }

  function SnapshotOf(r: Replica): Snapshot {
    Snapshot(r.commitIndex, r.log.TermAt(r.commitIndex), EventLists(r.boards))
  }

  /** Above a later boundary the WAL holds what the loaded log holds. */
  lemma WalAbove(d: Disk, upto: nat)
    requires LoadLog(d).base <= upto
    ensures Above(d.wal, upto) == Above(LoadLog(d).entries, upto)
  {
    if d.snapshot.Some? {
      AboveTwice(d.wal, d.snapshot.value.lastIndex, upto);
    }
  }

  lemma CompactedEntries(log: Log, upto: nat, term: nat)
    requires log.Placed() && log.base < upto <= log.LastIndex()
    ensures log.Compact(upto, term) == Log(upto, term, Above(log.entries, upto))
  {
    AbovePlaced(log.base, log.entries, upto);
  }

  /** The log loaded once the new snapshot is in place, with the WAL rewritten or not. */
  lemma LoadedAfter(r: Replica, d: Disk)
    requires r.log.Placed() && LoadLog(d) == r.log && r.log.base < r.commitIndex <= r.log.LastIndex()
    ensures var log := r.log.Compact(r.commitIndex, r.log.TermAt(r.commitIndex));
            var d1 := d.(snapshot := Some(SnapshotOf(r)));
            && LoadLog(d1) == log
            && LoadLog(d1.(wal := log.entries)) == log
  {
    WalAbove(d, r.commitIndex);
    CompactedEntries(r.log, r.commitIndex, r.log.TermAt(r.commitIndex));
    AboveTwice(d.wal, r.commitIndex, r.commitIndex);
  }

  /** The disk after the second write of a snapshot; without anything to compact there is no second write. */
  function Rewritten(r: Replica, d: Disk): Disk {
    var saved := d.(snapshot := Some(SnapshotOf(r)));
    if r.commitIndex > r.log.base then saved.(wal := TakeSnapshot(r).log.entries) else saved
  }

  lemma {:induction false} AboveAll(log: Log)
    requires log.Placed()
    ensures Above(log.entries, log.base) == log.entries
  {
    AbovePlaced(log.base, log.entries, log.base);
  }

  /** A snapshot due with nothing to compact saves the boundary that is already there. */
  lemma LoadedSame(r: Replica, d: Disk)
    requires r.log.Placed() && LoadLog(d) == r.log && r.log.base == r.commitIndex
    ensures LoadLog(d.(snapshot := Some(SnapshotOf(r)))) == r.log
  {
    if d.snapshot.None? { AboveAll(r.log); }
  }

  /** Taking a snapshot writes snapshot.json, then the WAL. Whichever of the three disks a crash leaves,
      recovery gives the term, vote, commit index, remaining log and boards of no crash at all. */
  lemma CrashDuringSnapshot(r: Replica, d: Disk)
    requires Sound(r) && Synced(r, d)
    requires r.commitIndex - r.log.base >= r.cfg.threshold
    ensures var after := TakeSnapshot(r);
            && Recover(r.cfg, d) == Restart(after)
            && Recover(r.cfg, d.(snapshot := Some(SnapshotOf(r)))) == Restart(after)
            && Recover(r.cfg, Rewritten(r, d)) == Restart(after)
            && Synced(after, Rewritten(r, d)) && Sound(after) && Settled(after)
  {
    if r.commitIndex > r.log.base {
      LoadedAfter(r, d);
    } else {
      LoadedSame(r, d);
    }
    RebuildInverts(r.boards);
  }

  // ----- the disk during a handler

  lemma {:induction false} RangeAgrees(bs: Boards, x: Log, y: Log, from: nat, upto: nat)
    requires forall i: nat :: from < i <= upto ==> x.Get(i) == y.Get(i)
    ensures ApplyRange(bs, x, from, upto) == ApplyRange(bs, y, from, upto)
    decreases upto
  {
    if from < upto { RangeAgrees(bs, x, y, from, upto - 1); }
  }

  lemma RangeSame(bs: Boards, x: Log, y: Log, upto: nat)
    requires x.base == y.base && x.base <= upto <= x.LastIndex() && upto <= y.LastIndex()
    requires x.entries[..upto - x.base] == y.entries[..upto - x.base]
    ensures ApplyRange(bs, x, x.base, upto) == ApplyRange(bs, y, x.base, upto)
  {
    var n := upto - x.base;
    forall i: nat | x.base < i <= upto ensures x.Get(i) == y.Get(i) {
      assert x.entries[..n][i - x.base - 1] == y.entries[..n][i - x.base - 1];
    }
    RangeAgrees(bs, x, y, x.base, upto);
  }

  lemma {:induction false} RangeCompose(bs: Boards, log: Log, a: nat, b: nat, c: nat)
    requires a <= b <= c
    ensures ApplyRange(bs, log, a, c) == ApplyRange(ApplyRange(bs, log, a, b), log, b, c)
    decreases c
  {
    if b < c { RangeCompose(bs, log, a, b, c - 1); }
  }

  /** The log may change above the commit index without the disk losing track of the boards. */
  lemma LogChangeSyncs(r: Replica, d: Disk, log: Log, wal: seq<Entry>)
    requires Sound(r) && Synced(r, d)
    requires log.Placed() && log.base == r.log.base && r.commitIndex <= log.LastIndex()
    requires LoadLog(d.(wal := wal)) == log
    requires log.entries[..r.commitIndex - log.base] == r.log.entries[..r.commitIndex - log.base]
    ensures Sound(r.(log := log)) && Synced(r.(log := log), d.(wal := wal))
  {
    RangeSame(SavedBoards(d), r.log, log, r.commitIndex);
  }

  /** Saving a higher commit index and then applying up to it keeps disk and replica in step. */
  lemma ApplySyncs(r: Replica, d: Disk, upto: nat, saved: nat)
    requires Sound(r) && Synced(r, d) && r.commitIndex <= upto <= r.log.LastIndex()
    requires Max(saved, r.log.base) == upto
    ensures var a := r.(commitIndex := upto, lastApplied := upto, boards := ApplyRange(r.boards, r.log, r.commitIndex, upto));
            Sound(a) && Synced(a, d.(commitIndex := saved))
  {
    RangeCompose(SavedBoards(d), r.log, r.log.base, r.commitIndex, upto);
    RangeIsApplyAll(r.boards, r.log, r.commitIndex, upto);
    ApplyAllKeepsReplayed(r.boards, Strokes(r.log, r.commitIndex, upto));
  }

  /** A leader's snapshot, once the WAL, the snapshot and the state have all been written. */
  lemma InstallSyncs(r: Replica, d: Disk, s: Snapshot)
    requires Sound(r) && r.commitIndex < s.lastIndex && Filed(s.boards)
    requires d.term == r.term && d.votedFor == r.votedFor
    ensures var n := Installed(r, s, Rebuild(s.boards));
            var d' := d.(wal := n.log.entries, snapshot := Some(s), commitIndex := s.lastIndex);
            Sound(n) && Synced(n, d') && Settled(n)
  {
    InstallPlaced(r.log, s.lastIndex, s.lastTerm);
    RebuildIsReplayed(s.boards);
    AboveAll(r.log.Install(s.lastIndex, s.lastTerm));
  }

  /** Installing a snapshot writes the WAL before snapshot.json. A crash between the two brings the node
      back as it was if and only if its log held no entry at all; otherwise every entry up to the new
      boundary, applied or only accepted, is gone, and the disk is not even one to start from unless
      nothing was committed above the old boundary and no entry lies above the new one. A crash after both
      writes loses nothing. */
  lemma CrashDuringInstall(r: Replica, d: Disk, s: Snapshot)
    requires Sound(r) && Synced(r, d) && r.commitIndex < s.lastIndex && Filed(s.boards)
    ensures var n := Installed(r, s, Rebuild(s.boards));
            var half := d.(wal := n.log.entries);
            && (Recover(r.cfg, half) == Restart(r) <==> r.log.entries == [])
            && (Intact(half) <==> n.log.entries == [] && r.commitIndex == r.log.base)
            && Recover(r.cfg, half.(snapshot := Some(s))) == Restart(n)
  {
    HalfInstalled(r, d, s);
    FullyInstalled(r, d, s);
    RecoverLog(r.cfg, d.(wal := r.log.Install(s.lastIndex, s.lastTerm).entries));
    InstallDrops(r.log, s.lastIndex, s.lastTerm);
    if r.log.entries == [] { RecoverRestarts(r, d.(wal := [])); }
  }

  /** What is loaded after the first of the two writes. */
  lemma HalfInstalled(r: Replica, d: Disk, s: Snapshot)
    requires Sound(r) && Synced(r, d) && r.commitIndex < s.lastIndex
    ensures var log := r.log.Install(s.lastIndex, s.lastTerm);
            && LoadLog(d.(wal := log.entries)) == r.log.(entries := log.entries)
            && log.Placed() && log.base == s.lastIndex
  {
    var log := r.log.Install(s.lastIndex, s.lastTerm);
    InstallPlaced(r.log, s.lastIndex, s.lastTerm);
    AbovePlaced(s.lastIndex, log.entries, r.log.base);
  }

  lemma FullyInstalled(r: Replica, d: Disk, s: Snapshot)
    requires Sound(r) && Synced(r, d) && r.commitIndex < s.lastIndex && Filed(s.boards)
    ensures var n := Installed(r, s, Rebuild(s.boards));
            Recover(r.cfg, d.(wal := n.log.entries, snapshot := Some(s))) == Restart(n)
  {
    var log := r.log.Install(s.lastIndex, s.lastTerm);
    InstallPlaced(r.log, s.lastIndex, s.lastTerm);
    AboveAll(log);
    RebuildIsReplayed(s.boards);
    RecoverRestarts(Installed(r, s, Rebuild(s.boards)), d.(wal := log.entries, snapshot := Some(s), commitIndex := s.lastIndex));
  }

  /** The entry right after the old boundary does not survive a snapshot beyond it. */
  lemma InstallDrops(log: Log, lastIndex: nat, lastTerm: nat)
    requires log.Placed() && log.base < lastIndex
    ensures |log.Install(lastIndex, lastTerm).entries| < |log.entries| || log.entries == log.Install(lastIndex, lastTerm).entries == []
  {
    AbovePlaced(log.base, log.entries, lastIndex);
  }

  lemma RecoverLog(cfg: Config, d: Disk)
    ensures Recover(cfg, d).log == LoadLog(d) || Recover(cfg, d).log.base > LoadLog(d).base
  {
  }
}
