/** The node itself: fields updated in place, loops, and a disk written before every reply. Each method
    is proved to do, from any state whatever, what the handler of the same name does to the replica value;
    and from a valid state to leave a valid one, by way of disks that all bring back what was committed. */
module RaftNode {
  import opened Types
  import opened Board
  import opened LogModel
  import opened Storage
  import opened Crashes
  import R = Replica
  import Runs = ReplicaRuns

  lemma ListsSnoc(order: seq<string>, keys: set<string>, b: string)
    requires Lists(order, keys) && b !in keys
    ensures Lists(order + [b], keys + {b})
  {
  }

  lemma RestoreSnoc(order: seq<string>, lists: map<string, seq<Stroke>>, b: string)
    requires b in lists && forall x :: x in order ==> x in lists
    ensures Restore(order + [b], lists) == ApplyAll(Restore(order, lists), lists[b])
  {
    assert (order + [b])[..|order|] == order;
  }

  lemma AnyOrder(keys: set<string>) returns (order: seq<string>)
    ensures Lists(order, keys)
  {
    order := [];
    if keys != {} {
      var b :| b in keys;
      var rest := AnyOrder(keys - {b});
      ListsSnoc(rest, keys - {b}, b);
      assert keys - {b} + {b} == keys;
      order := rest + [b];
    }
  }

  class RaftNode {
    const cfg: R.Config
    const store: FilePersistence
    const log: RaftLog

    var currentTerm: nat
    var votedFor: Option<NodeId>
    var role: Role
    var votes: set<NodeId>
    var commitIndex: nat
    var lastApplied: nat
    var nextIndex: map<NodeId, nat>
    var matchIndex: map<NodeId, nat>
    var boardEvents: map<string, seq<Stroke>>
    var undoneStrokeIds: map<string, set<string>>
    var boardStrokes: map<string, seq<Stroke>>

    // ----- the value a node stands for

    ghost predicate Wired()
      reads this`boardEvents, this`undoneStrokeIds, this`boardStrokes
    {
      log.store == store && boardEvents.Keys == undoneStrokeIds.Keys == boardStrokes.Keys
    }

    ghost function Boards(): Boards
      requires Wired()
      reads this`boardEvents, this`undoneStrokeIds, this`boardStrokes
    {
      map b | b in boardEvents :: BoardState(boardEvents[b], undoneStrokeIds[b], boardStrokes[b])
    }

    ghost function View(): R.Replica
      requires Wired()
      reads this, log
    {
      R.Replica(cfg, currentTerm, votedFor, role, votes, log.Value(), commitIndex, lastApplied,
                nextIndex, matchIndex, Boards())
    }

    /** The invariant of the replica, and the disk in step with it. */
    ghost predicate Tidy()
      requires Wired()
      reads this, log, store
    {
      Runs.Sound(View()) && Runs.Synced(View(), store.Contents())
    }

    /** Between calls no snapshot is due. */
    ghost predicate Valid()
      reads this, log, store
    {
      Wired() && Tidy() && Runs.Settled(View())
    }

    /** Loads the log and the snapshot, then applies up to the saved commit index; for a disk as a node
        leaves it, the outcome is the recovered replica, its boards in whatever order they are listed. */
    constructor (cfg: R.Config, store: FilePersistence)
      modifies store
      ensures this.cfg == cfg && this.store == store && fresh(log) && Wired()
      ensures exists boards :: Runs.Saved(old(store.Contents()), boards)
                               && View() == Runs.RecoverWith(cfg, old(store.Contents()), boards)
      ensures Runs.FiledDisk(old(store.Contents())) ==> View() == Runs.Recover(cfg, old(store.Contents()))
      ensures Runs.Intact(old(store.Contents())) ==> Valid()
    {
      this.cfg, this.store := cfg, store;
      log := new RaftLog(store);
      currentTerm, votedFor, role, votes := store.term, store.votedFor, Follower, {};
      commitIndex, lastApplied := 0, 0;
      nextIndex, matchIndex := map[], map[];
      boardEvents, undoneStrokeIds, boardStrokes := map[], map[], map[];
      new;
      LoadBoards();
      lastApplied := log.lastIncludedIndex;
      commitIndex := Max(store.commitIndex, log.lastIncludedIndex);
      ghost var d := store.Contents();
      assert View() == Runs.Loading(cfg, d, Boards());
      if Runs.Intact(d) { LoadingCaught(cfg, d); }
      ApplyCommitted();
    }

    /** A new node takes its boards from the snapshot, if there is one. */
    method LoadBoards()
      requires Wired() && Boards() == map[]
      modifies this`boardEvents, this`undoneStrokeIds, this`boardStrokes
      ensures Wired() && Runs.Saved(store.Contents(), Boards())
      ensures Runs.FiledDisk(store.Contents()) ==> Boards() == Runs.SavedBoards(store.Contents())
    {
      if store.snapshot.Some? {
        ghost var order := RestoreBoardState(store.snapshot.value.boards);
      }
    }

    // ----- boards

    method EnsureBoardState(boardId: string)
      requires Wired()
      modifies this`boardEvents, this`undoneStrokeIds, this`boardStrokes
      ensures Wired() && boardId in boardEvents
      ensures Boards() == old(Boards())[boardId := At(old(Boards()), boardId)]
    {
      if boardId !in boardEvents {
        boardEvents := boardEvents[boardId := []];
        undoneStrokeIds := undoneStrokeIds[boardId := {}];
        boardStrokes := boardStrokes[boardId := []];
      }
    }

    method ApplyBoardEvent(event: Stroke)
      requires Wired()
      modifies this`boardEvents, this`undoneStrokeIds, this`boardStrokes
      ensures Wired() && Boards() == ApplyEvent(old(Boards()), event)
    {
      var b := event.boardId;
      EnsureBoardState(b);
      assert Boards()[b] == BoardState(boardEvents[b], undoneStrokeIds[b], boardStrokes[b]);
      var events, undone, visible := TakeEvent(boardEvents[b], undoneStrokeIds[b], boardStrokes[b], event);
      StoreBoard(b, events, undone, visible);
    }

    /** The three branches of an event on the lists of its board. */
    method TakeEvent(oldEvents: seq<Stroke>, oldUndone: set<string>, oldVisible: seq<Stroke>, event: Stroke)
        returns (events: seq<Stroke>, undone: set<string>, visible: seq<Stroke>)
      ensures BoardState(events, undone, visible) == Step(BoardState(oldEvents, oldUndone, oldVisible), event)
    {
      events, undone, visible := oldEvents + [event], oldUndone, oldVisible;
      match KindOf(event) {
        case UndoOf(target) =>
          undone := undone + {target};
          visible := Without(visible, target);
        case RedoOf(target) =>
          undone := undone - {target};
          var alreadyVisible := HasId(visible, target);
          if !alreadyVisible {
            var found := FindStroke(events, target);
            if found.Some? { visible := visible + [found.value]; }
          }
        case Drawing =>
          if event.id !in undone { visible := visible + [event]; }
      }
    }

    method StoreBoard(b: string, events: seq<Stroke>, undone: set<string>, visible: seq<Stroke>)
      requires Wired()
      modifies this`boardEvents, this`undoneStrokeIds, this`boardStrokes
      ensures Wired() && Boards() == old(Boards())[b := BoardState(events, undone, visible)]
    {
      boardEvents := boardEvents[b := events];
      undoneStrokeIds := undoneStrokeIds[b := undone];
      boardStrokes := boardStrokes[b := visible];
    }

    /** Replays the lists of a snapshot board by board, in whatever order they come. */
    method RestoreBoardState(lists: map<string, seq<Stroke>>) returns (ghost order: seq<string>)
      requires Wired()
      modifies this`boardEvents, this`undoneStrokeIds, this`boardStrokes
      ensures Wired() && Lists(order, lists.Keys) && Boards() == Restore(order, lists)
      ensures Filed(lists) ==> Boards() == Rebuild(lists)
    {
      boardEvents, undoneStrokeIds, boardStrokes := map[], map[], map[];
      order := [];
      var rest := lists.Keys;
      while rest != {}
        invariant Wired() && rest <= lists.Keys
        invariant Lists(order, lists.Keys - rest)
        invariant Boards() == Restore(order, lists)
        decreases rest
      {
        var b :| b in rest;
        RestoreOne(lists[b]);
        ListsSnoc(order, lists.Keys - rest, b);
        RestoreSnoc(order, lists, b);
        assert lists.Keys - (rest - {b}) == lists.Keys - rest + {b};
        order := order + [b];
        rest := rest - {b};
      }
      assert lists.Keys - rest == lists.Keys;
      if Filed(lists) { RestoreAnyOrder(order, lists); }
    }

    method RestoreOne(events: seq<Stroke>)
      requires Wired()
      modifies this`boardEvents, this`undoneStrokeIds, this`boardStrokes
      ensures Wired() && Boards() == ApplyAll(old(Boards()), events)
    {
      for k := 0 to |events|
        invariant Wired() && Boards() == ApplyAll(old(Boards()), events[..k])
      {
        ApplyBoardEvent(events[k]);
        assert events[..k + 1][..k] == events[..k];
      }
      assert events[..|events|] == events;
    }

    // ----- durable state and roles

    method PersistState()
      modifies store
      ensures store.Contents() == old(store.Contents()).(term := currentTerm, votedFor := votedFor, commitIndex := commitIndex)
      ensures store.images == old(store.images) + [store.Contents()]
    {
      store.SaveState(currentTerm, votedFor, commitIndex);
    }

    method BecomeFollower(term: nat)
      requires Wired()
      modifies this`role, this`currentTerm, this`votedFor, store
      ensures Wired() && View() == R.BecomeFollower(old(View()), term)
      ensures old(Tidy()) ==> Tidy()
      ensures old(Tidy()) && term >= old(currentTerm) ==> Kept(old(View()), old(store.images), store.images)
    {
      ghost var r, images := View(), store.images;
      ghost var tidy := Tidy();
      role, currentTerm, votedFor := Follower, term, None;
      PersistState();
      if tidy && term >= r.term { OneWrite(r, View(), [], images, store.Contents()); }
    }

    method BecomeCandidate()
      requires Wired()
      modifies this`role, this`currentTerm, this`votedFor, this`votes, store
      ensures Wired() && View() == R.BecomeCandidate(old(View()))
      ensures old(Tidy()) ==> Tidy() && Kept(old(View()), old(store.images), store.images)
    {
      ghost var r, images := View(), store.images;
      ghost var tidy := Tidy();
      role, currentTerm, votedFor, votes := Candidate, currentTerm + 1, Some(cfg.id), {cfg.id};
      PersistState();
      if tidy { OneWrite(r, View(), [], images, store.Contents()); }
    }

    method ResetPeers(next: nat)
      modifies this`nextIndex, this`matchIndex
      ensures nextIndex == R.SetAll(old(nextIndex), cfg.peers, next)
      ensures matchIndex == R.SetAll(old(matchIndex), cfg.peers, 0)
    {
      for k := 0 to |cfg.peers|
        invariant nextIndex == R.SetAll(old(nextIndex), cfg.peers[..k], next)
        invariant matchIndex == R.SetAll(old(matchIndex), cfg.peers[..k], 0)
      {
        assert cfg.peers[..k + 1][..k] == cfg.peers[..k];
        nextIndex := nextIndex[cfg.peers[k] := next];
        matchIndex := matchIndex[cfg.peers[k] := 0];
      }
      assert cfg.peers[..|cfg.peers|] == cfg.peers;
    }

    method BecomeLeader()
      requires Wired()
      modifies this`role, this`nextIndex, this`matchIndex
      ensures Wired() && View() == R.BecomeLeader(old(View()))
    {
      ghost var r := View();
      var next := log.GetLastIndex() + 1;
      role := Leader;
      ResetPeers(next);
      assert Boards() == r.boards && log.Value() == r.log;
      assert View() == r.(role := Leader, nextIndex := R.SetAll(r.nextIndex, cfg.peers, next),
                          matchIndex := R.SetAll(r.matchIndex, cfg.peers, 0));
    }

    // ----- elections

    function Majority(): nat { (|cfg.peers| + 1) / 2 + 1 }

    method Finalize()
      requires Wired()
      modifies this`role, this`nextIndex, this`matchIndex
      ensures Wired() && View() == R.Finalize(old(View()))
    {
      if role.Candidate? && |votes| >= Majority() {
        BecomeLeader();
      }
    }

    method RunElection() returns (args: VoteArgs)
      requires Wired()
      modifies this, store
      ensures Wired() && View() == R.RunElection(old(View())) && args == R.VoteRequest(View())
      ensures old(Valid()) ==> Valid() && Kept(old(View()), old(store.images), store.images)
    {
      BecomeCandidate();
      args := VoteArgs(currentTerm, cfg.id, log.GetLastIndex(), log.GetLastTerm());
      if |cfg.peers| == 0 {
        Finalize();
      }
    }

    method OnVoteReply(asked: nat, from: NodeId, reply: VoteResult)
      requires Wired()
      modifies this, store
      ensures Wired() && View() == R.OnVoteReply(old(View()), asked, from, reply)
      ensures old(Valid()) ==> Valid() && Kept(old(View()), old(store.images), store.images)
    {
      if !role.Candidate? || currentTerm != asked { return; }
      if reply.term > currentTerm {
        BecomeFollower(reply.term);
      } else if reply.granted {
        votes := votes + {from};
        Finalize();
      }
    }

    function IsLogUpToDate(lastIndex: nat, lastTerm: nat): (b: bool)
      reads this, log
      ensures b == R.IsLogUpToDate(log.Value(), lastIndex, lastTerm)
    {
      var myLastTerm := log.GetLastTerm();
      if lastTerm != myLastTerm then lastTerm > myLastTerm else lastIndex >= log.GetLastIndex()
    }

    /** The vote is on disk before the reply. */
    method GrantVote(candidate: NodeId, term: nat)
      requires Wired()
      modifies this`votedFor, this`currentTerm, store
      ensures Wired() && View() == old(View()).(votedFor := Some(candidate), term := term)
      ensures store.votedFor == Some(candidate) && store.term == term
      ensures old(Tidy()) ==> Tidy()
      ensures old(Tidy()) && term >= old(currentTerm) ==> Kept(old(View()), old(store.images), store.images)
    {
      ghost var r, images := View(), store.images;
      ghost var tidy := Tidy();
      votedFor, currentTerm := Some(candidate), term;
      PersistState();
      if tidy && term >= r.term { OneWrite(r, View(), [], images, store.Contents()); }
    }

    method HandleRequestVote(args: VoteArgs) returns (res: VoteResult)
      requires Wired()
      modifies this, store
      ensures Wired() && (View(), res) == R.HandleRequestVote(old(View()), args)
      ensures res.granted ==> store.votedFor == Some(args.candidate) && store.term == args.term
      ensures old(Valid()) ==> Valid() && Kept(old(View()), old(store.images), store.images)
    {
      ghost var r, images := View(), store.images;
      ghost var valid := Valid();
      if args.term > currentTerm {
        BecomeFollower(args.term);
      }
      ghost var heard, later := View(), store.images;
      var canVote := && args.term >= currentTerm
                     && (votedFor.None? || votedFor.value == args.candidate)
                     && IsLogUpToDate(args.lastIndex, args.lastTerm);
      if canVote {
        GrantVote(args.candidate, args.term);
        if valid { KeptTwice(r, heard, [], images, later, store.images); }
      }
      res := VoteResult(currentTerm, canVote);
    }

    // ----- applying and compacting

    /** The two writes of a snapshot. */
    method WriteSnapshot()
      requires Wired()
      modifies log, store
      ensures log.Value() == old(R.TakeSnapshot(View()).log)
      ensures store.Contents() == Runs.Rewritten(old(View()), old(store.Contents()))
      ensures |old(store.images)| < |store.images| && store.images[..|old(store.images)|] == old(store.images)
      ensures forall k :: |old(store.images)| <= k < |store.images| ==>
                            || store.images[k] == store.Contents()
                            || store.images[k] == old(store.Contents()).(snapshot := Some(Runs.SnapshotOf(old(View()))))
    {
      var term := log.GetTermAt(commitIndex);
      assert boardEvents == EventLists(Boards());
      store.SaveSnapshot(Snapshot(commitIndex, term, boardEvents));
      log.Compact(commitIndex, term);
    }

    /** Saves the snapshot, then compacts; every disk on the way recovers to the same node. */
    method TakeSnapshot()
      requires Wired()
      modifies log, store
      ensures Wired() && View() == R.TakeSnapshot(old(View()))
      ensures old(store.images) < store.images
      ensures old(Tidy()) && commitIndex - old(log.lastIncludedIndex) >= cfg.threshold ==>
                && Valid() && Kept(old(View()), old(store.images), store.images)
                && Runs.Recover(cfg, old(store.Contents())) == R.Restart(View())
                && forall k :: |old(store.images)| <= k < |store.images| ==>
                                 Runs.Recover(cfg, store.images[k]) == R.Restart(View())
    {
      ghost var r, d, images := View(), store.Contents(), store.images;
      ghost var due := Tidy() && commitIndex - log.lastIncludedIndex >= cfg.threshold;
      WriteSnapshot();
      assert View() == R.TakeSnapshot(r);
      if due {
        Runs.CrashDuringSnapshot(r, d);
        SnapshotWrites(r, d, images, store.images);
      }
    }

    /** The loop that applies the entries between `lastApplied` and the commit index. */
    method ApplyEntries()
      requires Wired()
      modifies this`lastApplied, this`boardEvents, this`undoneStrokeIds, this`boardStrokes
      ensures Wired() && View() == Caught(old(View()))
    {
      ghost var r := View();
      while lastApplied < commitIndex
        invariant Wired() && r.lastApplied <= lastApplied <= Max(r.lastApplied, commitIndex)
        invariant Boards() == R.ApplyRange(r.boards, r.log, r.lastApplied, lastApplied)
      {
        lastApplied := lastApplied + 1;
        var entry := log.GetEntry(lastApplied);
        if entry.Some? {
          ApplyBoardEvent(entry.value.stroke);
        }
      }
    }

    /** Walks from `lastApplied` to the commit index, then snapshots if one is due. */
    method ApplyCommitted()
      requires Wired()
      modifies this`lastApplied, this`boardEvents, this`undoneStrokeIds, this`boardStrokes, log, store
      ensures Wired() && View() == R.ApplyCommitted(old(View()))
      ensures var a := Caught(old(View()));
              Runs.Sound(a) && Runs.Synced(a, old(store.Contents())) ==>
                Valid() && Kept(a, old(store.images), store.images)
    {
      ApplyEntries();
      if commitIndex - log.lastIncludedIndex >= cfg.threshold {
        TakeSnapshot();
      }
    }

    /** Moves the commit index up to what the leader has committed, as far as the log reaches. */
    method AdvanceCommit(leaderCommit: nat)
      requires Wired()
      modifies this`commitIndex, this`lastApplied, this`boardEvents, this`undoneStrokeIds, this`boardStrokes, log, store
      ensures Wired() && View() == R.AdvanceCommit(old(View()), leaderCommit)
      ensures old(Tidy()) ==> Tidy() && Kept(old(View()), old(store.images), store.images)
      ensures old(Tidy()) && (leaderCommit > old(commitIndex) || Runs.Settled(old(View()))) ==> Valid()
    {
      if leaderCommit > commitIndex {
        MoveCommit(Min(leaderCommit, log.GetLastIndex()));
      }
    }

    /** Saves the new commit index, then applies up to it. */
    method MoveCommit(n: nat)
      requires Wired()
      modifies this`commitIndex, this`lastApplied, this`boardEvents, this`undoneStrokeIds, this`boardStrokes, log, store
      ensures Wired() && View() == R.ApplyCommitted(old(View()).(commitIndex := n))
      ensures old(Tidy()) && old(commitIndex) <= n <= old(log.GetLastIndex()) ==>
                Valid() && Kept(old(View()), old(store.images), store.images)
    {
      ghost var r, d, images := View(), store.Contents(), store.images;
      ghost var tidy := Tidy() && commitIndex <= n <= log.GetLastIndex();
      commitIndex := n;
      PersistState();
      ghost var a, later := Caught(View()), store.images;
      if tidy {
        CommitWrite(r, d, n, images);
        assert store.Contents() == d.(commitIndex := n);
      }
      ApplyCommitted();
      if tidy {
        KeptTwice(r, a, Runs.Strokes(r.log, r.commitIndex, n), images, later, store.images);
      }
    }

    // ----- replication, follower side

    method Hear(term: nat)
      requires Wired()
      modifies this`role, this`currentTerm, this`votedFor, store
      ensures Wired() && View() == R.Hear(old(View()), term)
      ensures old(Valid()) && term >= old(currentTerm) ==> Valid() && Kept(old(View()), old(store.images), store.images)
    {
      if term > currentTerm || !role.Follower? {
        BecomeFollower(term);
      }
    }

    predicate PrevMatches(args: AppendArgs)
      reads this, log
      ensures PrevMatches(args) <==> R.PrevMatches(log.Value(), args)
    {
      if args.prevIndex > log.lastIncludedIndex then
        var prev := log.GetEntry(args.prevIndex);
        prev.Some? && prev.value.term == args.prevTerm
      else args.prevIndex == log.lastIncludedIndex && log.lastIncludedIndex > 0 ==>
        log.lastIncludedTerm == args.prevTerm
    }

    /** One entry of the batch: skipped, kept, appended, or replacing a conflicting tail. */
    method MergeEntry(entry: Entry) returns (ok: bool)
      requires Wired()
      modifies log, store
      ensures Wired() && View() == old(View()).(log := log.Value())
      ensures (log.Value(), ok) == Merge(old(log.Value()), commitIndex, [entry])
      ensures old(Tidy()) && entry.index <= old(log.GetLastIndex()) + 1 ==>
                && Tidy() && Carries(old(View()), View()) && Kept(old(View()), old(store.images), store.images)
                && (ok ==> entry.index <= log.GetLastIndex())
    {
      assert [entry][1..] == [];
      if entry.index <= log.lastIncludedIndex { return true; }
      var existing := log.GetEntry(entry.index);
      if existing.Some? && existing.value.term != entry.term {
        if entry.index <= commitIndex { return false; }
        ReplaceTail(entry);
      } else if existing.None? {
        Extend(entry);
      }
      ok := true;
    }

    /** Appends to the log, durably. */
    method Extend(entry: Entry)
      requires Wired()
      modifies log, store
      ensures Wired() && View() == old(View()).(log := old(log.Value()).Append(entry))
      ensures old(Tidy()) && entry.index == old(log.GetLastIndex()) + 1 ==>
                Tidy() && Carries(old(View()), View()) && Kept(old(View()), old(store.images), store.images)
    {
      ghost var r, d, images := View(), store.Contents(), store.images;
      ghost var tidy := Tidy() && entry.index == log.GetLastIndex() + 1;
      log.Append(entry);
      if tidy {
        ReloadAppend(d, entry);
        LogWrite(r, d, log.Value(), store.wal, images);
      }
    }

    /** Two writes: the conflicting tail goes, the entry comes. */
    method ReplaceTail(entry: Entry)
      requires Wired() && log.lastIncludedIndex < entry.index <= log.GetLastIndex()
      modifies log, store
      ensures Wired() && View() == old(View()).(log := old(log.Value()).TruncateFrom(entry.index).Append(entry))
      ensures old(Tidy()) && commitIndex < entry.index ==>
                Tidy() && Carries(old(View()), View()) && Kept(old(View()), old(store.images), store.images)
    {
      ghost var r, d, images := View(), store.Contents(), store.images;
      ghost var tidy := Tidy() && commitIndex < entry.index;
      log.TruncateFrom(entry.index);
      ghost var cut, later := View(), store.images;
      if tidy {
        ReloadRewrite(d, log.Value());
        LogWrite(r, d, log.Value(), store.wal, images);
      }
      Extend(entry);
      if tidy { KeptStill(r, cut, View(), images, later, store.images); }
    }

    lemma MergeFrom(log: Log, commit: nat, batch: seq<Entry>, k: nat)
      requires k < |batch|
      ensures var (next, ok) := Merge(log, commit, [batch[k]]);
              Merge(log, commit, batch[k..]) == if ok then Merge(next, commit, batch[k + 1..]) else (next, false)
    {
      MergeHead(log, commit, batch[k..]);
      assert batch[k..][1..] == batch[k + 1..] && batch[k..][0] == batch[k];
    }

    /** The loop over the batch, stopping at a conflict with a committed entry. */
    method MergeEntries(args: AppendArgs) returns (ok: bool)
      requires Wired()
      modifies log, store
      ensures Wired() && View() == old(View()).(log := log.Value())
      ensures (log.Value(), ok) == Merge(old(log.Value()), commitIndex, args.entries)
      ensures old(Tidy()) && Consecutive(args.prevIndex, args.entries)
              && Max(args.prevIndex, old(log.lastIncludedIndex)) <= old(log.GetLastIndex()) ==>
                Tidy() && Carries(old(View()), View()) && Kept(old(View()), old(store.images), store.images)
    {
      ghost var r, images := View(), store.images;
      ghost var tidy := && Tidy() && Consecutive(args.prevIndex, args.entries)
                        && Max(args.prevIndex, log.lastIncludedIndex) <= log.GetLastIndex();
      ok := true;
      var k := 0;
      while ok && k < |args.entries|
        invariant 0 <= k <= |args.entries|
        invariant Wired() && View() == r.(log := log.Value())
        invariant ok ==> Merge(r.log, commitIndex, args.entries) == Merge(log.Value(), commitIndex, args.entries[k..])
        invariant !ok ==> Merge(r.log, commitIndex, args.entries) == (log.Value(), false)
        invariant tidy ==> Tidy() && Carries(r, View()) && Kept(r, images, store.images)
        invariant tidy && ok ==> args.prevIndex + k <= log.GetLastIndex()
        decreases |args.entries| - k, ok
      {
        ghost var before, later := View(), store.images;
        ok := MergeEntry(args.entries[k]);
        MergeFrom(before.log, commitIndex, args.entries, k);
        if tidy { KeptStill(r, before, View(), images, later, store.images); }
        if ok { k := k + 1; }
      }
    }

    /** The rest of a request that passed the consistency check. */
    method TakeBatch(args: AppendArgs) returns (ok: bool)
      requires Wired()
      modifies this`commitIndex, this`lastApplied, this`boardEvents, this`undoneStrokeIds, this`boardStrokes, log, store
      ensures Wired()
      ensures var r := old(View());
              var (merged, fits) := Merge(r.log, r.commitIndex, args.entries);
              && ok == fits
              && View() == if ok then R.AdvanceCommit(r.(log := merged), args.commit) else r.(log := merged)
      ensures old(Valid()) && Consecutive(args.prevIndex, args.entries)
              && Max(args.prevIndex, old(log.lastIncludedIndex)) <= old(log.GetLastIndex()) ==>
                Valid() && Kept(old(View()), old(store.images), store.images)
    {
      ghost var r, images := View(), store.images;
      ghost var valid := && Valid() && Consecutive(args.prevIndex, args.entries)
                         && Max(args.prevIndex, log.lastIncludedIndex) <= log.GetLastIndex();
      ok := MergeEntries(args);
      if !ok {
        if valid { MergeRejects(r.log, commitIndex, args); }
        return;
      }
      ghost var merged, later := View(), store.images;
      AdvanceCommit(args.commit);
      if valid { KeptTwice(r, merged, [], images, later, store.images); }
    }

    method HandleAppendEntries(args: AppendArgs) returns (res: AppendResult)
      requires Wired()
      modifies this, log, store
      ensures Wired() && (View(), res) == R.HandleAppendEntries(old(View()), args)
      ensures old(Valid()) && Consecutive(args.prevIndex, args.entries) ==>
                Valid() && Kept(old(View()), old(store.images), store.images)
    {
      if args.term < currentTerm {
        return AppendResult(currentTerm, false, |log.entries|);
      }
      ghost var r, images := View(), store.images;
      ghost var valid := Valid() && Consecutive(args.prevIndex, args.entries);
      Hear(args.term);
      if !PrevMatches(args) {
        return AppendResult(currentTerm, false, |log.entries|);
      }
      ghost var heard, later := View(), store.images;
      var ok := TakeBatch(args);
      if valid { KeptTwice(r, heard, [], images, later, store.images); }
      res := AppendResult(currentTerm, ok, |log.entries|);
    }

    lemma MergeRejects(log: Log, commit: nat, args: AppendArgs)
      requires log.Placed() && Consecutive(args.prevIndex, args.entries)
      requires Max(args.prevIndex, log.base) <= log.LastIndex() && log.base <= commit <= log.LastIndex()
      requires !Merge(log, commit, args.entries).1
      ensures Merge(log, commit, args.entries).0 == log
    {
      MergeKeeps(log, commit, args.entries, args.prevIndex);
    }

    method HandleHeartbeat(args: BeatArgs) returns (res: BeatResult)
      requires Wired()
      modifies this, log, store
      ensures Wired() && (View(), res) == R.HandleHeartbeat(old(View()), args)
      ensures old(Valid()) ==> Valid() && Kept(old(View()), old(store.images), store.images)
    {
      if args.term < currentTerm {
        return BeatResult(currentTerm, false);
      }
      ghost var r, images := View(), store.images;
      ghost var valid := Valid();
      Hear(args.term);
      ghost var heard, first := View(), store.images;
      AdvanceCommit(args.commit);
      if valid { KeptTwice(r, heard, [], images, first, store.images); }
      res := BeatResult(currentTerm, true);
    }

    // ----- snapshots from a leader

    method SaveInstalled(s: Snapshot)
      modifies store
      ensures store.Contents() == old(store.Contents()).(snapshot := Some(s), term := currentTerm, votedFor := votedFor,
                                                        commitIndex := commitIndex)
    {
      store.SaveSnapshot(s);
      PersistState();
    }

    /** Replaces log boundary and boards; here the WAL is rewritten before the snapshot is saved. */
    method ApplySnapshot(s: Snapshot) returns (ghost order: seq<string>)
      requires Wired()
      modifies this`boardEvents, this`undoneStrokeIds, this`boardStrokes, this`commitIndex, this`lastApplied, log, store
      ensures Wired() && Lists(order, s.boards.Keys)
      ensures View() == R.Installed(old(View()), s, Restore(order, s.boards))
      ensures old(Tidy()) && old(commitIndex) < s.lastIndex && Filed(s.boards) ==> Valid()
    {
      ghost var r, d := View(), store.Contents();
      ghost var tidy := Tidy() && commitIndex < s.lastIndex && Filed(s.boards);
      log.InstallSnapshot(s.lastIndex, s.lastTerm);
      order := RestoreBoardState(s.boards);
      commitIndex, lastApplied := s.lastIndex, s.lastIndex;
      SaveInstalled(s);
      assert View() == R.Installed(r, s, Restore(order, s.boards));
      if tidy {
        Runs.InstallSyncs(r, d, s);
        assert View() == R.Installed(r, s, Rebuild(s.boards));
      }
    }

    /** The boards come in whatever order the snapshot lists them; filed under their own names, as a node
        saves them, the order does not matter. */
    method HandleInstallSnapshot(args: InstallArgs) returns (term: nat, ghost order: seq<string>)
      requires Wired()
      modifies this, log, store
      ensures Wired() && Lists(order, args.snapshot.boards.Keys) && term == View().term
      ensures View() == R.InstallWith(old(View()), args, Restore(order, args.snapshot.boards))
      ensures Filed(args.snapshot.boards) ==> View() == R.HandleInstallSnapshot(old(View()), args)
      ensures old(Valid()) && Filed(args.snapshot.boards) ==> Valid()
    {
      order := AnyOrder(args.snapshot.boards.Keys);
      if args.term >= currentTerm {
        Hear(args.term);
        if args.snapshot.lastIndex > commitIndex {
          order := ApplySnapshot(args.snapshot);
        }
      }
      if Filed(args.snapshot.boards) { RestoreAnyOrder(order, args.snapshot.boards); }
      term := currentTerm;
    }

    // ----- replication, leader side

    function MatchIndexOf(peer: NodeId): nat
      reads this`matchIndex
    {
      if peer in matchIndex then matchIndex[peer] else 0
    }

    method PrepareAppend(peer: NodeId) returns (args: Option<AppendArgs>)
      requires Wired()
      ensures args == R.PrepareAppend(View(), peer)
    {
      if !role.Leader? { return None; }
      var next := if peer in nextIndex then nextIndex[peer] else log.GetLastIndex() + 1;
      if next <= log.lastIncludedIndex { return None; }
      var entries := log.GetEntriesFrom(next);
      if |entries| > cfg.batchCap { entries := entries[..cfg.batchCap]; }
      args := Some(AppendArgs(currentTerm, cfg.id, next - 1, log.GetTermAt(next - 1), entries, commitIndex));
    }

    method OnAppendReply(peer: NodeId, sent: AppendArgs, reply: AppendResult)
      requires Wired()
      modifies this, store
      ensures Wired() && View() == R.OnAppendReply(old(View()), peer, sent, reply)
      ensures old(Valid()) ==> Valid() && Kept(old(View()), old(store.images), store.images)
    {
      if reply.term > currentTerm {
        BecomeFollower(reply.term);
      } else if reply.success {
        if |sent.entries| > 0 {
          nextIndex := nextIndex[peer := sent.prevIndex + 1 + |sent.entries|];
          matchIndex := matchIndex[peer := sent.prevIndex + |sent.entries|];
        } else {
          matchIndex := matchIndex[peer := Max(MatchIndexOf(peer), sent.prevIndex)];
        }
      } else {
        nextIndex := nextIndex[peer := Max(1, reply.logLength + 1)];
      }
    }

    method CountReplicas(n: nat) returns (count: nat)
      requires Wired()
      ensures count == 1 + R.Matched(View(), cfg.peers, n)
    {
      count := 1;
      for k := 0 to |cfg.peers|
        invariant count == 1 + R.Matched(View(), cfg.peers[..k], n)
      {
        assert cfg.peers[..k + 1][..k] == cfg.peers[..k];
        if MatchIndexOf(cfg.peers[k]) >= n { count := count + 1; }
      }
      assert cfg.peers[..|cfg.peers|] == cfg.peers;
    }

    /** Searches downward for the greatest index above the commit index that may be committed. */
    method FindCommitPoint() returns (n: nat)
      requires Wired()
      ensures Max(n, commitIndex) == R.CommitPoint(View(), View().log.LastIndex())
    {
      n := log.GetLastIndex();
      while n > commitIndex
        invariant R.CommitPoint(View(), n) == R.CommitPoint(View(), View().log.LastIndex())
      {
        var entry := log.GetEntry(n);
        if entry.Some? && entry.value.term == currentTerm {
          var replicatedCount := CountReplicas(n);
          if replicatedCount >= Majority() { return; }
        }
        n := n - 1;
      }
    }

    method UpdateCommitIndex()
      requires Wired()
      modifies this`commitIndex, this`lastApplied, this`boardEvents, this`undoneStrokeIds, this`boardStrokes, log, store
      ensures Wired() && View() == R.UpdateCommitIndex(old(View()))
      ensures old(Valid()) ==> Valid() && Kept(old(View()), old(store.images), store.images)
    {
      R.CommitPointIsGreatest(View(), log.GetLastIndex());
      var n := FindCommitPoint();
      if n > commitIndex {
        MoveCommit(n);
      }
    }

    // ----- clients

    /** Appends the stroke as a new entry of the current term, durably. */
    method ClientAppend(stroke: Stroke)
      requires Wired()
      modifies this`matchIndex, log, store
      ensures Wired() && View() == R.ClientAppend(old(View()), stroke)
      ensures old(Valid()) ==> Valid() && Kept(old(View()), old(store.images), store.images)
    {
      if role.Leader? {
        var entry := Entry(log.GetLastIndex() + 1, currentTerm, stroke);
        Extend(entry);
        matchIndex := matchIndex[cfg.id := entry.index];
      }
    }

    /** The verdict on a client write after a round of replication. */
    method FinishWrite(index: nat) returns (success: bool)
      requires Wired()
      modifies this, log, store
      ensures Wired() && (View(), success) == R.FinishWrite(old(View()), index)
      ensures old(Valid()) ==> Valid() && Kept(old(View()), old(store.images), store.images)
    {
      if !role.Leader? { return false; }
      var ackCount := CountReplicas(index);
      if ackCount >= Majority() {
        UpdateCommitIndex();
        return true;
      }
      success := false;
    }

    /** Counts the heartbeat replies of a read begun in `term`. */
    method FinishRead(term: nat, replies: seq<BeatResult>) returns (success: bool)
      requires Wired()
      modifies this, store
      ensures Wired() && (View(), success) == R.FinishRead(old(View()), term, 1, replies)
      ensures old(Valid()) ==> Valid() && Kept(old(View()), old(store.images), store.images)
    {
      var acks := 1;
      for k := 0 to |replies|
        invariant Wired() && View() == old(View()) && store.Contents() == old(store.Contents()) && store.images == old(store.images)
        invariant R.FinishRead(View(), term, 1, replies) == R.FinishRead(View(), term, acks, replies[k..])
      {
        assert replies[k..][1..] == replies[k + 1..];
        if replies[k].term > currentTerm {
          BecomeFollower(replies[k].term);
          return false;
        }
        if replies[k].success { acks := acks + 1; }
      }
      success := role.Leader? && currentTerm == term && acks >= Majority();
    }
  }
}
