/** What a crash in the middle of a handler leaves behind. */
module Crashes {
  import opened Types
  import opened Board
  import opened LogModel
  import opened Replica
  import opened ReplicaRuns

  /** `n` has every entry that `r` has committed, or has it in a snapshot. */
  ghost predicate Carries(r: Replica, n: Replica) {
    r.log.base <= n.log.base && forall i: nat :: n.log.base < i <= r.commitIndex ==> n.log.Get(i) == r.log.Get(i)
  }

  /** A node restarted from `d` is sound, and has every entry committed in `r` and its applied strokes. */
  ghost predicate Survives(r: Replica, d: Disk) {
    Carries(r, Recover(r.cfg, d)) && exists strokes :: Moved(r, Recover(r.cfg, d), strokes)
  }

  /** Every disk written between the two moments is one that `r` survives on. */
  ghost predicate Kept(r: Replica, before: seq<Disk>, after: seq<Disk>) {
    before <= after && forall k :: |before| <= k < |after| ==> Survives(r, after[k])
  }

  lemma SyncedSurvives(r: Replica, d: Disk)
    requires Sound(r) && Synced(r, d)
    ensures Survives(r, d) && Recover(r.cfg, d).term == r.term && Recover(r.cfg, d).votedFor == r.votedFor
  {
    var n := Recover(r.cfg, d);
    assert n == Restart(MaybeSnapshot(r));
    SnapshotKeeps(r);
    assert Moved(r, n, []);
  }

  lemma MovedTwice(r: Replica, n: Replica, m: Replica, s: seq<Stroke>, t: seq<Stroke>)
    requires Moved(r, n, s) && Moved(n, m, t)
    ensures Moved(r, m, s + t)
  {
    ApplyAllConcat(r.boards, s, t);
  }

  lemma SurvivesLater(r: Replica, n: Replica, s: seq<Stroke>, d: Disk)
    requires Moved(r, n, s) && Carries(r, n) && n.cfg == r.cfg && Survives(n, d)
    ensures Survives(r, d)
  {
    var t :| Moved(n, Recover(n.cfg, d), t);
    MovedTwice(r, n, Recover(n.cfg, d), s, t);
  }

  /** One write that leaves the disk in step with a node that has moved on from `r`. */
  lemma OneWrite(r: Replica, n: Replica, s: seq<Stroke>, images: seq<Disk>, d: Disk)
    requires Moved(r, n, s) && Carries(r, n) && n.cfg == r.cfg && Synced(n, d)
    ensures Kept(r, images, images + [d])
  {
    SyncedSurvives(n, d);
    SurvivesLater(r, n, s, d);
  }

  lemma KeptTwice(r: Replica, n: Replica, s: seq<Stroke>, a: seq<Disk>, b: seq<Disk>, c: seq<Disk>)
    requires Kept(r, a, b) && Kept(n, b, c) && Moved(r, n, s) && Carries(r, n) && n.cfg == r.cfg
    ensures Kept(r, a, c)
  {
    assert a <= c by { assert a == b[..|a|] == c[..|a|]; }
    forall k | |a| <= k < |c| ensures Survives(r, c[k]) {
      if k < |b| {
        assert c[k] == b[k];
      } else {
        SurvivesLater(r, n, s, c[k]);
      }
    }
  }

  lemma SameCarries(r: Replica, log: Log)
    requires log.base == r.log.base <= r.commitIndex <= r.log.LastIndex() && r.commitIndex <= log.LastIndex()
    requires log.entries[..r.commitIndex - log.base] == r.log.entries[..r.commitIndex - log.base]
    ensures Carries(r, r.(log := log))
  {
    var n := r.commitIndex - log.base;
    forall i: nat | log.base < i <= r.commitIndex ensures log.Get(i) == r.log.Get(i) {
      assert log.entries[..n][i - log.base - 1] == r.log.entries[..n][i - log.base - 1];
    }
  }

  /** The same while only the log above the commit index has changed. */
  lemma KeptStill(r: Replica, n: Replica, m: Replica, a: seq<Disk>, b: seq<Disk>, c: seq<Disk>)
    requires Sound(r) && Sound(n) && n == r.(log := n.log) 
    requires Carries(r, n) && Kept(r, a, b) && Carries(n, m) && Kept(n, b, c)
    ensures Carries(r, m) && Kept(r, a, c)
  {
    assert Moved(r, n, []);
    KeptTwice(r, n, [], a, b, c);
  }

  /** A node as it is once it has applied what is committed. */
  function Caught(r: Replica): Replica {
    r.(boards := ApplyRange(r.boards, r.log, r.lastApplied, r.commitIndex), lastApplied := Max(r.lastApplied, r.commitIndex))
  }

  /** A node loaded from an intact disk is in step with it as soon as it has applied what is committed. */
  lemma LoadingCaught(cfg: Config, d: Disk)
    requires Intact(d)
    ensures var a := Caught(Loading(cfg, d, SavedBoards(d)));
            Sound(a) && Synced(a, d)
  {
    var r := Loading(cfg, d, SavedBoards(d));
    if d.snapshot.Some? { RebuildIsReplayed(d.snapshot.value.boards); }
    RangeIsApplyAll(r.boards, r.log, r.lastApplied, r.commitIndex);
    ApplyAllKeepsReplayed(r.boards, Strokes(r.log, r.lastApplied, r.commitIndex));
  }

  lemma ApplyMoves(r: Replica, upto: nat)
    requires Sound(r) && r.commitIndex <= upto <= r.log.LastIndex()
    ensures Moved(r, Caught(r.(commitIndex := upto)), Strokes(r.log, r.commitIndex, upto))
  {
    RangeIsApplyAll(r.boards, r.log, r.commitIndex, upto);
    StrokesCount(r.log, r.commitIndex, upto);
    ApplyAllKeepsReplayed(r.boards, Strokes(r.log, r.commitIndex, upto));
  }

  /** Saving a higher commit index is such a write, even before anything is applied. */
  lemma CommitWrite(r: Replica, d: Disk, upto: nat, images: seq<Disk>)
    requires Sound(r) && Synced(r, d) && r.commitIndex <= upto <= r.log.LastIndex()
    ensures var a := Caught(r.(commitIndex := upto));
            && Sound(a) && Synced(a, d.(commitIndex := upto))
            && Moved(r, a, Strokes(r.log, r.commitIndex, upto))
            && Kept(r, images, images + [d.(commitIndex := upto)])
  {
    ApplySyncs(r, d, upto, upto);
    ApplyMoves(r, upto);
    OneWrite(r, Caught(r.(commitIndex := upto)), Strokes(r.log, r.commitIndex, upto), images, d.(commitIndex := upto));
  }

  /** Taking a snapshot writes two disks, both of them good. */
  lemma SnapshotWrites(r: Replica, d: Disk, before: seq<Disk>, after: seq<Disk>)
    requires Sound(r) && Synced(r, d) && r.commitIndex - r.log.base >= r.cfg.threshold
    requires before <= after
    requires forall k :: |before| <= k < |after| ==>
                           after[k] == Rewritten(r, d) || after[k] == d.(snapshot := Some(SnapshotOf(r)))
    ensures Kept(r, before, after)
  {
    CrashDuringSnapshot(r, d);
    assert TakeSnapshot(r) == MaybeSnapshot(r);
    SnapshotKeeps(r);
    assert Moved(r, Restart(TakeSnapshot(r)), []);
  }

  /** A write to the log that leaves what is committed alone. */
  lemma LogWrite(r: Replica, d: Disk, log: Log, wal: seq<Entry>, images: seq<Disk>)
    requires Sound(r) && Synced(r, d)
    requires log.Placed() && log.base == r.log.base && r.commitIndex <= log.LastIndex()
    requires LoadLog(d.(wal := wal)) == log
    requires log.entries[..r.commitIndex - log.base] == r.log.entries[..r.commitIndex - log.base]
    ensures Sound(r.(log := log)) && Synced(r.(log := log), d.(wal := wal))
    ensures Moved(r, r.(log := log), []) && Carries(r, r.(log := log))
    ensures Kept(r, images, images + [d.(wal := wal)])
  {
    LogChangeSyncs(r, d, log, wal);
    SameCarries(r, log);
    OneWrite(r, r.(log := log), [], images, d.(wal := wal));
  }
}
