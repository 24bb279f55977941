/** The durable store and the log kept on it, updated in place: memory first and then the file, as the
    source does. After each method a load of the file gives the log in memory, and that log stands for a
    plain one that never forgets. */
module Storage {
  import opened Types
  import opened LogModel
  import opened ReplicaRuns

  /** Three files, each replaced atomically, the log also appended to. */
  class FilePersistence {
    var term: nat
    var votedFor: Option<NodeId>
    var commitIndex: nat
    var wal: seq<Entry>
    var snapshot: Option<Snapshot>
    /** Every disk a crash could have left so far: one after each write. */
    ghost var images: seq<Disk>

    function Contents(): Disk reads this { Disk(term, votedFor, commitIndex, wal, snapshot) }

    constructor ()
      ensures Contents() == Disk(0, None, 0, [], None) && images == []
    {
      term, votedFor, commitIndex, wal, snapshot := 0, None, 0, [], None;
      images := [];
    }

    method SaveState(term: nat, votedFor: Option<NodeId>, commitIndex: nat)
      modifies this
      ensures Contents() == old(Contents()).(term := term, votedFor := votedFor, commitIndex := commitIndex)
      ensures images == old(images) + [Contents()]
    {
      this.term, this.votedFor, this.commitIndex := term, votedFor, commitIndex;
      images := images + [Contents()];
    }

    method AppendLog(e: Entry)
      modifies this
      ensures Contents() == old(Contents()).(wal := old(wal) + [e])
      ensures images == old(images) + [Contents()]
    {
      wal := wal + [e];
      images := images + [Contents()];
    }

    method RewriteLog(entries: seq<Entry>)
      modifies this
      ensures Contents() == old(Contents()).(wal := entries)
      ensures images == old(images) + [Contents()]
    {
      wal := entries;
      images := images + [Contents()];
    }

    method SaveSnapshot(s: Snapshot)
      modifies this
      ensures Contents() == old(Contents()).(snapshot := Some(s))
      ensures images == old(images) + [Contents()]
    {
      snapshot := Some(s);
      images := images + [Contents()];
    }
  }

  /** `Array.filter` on entry indices, as a loop. */
  method KeepAbove(entries: seq<Entry>, floor: nat) returns (kept: seq<Entry>)
    ensures kept == Above(entries, floor)
  {
    kept := [];
    for k := 0 to |entries|
      invariant kept == Above(entries[..k], floor)
    {
      assert entries[..k + 1][..k] == entries[..k];
      if entries[k].index > floor { kept := kept + [entries[k]]; }
    }
    assert entries[..|entries|] == entries;
  }

  class RaftLog {
    const store: FilePersistence
    var entries: seq<Entry>
    var lastIncludedIndex: nat
    var lastIncludedTerm: nat

    function Value(): Log reads this { Log(lastIncludedIndex, lastIncludedTerm, entries) }

    constructor (store: FilePersistence)
      ensures this.store == store && Value() == LoadLog(store.Contents())
    {
      this.store := store;
      entries := store.wal;
      lastIncludedIndex, lastIncludedTerm := 0, 0;
      new;
      if store.snapshot.Some? {
        var s := store.snapshot.value;
        lastIncludedIndex, lastIncludedTerm := s.lastIndex, s.lastTerm;
        entries := KeepAbove(entries, s.lastIndex);
      }
    }

    function GetEntry(index: nat): (r: Option<Entry>)
      reads this
      ensures r == Value().Get(index)
    {
      if index <= lastIncludedIndex then None
      else if index - lastIncludedIndex - 1 < |entries| then Some(entries[index - lastIncludedIndex - 1])
      else None
    }

    function GetTermAt(index: nat): (t: nat)
      reads this
      ensures t == Value().TermAt(index)
    {
      if index == lastIncludedIndex then lastIncludedTerm
      else if GetEntry(index).Some? then GetEntry(index).value.term else 0
    }

    function GetLastIndex(): (i: nat)
      reads this
      ensures i == Value().LastIndex()
    {
      lastIncludedIndex + |entries|
    }

    function GetLastTerm(): (t: nat)
      reads this
      ensures t == Value().LastTerm()
    {
      if |entries| == 0 then lastIncludedTerm else entries[|entries| - 1].term
    }

    function GetEntriesFrom(start: nat): (s: seq<Entry>)
      reads this
      ensures s == Value().From(start)
    {
      var first := if start <= lastIncludedIndex then lastIncludedIndex + 1 else start;
      var skip := first - lastIncludedIndex - 1;
      if skip <= |entries| then entries[skip..] else []
    }

    method Append(e: Entry)
      modifies this, store
      ensures Value() == old(Value()).Append(e)
      ensures store.Contents() == old(store.Contents()).(wal := old(store.wal) + [e])
      ensures store.images == old(store.images) + [store.Contents()]
    {
      entries := entries + [e];
      store.AppendLog(e);
    }

    method TruncateFrom(index: nat)
      modifies this, store
      ensures Value() == old(Value()).TruncateFrom(index)
      ensures if lastIncludedIndex < index <= old(GetLastIndex())
              then store.Contents() == old(store.Contents()).(wal := entries)
                   && store.images == old(store.images) + [store.Contents()]
              else store.Contents() == old(store.Contents()) && store.images == old(store.images)
    {
      if index <= lastIncludedIndex || index > GetLastIndex() { return; }
      entries := entries[..index - lastIncludedIndex - 1];
      store.RewriteLog(entries);
    }

    method Compact(upto: nat, term: nat)
      modifies this, store
      ensures Value() == old(Value()).Compact(upto, term)
      ensures if upto > old(lastIncludedIndex)
              then store.Contents() == old(store.Contents()).(wal := entries)
                   && store.images == old(store.images) + [store.Contents()]
              else store.Contents() == old(store.Contents()) && store.images == old(store.images)
    {
      if upto <= lastIncludedIndex { return; }
      var keepFrom := upto - lastIncludedIndex;
      entries := if keepFrom <= |entries| then entries[keepFrom..] else [];
      lastIncludedIndex := upto;
      lastIncludedTerm := term;
      store.RewriteLog(entries);
    }

    method InstallSnapshot(lastIndex: nat, lastTerm: nat)
      modifies this, store
      ensures Value() == old(Value()).Install(lastIndex, lastTerm)
      ensures store.Contents() == old(store.Contents()).(wal := entries)
      ensures store.images == old(store.images) + [store.Contents()]
    {
      entries := KeepAbove(entries, lastIndex);
      lastIncludedIndex := lastIndex;
      lastIncludedTerm := lastTerm;
      store.RewriteLog(entries);
    }
  }

  // ----- reloading

  /** What the log operations write, loaded again, is the log they leave in memory. */
  lemma ReloadAppend(d: Disk, e: Entry)
    requires e.index > LoadLog(d).base
    ensures LoadLog(d.(wal := d.wal + [e])) == LoadLog(d).Append(e)
  {
    assert (d.wal + [e])[..|d.wal|] == d.wal;
  }

  lemma {:induction false} AboveKeepsAll(entries: seq<Entry>, floor: nat)
    requires forall k :: 0 <= k < |entries| ==> entries[k].index > floor
    ensures Above(entries, floor) == entries
  {
    if entries != [] {
      AboveKeepsAll(entries[..|entries| - 1], floor);
      assert entries == entries[..|entries| - 1] + [entries[|entries| - 1]];
    }
  }

  lemma ReloadRewrite(d: Disk, log: Log)
    requires log.Placed() && log.base == LoadLog(d).base && log.baseTerm == LoadLog(d).baseTerm
    ensures LoadLog(d.(wal := log.entries)) == log
  {
    AboveKeepsAll(log.entries, log.base);
  }

  /** A log operation as the disk sees it; a compaction saves its snapshot first. */
  function ActDisk(d: Disk, op: LogOp): Disk {
    var log := LoadLog(d);
    match op
    case Push(e) => d.(wal := d.wal + [e])
    case Cut(i) => if log.base < i <= log.LastIndex() then d.(wal := log.TruncateFrom(i).entries) else d
    case Shed(upto) =>
      if log.base < upto <= log.LastIndex()
      then d.(snapshot := Some(Snapshot(upto, log.TermAt(upto), map[])), wal := log.Compact(upto, log.TermAt(upto)).entries)
      else d
  }

  function RunDisk(ops: seq<LogOp>): Disk {
    if ops == [] then Disk(0, None, 0, [], None) else ActDisk(RunDisk(ops[..|ops| - 1]), ops[|ops| - 1])
  }

  /** Every appended entry carries the next index. */
  ghost predicate InOrder(ops: seq<LogOp>) {
    forall k :: 0 <= k < |ops| && ops[k].Push? ==> ops[k].e.index == Run(ops[..k]).LastIndex() + 1
  }

  lemma ActReload(d: Disk, op: LogOp)
    requires LoadLog(d).Placed() && (op.Push? ==> op.e.index == LoadLog(d).LastIndex() + 1)
    ensures LoadLog(ActDisk(d, op)) == Act(LoadLog(d), op) && Act(LoadLog(d), op).Placed()
  {
    var log := LoadLog(d);
    match op {
      case Push(e) => ReloadAppend(d, e);
      case Cut(i) => ReloadRewrite(d, log.TruncateFrom(i));
      case Shed(upto) =>
        if log.base < upto <= log.LastIndex() {
          AboveKeepsAll(log.Compact(upto, log.TermAt(upto)).entries, upto);
        }
    }
  }

  /** After any mix of operations, loading the disk gives the log held in memory, and with it the same
      view of the plain log. */
  lemma {:induction false} ReloadGivesSameView(ops: seq<LogOp>)
    requires InOrder(ops)
    ensures LoadLog(RunDisk(ops)) == Run(ops) && Run(ops).Placed()
    ensures SameView(LoadLog(RunDisk(ops)), RunPlain(ops).0)
  {
    if ops != [] {
      var n := |ops| - 1;
      assert forall k :: 0 <= k < n ==> ops[..n][..k] == ops[..k] && ops[..n][k] == ops[k];
      ReloadGivesSameView(ops[..n]);
      ActReload(RunDisk(ops[..n]), ops[n]);
    }
    CompactedLogRefinesPlain(ops);
  }
}
