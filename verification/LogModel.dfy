/** The offset log as a value, the plain sequence it stands for, and the AppendEntries merge. */
module LogModel {
  import opened Types

  /** `entries` starts at absolute index `base + 1`; everything up to `base` lives in a snapshot. */
  datatype Log = Log(base: nat, baseTerm: nat, entries: seq<Entry>) {

    function LastIndex(): nat { base + |entries| }

    function LastTerm(): nat { if entries == [] then baseTerm else entries[|entries| - 1].term }

    function Get(i: nat): Option<Entry> {
      if base < i <= LastIndex() then Some(entries[i - base - 1]) else None
    }

    function TermAt(i: nat): nat {
      if i == base then baseTerm else if Get(i).Some? then Get(i).value.term else 0
    }

    function From(start: nat): seq<Entry> {
      var skip := if start <= base then 0 else start - base - 1;
      if skip <= |entries| then entries[skip..] else []
    }

    function Append(e: Entry): Log { this.(entries := entries + [e]) }

    function TruncateFrom(i: nat): Log {
      if i <= base || i > LastIndex() then this else this.(entries := entries[..i - base - 1])
    }

    function Compact(upto: nat, term: nat): Log {
      if upto <= base then this
      else Log(upto, term, if upto - base <= |entries| then entries[upto - base..] else [])
    }

    function Install(lastIndex: nat, lastTerm: nat): Log {
      Log(lastIndex, lastTerm, Above(entries, lastIndex))
    }

    /** Entries sit at the positions their index fields name. */
    ghost predicate Placed() { forall k :: 0 <= k < |entries| ==> entries[k].index == base + k + 1 }
  }

  /** The entries with an index above `floor`, in order (`Array.filter`). */
  function Above(entries: seq<Entry>, floor: nat): seq<Entry> {
    if entries == [] then []
    else
      var rest := Above(entries[..|entries| - 1], floor);
      if entries[|entries| - 1].index > floor then rest + [entries[|entries| - 1]] else rest
  }

  lemma {:induction false} AbovePlaced(base: nat, entries: seq<Entry>, floor: nat)
    requires forall k :: 0 <= k < |entries| ==> entries[k].index == base + k + 1
    ensures Above(entries, floor) ==
            entries[if floor <= base then 0 else Min(floor - base, |entries|)..]
  {
    if entries != [] {
      AbovePlaced(base, entries[..|entries| - 1], floor);
    }
  }

  // ----- the plain log

  /** `log` is `full` with the first `base` entries folded into the boundary. */
  ghost predicate Refines(log: Log, full: seq<Entry>) {
    && log.base <= |full|
    && log.entries == full[log.base..]
    && log.baseTerm == (if log.base == 0 then 0 else full[log.base - 1].term)
  }

  datatype LogOp = Push(e: Entry) | Cut(i: nat) | Shed(upto: nat)

  function Act(log: Log, op: LogOp): Log {
    match op
    case Push(e) => log.Append(e)
    case Cut(i) => log.TruncateFrom(i)
    case Shed(upto) => if upto <= log.LastIndex() then log.Compact(upto, log.TermAt(upto)) else log
  }

  /** The same operation on the plain log, which never forgets; `floor` is the compaction boundary. */
  function ActPlain(full: seq<Entry>, floor: nat, op: LogOp): (seq<Entry>, nat) {
    match op
    case Push(e) => (full + [e], floor)
    case Cut(i) => (if floor < i <= |full| then full[..i - 1] else full, floor)
    case Shed(upto) => (full, if upto <= |full| then Max(floor, upto) else floor)
  }

  function Run(ops: seq<LogOp>): Log {
    if ops == [] then Log(0, 0, []) else Act(Run(ops[..|ops| - 1]), ops[|ops| - 1])
  }

  function RunPlain(ops: seq<LogOp>): (seq<Entry>, nat) {
    if ops == [] then ([], 0)
    else var before := RunPlain(ops[..|ops| - 1]); ActPlain(before.0, before.1, ops[|ops| - 1])
  }

  /** Every accessor of the compacted log agrees with the plain one at and above the boundary. */
  ghost predicate SameView(log: Log, full: seq<Entry>) {
    && log.LastIndex() == |full|
    && (full != [] ==> log.LastTerm() == full[|full| - 1].term)
    && (full == [] ==> log.LastTerm() == 0)
    && (forall i: nat :: log.base < i <= |full| ==> log.Get(i) == Some(full[i - 1]))
    && (forall i: nat :: i > |full| ==> log.Get(i).None? && (i != log.base ==> log.TermAt(i) == 0))
    && (forall i: nat :: 1 <= i && log.base <= i <= |full| ==> log.TermAt(i) == full[i - 1].term)
    && (forall i: nat :: i <= log.base ==> log.Get(i).None? && (i < log.base ==> log.TermAt(i) == 0) && log.From(i) == full[log.base..])
    && (forall i: nat :: log.base < i <= |full| + 1 ==> log.From(i) == full[i - 1..])
    && (forall i: nat :: i > |full| + 1 ==> log.From(i) == [])
  }

  lemma RefinesSameView(log: Log, full: seq<Entry>)
    requires Refines(log, full)
    ensures SameView(log, full)
  {
    forall i: nat | log.base < i <= |full| + 1 ensures log.From(i) == full[i - 1..] {
      assert full[log.base..][i - log.base - 1..] == full[i - 1..];
    }
  }

  lemma LogTermAt(log: Log, full: seq<Entry>, n: nat)
    requires Refines(log, full) && log.base <= n
    ensures log.TermAt(n) == if 1 <= n <= |full| then full[n - 1].term else 0
  {
    if log.base < n <= |full| { assert full[log.base..][n - log.base - 1] == full[n - 1]; }
  }

  // ----- replication

  lemma LogFrom(log: Log, full: seq<Entry>, start: nat)
    requires Refines(log, full) && log.base < start <= |full| + 1
    ensures log.From(start) == full[start - 1..]
  {
    RefinesSameView(log, full);
  }

  lemma CutRefines(log: Log, full: seq<Entry>, i: nat)
    requires Refines(log, full)
    ensures Refines(log.TruncateFrom(i), if log.base < i <= |full| then full[..i - 1] else full)
  {
    if log.base < i <= |full| { assert full[log.base..][..i - log.base - 1] == full[..i - 1][log.base..]; }
  }

  lemma ShedRefines(log: Log, full: seq<Entry>, upto: nat)
    requires Refines(log, full) && upto <= |full|
    ensures Refines(log.Compact(upto, log.TermAt(upto)), full)
  {
    if log.base < upto { assert full[log.base..][upto - log.base..] == full[upto..]; }
  }

  lemma ActRefines(log: Log, full: seq<Entry>, op: LogOp)
    requires Refines(log, full)
    ensures Refines(Act(log, op), ActPlain(full, log.base, op).0)
    ensures Act(log, op).base == ActPlain(full, log.base, op).1
  {
    match op {
      case Push(e) => assert (full + [e])[log.base..] == full[log.base..] + [e];
      case Cut(i) => CutRefines(log, full, i);
      case Shed(upto) => if upto <= |full| { ShedRefines(log, full, upto); }
    }
  }

  /** For every mix of appends, truncations and compactions the compacted log is the plain log, seen
      from its boundary upward. */
  lemma {:induction false} CompactedLogRefinesPlain(ops: seq<LogOp>)
    ensures Refines(Run(ops), RunPlain(ops).0)
    ensures Run(ops).base == RunPlain(ops).1
    ensures SameView(Run(ops), RunPlain(ops).0)
  {
    if ops != [] {
      CompactedLogRefinesPlain(ops[..|ops| - 1]);
      ActRefines(Run(ops[..|ops| - 1]), RunPlain(ops[..|ops| - 1]).0, ops[|ops| - 1]);
    }
    RefinesSameView(Run(ops), RunPlain(ops).0);
  }

  // ----- merging a batch

  /** The AppendEntries loop; `ok` is false when a committed entry conflicts. */
  function Merge(log: Log, commit: nat, batch: seq<Entry>): (r: (Log, bool))
    ensures r.0.base == log.base && r.0.baseTerm == log.baseTerm
    decreases |batch|
  {
    if batch == [] then (log, true)
    else
      var e := batch[0];
      if e.index <= log.base then Merge(log, commit, batch[1..])
      else
        var have := log.Get(e.index);
        if have.Some? && have.value.term != e.term then
          if e.index <= commit then (log, false)
          else Merge(log.TruncateFrom(e.index).Append(e), commit, batch[1..])
        else Merge(if have.None? then log.Append(e) else log, commit, batch[1..])
  }

  /** Merging a batch is merging its first entry and then, if that went well, the rest. */
  lemma MergeHead(log: Log, commit: nat, batch: seq<Entry>)
    requires batch != []
    ensures var first := Merge(log, commit, [batch[0]]);
            Merge(log, commit, batch) == if first.1 then Merge(first.0, commit, batch[1..]) else first
  {
    assert [batch[0]][1..] == [];
  }

  /** A batch whose entries carry the indices right after `prev`. */
  ghost predicate Consecutive(prev: nat, batch: seq<Entry>) {
    forall k :: 0 <= k < |batch| ==> batch[k].index == prev + k + 1
  }

  /** Same index and term only ever with the same history. */
  ghost predicate Matching(a: seq<Entry>, b: seq<Entry>) {
    forall i :: 0 <= i < |a| && i < |b| && a[i].term == b[i].term ==> a[..i + 1] == b[..i + 1]
  }

  /** `after` keeps at least the prefix that `before` shared with `source`, and is either untouched or
      a prefix of `source`. */
  ghost predicate Adopts(source: seq<Entry>, before: seq<Entry>, after: seq<Entry>) {
    after == before
    || (after <= source && forall j :: 0 <= j <= |before| && j <= |source| && before[..j] == source[..j] ==> j <= |after|)
  }

  /** `full` and `source` agree on their first `m` entries, as far as `source` goes. */
  ghost predicate Agreed(m: nat, full: seq<Entry>, source: seq<Entry>) {
    m <= |full| && full[..Min(m, |source|)] == source[..Min(m, |source|)]
  }

  /** Past the end of the log nothing can conflict any more. */
  lemma {:induction false} MergeShrinks(log: Log, commit: nat, batch: seq<Entry>, prev: nat)
    requires Consecutive(prev, batch) && log.base <= prev == log.LastIndex()
    ensures Merge(log, commit, batch) == (log.(entries := log.entries + batch), true)
    decreases |batch|
  {
    if batch == [] {
      assert log.entries + batch == log.entries;
    } else {
      MergeShrinks(log.Append(batch[0]), commit, batch[1..], prev + 1);
      assert log.entries + [batch[0]] + batch[1..] == log.entries + batch;
    }
  }

  /** The outcome `r` of merging a batch that ends at `upto` of `source` into `log`, which stands for
      `full`: the new log stands for `after`. */
  ghost predicate Merged(r: (Log, bool), log: Log, full: seq<Entry>, source: seq<Entry>, upto: nat, after: seq<Entry>) {
    && Refines(r.0, after)
    && Adopts(source, full, after)
    && (r.1 ==> upto <= |after| && upto <= |source| && after[..upto] == source[..upto])
    && (!r.1 ==> after == full && r.0 == log)
  }

  lemma PrefixAdopts(source: seq<Entry>, full: seq<Entry>, prev: nat, upto: nat)
    requires prev < upto <= |source| && prev <= |full|
    requires prev == |full| || full[prev].term != source[prev].term
    ensures Adopts(source, full, source[..upto])
  {
    forall j | 0 <= j <= |full| && j <= |source| && full[..j] == source[..j]
      ensures j <= upto
    {
      if j > prev {
        assert full[..j][prev] == source[..j][prev];
      }
    }
  }

  /** From the first entry that is missing or conflicts, the merge rewrites the tail with the batch. */
  lemma MergeTail(log: Log, full: seq<Entry>, commit: nat, prev: nat, batch: seq<Entry>)
    requires Refines(log, full) && log.base <= prev <= |full|
    requires batch != [] && Consecutive(prev, batch)
    requires prev == |full| || (full[prev].term != batch[0].term && commit <= prev)
    ensures Merge(log, commit, batch) == (log.(entries := full[log.base..prev] + batch), true)
  {
    var e, rest := batch[0], batch[1..];
    var next := log.(entries := full[log.base..prev] + [e]);
    assert next == if prev == |full| then log.Append(e) else log.TruncateFrom(e.index).Append(e) by {
      if prev < |full| { assert full[log.base..][..prev - log.base] == full[log.base..prev]; }
    }
    assert forall k :: 0 <= k < |rest| ==> rest[k] == batch[k + 1];
    MergeShrinks(next, commit, rest, prev + 1);
    assert next.entries + rest == full[log.base..prev] + batch;
  }

  lemma TailMerged(log: Log, full: seq<Entry>, source: seq<Entry>, commit: nat, prev: nat, batch: seq<Entry>)
    requires Refines(log, full) && log.base <= prev <= |full|
    requires batch != [] && Consecutive(prev, batch)
    requires prev + |batch| <= |source| && batch == source[prev..prev + |batch|]
    requires full[..prev] == source[..prev]
    requires prev == |full| || (full[prev].term != batch[0].term && commit <= prev)
    ensures Merged(Merge(log, commit, batch), log, full, source, prev + |batch|, source[..prev + |batch|])
  {
    MergeTail(log, full, commit, prev, batch);
    var after := source[..prev + |batch|];
    PrefixAdopts(source, full, prev, prev + |batch|);
    assert full[log.base..prev] == source[log.base..prev] by {
      assert full[log.base..prev] == full[..prev][log.base..];
    }
    assert after[log.base..] == source[log.base..prev] + batch;
  }

  /** The merge against the sender's log `source`, from which the batch was cut. On success the common
      prefix reaches the end of the batch; on a committed conflict the log is untouched. */
  lemma {:induction false} MergeAdopts(log: Log, full: seq<Entry>, source: seq<Entry>, commit: nat, prev: nat, batch: seq<Entry>)
      returns (after: seq<Entry>)
    requires Refines(log, full)
    requires prev + |batch| <= |source| && batch == source[prev..prev + |batch|]
    requires Consecutive(prev, batch)
    requires Matching(full, source)
    requires Agreed(Max(prev, log.base), full, source)
    ensures Merged(Merge(log, commit, batch), log, full, source, prev + |batch|, after)
    decreases |batch|
  {
    after := full;
    if batch == [] {
      assert source[..prev] == full[..prev];
    } else {
      var e, rest := batch[0], batch[1..];
      assert e == source[prev] && e.index == prev + 1;
      if log.base <= prev && (prev == |full| || (full[prev].term != e.term && commit <= prev)) {
        TailMerged(log, full, source, commit, prev, batch);
        after := source[..prev + |batch|];
      } else if e.index <= log.base || full[prev].term == e.term {
        assert Agreed(Max(prev + 1, log.base), full, source) by {
          if log.base <= prev { assert full[..prev + 1] == source[..prev + 1]; }
        }
        assert Merge(log, commit, batch) == Merge(log, commit, rest);
        after := MergeAdopts(log, full, source, commit, prev + 1, rest);
      }
    }
  }

  /** The batch is in the log, term for term, above the boundary. */
  ghost predicate Contains(log: Log, batch: seq<Entry>) {
    forall k :: 0 <= k < |batch| && batch[k].index > log.base ==>
                  log.Get(batch[k].index).Some? && log.Get(batch[k].index).value.term == batch[k].term
  }

  lemma {:induction false} MergeContained(log: Log, commit: nat, batch: seq<Entry>)
    requires Contains(log, batch)
    ensures Merge(log, commit, batch) == (log, true)
    decreases |batch|
  {
    if batch != [] {
      assert forall k :: 0 <= k < |batch[1..]| ==> batch[1..][k] == batch[k + 1];
      MergeContained(log, commit, batch[1..]);
    }
  }

  /** What a successful merge leaves behind: the batch, and the log below it. */
  lemma {:induction false} MergeContains(log: Log, commit: nat, batch: seq<Entry>, prev: nat)
    requires Consecutive(prev, batch)
    requires Max(prev, log.base) <= log.LastIndex()
    requires Merge(log, commit, batch).1
    ensures Contains(Merge(log, commit, batch).0, batch)
    ensures forall i: nat :: i <= prev && log.Get(i).Some? ==> Merge(log, commit, batch).0.Get(i) == log.Get(i)
    decreases |batch|
  {
    if batch != [] {
      var e, rest := batch[0], batch[1..];
      assert forall k :: 0 <= k < |rest| ==> rest[k] == batch[k + 1];
      assert e.index == prev + 1;
      var have := log.Get(e.index);
      var next := if e.index <= log.base then log
                  else if have.Some? && have.value.term != e.term then log.TruncateFrom(e.index).Append(e)
                  else if have.None? then log.Append(e) else log;
      MergeContains(next, commit, rest, prev + 1);
      var done := Merge(next, commit, rest).0;
      assert Merge(log, commit, batch) == Merge(next, commit, rest);
      forall k | 0 <= k < |batch| && batch[k].index > done.base
        ensures done.Get(batch[k].index).Some? && done.Get(batch[k].index).value.term == batch[k].term
      {
        if k > 0 {
          assert rest[k - 1] == batch[k];
        } else {
          assert next.Get(e.index).Some? && next.Get(e.index).value.term == e.term;
        }
      }
    }
  }

  /** Delivering a batch twice is delivering it once. */
  lemma MergeIdempotent(log: Log, commit: nat, commit': nat, batch: seq<Entry>, prev: nat)
    requires Consecutive(prev, batch)
    requires Max(prev, log.base) <= log.LastIndex()
    requires Merge(log, commit, batch).1
    ensures Merge(Merge(log, commit, batch).0, commit', batch) == (Merge(log, commit, batch).0, true)
  {
    MergeContains(log, commit, batch, prev);
    MergeContained(Merge(log, commit, batch).0, commit', batch);
  }

  /** No batch, from anyone, touches the committed entries: not one with gaps or repeats, nor one that lies
      beyond the log. */
  lemma {:induction false} MergeKeepsCommitted(log: Log, commit: nat, batch: seq<Entry>)
    requires log.base <= commit <= log.LastIndex()
    ensures var after := Merge(log, commit, batch).0;
            commit <= after.LastIndex() && after.entries[..commit - log.base] == log.entries[..commit - log.base]
    decreases |batch|
  {
    if batch != [] {
      var e, rest := batch[0], batch[1..];
      var have := log.Get(e.index);
      var next := if e.index <= log.base || (have.Some? && have.value.term == e.term) then log
                  else if have.None? then log.Append(e)
                  else log.TruncateFrom(e.index).Append(e);
      if e.index <= log.base || have.None? || have.value.term == e.term || e.index > commit {
        assert next.entries[..commit - log.base] == log.entries[..commit - log.base];
        MergeKeepsCommitted(next, commit, rest);
      }
    }
  }

  /** A consecutive batch that touches the log leaves every entry at the position it names, too. */
  lemma {:induction false} MergeKeeps(log: Log, commit: nat, batch: seq<Entry>, prev: nat)
    requires log.Placed() && Consecutive(prev, batch)
    requires Max(prev, log.base) <= log.LastIndex()
    requires log.base <= commit <= log.LastIndex()
    ensures var done := Merge(log, commit, batch);
            && done.0.Placed()
            && commit <= done.0.LastIndex()
            && done.0.entries[..commit - log.base] == log.entries[..commit - log.base]
            && (!done.1 ==> done.0 == log)
            && (done.1 ==> prev + |batch| <= done.0.LastIndex())
    decreases |batch|
  {
    if batch != [] {
      var e, rest := batch[0], batch[1..];
      assert forall k :: 0 <= k < |rest| ==> rest[k] == batch[k + 1];
      assert e.index == prev + 1;
      if e.index <= log.base {
        MergeKeeps(log, commit, rest, prev + 1);
      } else {
        var have := log.Get(e.index);
        if have.Some? && have.value.term != e.term {
          if e.index > commit {
            var next := log.TruncateFrom(e.index).Append(e);
            MergeKeeps(next, commit, rest, prev + 1);
            MergeShrinks(next, commit, rest, prev + 1);
            assert next.entries[..commit - log.base] == log.entries[..commit - log.base];
          }
        } else if have.None? {
          var next := log.Append(e);
          MergeKeeps(next, commit, rest, prev + 1);
          MergeShrinks(next, commit, rest, prev + 1);
          assert next.entries[..commit - log.base] == log.entries[..commit - log.base];
        } else {
          MergeKeeps(log, commit, rest, prev + 1);
        }
      }
    }
  }
}
