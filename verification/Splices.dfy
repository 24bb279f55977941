/** Exactly what the AppendEntries loop does to the plain log. */
module Splices {
  import opened Types
  import opened LogModel

  /** Entry `k` of the batch is covered by the snapshot, or the log has an entry of its term at its index. */
  ghost predicate Had(full: seq<Entry>, base: nat, prev: nat, batch: seq<Entry>, k: nat)
    requires k < |batch|
  {
    prev + k < base || (prev + k < |full| && full[prev + k].term == batch[k].term)
  }

  /** The batch contradicts a committed entry that is not yet in the snapshot. */
  ghost predicate ClashesAt(full: seq<Entry>, base: nat, commit: nat, prev: nat, batch: seq<Entry>, k: nat) {
    k < |batch| && prev + k < commit && prev + k < |full| && !Had(full, base, prev, batch, k)
  }

  ghost predicate Clashes(full: seq<Entry>, base: nat, commit: nat, prev: nat, batch: seq<Entry>) {
    exists k: nat :: ClashesAt(full, base, commit, prev, batch, k)
  }

  /** From its entry `d` on, the first that the log did not have, the batch replaces the rest of the log. */
  ghost predicate SplicedAt(full: seq<Entry>, base: nat, prev: nat, batch: seq<Entry>, d: nat, whole: seq<Entry>) {
    && d <= |batch|
    && (forall k: nat :: k < d ==> Had(full, base, prev, batch, k))
    && (if d == |batch| then whole == full
        else !Had(full, base, prev, batch, d) && prev + d <= |full| && whole == full[..prev + d] + batch[d..])
  }

  ghost predicate Spliced(full: seq<Entry>, base: nat, prev: nat, batch: seq<Entry>, whole: seq<Entry>) {
    exists d: nat :: SplicedAt(full, base, prev, batch, d, whole)
  }

  lemma HadRest(full: seq<Entry>, base: nat, prev: nat, batch: seq<Entry>, k: nat)
    requires batch != [] && k + 1 < |batch|
    ensures Had(full, base, prev, batch, k + 1) <==> Had(full, base, prev + 1, batch[1..], k)
  {
  }

  lemma ClashesRest(full: seq<Entry>, base: nat, commit: nat, prev: nat, batch: seq<Entry>)
    requires batch != [] && Had(full, base, prev, batch, 0)
    ensures Clashes(full, base, commit, prev, batch) <==> Clashes(full, base, commit, prev + 1, batch[1..])
  {
    if k: nat :| ClashesAt(full, base, commit, prev, batch, k) {
      HadRest(full, base, prev, batch, k - 1);
      assert ClashesAt(full, base, commit, prev + 1, batch[1..], k - 1);
    }
    var next, rest := prev + 1, batch[1..];
    if k: nat :| ClashesAt(full, base, commit, next, rest, k) {
      HadRest(full, base, prev, batch, k);
      assert ClashesAt(full, base, commit, prev, batch, k + 1);
    }
  }

  lemma SplicedRest(full: seq<Entry>, base: nat, prev: nat, batch: seq<Entry>, whole: seq<Entry>)
    requires batch != [] && Had(full, base, prev, batch, 0) && Spliced(full, base, prev + 1, batch[1..], whole)
    ensures Spliced(full, base, prev, batch, whole)
  {
    var d: nat :| SplicedAt(full, base, prev + 1, batch[1..], d, whole);
    forall k: nat | k < d + 1 ensures Had(full, base, prev, batch, k) {
      if k > 0 { HadRest(full, base, prev, batch, k - 1); }
    }
    if d < |batch[1..]| {
      HadRest(full, base, prev, batch, d);
      assert batch[1..][d..] == batch[d + 1..];
    }
    assert SplicedAt(full, base, prev, batch, d + 1, whole);
  }

  /** A consecutive batch that touches the log is refused exactly when it contradicts a committed entry; else
      its part that the log did not have, and only that, replaces what was there. */
  lemma {:induction false} MergeSplices(log: Log, full: seq<Entry>, commit: nat, prev: nat, batch: seq<Entry>)
    requires Refines(log, full) && Consecutive(prev, batch) && Max(prev, log.base) <= |full|
    requires log.base <= commit <= |full|
    ensures var (merged, ok) := Merge(log, commit, batch);
            && (ok <==> !Clashes(full, log.base, commit, prev, batch))
            && merged.base == log.base && (!ok ==> merged == log)
            && (ok ==> Spliced(full, log.base, prev, batch, full[..log.base] + merged.entries))
    decreases |batch|
  {
    var base := log.base;
    assert full[..base] + full[base..] == full;
    if batch == [] {
      assert SplicedAt(full, base, prev, batch, 0, full);
    } else {
      var e, rest := batch[0], batch[1..];
      assert forall k :: 0 <= k < |rest| ==> rest[k] == batch[k + 1];
      assert prev >= base ==> (log.Get(e.index).Some? <==> prev < |full|);
      if Had(full, base, prev, batch, 0) {
        assert prev >= base ==> log.Get(e.index).value == full[base..][prev - base] == full[prev];
        MergeSplices(log, full, commit, prev + 1, rest);
        ClashesRest(full, base, commit, prev, batch);
        if Merge(log, commit, batch).1 {
          SplicedRest(full, base, prev, batch, full[..base] + Merge(log, commit, batch).0.entries);
        }
      } else {
        MergeDiffers(log, full, commit, prev, batch);
      }
    }
  }

  lemma MergeDiffers(log: Log, full: seq<Entry>, commit: nat, prev: nat, batch: seq<Entry>)
    requires Refines(log, full) && Consecutive(prev, batch) && Max(prev, log.base) <= |full|
    requires log.base <= commit <= |full| && batch != [] && !Had(full, log.base, prev, batch, 0)
    ensures var (merged, ok) := Merge(log, commit, batch);
            && (ok <==> !Clashes(full, log.base, commit, prev, batch))
            && merged.base == log.base && (!ok ==> merged == log)
            && (ok ==> Spliced(full, log.base, prev, batch, full[..log.base] + merged.entries))
  {
    var base := log.base;
    if prev < |full| { assert log.Get(prev + 1).value == full[base..][prev - base] == full[prev]; }
    if prev < commit {
      assert ClashesAt(full, base, commit, prev, batch, 0);
    } else {
      MergeTail(log, full, commit, prev, batch);
      assert full[..base] + (full[base..prev] + batch) == full[..prev] + batch[0..];
      assert SplicedAt(full, base, prev, batch, 0, full[..prev] + batch[0..]);
    }
  }
}
