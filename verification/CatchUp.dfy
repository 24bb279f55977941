/** How long a lagging follower takes to catch up with a leader whose log does not change, and when it never
    does without a snapshot. Rounds are counted from any next index; either side may be compacted, and the
    follower may compact on the way. A leader that goes on working is the subject of `Repairs`. */
module CatchUp {
  import opened Types
  import opened LogModel
  import opened Replica

  /** A leader and one of its peers. */
  datatype Pair = Pair(leader: Replica, follower: Replica)

  /** One round: the leader sends its next batch, the follower handles it, the leader its reply. */
  function Round(p: Pair): Pair {
    var peer := p.follower.cfg.id;
    var args := PrepareAppend(p.leader, peer);
    if args.None? then p
    else
      var (f, reply) := HandleAppendEntries(p.follower, args.value);
      Pair(OnAppendReply(p.leader, peer, args.value, reply), f)
  }

  function Iterate<S>(step: S -> S, s: S, n: nat): S {
    if n == 0 then s else Iterate(step, step(s), n - 1)
  }

  function Rounds(p: Pair, n: nat): Pair { Iterate(Round, p, n) }

  /** `log`, compacted or not, stands for a prefix of `all`. */
  ghost predicate Behind(log: Log, all: seq<Entry>) {
    log.LastIndex() <= |all| && Refines(log, all[..log.LastIndex()])
  }

  /** A leader whose log, compacted or not, stands for `all`, and any next index it may hold for the peer. */
  ghost predicate Leads(leader: Replica, peer: NodeId, all: seq<Entry>) {
    && leader.role.Leader? && Refines(leader.log, all) && Consecutive(0, all)
    && NextIndex(leader, peer) >= 1 && leader.cfg.batchCap >= 1
  }

  /** A follower, compacted or not, whose log stands for a prefix of the leader's. */
  ghost predicate Lagging(p: Pair, all: seq<Entry>) {
    Leads(p.leader, p.follower.cfg.id, all) && p.follower.term <= p.leader.term && Behind(p.follower.log, all)
  }

  function Next(p: Pair): nat { NextIndex(p.leader, p.follower.cfg.id) }

  function Match(p: Pair): nat { MatchIndex(p.leader, p.follower.cfg.id) }

  // ----- the batch

  /** `args` carries exactly what comes after `prev` in `all`, at most `cap` entries of it. */
  ghost predicate Slice(args: AppendArgs, all: seq<Entry>, cap: nat) {
    var prev := args.prevIndex;
    && prev <= |all|
    && |args.entries| == Min(cap, |all| - prev)
    && args.entries == all[prev..prev + |args.entries|]
    && (prev > 0 ==> args.prevTerm == all[prev - 1].term)
  }

  lemma SliceFrom(all: seq<Entry>, args: AppendArgs, cap: nat)
    requires args.entries == SliceOf(all, args.prevIndex, cap) && args.prevIndex <= |all|
    requires args.prevIndex > 0 ==> args.prevTerm == all[args.prevIndex - 1].term
    ensures Slice(args, all, cap)
  {
  }

  lemma SliceSent(leader: Replica, peer: NodeId, all: seq<Entry>)
    requires Leads(leader, peer, all) && leader.log.base < NextIndex(leader, peer) <= |all| + 1
    ensures var args := PrepareAppend(leader, peer);
            && args.Some? && Slice(args.value, all, leader.cfg.batchCap)
            && args.value.prevIndex == NextIndex(leader, peer) - 1 && args.value.term == leader.term
  {
    RequestExactly(leader, all, peer);
    SliceFrom(all, PrepareAppend(leader, peer).value, leader.cfg.batchCap);
  }

  // ----- the follower

  /** The merge of a slice of `all` into a log standing for a prefix of `all` long enough to touch it. */
  lemma {:induction false} MergeAgrees(log: Log, all: seq<Entry>, commit: nat, prev: nat, batch: seq<Entry>)
    requires Behind(log, all) && Consecutive(0, all) && prev <= log.LastIndex()
    requires prev + |batch| <= |all| && batch == all[prev..prev + |batch|]
    ensures var (merged, ok) := Merge(log, commit, batch);
            ok && Behind(merged, all) && merged.LastIndex() == Max(log.LastIndex(), prev + |batch|)
    decreases |batch|
  {
    if batch != [] {
      var e, rest := batch[0], batch[1..];
      assert e == all[prev] && rest == all[prev + 1..prev + 1 + |rest|];
      if prev < log.LastIndex() {
        assert prev >= log.base ==> log.Get(e.index) == Some(e);
        MergeAgrees(log, all, commit, prev + 1, rest);
      } else {
        assert Behind(log.Append(e), all) by {
          assert log.Append(e).entries == all[..prev + 1][log.base..];
        }
        MergeAgrees(log.Append(e), all, commit, prev + 1, rest);
      }
    }
  }

  lemma PrevPasses(log: Log, all: seq<Entry>, args: AppendArgs)
    requires Behind(log, all) && args.prevIndex <= log.LastIndex()
    requires args.prevIndex > 0 ==> args.prevTerm == all[args.prevIndex - 1].term
    ensures PrevMatches(log, args)
  {
  }

  lemma CompactStaysBehind(log: Log, all: seq<Entry>, upto: nat)
    requires Behind(log, all) && upto <= log.LastIndex()
    ensures var compacted := log.Compact(upto, log.TermAt(upto));
            Behind(compacted, all) && compacted.LastIndex() == log.LastIndex()
  {
    ActRefines(log, all[..log.LastIndex()], Shed(upto));
  }

  /** Committing may compact, which changes nothing the log stands for. */
  lemma CommitStaysBehind(r: Replica, all: seq<Entry>, commit: nat)
    requires Behind(r.log, all)
    ensures var a := AdvanceCommit(r, commit);
            && Behind(a.log, all) && a.log.LastIndex() == r.log.LastIndex()
            && a.term == r.term && a.cfg == r.cfg
  {
    CompactStaysBehind(r.log, all, Min(commit, r.log.LastIndex()));
  }

  lemma FollowerTakes(follower: Replica, all: seq<Entry>, args: AppendArgs, cap: nat)
    requires Behind(follower.log, all) && Consecutive(0, all) && follower.term <= args.term
    requires Slice(args, all, cap) && args.prevIndex <= follower.log.LastIndex()
    ensures var (f, reply) := HandleAppendEntries(follower, args);
            && reply.success && reply.term == args.term == f.term && f.cfg == follower.cfg
            && Behind(f.log, all)
            && f.log.LastIndex() == Max(follower.log.LastIndex(), args.prevIndex + |args.entries|)
  {
    var h := Hear(follower, args.term);
    PrevPasses(h.log, all, args);
    MergeAgrees(h.log, all, h.commitIndex, args.prevIndex, args.entries);
    CommitStaysBehind(h.(log := Merge(h.log, h.commitIndex, args.entries).0), all, args.commit);
  }

  lemma FollowerRefuses(follower: Replica, args: AppendArgs)
    requires args.prevIndex > follower.log.LastIndex() && follower.term <= args.term
    ensures var (f, reply) := HandleAppendEntries(follower, args);
            && reply == AppendResult(args.term, false, |follower.log.entries|)
            && f.log == follower.log && f.cfg == follower.cfg && f.term == args.term
  {
  }

  // ----- the leader

  lemma LeaderLearns(leader: Replica, peer: NodeId, args: AppendArgs, reply: AppendResult)
    requires reply.term <= leader.term && args.prevIndex + 1 == NextIndex(leader, peer)
    ensures var l := OnAppendReply(leader, peer, args, reply);
            && l == leader.(nextIndex := l.nextIndex, matchIndex := l.matchIndex)
            && NextIndex(l, peer) == (if reply.success then NextIndex(leader, peer) + |args.entries| else Max(1, reply.logLength + 1))
            && (reply.success ==> MatchIndex(l, peer) >= args.prevIndex + |args.entries|)
            && forall q :: q != peer ==> NextIndex(l, q) == NextIndex(leader, q) && MatchIndex(l, q) == MatchIndex(leader, q)
  {
  }

  // ----- a round

  /** The next index that counts, once the follower has told how many entries it holds, lies above the leader's
      snapshot boundary. */
  predicate Serves(p: Pair) {
    Next(p) > p.leader.log.base && (Next(p) > p.follower.log.LastIndex() + 1 ==> |p.follower.log.entries| + 1 > p.leader.log.base)
  }

  /** The next index does not point beyond the follower's end. */
  ghost predicate Aligned(p: Pair, all: seq<Entry>) {
    Lagging(p, all) && p.leader.log.base < Next(p) <= p.follower.log.LastIndex() + 1
  }

  /** `q` comes from `p` by changes to what the leader knows of this peer, and to the follower. */
  ghost predicate Follows(p: Pair, q: Pair) {
    && q.follower.cfg == p.follower.cfg
    && q.leader == p.leader.(nextIndex := q.leader.nextIndex, matchIndex := q.leader.matchIndex)
    && forall i :: i != p.follower.cfg.id ==> NextIndex(q.leader, i) == NextIndex(p.leader, i) && MatchIndex(q.leader, i) == MatchIndex(p.leader, i)
  }

  /** From beyond the follower's end a round only finds how many entries it holds. */
  lemma ProbeRound(p: Pair, all: seq<Entry>)
    requires Lagging(p, all) && Next(p) > p.leader.log.base && Next(p) > p.follower.log.LastIndex() + 1
    ensures Lagging(Round(p), all) && Follows(p, Round(p)) && Round(p).follower.log == p.follower.log
    ensures Next(Round(p)) == |p.follower.log.entries| + 1
  {
    RequestExactly(p.leader, all, p.follower.cfg.id);
    var args := PrepareAppend(p.leader, p.follower.cfg.id).value;
    FollowerRefuses(p.follower, args);
    LeaderLearns(p.leader, p.follower.cfg.id, args, HandleAppendEntries(p.follower, args).1);
  }

  /** The follower's and the leader's part of a round, and how far the two have come. */
  ghost predicate Advanced(p: Pair, all: seq<Entry>, f: Replica, l: Replica) {
    && Behind(f.log, all) && f.term <= p.leader.term && Follows(p, Pair(l, f))
    && f.log.LastIndex() >= NextIndex(l, p.follower.cfg.id) - 1
    && NextIndex(l, p.follower.cfg.id) == Min(Next(p) + p.leader.cfg.batchCap, |all| + 1)
    && MatchIndex(l, p.follower.cfg.id) >= NextIndex(l, p.follower.cfg.id) - 1
  }

  lemma BatchTaken(p: Pair, all: seq<Entry>, args: AppendArgs)
    requires Aligned(p, all) && Slice(args, all, p.leader.cfg.batchCap)
    requires args.prevIndex == Next(p) - 1 && args.term == p.leader.term
    ensures var (f, reply) := HandleAppendEntries(p.follower, args);
            Advanced(p, all, f, OnAppendReply(p.leader, p.follower.cfg.id, args, reply))
  {
    FollowerTakes(p.follower, all, args, p.leader.cfg.batchCap);
    LeaderLearns(p.leader, p.follower.cfg.id, args, HandleAppendEntries(p.follower, args).1);
  }

  lemma AdvancedAligned(p: Pair, all: seq<Entry>, f: Replica, l: Replica)
    requires Aligned(p, all) && Advanced(p, all, f, l)
    ensures Aligned(Pair(l, f), all)
  {
  }

  /** Every other round moves the next index by a whole batch, and the follower at least up to it. */
  lemma BatchRound(p: Pair, all: seq<Entry>)
    requires Aligned(p, all)
    ensures Aligned(Round(p), all) && Follows(p, Round(p))
    ensures Next(Round(p)) == Min(Next(p) + p.leader.cfg.batchCap, |all| + 1) && Match(Round(p)) >= Next(Round(p)) - 1
  {
    var args := PrepareAppend(p.leader, p.follower.cfg.id).value;
    SliceSent(p.leader, p.follower.cfg.id, all);
    BatchTaken(p, all, args);
    var (f, reply) := HandleAppendEntries(p.follower, args);
    AdvancedAligned(p, all, f, OnAppendReply(p.leader, p.follower.cfg.id, args, reply));
  }

  // ----- counting rounds

  /** How many batches of `cap` cover `n` entries. */
  function Batches(n: nat, cap: nat): nat
    requires cap >= 1
  {
    if n == 0 then 0 else if n <= cap then 1 else 1 + Batches(n - cap, cap)
  }

  /** That is the quotient rounded up. */
  lemma {:induction false} BatchesIsCeiling(n: nat, cap: nat)
    requires cap >= 1
    ensures cap * Batches(n, cap) >= n
    ensures n > 0 ==> cap * (Batches(n, cap) - 1) < n
    decreases n
  {
    if n > cap {
      BatchesIsCeiling(n - cap, cap);
      var b := Batches(n - cap, cap);
      assert cap * (1 + b) == cap + cap * b;
      assert cap * b == cap + cap * (b - 1);
    }
  }

  /** Rounds for `left` entries; one even for none, to hear that the follower has them. */
  function Transfers(left: nat, cap: nat): nat
    requires cap >= 1
  {
    Max(1, Batches(left, cap))
  }

  /** The rounds that a lagging follower needs: one to find how many entries it holds, when the next index
      points beyond its end, and the transfers of what lies above the next index that counts. */
  function Due(p: Pair, all: seq<Entry>): nat
    requires p.leader.cfg.batchCap >= 1
  {
    var end := |all| + 1;
    if Next(p) > p.follower.log.LastIndex() + 1
    then 1 + Transfers(end - Min(end, |p.follower.log.entries| + 1), p.leader.cfg.batchCap)
    else Transfers(end - Min(end, Next(p)), p.leader.cfg.batchCap)
  }

  /** The follower's log stands for all of the leader's, and the leader knows. */
  ghost predicate Done(p: Pair, all: seq<Entry>) {
    Aligned(p, all) && Next(p) == |all| + 1 && Match(p) >= |all|
  }

  ghost predicate Within(p: Pair, all: seq<Entry>, n: nat) {
    Lagging(p, all) && Serves(p) && (Done(p, all) || Due(p, all) <= n)
  }

  lemma ProbeWithin(p: Pair, all: seq<Entry>, n: nat)
    requires Within(p, all, n) && Next(p) > p.follower.log.LastIndex() + 1
    ensures n > 0 && Within(Round(p), all, n - 1)
  {
    ProbeRound(p, all);
  }

  lemma DoneRound(p: Pair, all: seq<Entry>)
    requires Done(p, all)
    ensures Done(Round(p), all)
  {
    BatchRound(p, all);
  }

  lemma BatchWithin(p: Pair, all: seq<Entry>, n: nat)
    requires Within(p, all, n) && Next(p) <= p.follower.log.LastIndex() + 1
    ensures Within(Round(p), all, if n > 0 then n - 1 else 0)
  {
    BatchRound(p, all);
    if !Done(p, all) { TransferCounts(|all| + 1 - Next(p), p.leader.cfg.batchCap); }
  }

  lemma TransferCounts(left: nat, cap: nat)
    requires cap >= 1
    ensures left > cap ==> Transfers(left - cap, cap) + 1 == Transfers(left, cap)
    ensures Transfers(left, cap) >= 1
  {
  }

  lemma RoundWithin(p: Pair, all: seq<Entry>, n: nat)
    requires Within(p, all, n)
    ensures Within(Round(p), all, if n > 0 then n - 1 else 0) && Follows(p, Round(p))
  {
    if Next(p) > p.follower.log.LastIndex() + 1 {
      ProbeWithin(p, all, n);
      ProbeRound(p, all);
    } else {
      BatchWithin(p, all, n);
      BatchRound(p, all);
    }
  }

  /** A step that takes one off a count, while there is something left, takes off all of it. */
  lemma {:induction false} CountsDown<S(!new)>(step: S -> S, good: (S, nat) -> bool, s: S, n: nat)
    requires good(s, n) && forall x, m: nat :: good(x, m) && m > 0 ==> good(step(x), m - 1)
    ensures good(Iterate(step, s, n), 0)
    decreases n
  {
    if n > 0 { CountsDown(step, good, step(s), n - 1); }
  }

  lemma WithinRounds(p: Pair, all: seq<Entry>, n: nat)
    requires Within(p, all, n)
    ensures Within(Rounds(p, n), all, 0) && Rounds(p, n).leader.log == p.leader.log
  {
    ghost var good := (q: Pair, m: nat) => Within(q, all, m) && q.leader.log == p.leader.log;
    forall q: Pair, m: nat | good(q, m) && m > 0 ensures good(Round(q), m - 1) { RoundWithin(q, all, m); }
    CountsDown(Round, good, p, n);
  }

  /** When the leader can serve it, a lagging follower has the leader's whole log, and the leader knows, after
      so many rounds at the latest. */
  lemma CatchesUp(p: Pair, all: seq<Entry>, n: nat)
    requires Lagging(p, all) && Serves(p) && n >= Due(p, all)
    ensures Done(Rounds(p, n), all)
    ensures Refines(Rounds(p, n).follower.log, all) && Rounds(p, n).leader.log == p.leader.log
  {
    WithinRounds(p, all, n);
    DoneRefines(Rounds(p, n), all);
  }

  lemma DoneRefines(p: Pair, all: seq<Entry>)
    requires Done(p, all)
    ensures Refines(p.follower.log, all)
  {
    assert all[..|all|] == all;
  }

  // ----- the exact condition

  /** What a step keeps, any number of steps keeps. */
  lemma {:induction false} Stays<S(!new)>(step: S -> S, good: S -> bool, s: S, n: nat)
    requires good(s) && forall x :: good(x) ==> good(step(x))
    ensures good(Iterate(step, s, n))
    decreases n
  {
    if n > 0 { Stays(step, good, step(s), n - 1); }
  }

  ghost predicate NeedsSnapshot(p: Pair, all: seq<Entry>) {
    Lagging(p, all) && !Serves(p) && !Refines(p.follower.log, all)
  }

  lemma NeedsSnapshotStill(p: Pair, all: seq<Entry>)
    requires NeedsSnapshot(p, all)
    ensures NeedsSnapshot(Round(p), all)
  {
    if Next(p) > p.leader.log.base {
      ProbeRound(p, all);
    }
  }

  ghost predicate EverRefines(p: Pair, all: seq<Entry>) { exists n: nat :: Refines(Rounds(p, n).follower.log, all) }

  /** Rounds ever bring a lagging follower to the leader's log if and only if it has it already, or the next
      index, corrected to the number of entries that it holds if it points beyond its end, lies above the
      leader's snapshot boundary. */
  lemma CatchesUpExactly(p: Pair, all: seq<Entry>)
    requires Lagging(p, all)
    ensures EverRefines(p, all) <==> Refines(p.follower.log, all) || Serves(p)
  {
    if Serves(p) {
      CatchesUp(p, all, Due(p, all));
    } else if Refines(p.follower.log, all) {
      assert Rounds(p, 0) == p;
    } else {
      forall n: nat ensures !Refines(Rounds(p, n).follower.log, all) {
        forall q: Pair | NeedsSnapshot(q, all) ensures NeedsSnapshot(Round(q), all) { NeedsSnapshotStill(q, all); }
        Stays(Round, (q: Pair) => NeedsSnapshot(q, all), p, n);
      }
    }
  }
}
