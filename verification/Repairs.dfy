/** Which follower logs replication repairs at all: it never steps back past a conflict. */
module Repairs {
  import opened Types
  import opened LogModel
  import opened Replica
  import opened CatchUp

  /** A pair as a new leader finds it: nothing compacted, no snapshot in sight, next index past its end. */
  ghost predicate NewlyLed(p: Pair) {
    && p.leader.role.Leader? && p.follower.term <= p.leader.term
    && p.leader.log.base == 0 && p.leader.log.baseTerm == 0 && p.follower.log.base == 0 && p.follower.log.baseTerm == 0
    && p.leader.log.Placed() && Matching(p.follower.log.entries, p.leader.log.entries)
    && p.leader.commitIndex < p.follower.cfg.threshold && p.leader.cfg.batchCap >= 1
    && Next(p) == p.leader.log.LastIndex() + 1
  }

  /** The leader knows, at the follower's last index, an entry of the same term. */
  predicate EndKnown(leader: Log, follower: Log) {
    follower.entries == [] || (follower.LastIndex() <= leader.LastIndex() && leader.TermAt(follower.LastIndex()) == follower.LastTerm())
  }

  lemma EndKnownIsPrefix(p: Pair)
    requires NewlyLed(p) && EndKnown(p.leader.log, p.follower.log)
    ensures Lagging(p, p.leader.log.entries) && Serves(p)
  {
    var ours, theirs := p.leader.log.entries, p.follower.log.entries;
    if theirs != [] {
      assert theirs[..|theirs| - 1 + 1] == ours[..|theirs| - 1 + 1];
    }
    assert ours[..|theirs|] == theirs;
  }

  // ----- what a follower does with a batch it cannot use

  lemma Refuses(follower: Replica, args: AppendArgs)
    requires args.term >= follower.term && !PrevMatches(follower.log, args)
    ensures HandleAppendEntries(follower, args)
            == (Hear(follower, args.term), AppendResult(args.term, false, |follower.log.entries|))
  {
  }

  lemma TakesNothing(follower: Replica, args: AppendArgs)
    requires args.term >= follower.term && PrevMatches(follower.log, args) && args.entries == []
    requires follower.log.base == 0 && args.commit < follower.cfg.threshold
    ensures var (f, reply) := HandleAppendEntries(follower, args);
            && f.log == follower.log && f.cfg == follower.cfg && f.term == args.term
            && (follower.commitIndex <= |follower.log.entries| ==> follower.commitIndex <= f.commitIndex <= |follower.log.entries|)
            && reply == AppendResult(args.term, true, |follower.log.entries|)
  {
    CommitFrame(Hear(follower, args.term), args.commit);
  }

  lemma GuardsCommitted(follower: Replica, args: AppendArgs)
    requires args.term >= follower.term && PrevMatches(follower.log, args) && args.entries != []
    requires var e := args.entries[0];
             && follower.log.Get(e.index).Some? && follower.log.Get(e.index).value.term != e.term
             && follower.log.base < e.index <= follower.commitIndex
    ensures HandleAppendEntries(follower, args)
            == (Hear(follower, args.term), AppendResult(args.term, false, |follower.log.entries|))
  {
    assert Merge(follower.log, follower.commitIndex, args.entries) == (follower.log, false);
  }

  // ----- an unchanging leader

  /** Nothing that can be sent from here changes the follower's log. */
  ghost predicate Stuck(p: Pair) {
    var ours, theirs, next := p.leader.log.entries, p.follower.log.entries, Next(p);
    && p.leader.role.Leader? && p.follower.term <= p.leader.term
    && p.leader.log.base == 0 && p.follower.log.base == 0 && p.leader.commitIndex < p.follower.cfg.threshold
    && (if |theirs| > |ours| then next > |ours|
        else theirs != [] && ours[|theirs| - 1].term != theirs[|theirs| - 1].term && |theirs| < next <= |ours| + 1)
  }

  /** What a stuck leader sends either carries nothing or is refused. */
  lemma StuckSends(p: Pair)
    requires Stuck(p)
    ensures var args := PrepareAppend(p.leader, p.follower.cfg.id);
            && args.Some? && args.value.term == p.leader.term && args.value.commit == p.leader.commitIndex
            && args.value.prevIndex + 1 == Next(p)
            && if |p.follower.log.entries| > |p.leader.log.entries| then args.value.entries == []
               else !PrevMatches(p.follower.log, args.value)
  {
    var next := Next(p);
    var args := PrepareAppend(p.leader, p.follower.cfg.id).value;
    if next == |p.follower.log.entries| + 1 && next <= |p.leader.log.entries| + 1 {
      assert args.prevTerm == p.leader.log.entries[next - 2].term;
    }
  }

  lemma StuckRound(p: Pair)
    requires Stuck(p)
    ensures Stuck(Round(p)) && Round(p).leader.log == p.leader.log && Round(p).follower.log == p.follower.log
  {
    var args := PrepareAppend(p.leader, p.follower.cfg.id).value;
    StuckSends(p);
    var (f, reply) := HandleAppendEntries(p.follower, args);
    if PrevMatches(p.follower.log, args) {
      TakesNothing(p.follower, args);
    } else {
      Refuses(p.follower, args);
    }
    assert f.log == p.follower.log && f.cfg == p.follower.cfg && f.term == p.leader.term && reply.term == p.leader.term;
    assert reply.logLength == |p.follower.log.entries|;
  }

  lemma StuckForever(p: Pair, n: nat)
    requires Stuck(p)
    ensures Rounds(p, n).leader.log == p.leader.log && Rounds(p, n).follower.log == p.follower.log
  {
    ghost var good := (q: Pair) => Stuck(q) && q.leader.log == p.leader.log && q.follower.log == p.follower.log;
    forall q: Pair | good(q) ensures good(Round(q)) { StuckRound(q); }
    Stays(Round, good, p, n);
  }

  /** The leader's log has not changed, and the follower's log stands for all of it. */
  ghost predicate CaughtUp(p: Pair, q: Pair) {
    q.leader.log == p.leader.log && Refines(q.follower.log, p.leader.log.entries)
  }

  ghost predicate EverCaughtUp(p: Pair) { exists n: nat :: CaughtUp(p, Rounds(p, n)) }

  /** Between an uncompacted follower and a new, unchanging leader, some number of rounds brings the follower
      to the leader's log if and only if the leader knows the end of the follower's. */
  lemma RepairsExactly(p: Pair)
    requires NewlyLed(p)
    ensures EverCaughtUp(p) <==> EndKnown(p.leader.log, p.follower.log)
  {
    if EndKnown(p.leader.log, p.follower.log) {
      EndKnownIsPrefix(p);
      var n := Due(p, p.leader.log.entries);
      CatchesUp(p, p.leader.log.entries, n);
      assert CaughtUp(p, Rounds(p, n));
    } else {
      assert Stuck(p);
      forall n: nat ensures !CaughtUp(p, Rounds(p, n)) {
        StuckForever(p, n);
      }
    }
  }

  // ----- a leader that goes on working

  /** The leader replicates to the follower, accepts a client's write, commits up to an index that the rest
      of the cluster has acknowledged, or sends the follower a heartbeat. */
  datatype Deed = Replicate | Accept(stroke: Stroke) | Commit(upto: nat) | Beat

  /** No commit index gets as far as a snapshot. */
  function Act(p: Pair, d: Deed): Pair {
    match d
    case Replicate => Round(p)
    case Accept(stroke) => p.(leader := ClientAppend(p.leader, stroke))
    case Commit(upto) =>
      if p.leader.commitIndex < upto <= p.leader.log.LastIndex() && upto < p.follower.cfg.threshold
      then p.(leader := p.leader.(commitIndex := upto)) else p
    case Beat => p.(follower := HandleHeartbeat(p.follower, BeatArgs(p.leader.term, p.leader.cfg.id, p.leader.commitIndex)).0)
  }

  function ActAll(p: Pair, deeds: seq<Deed>): Pair {
    if deeds == [] then p else Act(ActAll(p, deeds[..|deeds| - 1]), deeds[|deeds| - 1])
  }

  /** Every entry the follower holds is of an earlier term than the leader's. */
  ghost predicate Foreign(entries: seq<Entry>, term: nat) {
    forall k :: 0 <= k < |entries| ==> 1 <= entries[k].term < term
  }

  /** A new leader that has written nothing yet, and has set the next index of this peer. */
  ghost predicate NewlyElected(p: Pair) {
    && NewlyLed(p) && p.follower.cfg.id in p.leader.nextIndex && Foreign(p.follower.log.entries, p.leader.term)
    && p.follower.commitIndex <= p.follower.log.LastIndex()
  }

  ghost predicate Clash(x: seq<Entry>, y: seq<Entry>, n: nat) {
    1 <= n <= |x| && n <= |y| && x[n - 1].term != y[n - 1].term
  }

  lemma SharedBelow(x: seq<Entry>, y: seq<Entry>, m: nat, n: nat)
    requires Matching(x, y) && 1 <= m <= n <= |x| && n <= |y| && x[n - 1].term == y[n - 1].term
    ensures x[m - 1] == y[m - 1]
  {
    assert x[..n - 1 + 1][m - 1] == y[..n - 1 + 1][m - 1];
  }

  lemma ClashSpreads(x: seq<Entry>, y: seq<Entry>, m: nat, n: nat)
    requires Matching(x, y) && Clash(x, y, m) && m <= n <= |x| && n <= |y|
    ensures Clash(x, y, n)
  {
    if x[n - 1].term == y[n - 1].term { SharedBelow(x, y, m, n); }
  }

  /** The next index points beyond the follower's end, where the leader has another entry or none yet. */
  ghost predicate PastEnd(theirs: seq<Entry>, ours: seq<Entry>, next: nat) {
    next > |theirs| && (|ours| < |theirs| || Clash(theirs, ours, |theirs|))
  }

  /** It points right behind a conflict. */
  ghost predicate PastClash(theirs: seq<Entry>, ours: seq<Entry>, next: nat) {
    1 < next <= |theirs| && Clash(theirs, ours, next - 1)
  }

  /** It points at an entry that the follower has committed and the leader does not have. */
  ghost predicate AtCommitted(theirs: seq<Entry>, ours: seq<Entry>, next: nat, commit: nat) {
    && 1 <= next <= |theirs| && next - 1 <= |ours| && ours[..next - 1] == theirs[..next - 1]
    && next <= commit && (|ours| == next - 1 || Clash(theirs, ours, next))
  }

  ghost predicate Hopeless(p: Pair) {
    var ours, theirs := p.leader.log.entries, p.follower.log.entries;
    && p.leader.role.Leader? && p.follower.term <= p.leader.term
    && p.leader.log.base == 0 && p.leader.log.baseTerm == 0 && p.follower.log.base == 0 && p.follower.log.baseTerm == 0
    && p.leader.log.Placed() && p.leader.commitIndex < p.follower.cfg.threshold && p.leader.cfg.batchCap >= 1
    && p.follower.cfg.id in p.leader.nextIndex
    && p.follower.commitIndex <= |theirs|
    && Matching(theirs, ours) && theirs != [] && Foreign(theirs, p.leader.term)
    && (|| PastEnd(theirs, ours, Next(p)) || PastClash(theirs, ours, Next(p))
        || AtCommitted(theirs, ours, Next(p), p.follower.commitIndex))
  }

  /** What follows a refusal. */
  lemma EndsPast(p: Pair)
    requires Hopeless(p) && (AtCommitted(p.follower.log.entries, p.leader.log.entries, Next(p), p.follower.commitIndex)
                             ==> |p.leader.log.entries| >= Next(p))
    ensures PastEnd(p.follower.log.entries, p.leader.log.entries, |p.follower.log.entries| + 1)
  {
    var ours, theirs := p.leader.log.entries, p.follower.log.entries;
    if |ours| >= |theirs| {
      if PastClash(theirs, ours, Next(p)) {
        ClashSpreads(theirs, ours, Next(p) - 1, |theirs|);
      } else if AtCommitted(theirs, ours, Next(p), p.follower.commitIndex) {
        ClashSpreads(theirs, ours, Next(p), |theirs|);
      }
    }
  }

  /** A refusal sends the next index past the follower's end. */
  lemma RefusedRound(p: Pair, args: AppendArgs)
    requires Hopeless(p) && PrepareAppend(p.leader, p.follower.cfg.id) == Some(args)
    requires PastEnd(p.follower.log.entries, p.leader.log.entries, |p.follower.log.entries| + 1)
    requires HandleAppendEntries(p.follower, args)
             == (Hear(p.follower, args.term), AppendResult(args.term, false, |p.follower.log.entries|))
    ensures Hopeless(Round(p)) && Round(p).follower.log == p.follower.log
  {
    var q := Pair(p.leader.(nextIndex := p.leader.nextIndex[p.follower.cfg.id := |p.follower.log.entries| + 1]),
                  Hear(p.follower, args.term));
    assert Round(p) == q;
    assert Next(q) == |p.follower.log.entries| + 1;
  }

  lemma IdleRound(p: Pair, args: AppendArgs)
    requires Hopeless(p) && PrepareAppend(p.leader, p.follower.cfg.id) == Some(args)
    requires AtCommitted(p.follower.log.entries, p.leader.log.entries, Next(p), p.follower.commitIndex)
    requires PrevMatches(p.follower.log, args) && args.entries == [] && args.term == p.leader.term && args.commit == p.leader.commitIndex
    ensures Hopeless(Round(p)) && Round(p).follower.log == p.follower.log
  {
    TakesNothing(p.follower, args);
    var q := Round(p);
    assert q.leader == p.leader.(matchIndex := q.leader.matchIndex);
    assert Next(q) == Next(p);
  }

  lemma BatchAt(leader: Replica, peer: NodeId)
    requires leader.role.Leader? && leader.log.base == 0 && leader.log.baseTerm == 0 && leader.cfg.batchCap >= 1
    requires 1 <= NextIndex(leader, peer) <= |leader.log.entries| + 1
    ensures var args, next, ours := PrepareAppend(leader, peer), NextIndex(leader, peer), leader.log.entries;
            && args.Some? && args.value.term == leader.term && args.value.commit == leader.commitIndex
            && args.value.prevIndex == next - 1 && (next >= 2 ==> args.value.prevTerm == ours[next - 2].term)
            && (if |ours| == next - 1 then args.value.entries == []
                else args.value.entries != [] && args.value.entries[0] == ours[next - 1])
  {
    var next := NextIndex(leader, peer);
    assert leader.log.From(next) == leader.log.entries[next - 1..];
  }

  lemma SendsNext(p: Pair)
    requires Hopeless(p) && AtCommitted(p.follower.log.entries, p.leader.log.entries, Next(p), p.follower.commitIndex)
    ensures var args := PrepareAppend(p.leader, p.follower.cfg.id);
            && args.Some? && PrevMatches(p.follower.log, args.value)
            && args.value.term == p.leader.term && args.value.commit == p.leader.commitIndex
            && (if |p.leader.log.entries| == Next(p) - 1 then args.value.entries == []
                else args.value.entries != [] && args.value.entries[0] == p.leader.log.entries[Next(p) - 1])
  {
    var ours, theirs, next := p.leader.log.entries, p.follower.log.entries, Next(p);
    BatchAt(p.leader, p.follower.cfg.id);
    if next >= 2 { assert ours[..next - 1][next - 2] == theirs[..next - 1][next - 2]; }
  }

  lemma SendsRefused(p: Pair)
    requires Hopeless(p) && !AtCommitted(p.follower.log.entries, p.leader.log.entries, Next(p), p.follower.commitIndex)
    ensures var args := PrepareAppend(p.leader, p.follower.cfg.id);
            args.Some? && !PrevMatches(p.follower.log, args.value) && args.value.term == p.leader.term
  {
  }

  lemma HopelessRound(p: Pair)
    requires Hopeless(p)
    ensures Hopeless(Round(p)) && Round(p).follower.log == p.follower.log
  {
    var ours, theirs := p.leader.log.entries, p.follower.log.entries;
    var args := PrepareAppend(p.leader, p.follower.cfg.id).value;
    if !AtCommitted(theirs, ours, Next(p), p.follower.commitIndex) {
      SendsRefused(p);
      Refuses(p.follower, args);
      EndsPast(p);
      RefusedRound(p, args);
    } else {
      SendsNext(p);
      if |ours| == Next(p) - 1 {
        IdleRound(p, args);
      } else {
        GuardsCommitted(p.follower, args);
        EndsPast(p);
        RefusedRound(p, args);
      }
    }
  }

  lemma HopelessWrite(p: Pair, stroke: Stroke)
    requires Hopeless(p)
    ensures Hopeless(Act(p, Accept(stroke)))
  {
    var ours, theirs := p.leader.log.entries, p.follower.log.entries;
    var more := Act(p, Accept(stroke)).leader.log.entries;
    forall k | 0 <= k < |theirs| && k < |more| && theirs[k].term == more[k].term
      ensures theirs[..k + 1] == more[..k + 1]
    {
      assert more[..k + 1] == ours[..k + 1];
    }
  }

  /** A heartbeat changes no log that is too short for a snapshot. */
  lemma BeatKeepsLog(r: Replica, args: BeatArgs)
    requires r.log.base == 0 && args.commit < r.cfg.threshold && r.commitIndex <= r.log.LastIndex() && args.term >= r.term
    ensures var n := HandleHeartbeat(r, args).0;
            && n.log == r.log && n.cfg == r.cfg && n.term == args.term
            && r.commitIndex <= n.commitIndex <= r.log.LastIndex()
  {
    CommitFrame(Hear(r, args.term), args.commit);
  }

  lemma HopelessBeat(p: Pair)
    requires Hopeless(p)
    ensures Hopeless(Act(p, Beat)) && Act(p, Beat).follower.log == p.follower.log
  {
    BeatKeepsLog(p.follower, BeatArgs(p.leader.term, p.leader.cfg.id, p.leader.commitIndex));
  }

  lemma HopelessCommit(p: Pair, upto: nat)
    requires Hopeless(p)
    ensures Hopeless(Act(p, Commit(upto)))
  {
  }

  lemma {:induction false} HopelessForever(p: Pair, deeds: seq<Deed>)
    requires Hopeless(p)
    ensures Hopeless(ActAll(p, deeds)) && ActAll(p, deeds).follower.log == p.follower.log
  {
    if deeds != [] {
      var q, d := ActAll(p, deeds[..|deeds| - 1]), deeds[|deeds| - 1];
      HopelessForever(p, deeds[..|deeds| - 1]);
      assert ActAll(p, deeds) == Act(q, d);
      match d {
        case Replicate => HopelessRound(q);
        case Accept(stroke) => HopelessWrite(q, stroke);
        case Commit(upto) => HopelessCommit(q, upto);
        case Beat => HopelessBeat(q);
      }
    }
  }

  lemma HopelessDiffers(p: Pair)
    requires Hopeless(p)
    ensures !InStep(p)
  {
    assert p.follower.log.entries != p.leader.log.entries;
  }

  // ----- the exact condition

  /** The follower's log stands for all of the leader's. */
  ghost predicate InStep(p: Pair) { Refines(p.follower.log, p.leader.log.entries) }

  ghost predicate EverInStep(p: Pair) { exists deeds :: InStep(ActAll(p, deeds)) }

  /** At the end of the shorter log both have the same term, and the follower has committed nothing that the
      leader lacks. */
  ghost predicate Repairable(p: Pair) {
    var ours, theirs := p.leader.log.entries, p.follower.log.entries;
    var n := Min(|ours|, |theirs|);
    (n == 0 || ours[n - 1].term == theirs[n - 1].term) && p.follower.commitIndex <= |ours|
  }

  lemma StartsHopeless(p: Pair)
    requires NewlyElected(p) && !Repairable(p)
    ensures Hopeless(p)
  {
    var ours, theirs := p.leader.log.entries, p.follower.log.entries;
    if |theirs| > |ours| && !Clash(theirs, ours, |ours|) && |ours| > 0 {
      assert theirs[..|ours| - 1 + 1] == ours[..|ours| - 1 + 1];
    }
    if |theirs| <= |ours| {
      assert PastEnd(theirs, ours, Next(p));
    } else if Clash(theirs, ours, |ours|) {
      assert PastClash(theirs, ours, Next(p));
    } else {
      assert AtCommitted(theirs, ours, Next(p), p.follower.commitIndex);
    }
  }

  lemma {:induction false} IterateSnoc<S(!new)>(step: S -> S, s: S, n: nat)
    ensures Iterate(step, s, n + 1) == step(Iterate(step, s, n))
  {
    if n > 0 { IterateSnoc(step, step(s), n - 1); }
  }

  lemma ActSnoc(p: Pair, deeds: seq<Deed>, d: Deed)
    ensures ActAll(p, deeds + [d]) == Act(ActAll(p, deeds), d)
  {
    assert (deeds + [d])[..|deeds|] == deeds;
  }

  /** Rounds are deeds. */
  lemma {:induction false} OnlyRounds(p: Pair, n: nat) returns (deeds: seq<Deed>)
    ensures ActAll(p, deeds) == Rounds(p, n)
  {
    deeds := [];
    if n > 0 {
      var fewer := OnlyRounds(p, n - 1);
      deeds := fewer + [Replicate];
      ActSnoc(p, fewer, Replicate);
      IterateSnoc(Round, p, n - 1);
    }
  }

  /** The leader's next entry replaces what a longer follower has beyond the leader's end. */
  lemma WriteRepairs(p: Pair, stroke: Stroke)
    requires NewlyElected(p) && Repairable(p) && |p.follower.log.entries| > |p.leader.log.entries|
    ensures InStep(Round(Act(p, Accept(stroke))))
  {
    var ours, theirs := p.leader.log.entries, p.follower.log.entries;
    var q := Act(p, Accept(stroke));
    var e := Entry(|ours| + 1, p.leader.term, stroke);
    assert q.leader.log.entries == ours + [e] && Next(q) == |ours| + 1;
    var args := PrepareAppend(q.leader, q.follower.cfg.id).value;
    assert args.entries == [e] by { assert q.leader.log.From(|ours| + 1) == (ours + [e])[|ours|..] == [e]; }
    if ours != [] { assert theirs[..|ours| - 1 + 1] == ours[..|ours| - 1 + 1]; }
    assert theirs[..|ours|] == ours;
    ReplacesTail(p.follower, args, ours, e);
  }

  lemma ReplacesTail(follower: Replica, args: AppendArgs, ours: seq<Entry>, e: Entry)
    requires follower.log.base == 0 && follower.log.baseTerm == 0 && follower.term <= args.term
    requires args.entries == [e] && e.index == |ours| + 1 && args.prevIndex == |ours| < |follower.log.entries|
    requires follower.log.entries[..|ours|] == ours && follower.log.entries[|ours|].term != e.term
    requires ours != [] ==> args.prevTerm == ours[|ours| - 1].term
    requires follower.commitIndex <= |ours| && args.commit < follower.cfg.threshold
    ensures HandleAppendEntries(follower, args).0.log == Log(0, 0, ours + [e])
  {
    var f := Hear(follower, args.term);
    if ours != [] { assert follower.log.entries[|ours| - 1] == follower.log.entries[..|ours|][|ours| - 1]; }
    assert PrevMatches(f.log, args);
    assert f.log.entries[0..] == f.log.entries;
    MergeTail(f.log, f.log.entries, f.commitIndex, |ours|, args.entries);
    CommitFrame(f.(log := Log(0, 0, ours + [e])), args.commit);
  }

  /** However a new leader goes on replicating, accepting writes, committing and sending heartbeats, short of
      snapshots, it can bring an uncompacted follower to its own log if and only if both have the same term at the end of the shorter log and the follower
      has committed nothing beyond the leader's. */
  lemma RepairsWithWrites(p: Pair)
    requires NewlyElected(p)
    ensures EverInStep(p) <==> Repairable(p)
  {
    if !Repairable(p) {
      StartsHopeless(p);
      forall deeds ensures !InStep(ActAll(p, deeds)) {
        HopelessForever(p, deeds);
        HopelessDiffers(ActAll(p, deeds));
      }
    } else if |p.follower.log.entries| <= |p.leader.log.entries| {
      EndKnownIsPrefix(p);
      var n := Due(p, p.leader.log.entries);
      CatchesUp(p, p.leader.log.entries, n);
      var deeds := OnlyRounds(p, n);
      assert InStep(ActAll(p, deeds));
    } else {
      var stroke := Stroke("", "", Ink("", "", 0.0, [], 0), None, None);
      WriteRepairs(p, stroke);
      ActSnoc(p, [], Accept(stroke));
      ActSnoc(p, [] + [Accept(stroke)], Replicate);
      assert InStep(ActAll(p, [] + [Accept(stroke)] + [Replicate]));
    }
  }
}
