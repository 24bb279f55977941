/** One replica as a value, and every handler of the node as a function from state to state. */
module Replica {
  import opened Types
  import opened Board
  import opened LogModel

  datatype Config = Config(id: NodeId, peers: seq<NodeId>, threshold: nat, batchCap: nat)

  /** `votes` are the replies counted by the running election, the node's own vote included. */
  datatype Replica = Replica(cfg: Config, term: nat, votedFor: Option<NodeId>, role: Role, votes: set<NodeId>,
                             log: Log, commitIndex: nat, lastApplied: nat,
                             nextIndex: map<NodeId, nat>, matchIndex: map<NodeId, nat>, boards: Boards)

  function Fresh(cfg: Config): Replica {
    Replica(cfg, 0, None, Follower, {}, Log(0, 0, []), 0, 0, map[], map[], map[])
  }

  function Majority(cfg: Config): nat { (|cfg.peers| + 1) / 2 + 1 }

  // ----- role changes

  /** Forgets the vote even when the term does not change. */
  function BecomeFollower(r: Replica, term: nat): Replica {
    r.(role := Follower, term := term, votedFor := None)
  }

  function BecomeCandidate(r: Replica): Replica {
    r.(role := Candidate, term := r.term + 1, votedFor := Some(r.cfg.id), votes := {r.cfg.id})
  }

  /** `Map.set` of one value for each key in turn. */
  function SetAll(m: map<NodeId, nat>, keys: seq<NodeId>, v: nat): (r: map<NodeId, nat>)
    ensures forall p :: p in keys ==> p in r && r[p] == v
    ensures forall p :: p !in keys ==> (p in r <==> p in m) && (p in m ==> r[p] == m[p])
  {
    if keys == [] then m else SetAll(m, keys[..|keys| - 1], v)[keys[|keys| - 1] := v]
  }

  function BecomeLeader(r: Replica): Replica {
    r.(role := Leader,
    nextIndex := SetAll(r.nextIndex, r.cfg.peers, r.log.LastIndex() + 1),
    matchIndex := SetAll(r.matchIndex, r.cfg.peers, 0))
  }

  // ----- elections

  function Finalize(r: Replica): Replica {
    if r.role.Candidate? && |r.votes| >= Majority(r.cfg) then BecomeLeader(r) else r
  }

  function RunElection(r: Replica): Replica {
    var c := BecomeCandidate(r);
    if c.cfg.peers == [] then Finalize(c) else c
  }

  function VoteRequest(r: Replica): VoteArgs {
    VoteArgs(r.term, r.cfg.id, r.log.LastIndex(), r.log.LastTerm())
  }

  function OnVoteReply(r: Replica, asked: nat, from: NodeId, reply: VoteResult): Replica {
    if !r.role.Candidate? || r.term != asked then r
    else if reply.term > r.term then BecomeFollower(r, reply.term)
    else if reply.granted then Finalize(r.(votes := r.votes + {from}))
    else r
  }

  predicate IsLogUpToDate(log: Log, lastIndex: nat, lastTerm: nat) {
    if lastTerm != log.LastTerm() then lastTerm > log.LastTerm() else lastIndex >= log.LastIndex()
  }

  function HandleRequestVote(r: Replica, args: VoteArgs): (Replica, VoteResult) {
    var f := if args.term > r.term then BecomeFollower(r, args.term) else r;
    var granted := && args.term >= f.term
                   && (f.votedFor.None? || f.votedFor.value == args.candidate)
                   && IsLogUpToDate(f.log, args.lastIndex, args.lastTerm);
    var g := if granted then f.(votedFor := Some(args.candidate), term := args.term) else f;
    (g, VoteResult(g.term, granted))
  }

  // ----- replication, follower side

  /** The consistency check on the entry before the batch; below the boundary everything passes. */
  predicate PrevMatches(log: Log, args: AppendArgs) {
    if args.prevIndex > log.base then
      log.Get(args.prevIndex).Some? && log.Get(args.prevIndex).value.term == args.prevTerm
    else args.prevIndex == log.base && log.base > 0 ==> log.baseTerm == args.prevTerm
  }

  function Hear(r: Replica, term: nat): Replica {
    if term > r.term || !r.role.Follower? then BecomeFollower(r, term) else r
  }

  function AdvanceCommit(r: Replica, leaderCommit: nat): Replica {
    if leaderCommit > r.commitIndex
    then ApplyCommitted(r.(commitIndex := Min(leaderCommit, r.log.LastIndex())))
    else r
  }

  /** The log once a request has been taken in, before anything is committed. */
  function TakenIn(r: Replica, args: AppendArgs): Log {
    if args.term >= r.term && PrevMatches(r.log, args) then Merge(r.log, r.commitIndex, args.entries).0 else r.log
  }

  function HandleAppendEntries(r: Replica, args: AppendArgs): (Replica, AppendResult) {
    if args.term < r.term then (r, AppendResult(r.term, false, |r.log.entries|))
    else
      var f := Hear(r, args.term);
      if !PrevMatches(f.log, args) then (f, AppendResult(f.term, false, |f.log.entries|))
      else
        var (log, ok) := Merge(f.log, f.commitIndex, args.entries);
        var g := f.(log := log);
        if !ok then (g, AppendResult(g.term, false, |g.log.entries|))
        else
          var h := AdvanceCommit(g, args.commit);
          (h, AppendResult(h.term, true, |h.log.entries|))
  }

  function HandleHeartbeat(r: Replica, args: BeatArgs): (Replica, BeatResult) {
    if args.term < r.term then (r, BeatResult(r.term, false))
    else
      var h := AdvanceCommit(Hear(r, args.term), args.commit);
      (h, BeatResult(h.term, true))
  }

  /** The node after installing a snapshot whose boards came out as `boards`. */
  function Installed(r: Replica, s: Snapshot, boards: Boards): Replica {
    r.(log := r.log.Install(s.lastIndex, s.lastTerm), boards := boards,
    commitIndex := s.lastIndex, lastApplied := s.lastIndex)
  }

  function InstallWith(r: Replica, args: InstallArgs, boards: Boards): Replica {
    if args.term < r.term then r
    else
      var f := Hear(r, args.term);
      if args.snapshot.lastIndex <= f.commitIndex then f else Installed(f, args.snapshot, boards)
  }

  function HandleInstallSnapshot(r: Replica, args: InstallArgs): Replica {
    InstallWith(r, args, Rebuild(args.snapshot.boards))
  }

  // ----- applying and compacting

  /** Applies the entries after `from` up to `to`. */
  function ApplyRange(bs: Boards, log: Log, from: nat, to: nat): Boards {
    if to <= from then bs
    else
      var before := ApplyRange(bs, log, from, to - 1);
      if log.Get(to).Some? then ApplyEvent(before, log.Get(to).value.stroke) else before
  }

  function TakeSnapshot(r: Replica): Replica {
    r.(log := r.log.Compact(r.commitIndex, r.log.TermAt(r.commitIndex)))
  }

  function MaybeSnapshot(r: Replica): Replica {
    if r.commitIndex - r.log.base < r.cfg.threshold then r else TakeSnapshot(r)
  }

  function ApplyCommitted(r: Replica): Replica {
    MaybeSnapshot(r.(boards := ApplyRange(r.boards, r.log, r.lastApplied, r.commitIndex),
                  lastApplied := Max(r.lastApplied, r.commitIndex)))
  }

  /** Applying entries touches neither votes nor the log, short of compaction. */
  lemma ApplyFrame(r: Replica)
    requires r.log.base == 0
    ensures var a := ApplyCommitted(r);
            && a == r.(boards := a.boards, lastApplied := a.lastApplied, log := a.log)
            && (a.log.base == 0 ==> a.log == r.log)
  {
  }

  lemma CommitFrame(r: Replica, leaderCommit: nat)
    requires r.log.base == 0
    ensures var a := AdvanceCommit(r, leaderCommit);
            && a == r.(boards := a.boards, lastApplied := a.lastApplied, log := a.log, commitIndex := a.commitIndex)
            && (a.log.base == 0 ==> a.log == r.log)
            && a.commitIndex == if leaderCommit > r.commitIndex then Min(leaderCommit, r.log.LastIndex()) else r.commitIndex
  {
    ApplyFrame(r.(commitIndex := Min(leaderCommit, r.log.LastIndex())));
  }

  // ----- replication, leader side

  function NextIndex(r: Replica, peer: NodeId): nat {
    if peer in r.nextIndex then r.nextIndex[peer] else r.log.LastIndex() + 1
  }

  function MatchIndex(r: Replica, peer: NodeId): nat {
    if peer in r.matchIndex then r.matchIndex[peer] else 0
  }

  function Take(s: seq<Entry>, n: nat): seq<Entry> { if |s| <= n then s else s[..n] }

  /** The batch for a peer; none when this node does not lead or the peer needs a snapshot. */
  function PrepareAppend(r: Replica, peer: NodeId): Option<AppendArgs> {
    var next := NextIndex(r, peer);
    if !r.role.Leader? || next <= r.log.base then None
    else Some(AppendArgs(r.term, r.cfg.id, next - 1, r.log.TermAt(next - 1),
                         Take(r.log.From(next), r.cfg.batchCap), r.commitIndex))
  }

  /** At most `cap` entries of `s` behind the first `prev`. */
  function SliceOf(s: seq<Entry>, prev: nat, cap: nat): seq<Entry> {
    if prev <= |s| then s[prev..Min(|s|, prev + cap)] else []
  }

  /** A leader sends to a peer unless the peer's next index lies at or below its snapshot boundary; then the
      request tells the entry before the next index and carries what comes from there on. */
  lemma RequestExactly(r: Replica, full: seq<Entry>, peer: NodeId)
    requires Refines(r.log, full)
    ensures PrepareAppend(r, peer).None? <==> !r.role.Leader? || NextIndex(r, peer) <= r.log.base
    ensures PrepareAppend(r, peer).Some? ==>
              var a := PrepareAppend(r, peer).value;
              && a.term == r.term && a.leader == r.cfg.id && a.commit == r.commitIndex
              && a.prevIndex + 1 == NextIndex(r, peer)
              && a.prevTerm == (if 1 <= a.prevIndex <= |full| then full[a.prevIndex - 1].term else 0)
              && a.entries == SliceOf(full, a.prevIndex, r.cfg.batchCap)
  {
    var next := NextIndex(r, peer);
    if next > r.log.base {
      LogTermAt(r.log, full, next - 1);
      if next <= |full| + 1 { LogFrom(r.log, full, next); }
    }
  }

  /** A reply is checked for a higher term only, not for the leadership that asked. */
  function OnAppendReply(r: Replica, peer: NodeId, sent: AppendArgs, reply: AppendResult): Replica {
    if reply.term > r.term then BecomeFollower(r, reply.term)
    else if reply.success then
      if |sent.entries| > 0 then
        r.(nextIndex := r.nextIndex[peer := sent.prevIndex + 1 + |sent.entries|],
        matchIndex := r.matchIndex[peer := sent.prevIndex + |sent.entries|])
      else r.(matchIndex := r.matchIndex[peer := Max(MatchIndex(r, peer), sent.prevIndex)])
    else r.(nextIndex := r.nextIndex[peer := Max(1, reply.logLength + 1)])
  }

  /** How many of the peers are known to hold the log up to `n`. */
  function Matched(r: Replica, peers: seq<NodeId>, n: nat): (c: nat)
    ensures c <= |peers|
  {
    if peers == [] then 0
    else Matched(r, peers[..|peers| - 1], n) + (if MatchIndex(r, peers[|peers| - 1]) >= n then 1 else 0)
  }

  /** Index `n` may be committed: it is of the current term and a majority, this node included, has it. */
  predicate Committable(r: Replica, n: nat) {
    && r.log.Get(n).Some?
    && r.log.Get(n).value.term == r.term
    && 1 + Matched(r, r.cfg.peers, n) >= Majority(r.cfg)
  }

  /** The search of the commit loop from `n` downward. */
  function CommitPoint(r: Replica, n: nat): nat {
    if n <= r.commitIndex then r.commitIndex
    else if Committable(r, n) then n
    else CommitPoint(r, n - 1)
  }

  function UpdateCommitIndex(r: Replica): Replica {
    var n := CommitPoint(r, r.log.LastIndex());
    if n > r.commitIndex then ApplyCommitted(r.(commitIndex := n)) else r
  }

  /** The commit loop moves to the greatest committable index above the commit index, if there is one. */
  lemma {:induction false} CommitPointIsGreatest(r: Replica, n: nat)
    ensures var p := CommitPoint(r, n);
            && r.commitIndex <= p
            && (p > r.commitIndex ==> p <= n && Committable(r, p))
            && forall k :: p < k <= n ==> !Committable(r, k)
    decreases n
  {
    if n > r.commitIndex && !Committable(r, n) {
      CommitPointIsGreatest(r, n - 1);
    }
  }

  // ----- clients

  function ClientAppend(r: Replica, stroke: Stroke): Replica {
    if !r.role.Leader? then r
    else
      var n := r.log.LastIndex() + 1;
      r.(log := r.log.Append(Entry(n, r.term, stroke)), matchIndex := r.matchIndex[r.cfg.id := n])
  }

  /** The end of a client write for the entry at `index`, after a replication round. */
  function FinishWrite(r: Replica, index: nat): (Replica, bool) {
    if r.role.Leader? && 1 + Matched(r, r.cfg.peers, index) >= Majority(r.cfg)
    then (UpdateCommitIndex(r), true)
    else (r, false)
  }

  /** Counts the heartbeat replies of a read that began in `term`, stopping at the first higher term. */
  function FinishRead(r: Replica, term: nat, acks: nat, replies: seq<BeatResult>): (Replica, bool)
    decreases |replies|
  {
    if replies == [] then (r, r.role.Leader? && r.term == term && acks >= Majority(r.cfg))
    else if replies[0].term > r.term then (BecomeFollower(r, replies[0].term), false)
    else FinishRead(r, term, acks + (if replies[0].success then 1 else 0), replies[1..])
  }

  /** Ending a read either leaves the node alone or makes it follow a higher term. */
  lemma {:induction false} ReadFrame(r: Replica, term: nat, acks: nat, replies: seq<BeatResult>)
    ensures var n := FinishRead(r, term, acks, replies).0;
            n == r || (n.term > r.term && n == BecomeFollower(r, n.term))
    decreases |replies|
  {
    if replies != [] && replies[0].term <= r.term {
      ReadFrame(r, term, acks + (if replies[0].success then 1 else 0), replies[1..]);
    }
  }

  // ----- crash and restart

  /** What a restart keeps. */
  function Restart(r: Replica): Replica {
    r.(role := Follower, votes := {}, nextIndex := map[], matchIndex := map[])
  }
}
