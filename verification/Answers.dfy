/** What each handler answers and does, told outright. */
module Answers {
  import opened Types
  import opened Board
  import opened LogModel
  import opened Splices
  import opened Replica
  import opened ReplicaRuns
  import opened Cluster
  import opened Votes
  import opened Nodes
  import opened Elections
  import opened Steps
  import opened Commits
  import opened Reads

  /** The node is number `i` of `size`, and knows all the others. */
  ghost predicate Seated(r: Replica, size: nat, i: NodeId) { i < size && r.cfg.id == i && r.cfg.peers == Others(size, i) }

  /** The majority in the code is what it should be, and no more. */
  lemma MajorityExactly(r: Replica, size: nat, i: NodeId, q: set<NodeId>)
    requires Seated(r, size, i) && forall v :: v in q ==> v < size
    ensures |q| >= Majority(r.cfg) <==> Quorum(size, q)
  {
  }

  // ----- terms

  /** The first reply of a read that tells a higher term. */
  function FirstAbove(term: nat, replies: seq<BeatResult>): nat {
    if replies == [] then 0 else if replies[0].term > term then replies[0].term else FirstAbove(term, replies[1..])
  }

  /** The term that a call shows to the node; a vote reply only shows one to the election it answers. */
  function Shown(r: Replica, call: Call): nat {
    match call
    case OnVoteRequest(args) => args.term
    case OnVoteReplied(asked, _, voted) => if r.role.Candidate? && r.term == asked then voted.term else 0
    case OnAppend(args) => args.term
    case OnAppendReplied(_, _, appended) => appended.term
    case OnHeartbeat(args) => args.term
    case OnInstall(args) => args.term
    case OnReadReplies(_, replies) => FirstAbove(r.term, replies)
    case _ => 0
  }

  lemma {:induction false} ReadFollows(r: Replica, term: nat, acks: nat, replies: seq<BeatResult>)
    ensures FinishRead(r, term, acks, replies).0 ==
            if FirstAbove(r.term, replies) > r.term then r.(role := Follower, term := FirstAbove(r.term, replies), votedFor := None) else r
    decreases |replies|
  {
    if replies != [] && replies[0].term <= r.term {
      ReadFollows(r, term, acks + (if replies[0].success then 1 else 0), replies[1..]);
    }
  }

  /** A leader of the node's own term speaks to it. */
  ghost predicate Hears(r: Replica, call: Call) {
    (call.OnAppend? || call.OnHeartbeat? || call.OnInstall?) && Shown(r, call) == r.term
  }

  /** Every call that shows a higher term makes the node a follower of that term; nothing else but its own
      election raises a term. At an equal term a candidate, or a second leader, follows a leader that speaks
      to it, forgetting its vote. Short of that and of a restart, who leads goes on leading. */
  lemma FollowsExactly(r: Replica, call: Call)
    ensures var n := Do(r, call);
            && n.term == (if call.OnTimeout? && !r.role.Leader? then r.term + 1 else Max(r.term, Shown(r, call)))
            && (Shown(r, call) > r.term ==> n.role.Follower? && (call.OnVoteRequest? || n.votedFor.None?))
            && (Hears(r, call) ==> n.role.Follower? && n.votedFor == if r.role.Follower? then r.votedFor else None)
            && (r.role.Leader? ==> (n.role.Leader? <==> Shown(r, call) <= r.term && !Hears(r, call) && !call.OnRestart?))
            && (r.role.Follower? && !call.OnTimeout? ==> n.role.Follower?)
  {
    match call {
      case OnAppend(args) => AppendVotes(r, args);
      case OnHeartbeat(args) => BeatVotes(r, args);
      case OnAdvance => ApplyVotes(r.(commitIndex := CommitPoint(r, r.log.LastIndex())));
      case OnReadReplies(term, replies) => ReadFollows(r, term, 1, replies);
      case _ =>
    }
  }

  // ----- elections

  /** The request tells the end of the log `theirs`. */
  ghost predicate Tells(args: VoteArgs, theirs: seq<Entry>) {
    args.lastIndex == |theirs| && args.lastTerm == LastTermOf(theirs)
  }

  /** The voter is free to vote for `x` in term `t`. */
  predicate Free(r: Replica, t: nat, x: NodeId) {
    t > r.term || (t == r.term && (r.votedFor.None? || r.votedFor == Some(x)))
  }

  /** A vote is granted exactly when the voter is free to give it and the candidate's log is at least as up to
      date as its own; the reply tells the voter's term, never below the request's. */
  lemma VoteExactly(r: Replica, full: seq<Entry>, args: VoteArgs, theirs: seq<Entry>)
    requires Refines(r.log, full) && Tells(args, theirs)
    ensures var (n, reply) := HandleRequestVote(r, args);
            && (reply.granted <==> Free(r, args.term, args.candidate) && AtLeast(theirs, full))
            && reply.term == n.term == Max(r.term, args.term)
            && n.role == (if args.term > r.term then Follower else r.role)
            && n.votedFor == (if reply.granted then Some(args.candidate) else if args.term > r.term then None else r.votedFor)
            && n == r.(term := n.term, role := n.role, votedFor := n.votedFor)
  {
    LogEnd(r.log, full);
  }

  /** Who stands for election votes for itself in the next term and tells the end of its log; alone in its
      cluster it leads at once. */
  lemma CandidacyExactly(r: Replica, full: seq<Entry>, size: nat, i: NodeId)
    requires Seated(r, size, i) && Refines(r.log, full)
    ensures var c := RunElection(r);
            && c.term == r.term + 1 && c.votedFor == Some(i) && c.votes == {i}
            && c.role == (if size == 1 then Leader else Candidate)
            && VoteRequest(c).term == c.term && VoteRequest(c).candidate == i && Tells(VoteRequest(c), full)
            && c.log == r.log && c.commitIndex == r.commitIndex && c.boards == r.boards
  {
    LogEnd(r.log, full);
  }

  /** A candidate that counts a reply wins exactly when the grants make a majority; it then assumes nothing of
      its peers and sends each what comes after its own log. */
  lemma TallyExactly(r: Replica, size: nat, i: NodeId, asked: nat, from: NodeId, reply: VoteResult)
    requires Seated(r, size, i) && from < size && (forall v :: v in r.votes ==> v < size)
    requires r.role.Candidate? && r.term == asked
    ensures var n := OnVoteReply(r, asked, from, reply);
            if reply.term > r.term then n == r.(role := Follower, term := reply.term, votedFor := None)
            else if !reply.granted then n == r
            else
              && n.votes == r.votes + {from} && n.term == r.term && n.votedFor == r.votedFor && n.log == r.log
              && n.role == (if Quorum(size, n.votes) then Leader else Candidate)
              && (n.role.Leader? ==> forall p: NodeId :: p < size && p != i ==>
                                                           NextIndex(n, p) == r.log.LastIndex() + 1 && MatchIndex(n, p) == 0)
  {
    MajorityExactly(r, size, i, r.votes + {from});
    forall p: NodeId | p < size && p != i ensures p in r.cfg.peers {}
  }

  /** The reply of voter `n`. */
  function Answer(c: Replica, voters: seq<Replica>, n: nat): VoteResult
    requires n < |voters|
  {
    HandleRequestVote(voters[n], VoteRequest(c)).1
  }

  /** The candidate after the voters, one after the other, have been asked and have answered. */
  function Campaign(c: Replica, voters: seq<Replica>): Replica {
    if voters == [] then c
    else
      var n := |voters| - 1;
      OnVoteReply(Campaign(c, voters[..n]), c.term, voters[n].cfg.id, Answer(c, voters, n))
  }

  /** Voter `k`, with full log `logs[k]`, would vote for candidate `i` of term `t` with log `ours`. */
  ghost predicate Supports(voters: seq<Replica>, logs: seq<seq<Entry>>, k: nat, t: nat, i: NodeId, ours: seq<Entry>)
    requires |voters| == |logs|
  {
    k < |voters| && Free(voters[k], t, i) && AtLeast(ours, logs[k])
  }

  /** Who supports the candidate among the first `n` voters. */
  ghost function Backers(voters: seq<Replica>, logs: seq<seq<Entry>>, n: nat, t: nat, i: NodeId, ours: seq<Entry>): set<NodeId>
    requires n <= |voters| == |logs|
  {
    set k | 0 <= k < n && Supports(voters, logs, k, t, i, ours) :: voters[k].cfg.id
  }

  /** Among the first `n` voters enough support the candidate, and none of them is in a higher term. */
  ghost predicate Carried(voters: seq<Replica>, logs: seq<seq<Entry>>, n: nat, size: nat, t: nat, i: NodeId, ours: seq<Entry>)
    requires |voters| == |logs|
  {
    && n <= |voters| && (forall k :: 0 <= k < n ==> voters[k].term <= t)
    && Quorum(size, Backers(voters, logs, n, t, i, ours) + {i})
  }

  ghost predicate CarriedWithin(voters: seq<Replica>, logs: seq<seq<Entry>>, n: nat, size: nat, t: nat, i: NodeId, ours: seq<Entry>)
    requires |voters| == |logs|
  {
    exists m: nat :: m <= n && Carried(voters, logs, m, size, t, i, ours)
  }

  ghost predicate Polled(voters: seq<Replica>, logs: seq<seq<Entry>>, size: nat) {
    && |voters| == |logs|
    && forall k :: 0 <= k < |voters| ==> voters[k].cfg.id < size && Refines(voters[k].log, logs[k])
  }

  /** Where the campaign stands after `n` answers. */
  ghost predicate Standing(b: Replica, c: Replica, voters: seq<Replica>, logs: seq<seq<Entry>>, n: nat, size: nat, i: NodeId, ours: seq<Entry>)
    requires n <= |voters| == |logs|
  {
    && Seated(b, size, i)
    && (b.role.Leader? <==> CarriedWithin(voters, logs, n, size, c.term, i, ours))
    && (b.role.Candidate? ==>
          && b.term == c.term && b.votes == Backers(voters, logs, n, c.term, i, ours) + {i}
          && forall k :: 0 <= k < n ==> voters[k].term <= c.term)
    && (b.role.Follower? ==> exists k :: 0 <= k < n && voters[k].term > c.term)
  }

  lemma BackersSnoc(voters: seq<Replica>, logs: seq<seq<Entry>>, n: nat, t: nat, i: NodeId, ours: seq<Entry>)
    requires n < |voters| == |logs|
    ensures Backers(voters, logs, n + 1, t, i, ours) ==
            Backers(voters, logs, n, t, i, ours) + if Supports(voters, logs, n, t, i, ours) then {voters[n].cfg.id} else {}
  {
  }

  lemma CarriedSnoc(voters: seq<Replica>, logs: seq<seq<Entry>>, n: nat, size: nat, t: nat, i: NodeId, ours: seq<Entry>)
    requires n < |voters| == |logs|
    ensures CarriedWithin(voters, logs, n + 1, size, t, i, ours) <==>
            CarriedWithin(voters, logs, n, size, t, i, ours) || Carried(voters, logs, n + 1, size, t, i, ours)
  {
    if CarriedWithin(voters, logs, n + 1, size, t, i, ours) {
      var m: nat :| m <= n + 1 && Carried(voters, logs, m, size, t, i, ours);
    }
  }

  lemma AnswerIs(c: Replica, voters: seq<Replica>, logs: seq<seq<Entry>>, n: nat, size: nat, i: NodeId, ours: seq<Entry>)
    requires Polled(voters, logs, size) && n < |voters|
    requires VoteRequest(c).term == c.term && VoteRequest(c).candidate == i && Tells(VoteRequest(c), ours)
    ensures Answer(c, voters, n).granted <==> Supports(voters, logs, n, c.term, i, ours)
    ensures Answer(c, voters, n).term == Max(voters[n].term, c.term)
  {
    VoteExactly(voters[n], logs[n], VoteRequest(c), ours);
  }

  lemma AnswerHigher(b: Replica, c: Replica, voters: seq<Replica>, logs: seq<seq<Entry>>, n: nat, size: nat, i: NodeId, ours: seq<Entry>)
    requires n < |voters| == |logs| && Standing(b, c, voters, logs, n, size, i, ours) && b.role.Candidate?
    requires voters[n].term > c.term && Answer(c, voters, n).term == voters[n].term
    ensures Standing(OnVoteReply(b, c.term, voters[n].cfg.id, Answer(c, voters, n)), c, voters, logs, n + 1, size, i, ours)
  {
    CarriedSnoc(voters, logs, n, size, c.term, i, ours);
  }

  lemma AnswerInTerm(b: Replica, c: Replica, voters: seq<Replica>, logs: seq<seq<Entry>>, n: nat, size: nat, i: NodeId, ours: seq<Entry>)
    requires n < |voters| == |logs| && Standing(b, c, voters, logs, n, size, i, ours) && b.role.Candidate?
    requires voters[n].term <= c.term && Answer(c, voters, n).term == c.term && voters[n].cfg.id < size
    requires forall v :: v in b.votes ==> v < size
    requires Answer(c, voters, n).granted <==> Supports(voters, logs, n, c.term, i, ours)
    ensures Standing(OnVoteReply(b, c.term, voters[n].cfg.id, Answer(c, voters, n)), c, voters, logs, n + 1, size, i, ours)
  {
    var x := voters[n].cfg.id;
    CarriedSnoc(voters, logs, n, size, c.term, i, ours);
    TallyExactly(b, size, i, c.term, x, Answer(c, voters, n));
    BackersSnoc(voters, logs, n, c.term, i, ours);
    var more := Backers(voters, logs, n + 1, c.term, i, ours) + {i};
    assert more == if Answer(c, voters, n).granted then b.votes + {x} else b.votes;
    assert Quorum(size, b.votes) ==> Carried(voters, logs, n, size, c.term, i, ours);
  }

  lemma AnswerCounts(b: Replica, c: Replica, voters: seq<Replica>, logs: seq<seq<Entry>>, n: nat, size: nat, i: NodeId, ours: seq<Entry>)
    requires Polled(voters, logs, size) && n < |voters| && Standing(b, c, voters, logs, n, size, i, ours) && b.role.Candidate?
    requires VoteRequest(c).term == c.term && VoteRequest(c).candidate == i && Tells(VoteRequest(c), ours)
    ensures Standing(OnVoteReply(b, c.term, voters[n].cfg.id, Answer(c, voters, n)), c, voters, logs, n + 1, size, i, ours)
  {
    AnswerIs(c, voters, logs, n, size, i, ours);
    if voters[n].term > c.term {
      AnswerHigher(b, c, voters, logs, n, size, i, ours);
    } else {
      AnswerInTerm(b, c, voters, logs, n, size, i, ours);
    }
  }

  lemma OverWhen(b: Replica, c: Replica, voters: seq<Replica>, logs: seq<seq<Entry>>, n: nat, size: nat, i: NodeId, ours: seq<Entry>)
    requires n < |voters| == |logs| && Standing(b, c, voters, logs, n, size, i, ours) && !b.role.Candidate?
    ensures Standing(b, c, voters, logs, n + 1, size, i, ours)
  {
    CarriedSnoc(voters, logs, n, size, c.term, i, ours);
  }

  lemma {:induction false} CampaignStands(c: Replica, voters: seq<Replica>, logs: seq<seq<Entry>>, n: nat, size: nat, i: NodeId, ours: seq<Entry>)
    requires Polled(voters, logs, size) && n <= |voters| && size > 1
    requires Seated(c, size, i) && c.role.Candidate? && c.votes == {i}
    requires VoteRequest(c).term == c.term && VoteRequest(c).candidate == i && Tells(VoteRequest(c), ours)
    ensures Standing(Campaign(c, voters[..n]), c, voters, logs, n, size, i, ours)
  {
    if n == 0 {
      assert Backers(voters, logs, 0, c.term, i, ours) + {i} == {i};
    } else {
      CampaignStands(c, voters, logs, n - 1, size, i, ours);
      assert voters[..n][..n - 1] == voters[..n - 1];
      var b := Campaign(c, voters[..n - 1]);
      if b.role.Candidate? {
        AnswerCounts(b, c, voters, logs, n - 1, size, i, ours);
      } else {
        OverWhen(b, c, voters, logs, n - 1, size, i, ours);
      }
    }
  }

  /** A node that stands for election and asks the others one after the other wins if and only if, before it
      hears of a higher term, a majority counting itself is free to vote for it and has logs no more up to
      date than its own. */
  lemma CampaignExactly(r: Replica, ours: seq<Entry>, size: nat, i: NodeId, voters: seq<Replica>, logs: seq<seq<Entry>>)
    requires Seated(r, size, i) && size > 1 && Refines(r.log, ours) && Polled(voters, logs, size)
    ensures Campaign(RunElection(r), voters).role.Leader? <==>
            CarriedWithin(voters, logs, |voters|, size, r.term + 1, i, ours)
  {
    CandidacyExactly(r, ours, size, i);
    CampaignStands(RunElection(r), voters, logs, |voters|, size, i, ours);
    assert voters[..|voters|] == voters;
  }

  // ----- requests of a leader

  /** The log has the entry before the batch, in the batch's term for it, or has it in its snapshot. */
  ghost predicate Fits(full: seq<Entry>, base: nat, a: AppendArgs) {
    || a.prevIndex < base || a.prevIndex == 0
    || (a.prevIndex <= |full| && full[a.prevIndex - 1].term == a.prevTerm)
  }

  /** When something is to be committed and so much lies above the snapshot, a new one is taken. */
  function BaseAfter(r: Replica, announced: nat, commit: nat): nat {
    if announced > r.commitIndex && commit - r.log.base >= r.cfg.threshold then commit else r.log.base
  }

  lemma FitsExactly(log: Log, full: seq<Entry>, a: AppendArgs)
    requires Refines(log, full)
    ensures PrevMatches(log, a) <==> Fits(full, log.base, a)
  {
    LogTermAt(log, full, if a.prevIndex >= log.base then a.prevIndex else log.base);
  }

  lemma CommitBase(r: Replica, announced: nat)
    requires r.log.base <= r.commitIndex <= r.log.LastIndex()
    ensures var n := AdvanceCommit(r, announced);
            && n.commitIndex == Max(r.commitIndex, Min(announced, r.log.LastIndex()))
            && n.log.base == BaseAfter(r, announced, n.commitIndex)
            && n == r.(commitIndex := n.commitIndex, lastApplied := n.lastApplied, boards := n.boards, log := n.log)
  {
  }

  /** A request that is not stale succeeds exactly when the log has the entry before the batch and the batch
      contradicts nothing committed. It then replaces the log from the first entry that was missing or
      different, and only from there, commits what the leader announced as far as the log goes, and takes a
      snapshot when one is due. Refused, it changes no log and no commit index. */
  lemma AppendExactly(r: Replica, full: seq<Entry>, a: AppendArgs)
    requires Stands(r, full) && Consecutive(a.prevIndex, a.entries)
    ensures var (n, reply) := HandleAppendEntries(r, a);
            var whole, prev := FullAfter(r, full, OnAppend(a)), a.prevIndex;
            && (reply.success <==> a.term >= r.term && Fits(full, r.log.base, a)
                                   && !Clashes(full, r.log.base, r.commitIndex, prev, a.entries))
            && reply.term == n.term == Max(r.term, a.term) && reply.logLength == |n.log.entries|
            && (if reply.success
                then Spliced(full, r.log.base, prev, a.entries, whole) && n.commitIndex == Max(r.commitIndex, Min(a.commit, |whole|))
                     && n.log.base == BaseAfter(r, a.commit, n.commitIndex)
                else whole == full && n.commitIndex == r.commitIndex && n.log == r.log)
            && Stands(n, whole)
  {
    AppendStands(r, full, a);
    AppendTerm(r, a);
    FitsExactly(r.log, full, a);
    if a.term >= r.term && PrevMatches(r.log, a) {
      AppendTaken(r, full, a);
    } else {
      assert full[..r.log.base] + full[r.log.base..] == full;
    }
  }

  lemma AppendTaken(r: Replica, full: seq<Entry>, a: AppendArgs)
    requires Refines(r.log, full) && Consecutive(a.prevIndex, a.entries) && r.log.base <= r.commitIndex <= |full|
    requires a.term >= r.term && PrevMatches(r.log, a)
    requires r.commitIndex <= TakenIn(r, a).LastIndex()
    ensures var (n, reply) := HandleAppendEntries(r, a);
            var whole := full[..r.log.base] + TakenIn(r, a).entries;
            && (reply.success <==> !Clashes(full, r.log.base, r.commitIndex, a.prevIndex, a.entries))
            && reply.logLength == |n.log.entries|
            && (if reply.success
                then Spliced(full, r.log.base, a.prevIndex, a.entries, whole) && n.commitIndex == Max(r.commitIndex, Min(a.commit, |whole|))
                     && n.log.base == BaseAfter(r, a.commit, n.commitIndex)
                else whole == full && n.commitIndex == r.commitIndex && n.log == r.log)
  {
    MergeSplices(r.log, full, r.commitIndex, a.prevIndex, a.entries);
    AppendCommitted(r, a);
    assert full[..r.log.base] + full[r.log.base..] == full;
  }

  lemma AppendStands(r: Replica, full: seq<Entry>, a: AppendArgs)
    requires Stands(r, full) && Consecutive(a.prevIndex, a.entries)
    ensures var whole := FullAfter(r, full, OnAppend(a));
            && Stands(HandleAppendEntries(r, a).0, whole)
            && whole == full[..r.log.base] + TakenIn(r, a).entries && r.commitIndex <= |whole|
  {
    CallStands(r, full, OnAppend(a));
  }

  lemma AppendTerm(r: Replica, a: AppendArgs)
    ensures var (n, reply) := HandleAppendEntries(r, a);
            && reply.term == n.term == Max(r.term, a.term)
            && (a.term < r.term || !PrevMatches(r.log, a) ==>
                  !reply.success && n.log == r.log && n.commitIndex == r.commitIndex && reply.logLength == |n.log.entries|)
  {
    AppendVotes(r, a);
  }

  lemma AppendCommitted(r: Replica, a: AppendArgs)
    requires a.term >= r.term && PrevMatches(r.log, a)
    requires r.log.base <= r.commitIndex <= TakenIn(r, a).LastIndex()
    ensures var (n, reply) := HandleAppendEntries(r, a);
            var (log, ok) := Merge(r.log, r.commitIndex, a.entries);
            && reply.success == ok && reply.logLength == |n.log.entries|
            && (ok ==> n.commitIndex == Max(r.commitIndex, Min(a.commit, log.LastIndex())) && n.log.base == BaseAfter(r, a.commit, n.commitIndex))
            && (!ok ==> n.commitIndex == r.commitIndex && n.log == log)
  {
    var (log, ok) := Merge(r.log, r.commitIndex, a.entries);
    if ok { CommitBase(Hear(r, a.term).(log := log), a.commit); }
  }

  /** A heartbeat that is not stale succeeds whatever the log holds, commits what the leader announced as far
      as the log goes, and adds nothing to the log. */
  lemma BeatExactly(r: Replica, full: seq<Entry>, b: BeatArgs)
    requires Stands(r, full)
    ensures var (n, reply) := HandleHeartbeat(r, b);
            && (reply.success <==> b.term >= r.term) && reply.term == n.term == Max(r.term, b.term)
            && Stands(n, full)
            && (if reply.success
                then n.commitIndex == Max(r.commitIndex, Min(b.commit, |full|)) && n.log.base == BaseAfter(r, b.commit, n.commitIndex)
                else n == r)
  {
    BeatStands(r, full, b);
    if b.term >= r.term { BeatCommitted(r, b); }
  }

  lemma BeatStands(r: Replica, full: seq<Entry>, b: BeatArgs)
    requires Stands(r, full)
    ensures Stands(HandleHeartbeat(r, b).0, full) && r.log.LastIndex() == |full|
  {
    CallStands(r, full, OnHeartbeat(b));
    assert FullAfter(r, full, OnHeartbeat(b)) == full;
    LogEnd(r.log, full);
  }

  lemma BeatCommitted(r: Replica, b: BeatArgs)
    requires b.term >= r.term && r.log.base <= r.commitIndex <= r.log.LastIndex()
    ensures var (n, reply) := HandleHeartbeat(r, b);
            && reply.success && reply.term == n.term == b.term
            && n.commitIndex == Max(r.commitIndex, Min(b.commit, r.log.LastIndex())) && n.log.base == BaseAfter(r, b.commit, n.commitIndex)
  {
    CommitBase(Hear(r, b.term), b.commit);
  }

  /** A snapshot that is not stale and covers more than is committed becomes the node's boundary, commit index
      and boards, each the replay of its list; entries above it stay, even those that follow from nothing in it.
      Any other snapshot leaves log, commit index and boards alone. */
  lemma InstallExactly(r: Replica, args: InstallArgs)
    requires Sound(r)
    ensures var n, s := HandleInstallSnapshot(r, args), args.snapshot;
            if args.term >= r.term && s.lastIndex > r.commitIndex
            then && n.commitIndex == n.lastApplied == n.log.base == s.lastIndex && n.log.baseTerm == s.lastTerm
                 && n.log.LastIndex() == Max(r.log.LastIndex(), s.lastIndex)
                 && (forall k: nat :: k > s.lastIndex ==> n.log.Get(k) == r.log.Get(k))
                 && (forall b :: At(n.boards, b) == if b in s.boards then Replay(s.boards[b]) else EMPTY)
            else n.log == r.log && n.commitIndex == r.commitIndex && n.lastApplied == r.lastApplied && n.boards == r.boards
  {
    if args.term >= r.term && args.snapshot.lastIndex > r.commitIndex {
      InstalledLog(r.log, args.snapshot.lastIndex, args.snapshot.lastTerm);
    }
  }

  lemma InstalledLog(log: Log, lastIndex: nat, lastTerm: nat)
    requires log.Placed() && lastIndex >= log.base
    ensures var n := log.Install(lastIndex, lastTerm);
            && n.base == lastIndex && n.baseTerm == lastTerm && n.LastIndex() == Max(log.LastIndex(), lastIndex)
            && forall k: nat :: k > lastIndex ==> n.Get(k) == log.Get(k)
  {
    AbovePlaced(log.base, log.entries, lastIndex);
  }

  // ----- replies to a leader

  /** What a leader knows of its peers after a reply that shows no higher term: a success tells that the peer
      has the log up to the end of the batch, a refusal how many entries it holds. */
  lemma LearnExactly(r: Replica, peer: NodeId, sent: AppendArgs, reply: AppendResult)
    requires reply.term <= r.term
    ensures var n, upto := OnAppendReply(r, peer, sent, reply), sent.prevIndex + |sent.entries|;
            && n == r.(nextIndex := n.nextIndex, matchIndex := n.matchIndex)
            && MatchIndex(n, peer) == (if !reply.success then MatchIndex(r, peer)
                                       else if sent.entries == [] then Max(MatchIndex(r, peer), upto) else upto)
            && NextIndex(n, peer) == (if !reply.success then reply.logLength + 1
                                      else if sent.entries == [] then NextIndex(r, peer) else upto + 1)
            && forall p :: p != peer ==> NextIndex(n, p) == NextIndex(r, p) && MatchIndex(n, p) == MatchIndex(r, p)
  {
  }

  // ----- commits and clients

  /** The entry at `n` is of the node's own term and a majority is known to have the log up to it. */
  ghost predicate Backed(r: Replica, size: nat, i: NodeId, full: seq<Entry>, n: nat) {
    1 <= n <= |full| && full[n - 1].term == r.term && Quorum(size, Holders(r, r.cfg.peers, n) + {i})
  }

  lemma HoldersApart(r: Replica, size: nat, i: NodeId, n: nat)
    requires Seated(r, size, i)
    ensures forall v :: v in Holders(r, r.cfg.peers, n) ==> v < size && v != i
  {
  }

  lemma CountsWithSelf(q: set<NodeId>, i: NodeId)
    requires i !in q
    ensures |q + {i}| == 1 + |q|
  {
  }

  lemma HoldersExactly(r: Replica, size: nat, i: NodeId, n: nat)
    requires Seated(r, size, i)
    ensures 1 + Matched(r, r.cfg.peers, n) >= Majority(r.cfg) <==> Quorum(size, Holders(r, r.cfg.peers, n) + {i})
  {
    MatchedCounts(r, r.cfg.peers, n);
    HoldersApart(r, size, i, n);
    CountsWithSelf(Holders(r, r.cfg.peers, n), i);
    MajorityExactly(r, size, i, Holders(r, r.cfg.peers, n) + {i});
  }

  lemma BackedExactly(r: Replica, size: nat, i: NodeId, full: seq<Entry>, n: nat)
    requires Seated(r, size, i) && Refines(r.log, full) && n > r.log.base
    ensures Committable(r, n) <==> Backed(r, size, i, full, n)
  {
    HoldersExactly(r, size, i, n);
    if n <= |full| { assert r.log.Get(n).value == full[r.log.base..][n - r.log.base - 1] == full[n - 1]; }
  }

  /** A leader commits up to the last backed index of its log, if that is news, and applies it. */
  lemma AdvanceExactly(r: Replica, size: nat, i: NodeId, full: seq<Entry>)
    requires Seated(r, size, i) && Stands(r, full) && r.role.Leader?
    ensures var u := UpdateCommitIndex(r);
            && Stands(u, full) && u.commitIndex >= r.commitIndex
            && (u.commitIndex > r.commitIndex ==> Backed(r, size, i, full, u.commitIndex))
            && forall n: nat :: n > u.commitIndex ==> !Backed(r, size, i, full, n)
  {
    var u := UpdateCommitIndex(r);
    CommitPointIsGreatest(r, r.log.LastIndex());
    CallStands(r, full, OnAdvance);
    assert u == Do(r, OnAdvance);
    LogEnd(r.log, full);
    if u.commitIndex > r.commitIndex { BackedExactly(r, size, i, full, u.commitIndex); }
    forall n: nat | n > u.commitIndex ensures !Backed(r, size, i, full, n) {
      BackedExactly(r, size, i, full, n);
    }
  }

  /** A leader takes in a stroke as the next entry of its log, in its term, and counts itself as holding it;
      any other node takes in nothing. */
  lemma AcceptExactly(r: Replica, full: seq<Entry>, stroke: Stroke)
    requires Stands(r, full)
    ensures var n := ClientAppend(r, stroke);
            if r.role.Leader?
            then && Stands(n, full + [Entry(|full| + 1, r.term, stroke)]) && n.log.base == r.log.base
                 && MatchIndex(n, r.cfg.id) == |full| + 1
                 && (forall p :: p != r.cfg.id ==> MatchIndex(n, p) == MatchIndex(r, p))
                 && n == r.(log := n.log, matchIndex := n.matchIndex)
            else n == r
  {
    if r.role.Leader? { AcceptStands(r, full, stroke); }
  }

  lemma AcceptStands(r: Replica, full: seq<Entry>, stroke: Stroke)
    requires Stands(r, full) && r.role.Leader?
    ensures r.log.LastIndex() == |full|
    ensures Stands(ClientAppend(r, stroke), full + [Entry(|full| + 1, r.term, stroke)])
  {
    LogEnd(r.log, full);
    CallStands(r, full, OnWrite(stroke));
    assert FullAfter(r, full, OnWrite(stroke)) == full + [Entry(|full| + 1, r.term, stroke)];
  }

  /** A write is answered with success exactly when its node leads and a majority, itself included, is known to
      have the log up to its index, committed already or not. */
  lemma WriteExactly(r: Replica, size: nat, i: NodeId, index: nat)
    requires Seated(r, size, i)
    ensures FinishWrite(r, index).1 <==> r.role.Leader? && Quorum(size, Holders(r, r.cfg.peers, index) + {i})
    ensures FinishWrite(r, index).0 == if FinishWrite(r, index).1 then UpdateCommitIndex(r) else r
  {
    HoldersExactly(r, size, i, index);
  }

  lemma {:induction false} ReadCounts(r: Replica, term: nat, acks: nat, replies: seq<BeatResult>)
    ensures FinishRead(r, term, acks, replies).1 <==>
            && FirstAbove(r.term, replies) == 0 && r.role.Leader? && r.term == term
            && acks + Successes(replies) >= Majority(r.cfg)
    decreases |replies|
  {
    if replies != [] && replies[0].term <= r.term {
      ReadCounts(r, term, acks + (if replies[0].success then 1 else 0), replies[1..]);
    }
  }

  lemma {:induction false} NoneAbove(term: nat, replies: seq<BeatResult>)
    ensures FirstAbove(term, replies) == 0 <==> forall k :: 0 <= k < |replies| ==> replies[k].term <= term
  {
    if replies != [] && replies[0].term <= term {
      NoneAbove(term, replies[1..]);
      if forall k :: 0 <= k < |replies[1..]| ==> replies[1..][k].term <= term {
        forall k | 0 <= k < |replies| ensures replies[k].term <= term {
          if k > 0 { assert replies[k] == replies[1..][k - 1]; }
        }
      }
      if forall k :: 0 <= k < |replies| ==> replies[k].term <= term {
        assert forall k :: 0 <= k < |replies[1..]| ==> replies[1..][k] == replies[k + 1];
      }
    }
  }

  /** A read is confirmed exactly when its node still leads the term it began in, no reply shows a higher term,
      and a majority, itself included, has acknowledged the heartbeat. */
  lemma ReadExactly(r: Replica, size: nat, i: NodeId, term: nat, replies: seq<Message>)
    requires Seated(r, size, i) && FromDistinct(replies)
    requires forall k :: 0 <= k < |replies| ==> replies[k].src < size && replies[k].src != i
    ensures FinishRead(r, term, 1, Results(replies)).1 <==>
            && r.role.Leader? && r.term == term
            && (forall k :: 0 <= k < |replies| ==> replies[k].beaten.term <= r.term)
            && Quorum(size, Ackers(replies) + {i})
  {
    ReadCounts(r, term, 1, Results(replies));
    NoneAbove(r.term, Results(replies));
    assert forall k :: 0 <= k < |replies| ==> Results(replies)[k] == replies[k].beaten;
    AckersCount(replies);
    CountsWithSelf(Ackers(replies), i);
    MajorityExactly(r, size, i, Ackers(replies) + {i});
  }
}
