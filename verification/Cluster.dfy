/** Any number of replicas over a network that may lose, delay, repeat and reorder messages. Every
    handler is one atomic step. The last six fields of a cluster only record what has happened, except
    that a read in progress is found in `started` by its number. */
module Cluster {
  import opened Types
  import opened LogModel
  import opened Replica

  datatype Message =
    | VoteReq(src: NodeId, dst: NodeId, vote: VoteArgs)
    | VoteRep(src: NodeId, dst: NodeId, asked: nat, voted: VoteResult)
    | AppendReq(src: NodeId, dst: NodeId, append: AppendArgs)
    | AppendRep(src: NodeId, dst: NodeId, sent: AppendArgs, appended: AppendResult)
    | BeatReq(src: NodeId, dst: NodeId, read: nat, beat: BeatArgs)
    | BeatRep(src: NodeId, dst: NodeId, read: nat, beaten: BeatResult)

  /** The first leader recorded for a term: its voters and its log on election. */
  datatype Election = Election(leader: NodeId, voters: set<NodeId>, log: seq<Entry>)
  /** A vote cast while its term had no leader, with the voter's log at that moment. */
  datatype Grant = Grant(candidate: NodeId, log: seq<Entry>)
  /** A node that, while in `term`, had an entry of that very term at `index`. */
  datatype Held = Held(node: NodeId, term: nat, index: nat)
  /** A read in progress: who reads, in which term, and the terms that had had a leader by then. */
  datatype Read = Read(reader: NodeId, term: nat, elected: set<nat>)

  /** `full` holds, per node, the log it would have if it had never compacted. */
  datatype Cluster = Cluster(nodes: seq<Replica>, net: set<Message>, full: seq<seq<Entry>>,
                             elections: map<nat, Election>, leaderLog: map<nat, seq<Entry>>,
                             grants: map<(NodeId, nat), Grant>, held: set<Held>, started: seq<Read>)

  datatype Step =
    | Timeout(node: NodeId)
    | OnVoteReq(m: Message)
    | OnVoteRep(m: Message)
    | SendAppend(node: NodeId, peer: NodeId)
    | OnAppendReq(m: Message)
    | OnAppendRep(m: Message)
    | Write(node: NodeId, stroke: Stroke)
    | Advance(node: NodeId)
    | StartRead(node: NodeId)
    | OnBeat(m: Message)
    | EndRead(node: NodeId, read: nat, replies: seq<Message>)
    | Crash(node: NodeId)

  function Others(n: nat, i: nat): (s: seq<NodeId>)
    ensures forall p: NodeId :: p in s <==> p < n && p != i
    ensures |s| == if i < n then n - 1 else n
    ensures forall a, b :: 0 <= a < b < |s| ==> s[a] < s[b]
  {
    if n == 0 then [] else
    var rest := Others(n - 1, i);
    assert forall a :: 0 <= a < |rest| ==> rest[a] in rest;
    if n - 1 == i then rest else rest + [n - 1]
  }

  /** Everyone knows everyone; thresholds and batch caps are free. */
  ghost predicate Init(c: Cluster) {
    && |c.nodes| > 0
    && (forall i :: 0 <= i < |c.nodes| ==>
          c.nodes[i].cfg.id == i && c.nodes[i].cfg.peers == Others(|c.nodes|, i) && c.nodes[i] == Fresh(c.nodes[i].cfg))
    && c.full == seq(|c.nodes|, _ => [])
    && c.net == {} && c.elections == map[] && c.leaderLog == map[] && c.grants == map[]
    && c.held == {} && c.started == []
  }

  /** Node `i` becomes `n`, its log standing for `whole`, sends `out` and begins the reads `begun`; the other
      records follow from these. */
  function Put(c: Cluster, i: nat, n: Replica, whole: seq<Entry>, out: set<Message>, begun: seq<Read>): Cluster
    requires i < |c.nodes| == |c.full|
  {
    c.(nodes := c.nodes[i := n],
    full := c.full[i := whole],
    net := c.net + out,
    started := c.started + begun,
    elections := if n.role.Leader? && n.term !in c.elections
    then c.elections[n.term := Election(i, n.votes, whole)] else c.elections,
    leaderLog := if n.role.Leader? then c.leaderLog[n.term := whole] else c.leaderLog,
    grants := if n.votedFor.Some? && n.term !in c.elections && (i, n.term) !in c.grants
    then c.grants[(i, n.term) := Grant(n.votedFor.value, whole)] else c.grants,
    held := c.held + set k | 1 <= k <= |whole| && whole[k - 1].term == n.term :: Held(i, n.term, k))
  }

  /** Every read reply counted is from this read and from a different peer. */
  ghost predicate Replies(c: Cluster, i: NodeId, read: nat, replies: seq<Message>) {
    && (forall k :: 0 <= k < |replies| ==>
          replies[k] in c.net && replies[k].BeatRep? && replies[k].dst == i && replies[k].read == read)
    && forall j, k :: 0 <= j < k < |replies| ==> replies[j].src != replies[k].src
  }

  ghost predicate Enabled(c: Cluster, s: Step) {
    match s
    case Timeout(i) => i < |c.nodes| && !c.nodes[i].role.Leader?
    case OnVoteReq(m) => m in c.net && m.VoteReq? && m.dst < |c.nodes|
    case OnVoteRep(m) => m in c.net && m.VoteRep? && m.dst < |c.nodes|
    case SendAppend(i, p) => i < |c.nodes| && p in c.nodes[i].cfg.peers
    case OnAppendReq(m) => m in c.net && m.AppendReq? && m.dst < |c.nodes|
    case OnAppendRep(m) => m in c.net && m.AppendRep? && m.dst < |c.nodes|
    case Write(i, _) => i < |c.nodes|
    case Advance(i) => i < |c.nodes| && c.nodes[i].role.Leader?
    case StartRead(i) => i < |c.nodes| && c.nodes[i].role.Leader?
    case OnBeat(m) => m in c.net && m.BeatReq? && m.dst < |c.nodes|
    case EndRead(i, read, replies) =>
      i < |c.nodes| && read < |c.started| && c.started[read].reader == i && Replies(c, i, read, replies)
    case Crash(i) => i < |c.nodes|
  }

  function Results(replies: seq<Message>): seq<BeatResult>
    requires forall k :: 0 <= k < |replies| ==> replies[k].BeatRep?
  {
    seq(|replies|, k requires 0 <= k < |replies| => replies[k].beaten)
  }

  function Actor(s: Step): NodeId {
    match s
    case Timeout(i) => i
    case OnVoteReq(m) => m.dst
    case OnVoteRep(m) => m.dst
    case SendAppend(i, p) => i
    case OnAppendReq(m) => m.dst
    case OnAppendRep(m) => m.dst
    case Write(i, _) => i
    case Advance(i) => i
    case StartRead(i) => i
    case OnBeat(m) => m.dst
    case EndRead(i, _, _) => i
    case Crash(i) => i
  }

  /** The new state of the acting node and the messages it sends: the handlers of the replica. */
  ghost function Effect(c: Cluster, s: Step): (Replica, set<Message>)
    requires Enabled(c, s)
  {
    var n := c.nodes[Actor(s)];
    match s
    case Timeout(i) =>
      (RunElection(n), set p | p in n.cfg.peers :: VoteReq(i, p, VoteRequest(RunElection(n))))
    case OnVoteReq(m) =>
      var (n', reply) := HandleRequestVote(n, m.vote);
      (n', {VoteRep(m.dst, m.src, m.vote.term, reply)})
    case OnVoteRep(m) =>
      (OnVoteReply(n, m.asked, m.src, m.voted), {})
    case SendAppend(i, p) =>
      var args := PrepareAppend(n, p);
      (n, if args.Some? then {AppendReq(i, p, args.value)} else {})
    case OnAppendReq(m) =>
      var (n', reply) := HandleAppendEntries(n, m.append);
      (n', {AppendRep(m.dst, m.src, m.append, reply)})
    case OnAppendRep(m) =>
      (OnAppendReply(n, m.src, m.sent, m.appended), {})
    case Write(i, stroke) =>
      (ClientAppend(n, stroke), {})
    case Advance(i) =>
      (UpdateCommitIndex(n), {})
    case StartRead(i) =>
      (n, set p | p in n.cfg.peers :: BeatReq(i, p, |c.started|, BeatArgs(n.term, i, n.commitIndex)))
    case OnBeat(m) =>
      var (n', reply) := HandleHeartbeat(n, m.beat);
      (n', {BeatRep(m.dst, m.src, m.read, reply)})
    case EndRead(i, read, replies) =>
      (FinishRead(n, c.started[read].term, 1, Results(replies)).0, {})
    case Crash(i) =>
      (Restart(n), {})
  }

  function Begun(c: Cluster, s: Step): seq<Read> {
    if s.StartRead? && s.node < |c.nodes| then [Read(s.node, c.nodes[s.node].term, c.elections.Keys)] else []
  }

  /** What the acting node's log stands for after the step: the batch is merged, or the write appended,
      before anything is compacted. */
  function Whole(c: Cluster, s: Step): seq<Entry>
    requires Actor(s) < |c.nodes| == |c.full|
  {
    var r, full := c.nodes[Actor(s)], c.full[Actor(s)];
    match s
    case OnAppendReq(m) => if m.AppendReq? then full[..Min(r.log.base, |full|)] + TakenIn(r, m.append).entries else full
    case Write(_, stroke) => if r.role.Leader? then full + [Entry(r.log.LastIndex() + 1, r.term, stroke)] else full
    case _ => full
  }

  ghost predicate Next(c: Cluster, s: Step, c': Cluster) {
    && |c.nodes| == |c.full| && Enabled(c, s)
    && c' == Put(c, Actor(s), Effect(c, s).0, Whole(c, s), Effect(c, s).1, Begun(c, s))
  }

  ghost predicate Taken(states: seq<Cluster>, steps: seq<Step>, k: int)
    requires 0 <= k < |steps| < |states|
  {
    Next(states[k], steps[k], states[k + 1])
  }

  /** A run: `states[k + 1]` follows from `states[k]` by `steps[k]`. */
  ghost predicate IsRun(states: seq<Cluster>, steps: seq<Step>) {
    && |states| == |steps| + 1
    && Init(states[0])
    && forall k :: 0 <= k < |steps| ==> Taken(states, steps, k)
  }

  // ----- runs in which the unchecked part of a log is right

  /** A follower that takes a batch has compacted nothing but a prefix of its sender's log. The handler
      trusts this: below the boundary it checks nothing. */
  ghost predicate Anchored(c: Cluster, s: Step) {
    s.OnAppendReq? && s.m.AppendReq? && s.m.dst < |c.nodes| == |c.full| ==>
      var r, a := c.nodes[s.m.dst], s.m.append;
      a.term >= r.term && PrevMatches(r.log, a) && r.log.base > 0 ==>
        && a.term in c.leaderLog && r.log.base <= |c.full[s.m.dst]| && r.log.base <= |c.leaderLog[a.term]|
        && c.full[s.m.dst][..r.log.base] == c.leaderLog[a.term][..r.log.base]
  }

  ghost predicate AnchoredAt(states: seq<Cluster>, steps: seq<Step>, k: int)
    requires 0 <= k < |steps| < |states|
  {
    Anchored(states[k], steps[k])
  }

  ghost predicate IsAnchoredRun(states: seq<Cluster>, steps: seq<Step>) {
    IsRun(states, steps) && forall k :: 0 <= k < |steps| ==> AnchoredAt(states, steps, k)
  }

  /** No leader counts a successful AppendEntries reply to a request of one of its earlier leaderships,
      unless the batch ends within the log it was elected with. */
  ghost predicate Timely(c: Cluster, s: Step) {
    s.OnAppendRep? && s.m.AppendRep? && s.m.appended.success && s.m.dst < |c.nodes| && c.nodes[s.m.dst].role.Leader? ==>
      var t := c.nodes[s.m.dst].term;
      || s.m.sent.term == t
      || (t in c.elections && s.m.sent.prevIndex + |s.m.sent.entries| <= |c.elections[t].log|)
  }

  ghost predicate TimelyAt(states: seq<Cluster>, steps: seq<Step>, k: int)
    requires 0 <= k < |steps| < |states|
  {
    Timely(states[k], steps[k])
  }

  ghost predicate AllTimely(states: seq<Cluster>, steps: seq<Step>)
    requires |steps| < |states|
  {
    forall k :: 0 <= k < |steps| ==> TimelyAt(states, steps, k)
  }

  ghost predicate IsTimelyRun(states: seq<Cluster>, steps: seq<Step>) {
    IsAnchoredRun(states, steps) && AllTimely(states, steps)
  }
}
