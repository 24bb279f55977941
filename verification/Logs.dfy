/** What every step keeps about logs: each log prefix is a prefix of the log of the leader that wrote
    its last entry, and what a node held in a term it only loses to a later leader without it. */
module Logs {
  import opened Types
  import opened LogModel
  import opened Replica
  import opened Cluster
  import opened Votes
  import opened Elections

  /** Entry `k` of `s` sits at its own index, and up to it `s` is the log of the leader of its term. */
  ghost predicate Rooted(c: Cluster, s: seq<Entry>, k: nat)
    requires k < |s|
  {
    var t := s[k].term;
    && t >= 1 && s[k].index == k + 1
    && t in c.leaderLog && k < |c.leaderLog[t]| && s[..k + 1] == c.leaderLog[t][..k + 1]
  }

  ghost predicate AllRooted(c: Cluster, s: seq<Entry>) { forall k :: 0 <= k < |s| ==> Rooted(c, s, k) }

  ghost predicate TermsUpTo(s: seq<Entry>, t: int) { forall k :: 0 <= k < |s| ==> s[k].term <= t }

  ghost predicate NodeLogOk(c: Cluster, n: Replica, full: seq<Entry>) {
    && AllRooted(c, full)
    && TermsUpTo(full, n.term)
    && (n.role.Candidate? ==> TermsUpTo(full, n.term - 1))
  }

  ghost predicate NodeLogsOk(c: Cluster)
    requires |c.nodes| == |c.full|
  {
    forall i :: 0 <= i < |c.nodes| ==> NodeLogOk(c, c.nodes[i], c.full[i])
  }

  /** A leader starts from its election log, all of earlier terms, and adds entries of its own term. */
  ghost predicate LeaderLogOk(c: Cluster, t: nat)
    requires t in c.leaderLog
  {
    var s := c.leaderLog[t];
    && t >= 1
    && t in c.elections
    && AllRooted(c, s)
    && c.elections[t].log <= s
    && TermsUpTo(c.elections[t].log, t - 1)
    && forall k :: |c.elections[t].log| <= k < |s| ==> s[k].term == t
  }

  ghost predicate LeaderLogsOk(c: Cluster) { forall t :: t in c.leaderLog ==> LeaderLogOk(c, t) }

  ghost predicate GrantLogsOk(c: Cluster) {
    forall v, t :: (v, t) in c.grants ==> AllRooted(c, c.grants[(v, t)].log)
  }

  /** A batch in flight is a slice of its leader's log, or an empty one from beyond the log's end. */
  ghost predicate AppendOk(c: Cluster, a: AppendArgs) {
    && a.term in c.leaderLog
    && var s := c.leaderLog[a.term];
    || (a.prevIndex + |a.entries| <= |s| && a.entries == s[a.prevIndex..a.prevIndex + |a.entries|]
        && (a.prevIndex > 0 ==> a.prevTerm == s[a.prevIndex - 1].term))
    || (a.entries == [] && a.prevTerm == 0 && a.prevIndex > 0)
  }

  ghost predicate AppendNetOk(c: Cluster) {
    forall m :: m in c.net && m.AppendReq? ==> AppendOk(c, m.append)
  }

  ghost predicate HeldOk(c: Cluster, h: Held) {
    && h.node < |c.nodes| && h.term in c.leaderLog && 1 <= h.index <= |c.leaderLog[h.term]|
    && c.leaderLog[h.term][h.index - 1].term == h.term
    && c.nodes[h.node].term >= h.term
  }

  /** Every leader after `h.term`, up to term `last`, was elected with what `h` stands for. */
  ghost predicate Inherited(c: Cluster, h: Held, last: int)
    requires h.term in c.leaderLog && h.index <= |c.leaderLog[h.term]|
  {
    forall t :: t in c.elections && h.term < t <= last ==> c.leaderLog[h.term][..h.index] <= c.elections[t].log
  }

  /** A node still has what it held, unless a later leader it may have followed did not have it. */
  ghost predicate Retained(c: Cluster, h: Held)
    requires |c.nodes| == |c.full| && HeldOk(c, h)
  {
    Inherited(c, h, c.nodes[h.node].term) ==> c.leaderLog[h.term][..h.index] <= c.full[h.node]
  }

  ghost predicate HeldRetained(c: Cluster)
    requires |c.nodes| == |c.full|
  {
    forall h :: h in c.held ==> HeldOk(c, h) && Retained(c, h)
  }

  /** The same at the moment of a vote. */
  ghost predicate GrantRetained(c: Cluster, h: Held, t: nat)
    requires HeldOk(c, h) && (h.node, t) in c.grants
  {
    Inherited(c, h, t - 1) ==> c.leaderLog[h.term][..h.index] <= c.grants[(h.node, t)].log
  }

  ghost predicate GrantsRetained(c: Cluster) {
    forall h, t :: h in c.held && (h.node, t) in c.grants && h.term < t ==> HeldOk(c, h) && GrantRetained(c, h, t)
  }

  ghost predicate LogInv(c: Cluster) {
    && |c.nodes| == |c.full| && NodeLogsOk(c) && LeaderLogsOk(c) && GrantLogsOk(c) && AppendNetOk(c)
    && HeldRetained(c) && GrantsRetained(c)
  }

  // ----- what a step does to the acting node's log

  datatype LogChange = Same | Wrote | Adopted

  ghost predicate LogLocal(c: Cluster, i: nat, n: Replica, whole: seq<Entry>, change: LogChange)
    requires i < |c.nodes| == |c.full|
  {
    var o := c.nodes[i];
    && o.term <= n.term
    && match change
       case Same => whole == c.full[i]
       case Wrote =>
         && o.role.Leader? && n.role.Leader? && n.term == o.term
         && |whole| == |c.full[i]| + 1
         && whole[..|c.full[i]|] == c.full[i]
         && whole[|c.full[i]|].term == n.term
         && whole[|c.full[i]|].index == |c.full[i]| + 1
       case Adopted =>
         && n.role.Follower? && n.term in c.leaderLog
         && Adopts(c.leaderLog[n.term], c.full[i], whole)
  }

  // ----- preservation

  /** Leader logs only grow, and elections are never revised. */
  ghost predicate Grows(c: Cluster, d: Cluster) {
    && (forall t :: t in c.leaderLog ==> t in d.leaderLog && c.leaderLog[t] <= d.leaderLog[t])
    && (forall t :: t in c.elections ==> t in d.elections && c.elections[t] == d.elections[t])
  }

  lemma LeaderExtends(c: Cluster, i: nat, n: Replica, whole: seq<Entry>, change: LogChange)
    requires i < |c.nodes| == |c.full| && Local(c, i, n, whole) && LogLocal(c, i, n, whole, change)
    requires Members(c) && LeadersElected(c) && LeadersRecorded(c) && ElectionsSound(c) && PollsOk(c)
    requires n.role.Leader? && n.term in c.leaderLog
    ensures c.leaderLog[n.term] <= whole
  {
    if !(c.nodes[i].role.Leader? && n.term == c.nodes[i].term) {
      WinsOnce(c, i, n);
    }
  }

  lemma PutGrows(c: Cluster, i: nat, n: Replica, whole: seq<Entry>, out: set<Message>, begun: seq<Read>, change: LogChange)
    requires i < |c.nodes| == |c.full| && Local(c, i, n, whole) && LogLocal(c, i, n, whole, change)
    requires Members(c) && LeadersElected(c) && LeadersRecorded(c) && ElectionsSound(c) && PollsOk(c)
    ensures Grows(c, Put(c, i, n, whole, out, begun))
  {
    if n.role.Leader? && n.term in c.leaderLog {
      LeaderExtends(c, i, n, whole, change);
    }
  }

  lemma StaysRooted(c: Cluster, d: Cluster, s: seq<Entry>)
    requires Grows(c, d) && AllRooted(c, s)
    ensures AllRooted(d, s)
  {
    forall k | 0 <= k < |s| ensures Rooted(d, s, k) {
      assert Rooted(c, s, k);
      var was, now := c.leaderLog[s[k].term], d.leaderLog[s[k].term];
      assert now[..k + 1] == now[..|was|][..k + 1];
    }
  }

  lemma PrefixRooted(c: Cluster, s: seq<Entry>, p: seq<Entry>)
    requires AllRooted(c, s) && p <= s
    ensures AllRooted(c, p)
  {
    forall k | 0 <= k < |p| ensures Rooted(c, p, k) {
      assert Rooted(c, s, k);
      assert p[..k + 1] == s[..k + 1];
    }
  }

  lemma NewNodeLog(c: Cluster, i: nat, n: Replica, whole: seq<Entry>, out: set<Message>, begun: seq<Read>, change: LogChange)
    requires i < |c.nodes| == |c.full| && Local(c, i, n, whole) && LogLocal(c, i, n, whole, change)
    requires NodeLogsOk(c) && LeaderLogsOk(c) && LeadersElected(c) && LeadersRecorded(c) && Grows(c, Put(c, i, n, whole, out, begun))
    ensures NodeLogOk(Put(c, i, n, whole, out, begun), n, whole)
  {
    var d := Put(c, i, n, whole, out, begun);
    var before, after := c.full[i], whole;
    assert NodeLogOk(c, c.nodes[i], c.full[i]);
    StaysRooted(c, d, before);
    match change {
      case Same =>
      case Wrote =>
        assert LeaderLogOk(c, n.term);
        forall k | 0 <= k < |after| ensures Rooted(d, after, k) {
          if k < |before| {
            assert Rooted(d, before, k);
            assert after[..k + 1] == before[..k + 1];
          }
        }
      case Adopted =>
        assert LeaderLogOk(c, n.term);
        if after != before {
          StaysRooted(c, d, c.leaderLog[n.term]);
          PrefixRooted(d, c.leaderLog[n.term], after);
          assert forall k :: 0 <= k < |after| ==> after[k] == c.leaderLog[n.term][k];
        }
    }
  }

  lemma KeepNodeLogs(c: Cluster, i: nat, n: Replica, whole: seq<Entry>, out: set<Message>, begun: seq<Read>, change: LogChange)
    requires i < |c.nodes| == |c.full| && Local(c, i, n, whole) && LogLocal(c, i, n, whole, change)
    requires NodeLogsOk(c) && LeaderLogsOk(c) && LeadersElected(c) && LeadersRecorded(c) && Grows(c, Put(c, i, n, whole, out, begun))
    ensures NodeLogsOk(Put(c, i, n, whole, out, begun))
  {
    var d := Put(c, i, n, whole, out, begun);
    forall j | 0 <= j < |d.nodes| ensures NodeLogOk(d, d.nodes[j], d.full[j]) {
      if j == i {
        NewNodeLog(c, i, n, whole, out, begun, change);
      } else {
        assert NodeLogOk(c, c.nodes[j], c.full[j]);
        StaysRooted(c, d, c.full[j]);
      }
    }
  }

  lemma NewLeaderLog(c: Cluster, i: nat, n: Replica, whole: seq<Entry>, out: set<Message>, begun: seq<Read>, change: LogChange)
    requires i < |c.nodes| == |c.full| && Local(c, i, n, whole) && LogLocal(c, i, n, whole, change)
    requires RolesVoteSelf(c) && LeadersElected(c) && LeadersRecorded(c) && NodeLogOk(c, c.nodes[i], c.full[i])
    requires n.term in c.leaderLog ==> LeaderLogOk(c, n.term)
    requires NodeLogOk(Put(c, i, n, whole, out, begun), n, whole) && n.role.Leader?
    requires n.term in c.elections ==> c.nodes[i].role.Leader? && n.term == c.nodes[i].term
    ensures LeaderLogOk(Put(c, i, n, whole, out, begun), n.term)
  {
    if n.term in c.elections {
      assert c.leaderLog[n.term] == c.full[i];
    }
  }

  lemma KeepLeaderLogs(c: Cluster, i: nat, n: Replica, whole: seq<Entry>, out: set<Message>, begun: seq<Read>, change: LogChange)
    requires i < |c.nodes| == |c.full| && Local(c, i, n, whole) && LogLocal(c, i, n, whole, change)
    requires RolesVoteSelf(c) && LeadersElected(c) && LeadersRecorded(c) && LeaderLogsOk(c) && NodeLogsOk(c)
    requires Grows(c, Put(c, i, n, whole, out, begun)) && NodeLogOk(Put(c, i, n, whole, out, begun), n, whole)
    requires ElectionsSound(c) && PollsOk(c)
    ensures LeaderLogsOk(Put(c, i, n, whole, out, begun))
  {
    var d := Put(c, i, n, whole, out, begun);
    forall t | t in d.leaderLog ensures LeaderLogOk(d, t) {
      if n.role.Leader? && n.term == t {
        if !(c.nodes[i].role.Leader? && n.term == c.nodes[i].term) {
          WinsOnce(c, i, n);
        }
        NewLeaderLog(c, i, n, whole, out, begun, change);
      } else {
        assert LeaderLogOk(c, t);
        StaysRooted(c, d, c.leaderLog[t]);
      }
    }
  }

  lemma KeepGrantLogs(c: Cluster, i: nat, n: Replica, whole: seq<Entry>, out: set<Message>, begun: seq<Read>)
    requires i < |c.nodes| == |c.full| && GrantLogsOk(c) && Grows(c, Put(c, i, n, whole, out, begun))
    requires NodeLogOk(Put(c, i, n, whole, out, begun), n, whole)
    ensures GrantLogsOk(Put(c, i, n, whole, out, begun))
  {
    var d := Put(c, i, n, whole, out, begun);
    forall v, t | (v, t) in d.grants ensures AllRooted(d, d.grants[(v, t)].log) {
      if (v, t) in c.grants {
        StaysRooted(c, d, c.grants[(v, t)].log);
      }
    }
  }

  lemma KeepAppendNet(c: Cluster, i: nat, n: Replica, whole: seq<Entry>, out: set<Message>, begun: seq<Read>)
    requires i < |c.nodes| == |c.full| && AppendNetOk(c) && Grows(c, Put(c, i, n, whole, out, begun))
    requires forall m :: m in out && m.AppendReq? ==> AppendOk(Put(c, i, n, whole, out, begun), m.append)
    ensures AppendNetOk(Put(c, i, n, whole, out, begun))
  {
    var d := Put(c, i, n, whole, out, begun);
    forall m | m in d.net && m.AppendReq? ensures AppendOk(d, m.append) {
      if m in c.net {
        var a := m.append;
        var s, s' := c.leaderLog[a.term], d.leaderLog[a.term];
        assert AppendOk(c, a);
        if a.prevIndex + |a.entries| <= |s| {
          assert s'[a.prevIndex..a.prevIndex + |a.entries|] == s[a.prevIndex..a.prevIndex + |a.entries|];
        }
      }
    }
  }

  lemma KeepHeldOk(c: Cluster, i: nat, n: Replica, whole: seq<Entry>, out: set<Message>, begun: seq<Read>, h: Held)
    requires i < |c.nodes| == |c.full| && Local(c, i, n, whole) && Grows(c, Put(c, i, n, whole, out, begun))
    requires HeldOk(c, h)
    ensures HeldOk(Put(c, i, n, whole, out, begun), h)
    ensures Put(c, i, n, whole, out, begun).leaderLog[h.term][..h.index] == c.leaderLog[h.term][..h.index]
  {
  }

  /** A new leader may break what was inherited, never make it. */
  lemma InheritedBefore(c: Cluster, d: Cluster, h: Held, last: int)
    requires Grows(c, d)
    requires h.term in c.leaderLog && h.index <= |c.leaderLog[h.term]|
    requires h.term in d.leaderLog && h.index <= |d.leaderLog[h.term]|
    requires d.leaderLog[h.term][..h.index] == c.leaderLog[h.term][..h.index]
    requires Inherited(d, h, last)
    ensures Inherited(c, h, last)
  {
    forall t | t in c.elections && h.term < t <= last
      ensures c.leaderLog[h.term][..h.index] <= c.elections[t].log
    {
      assert t in d.elections && d.elections[t] == c.elections[t];
    }
  }

  lemma KeepRetained(c: Cluster, i: nat, n: Replica, whole: seq<Entry>, out: set<Message>, begun: seq<Read>, change: LogChange, h: Held)
    requires i < |c.nodes| == |c.full| && Local(c, i, n, whole) && LogLocal(c, i, n, whole, change)
    requires Members(c) && LeaderLogsOk(c) && Grows(c, Put(c, i, n, whole, out, begun))
    requires HeldOk(c, h) && Retained(c, h)
    ensures HeldOk(Put(c, i, n, whole, out, begun), h) && Retained(Put(c, i, n, whole, out, begun), h)
  {
    var d := Put(c, i, n, whole, out, begun);
    KeepHeldOk(c, i, n, whole, out, begun, h);
    var p := c.leaderLog[h.term][..h.index];
    if Inherited(d, h, d.nodes[h.node].term) {
      InheritedBefore(c, d, h, d.nodes[h.node].term);
      assert Inherited(c, h, c.nodes[h.node].term);
      if h.node == i && change.Adopted? {
        var s := c.leaderLog[n.term];
        assert LeaderLogOk(c, n.term);
        assert p <= s;
        assert c.full[i][..|p|] == s[..|p|];
      }
    }
  }

  lemma NewHeld(c: Cluster, i: nat, n: Replica, whole: seq<Entry>, out: set<Message>, begun: seq<Read>, h: Held)
    requires i < |c.nodes| == |c.full| && NodeLogOk(Put(c, i, n, whole, out, begun), n, whole)
    requires h in Put(c, i, n, whole, out, begun).held && h !in c.held
    ensures HeldOk(Put(c, i, n, whole, out, begun), h) && Retained(Put(c, i, n, whole, out, begun), h)
    ensures h.node == i && h.term == n.term
  {
    var d := Put(c, i, n, whole, out, begun);
    assert Rooted(d, whole, h.index - 1);
    assert d.leaderLog[h.term][..h.index][h.index - 1] == whole[..h.index][h.index - 1];
  }

  lemma KeepHeldRetained(c: Cluster, i: nat, n: Replica, whole: seq<Entry>, out: set<Message>, begun: seq<Read>, change: LogChange)
    requires i < |c.nodes| == |c.full| && Local(c, i, n, whole) && LogLocal(c, i, n, whole, change)
    requires Members(c) && LeaderLogsOk(c) && Grows(c, Put(c, i, n, whole, out, begun)) && HeldRetained(c)
    requires NodeLogOk(Put(c, i, n, whole, out, begun), n, whole)
    ensures HeldRetained(Put(c, i, n, whole, out, begun))
  {
    var d := Put(c, i, n, whole, out, begun);
    forall h | h in d.held ensures HeldOk(d, h) && Retained(d, h) {
      if h in c.held {
        KeepRetained(c, i, n, whole, out, begun, change, h);
      } else {
        NewHeld(c, i, n, whole, out, begun, h);
      }
    }
  }

  lemma KeepGrantsRetained(c: Cluster, i: nat, n: Replica, whole: seq<Entry>, out: set<Message>, begun: seq<Read>)
    requires i < |c.nodes| == |c.full| && Local(c, i, n, whole) && Grows(c, Put(c, i, n, whole, out, begun))
    requires GrantsKept(c) && VotesRecorded(c) && HeldRetained(c) && GrantsRetained(c)
    requires HeldRetained(Put(c, i, n, whole, out, begun)) && NodeLogOk(Put(c, i, n, whole, out, begun), n, whole)
    ensures GrantsRetained(Put(c, i, n, whole, out, begun))
  {
    var d := Put(c, i, n, whole, out, begun);
    forall h, t | h in d.held && (h.node, t) in d.grants && h.term < t
      ensures HeldOk(d, h) && GrantRetained(d, h, t)
    {
      assert HeldOk(d, h) && Retained(d, h);
      if h !in c.held {
        NewHeld(c, i, n, whole, out, begun, h);
      } else if (h.node, t) in c.grants {
        assert HeldOk(c, h) && GrantRetained(c, h, t);
        KeepHeldOk(c, i, n, whole, out, begun, h);
        if Inherited(d, h, t - 1) {
          InheritedBefore(c, d, h, t - 1);
        }
      } else {
        NewGrantRetained(c, i, n, whole, out, begun, h);
      }
    }
  }

  lemma NewGrantRetained(c: Cluster, i: nat, n: Replica, whole: seq<Entry>, out: set<Message>, begun: seq<Read>, h: Held)
    requires i < |c.nodes| == |c.full| && Local(c, i, n, whole) && Grows(c, Put(c, i, n, whole, out, begun)) && VotesRecorded(c)
    requires h.node == i && h in c.held && HeldOk(c, h) && Retained(c, h)
    requires (i, n.term) in Put(c, i, n, whole, out, begun).grants && (i, n.term) !in c.grants
    ensures HeldOk(Put(c, i, n, whole, out, begun), h) && GrantRetained(Put(c, i, n, whole, out, begun), h, n.term)
  {
    var d := Put(c, i, n, whole, out, begun);
    KeepHeldOk(c, i, n, whole, out, begun, h);
    if Inherited(d, h, n.term - 1) {
      InheritedBefore(c, d, h, n.term - 1);
      assert Inherited(c, h, c.nodes[i].term);
    }
  }

  /** Every step that acts on one node as `Local` and `LogLocal` allow keeps the log invariant. */
  lemma KeepLogInv(c: Cluster, i: nat, n: Replica, whole: seq<Entry>, out: set<Message>, begun: seq<Read>, change: LogChange)
    requires i < |c.nodes| == |c.full| && Local(c, i, n, whole) && LogLocal(c, i, n, whole, change)
    requires ElectionInv(c) && LogInv(c)
    requires forall m :: m in out && m.AppendReq? ==> AppendOk(Put(c, i, n, whole, out, begun), m.append)
    ensures LogInv(Put(c, i, n, whole, out, begun)) && Grows(c, Put(c, i, n, whole, out, begun))
  {
    PutGrows(c, i, n, whole, out, begun, change);
    NewNodeLog(c, i, n, whole, out, begun, change);
    KeepNodeLogs(c, i, n, whole, out, begun, change);
    KeepLeaderLogs(c, i, n, whole, out, begun, change);
    KeepGrantLogs(c, i, n, whole, out, begun);
    KeepAppendNet(c, i, n, whole, out, begun);
    KeepHeldRetained(c, i, n, whole, out, begun, change);
    KeepGrantsRetained(c, i, n, whole, out, begun);
  }
}
