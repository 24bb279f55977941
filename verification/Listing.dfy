/** The list of strokes that a board shows, told from its events alone. */
module Listing {
  import opened Types
  import opened Board

  /** The id that an event is about. */
  function IdOf(e: Stroke): string { if Draws(e) then e.id else e.target.value }

  /** Event `k` has a stroke to put on the board: a drawing unless its id is undone, a redo if a stroke was
      drawn under its id before. */
  ghost predicate Offers(events: seq<Stroke>, k: nat)
    requires k < |events|
  {
    if Draws(events[k]) then !LatestIsUndo(events[..k], events[k].id)
    else Redoes(events[k], IdOf(events[k])) && FindStroke(events[..k], IdOf(events[k])).Some?
  }

  /** No event after `i` and before `n` undoes the id of event `i`. */
  ghost predicate Unstruck(events: seq<Stroke>, i: nat, n: nat)
    requires i < n <= |events|
  {
    forall j :: i < j < n ==> !Undoes(events[j], IdOf(events[i]))
  }

  /** Event `k` puts it there; a redo does so only if its id is not there. */
  ghost predicate Shows(events: seq<Stroke>, k: nat)
    requires k < |events|
  {
    Offers(events, k) && (Draws(events[k]) || forall i :: 0 <= i < k ==> !Offered(events, i, k, IdOf(events[k])))
  }

  ghost predicate Offered(events: seq<Stroke>, i: nat, n: nat, id: string)
    requires i < n <= |events|
  {
    Offers(events, i) && Unstruck(events, i, n) && IdOf(events[i]) == id
  }

  /** What event `i` put there is still there at event `n`. */
  ghost predicate Standing(events: seq<Stroke>, i: nat, n: nat)
    requires i < n <= |events|
  {
    Shows(events, i) && Unstruck(events, i, n)
  }

  /** The stroke that it put there: the drawing itself, or the first that was drawn under the id. */
  ghost function Put(events: seq<Stroke>, k: nat): Stroke
    requires k < |events| && Shows(events, k)
  {
    if Draws(events[k]) then events[k] else FindStroke(events[..k], IdOf(events[k])).value
  }

  ghost predicate Rising(at: seq<nat>) { forall i, j :: 0 <= i < j < |at| ==> at[i] < at[j] }

  ghost predicate Occurs(at: seq<nat>, k: nat) { exists i :: 0 <= i < |at| && at[i] == k }

  /** Place `i` of the list holds what event `at[i]` put there. */
  ghost predicate Holds(events: seq<Stroke>, at: seq<nat>, visible: seq<Stroke>, i: nat)
    requires i < |at| == |visible|
  {
    at[i] < |events| && Shows(events, at[i]) && visible[i] == Put(events, at[i])
  }

  /** `at` are the events before `n` whose strokes make up `visible`, in this order. */
  ghost predicate MadeOf(events: seq<Stroke>, n: nat, at: seq<nat>, visible: seq<Stroke>)
    requires n <= |events|
  {
    && |at| == |visible| && Rising(at)
    && (forall i :: 0 <= i < |at| ==> Holds(events, at, visible, i) && at[i] < n && Standing(events, at[i], n))
    && (forall k: nat :: k < n && Standing(events, k, n) ==> Occurs(at, k))
  }

  lemma PutId(events: seq<Stroke>, k: nat)
    requires k < |events| && Shows(events, k)
    ensures Put(events, k).id == IdOf(events[k])
  {
  }

  lemma StandsLonger(events: seq<Stroke>, i: nat, n: nat)
    requires i < n < |events|
    ensures Standing(events, i, n + 1) <==> Standing(events, i, n) && !Undoes(events[n], IdOf(events[i]))
  {
  }

  lemma OccursSnoc(at: seq<nat>, last: nat, k: nat)
    ensures Occurs(at + [last], k) <==> Occurs(at, k) || k == last
  {
    if Occurs(at, k) {
      var i :| 0 <= i < |at| && at[i] == k;
      assert (at + [last])[i] == k;
    }
    assert (at + [last])[|at|] == last;
  }

  /** What an undo leaves of the list and of the events it came from. */
  ghost predicate Left(events: seq<Stroke>, at: seq<nat>, visible: seq<Stroke>, id: string, left: seq<nat>) {
    && |left| == |Without(visible, id)| && Rising(left)
    && (forall i :: 0 <= i < |left| ==> Holds(events, left, Without(visible, id), i)
                                        && IdOf(events[left[i]]) != id && Occurs(at, left[i]))
    && (forall k: nat :: k < |events| && Occurs(at, k) && IdOf(events[k]) != id ==> Occurs(left, k))
  }

  lemma WithoutSnoc(s: seq<Stroke>, x: Stroke, id: string)
    ensures Without(s + [x], id) == if x.id == id then Without(s, id) else Without(s, id) + [x]
  {
    assert (s + [x])[..|s|] == s;
  }

  lemma StrikeGone(events: seq<Stroke>, at: seq<nat>, visible: seq<Stroke>, id: string, k: nat, left: seq<nat>)
    requires |at| == |visible| && Left(events, at, visible, id, left) && k < |events| && Shows(events, k) && IdOf(events[k]) == id
    ensures Left(events, at + [k], visible + [Put(events, k)], id, left)
  {
    PutId(events, k);
    WithoutSnoc(visible, Put(events, k), id);
    forall j: nat | j < |events| && Occurs(at + [k], j) && IdOf(events[j]) != id ensures Occurs(left, j) {
      OccursSnoc(at, k, j);
    }
    forall i | 0 <= i < |left| ensures Occurs(at + [k], left[i]) { OccursSnoc(at, k, left[i]); }
  }

  lemma HoldsLonger(events: seq<Stroke>, at: seq<nat>, visible: seq<Stroke>, i: nat, k: nat, x: Stroke)
    requires i < |at| == |visible| && Holds(events, at, visible, i)
    ensures Holds(events, at + [k], visible + [x], i)
  {
  }

  lemma StrikeKept(events: seq<Stroke>, at: seq<nat>, visible: seq<Stroke>, id: string, k: nat, left: seq<nat>)
    requires |at| == |visible| && Left(events, at, visible, id, left) && k < |events| && Shows(events, k) && IdOf(events[k]) != id
    requires forall i :: 0 <= i < |at| ==> at[i] < k
    ensures Left(events, at + [k], visible + [Put(events, k)], id, left + [k])
  {
    var list, more := Without(visible, id), left + [k];
    PutId(events, k);
    WithoutSnoc(visible, Put(events, k), id);
    forall j: nat | j < |events| && Occurs(at + [k], j) && IdOf(events[j]) != id ensures Occurs(more, j) {
      OccursSnoc(at, k, j);
      OccursSnoc(left, k, j);
    }
    forall i | 0 <= i < |more|
      ensures Holds(events, more, list + [Put(events, k)], i) && IdOf(events[more[i]]) != id && Occurs(at + [k], more[i])
    {
      OccursSnoc(at, k, more[i]);
      if i < |left| { HoldsLonger(events, left, list, i, k, Put(events, k)); }
    }
  }

  lemma {:induction false} Strike(events: seq<Stroke>, at: seq<nat>, visible: seq<Stroke>, id: string) returns (left: seq<nat>)
    requires |at| == |visible| && Rising(at)
    requires forall i :: 0 <= i < |at| ==> Holds(events, at, visible, i)
    ensures Left(events, at, visible, id, left)
  {
    left := [];
    if at != [] {
      var n := |at| - 1;
      forall i | 0 <= i < n ensures Holds(events, at[..n], visible[..n], i) { assert Holds(events, at, visible, i); }
      var fewer := Strike(events, at[..n], visible[..n], id);
      assert Holds(events, at, visible, n);
      if IdOf(events[at[n]]) == id {
        StrikeGone(events, at[..n], visible[..n], id, at[n], fewer);
        left := fewer;
      } else {
        StrikeKept(events, at[..n], visible[..n], id, at[n], fewer);
        left := fewer + [at[n]];
      }
      assert at[..n] + [at[n]] == at && visible[..n] + [visible[n]] == visible;
    }
  }

  /** Of the events that had a stroke of an id to offer since it was last undone, the first put it there. */
  lemma {:induction false} FirstOffered(events: seq<Stroke>, i: nat, n: nat) returns (k: nat)
    requires i < n <= |events| && Offers(events, i) && Unstruck(events, i, n)
    ensures k < n && Standing(events, k, n) && IdOf(events[k]) == IdOf(events[i])
    decreases i
  {
    k := i;
    if !Shows(events, i) {
      var h: nat :| h < i && Offered(events, h, i, IdOf(events[i]));
      k := FirstOffered(events, h, n);
    }
  }

  lemma OnBoardStands(events: seq<Stroke>, n: nat, at: seq<nat>, visible: seq<Stroke>, id: string)
    requires n <= |events| && MadeOf(events, n, at, visible)
    ensures HasId(visible, id) <==> exists i: nat :: i < n && Offered(events, i, n, id)
  {
    if HasId(visible, id) {
      var i :| 0 <= i < |visible| && visible[i].id == id;
      assert Holds(events, at, visible, i);
      PutId(events, at[i]);
      assert Offered(events, at[i], n, id);
    }
    if h: nat :| h < n && Offered(events, h, n, id) {
      var k := FirstOffered(events, h, n);
      var i :| 0 <= i < |at| && at[i] == k;
      assert Holds(events, at, visible, i);
      PutId(events, k);
      assert visible[i].id == id;
    }
  }

  /** A drawing or redo adds at most its own stroke. */
  lemma MadeSame(events: seq<Stroke>, n: nat, at: seq<nat>, visible: seq<Stroke>)
    requires n < |events| && MadeOf(events, n, at, visible) && !KindOf(events[n]).UndoOf? && !Shows(events, n)
    ensures MadeOf(events, n + 1, at, visible)
  {
    forall i | 0 <= i < |at| ensures Holds(events, at, visible, i) && at[i] < n + 1 && Standing(events, at[i], n + 1) {
      StandsLonger(events, at[i], n);
    }
    forall k: nat | k < n + 1 && Standing(events, k, n + 1) ensures Occurs(at, k) {
      if k < n { StandsLonger(events, k, n); }
    }
  }

  lemma MadeWith(events: seq<Stroke>, n: nat, at: seq<nat>, visible: seq<Stroke>)
    requires n < |events| && MadeOf(events, n, at, visible) && !KindOf(events[n]).UndoOf? && Shows(events, n)
    ensures MadeOf(events, n + 1, at + [n], visible + [Put(events, n)])
  {
    var more, list := at + [n], visible + [Put(events, n)];
    forall i | 0 <= i < |more| ensures Holds(events, more, list, i) && more[i] < n + 1 && Standing(events, more[i], n + 1) {
      if i < |at| {
        assert Holds(events, at, visible, i);
        StandsLonger(events, at[i], n);
      }
    }
    forall k: nat | k < n + 1 && Standing(events, k, n + 1) ensures Occurs(more, k) {
      OccursSnoc(at, n, k);
      if k < n { StandsLonger(events, k, n); }
    }
  }

  lemma MadeWithout(events: seq<Stroke>, n: nat, at: seq<nat>, visible: seq<Stroke>, id: string) returns (left: seq<nat>)
    requires n < |events| && MadeOf(events, n, at, visible) && Undoes(events[n], id)
    ensures MadeOf(events, n + 1, left, Without(visible, id))
  {
    left := Strike(events, at, visible, id);
    forall i | 0 <= i < |left|
      ensures Holds(events, left, Without(visible, id), i) && left[i] < n + 1 && Standing(events, left[i], n + 1)
    {
      var j :| 0 <= j < |at| && at[j] == left[i];
      StandsLonger(events, at[j], n);
    }
    forall k: nat | k < n + 1 && Standing(events, k, n + 1) ensures Occurs(left, k) {
      assert k != n;
      StandsLonger(events, k, n);
    }
  }

  lemma MadeLonger(events: seq<Stroke>, n: nat, at: seq<nat>) returns (longer: seq<nat>)
    requires n < |events| && MadeOf(events, n, at, Replay(events[..n]).visible)
    ensures MadeOf(events, n + 1, longer, Step(Replay(events[..n]), events[n]).visible)
  {
    var b, e := Replay(events[..n]), events[n];
    match KindOf(e) {
      case UndoOf(t) =>
        longer := MadeWithout(events, n, at, b.visible, t);
      case RedoOf(t) =>
        OnBoardStands(events, n, at, b.visible, t);
        ReplayEvents(events[..n]);
        FindSnoc(events[..n], e, t);
        if Shows(events, n) { MadeWith(events, n, at, b.visible); } else { MadeSame(events, n, at, b.visible); }
        longer := if Shows(events, n) then at + [n] else at;
      case Drawing =>
        UndoneExactly(events[..n], e.id);
        if Shows(events, n) { MadeWith(events, n, at, b.visible); } else { MadeSame(events, n, at, b.visible); }
        longer := if Shows(events, n) then at + [n] else at;
    }
  }

  lemma {:induction false} MadeUpTo(events: seq<Stroke>, n: nat) returns (at: seq<nat>)
    requires n <= |events|
    ensures MadeOf(events, n, at, Replay(events[..n]).visible)
  {
    if n == 0 {
      at := [];
    } else {
      var before := MadeUpTo(events, n - 1);
      assert events[..n] == events[..n - 1] + [events[n - 1]];
      FoldSnoc(EMPTY, events[..n - 1], events[n - 1]);
      at := MadeLonger(events, n - 1, before);
    }
  }

  /** For every event list, the board shows exactly the strokes that some event put there and no later event
      undid, in the order of those events: a drawing its own, a redo the first drawn under its id. */
  lemma VisibleExactly(events: seq<Stroke>) returns (at: seq<nat>)
    ensures MadeOf(events, |events|, at, Replay(events).visible)
  {
    at := MadeUpTo(events, |events|);
    assert events[..|events|] == events;
  }
}
