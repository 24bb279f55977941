/** The replicated undo/redo board: one event at a time, one board at a time, then many boards. */
module Board {
  import opened Types

  /** What the three per-board maps of a replica hold for one board. */
  datatype BoardState = BoardState(events: seq<Stroke>, undone: set<string>, visible: seq<Stroke>)

  const EMPTY := BoardState([], {}, [])

  predicate Undoes(e: Stroke, id: string) { e.action == Some(Undo) && e.target == Some(id) && id != "" }

  predicate Redoes(e: Stroke, id: string) { e.action == Some(Redo) && e.target == Some(id) && id != "" }

  predicate IsStroke(e: Stroke) { e.action.None? || e.action.value.Draw? }

  /** An undo or redo without a target to name draws, too. */
  predicate Draws(e: Stroke) { IsStroke(e) || e.target.None? || e.target.value == "" }

  datatype Kind = Drawing | UndoOf(id: string) | RedoOf(id: string)

  /** What an event asks for. */
  function KindOf(e: Stroke): (k: Kind)
    ensures forall id :: (k == UndoOf(id) <==> Undoes(e, id)) && (k == RedoOf(id) <==> Redoes(e, id))
    ensures k.Drawing? <==> Draws(e)
  {
    match (e.action, e.target)
    case (Some(Undo), Some(t)) => if t != "" then UndoOf(t) else Drawing
    case (Some(Redo), Some(t)) => if t != "" then RedoOf(t) else Drawing
    case _ => Drawing
  }

  function Without(s: seq<Stroke>, id: string): (r: seq<Stroke>)
    ensures forall x :: x in r <==> x in s && x.id != id
    ensures |r| <= |s|
  {
    if s == [] then []
    else
      var rest := Without(s[..|s| - 1], id);
      assert s == s[..|s| - 1] + [s[|s| - 1]];
      if s[|s| - 1].id == id then rest else rest + [s[|s| - 1]]
  }

  predicate HasId(s: seq<Stroke>, id: string) { exists k :: 0 <= k < |s| && s[k].id == id }

  /** The first drawing event with the given id, as `Array.find` returns it. */
  function FindStroke(s: seq<Stroke>, id: string): (r: Option<Stroke>)
    ensures r.Some? <==> exists k :: 0 <= k < |s| && IsStroke(s[k]) && s[k].id == id
    ensures r.Some? ==> exists k :: 0 <= k < |s| && s[k] == r.value && IsStroke(s[k]) && s[k].id == id
                                    && forall j :: 0 <= j < k ==> !(IsStroke(s[j]) && s[j].id == id)
  {
    if s == [] then None
    else
      var n := |s| - 1;
      var early := FindStroke(s[..n], id);
      if early.Some? then
        assert forall k :: 0 <= k < n ==> s[..n][k] == s[k];
        early
      else if IsStroke(s[n]) && s[n].id == id then
        assert forall k :: 0 <= k < n ==> s[..n][k] == s[k];
        Some(s[n])
      else
        assert forall k :: 0 <= k < n ==> s[..n][k] == s[k];
        None
  }

  /** One event on one board: the body shared by the replica and the gateway. */
  function Step(b: BoardState, e: Stroke): BoardState {
    var events := b.events + [e];
    match KindOf(e)
    case UndoOf(t) => BoardState(events, b.undone + {t}, Without(b.visible, t))
    case RedoOf(t) =>
      var found := if HasId(b.visible, t) then None else FindStroke(events, t);
      BoardState(events, b.undone - {t}, if found.Some? then b.visible + [found.value] else b.visible)
    case Drawing =>
      BoardState(events, b.undone, if e.id in b.undone then b.visible else b.visible + [e])
  }

  function Fold(b: BoardState, events: seq<Stroke>): BoardState {
    if events == [] then b else Step(Fold(b, events[..|events| - 1]), events[|events| - 1])
  }

  function Replay(events: seq<Stroke>): BoardState { Fold(EMPTY, events) }

  lemma FoldSnoc(b: BoardState, events: seq<Stroke>, e: Stroke)
    ensures Fold(b, events + [e]) == Step(Fold(b, events), e)
  {
    assert (events + [e])[..|events|] == events;
  }

  lemma {:induction false} FoldEvents(b: BoardState, events: seq<Stroke>)
    ensures Fold(b, events).events == b.events + events
  {
    if events != [] {
      FoldEvents(b, events[..|events| - 1]);
      assert events == events[..|events| - 1] + [events[|events| - 1]];
    }
  }

  lemma ReplayEvents(events: seq<Stroke>)
    ensures Replay(events).events == events
  {
    FoldEvents(EMPTY, events);
    assert [] + events == events;
  }

  // ----- closed form

  predicate Targets(e: Stroke, id: string) { Undoes(e, id) || Redoes(e, id) }

  /** The latest undo or redo aimed at `id` is an undo. */
  ghost predicate LatestIsUndo(events: seq<Stroke>, id: string) {
    exists k :: 0 <= k < |events| && Undoes(events[k], id)
                && forall j :: k < j < |events| ==> !Targets(events[j], id)
  }

  ghost predicate Drawn(events: seq<Stroke>, id: string) {
    exists k :: 0 <= k < |events| && Draws(events[k]) && events[k].id == id
  }

  /** Every undo and redo names a non-empty target. */
  ghost predicate AllTargeted(events: seq<Stroke>) {
    forall k :: 0 <= k < |events| ==> (IsStroke(events[k]) <==> Draws(events[k]))
  }

  lemma LatestIsUndoSnoc(events: seq<Stroke>, e: Stroke, id: string)
    ensures LatestIsUndo(events + [e], id) <==>
            if Targets(e, id) then Undoes(e, id) else LatestIsUndo(events, id)
  {
    var all := events + [e];
    if Targets(e, id) {
      assert all[|events|] == e;
    } else {
      if LatestIsUndo(all, id) {
        var k :| 0 <= k < |all| && Undoes(all[k], id) && forall j :: k < j < |all| ==> !Targets(all[j], id);
        assert k < |events|;
        assert forall j :: k < j < |events| ==> events[j] == all[j];
      }
      if LatestIsUndo(events, id) {
        var k :| 0 <= k < |events| && Undoes(events[k], id)
                 && forall j :: k < j < |events| ==> !Targets(events[j], id);
        assert all[k] == events[k];
      }
    }
  }

  lemma HasIdSnoc(s: seq<Stroke>, e: Stroke, id: string)
    ensures HasId(s + [e], id) <==> HasId(s, id) || e.id == id
  {
    if HasId(s, id) {
      var k :| 0 <= k < |s| && s[k].id == id;
      assert (s + [e])[k].id == id;
    }
    if e.id == id { assert (s + [e])[|s|].id == id; }
  }

  lemma HasIdMember(s: seq<Stroke>, id: string)
    ensures HasId(s, id) <==> exists x :: x in s && x.id == id
  {
    if x :| x in s && x.id == id {
      var k :| 0 <= k < |s| && s[k] == x;
    }
  }

  /** For every event list: the undone set is exactly the ids whose latest directive is an undo,
      every visible stroke was a drawing event of the list, and no visible stroke is undone. */
  lemma {:induction false} ReplaySound(events: seq<Stroke>)
    ensures forall id :: id in Replay(events).undone <==> LatestIsUndo(events, id)
    ensures forall s :: s in Replay(events).visible ==>
                          s in events && Draws(s) && s.id !in Replay(events).undone
  {
    if events != [] {
      var n := |events| - 1;
      var before, e := events[..n], events[n];
      assert events == before + [e];
      ReplaySound(before);
      FoldEvents(EMPTY, before);
      forall id ensures id in Replay(events).undone <==> LatestIsUndo(events, id) {
        LatestIsUndoSnoc(before, e, id);
      }
      var b := Replay(before);
      forall s | s in Replay(events).visible
        ensures s in events && Draws(s) && s.id !in Replay(events).undone
      {
        if s in b.visible {
          HasIdMember(b.visible, s.id);
        }
      }
    }
  }

  /** An id is on the board exactly when it was drawn and its latest directive is not an undo. */
  ghost predicate Closed(events: seq<Stroke>, id: string) {
    HasId(Replay(events).visible, id) <==> Drawn(events, id) && !LatestIsUndo(events, id)
  }

  /** A redo of something drawn and undone finds a stroke to bring back. */
  ghost predicate Redoable(before: seq<Stroke>, e: Stroke) {
    forall id :: Redoes(e, id) && Drawn(before, id) && LatestIsUndo(before, id) ==> FindStroke(before, id).Some?
  }

  ghost predicate AlwaysRedoable(events: seq<Stroke>, id: string) {
    forall k :: 0 <= k < |events| && Redoes(events[k], id) ==> Redoable(events[..k], events[k])
  }

  lemma DrawnSnoc(events: seq<Stroke>, e: Stroke, id: string)
    ensures Drawn(events + [e], id) <==> Drawn(events, id) || (Draws(e) && e.id == id)
  {
    var all := events + [e];
    assert all[|events|] == e;
    if Drawn(events, id) {
      var k :| 0 <= k < |events| && Draws(events[k]) && events[k].id == id;
      assert all[k] == events[k];
    }
  }

  lemma FindSnoc(events: seq<Stroke>, e: Stroke, id: string)
    ensures FindStroke(events + [e], id) ==
            if FindStroke(events, id).Some? then FindStroke(events, id)
            else if IsStroke(e) && e.id == id then Some(e) else None
  {
    assert (events + [e])[..|events|] == events;
  }

  lemma FoundWasDrawn(events: seq<Stroke>, id: string)
    requires FindStroke(events, id).Some?
    ensures Drawn(events, id)
  {
  }

  /** What one event does to whether `id` is shown. */
  lemma ShownStep(b: BoardState, e: Stroke, id: string)
    ensures HasId(Step(b, e).visible, id) <==>
            match KindOf(e)
            case UndoOf(t) => HasId(b.visible, id) && id != t
            case RedoOf(t) => HasId(b.visible, id) || (id == t && FindStroke(b.events, t).Some?)
            case Drawing => HasId(b.visible, id) || (id == e.id && id !in b.undone)
  {
    match KindOf(e) {
      case UndoOf(t) =>
        HasIdMember(Without(b.visible, t), id);
        HasIdMember(b.visible, id);
      case RedoOf(t) =>
        FindSnoc(b.events, e, t);
        if FindStroke(b.events, t).Some? {
          HasIdSnoc(b.visible, FindStroke(b.events, t).value, id);
        }
      case Drawing =>
        HasIdSnoc(b.visible, e, id);
    }
  }

  lemma UndoneExactly(events: seq<Stroke>, id: string)
    ensures id in Replay(events).undone <==> LatestIsUndo(events, id)
  {
    ReplaySound(events);
  }

  lemma ClosedStep(before: seq<Stroke>, e: Stroke, id: string)
    requires Closed(before, id)
    ensures Closed(before + [e], id) <==> (Redoes(e, id) ==> Redoable(before, e))
  {
    var shown, drawn, undone := HasId(Replay(before).visible, id), Drawn(before, id), LatestIsUndo(before, id);
    var found := FindStroke(before, id).Some?;
    assert shown <==> drawn && !undone;
    assert found ==> drawn by { if found { FoundWasDrawn(before, id); } }
    assert Drawn(before + [e], id) <==> drawn || (Draws(e) && e.id == id) by { DrawnSnoc(before, e, id); }
    assert LatestIsUndo(before + [e], id) <==> if Targets(e, id) then Undoes(e, id) else undone by {
      LatestIsUndoSnoc(before, e, id);
    }
    assert HasId(Replay(before + [e]).visible, id) <==>
        match KindOf(e)
        case UndoOf(t) => shown && id != t
        case RedoOf(t) => shown || (id == t && found)
        case Drawing => shown || (id == e.id && !undone)
    by {
      FoldSnoc(EMPTY, before, e);
      ReplayEvents(before);
      UndoneExactly(before, id);
      ShownStep(Replay(before), e, id);
    }
  }

  /** For every event list: the closed form holds after each event if and only if no redo of a drawn and
      undone id comes up empty. */
  lemma {:induction false} ClosedFormExactly(events: seq<Stroke>, id: string)
    ensures (forall k :: 0 <= k <= |events| ==> Closed(events[..k], id)) <==> AlwaysRedoable(events, id)
  {
    if events == [] {
      assert forall k :: 0 <= k <= 0 ==> events[..k] == [];
      assert Closed([], id);
    } else {
      var n := |events| - 1;
      var before, e := events[..n], events[n];
      assert forall k :: 0 <= k <= n ==> before[..k] == events[..k];
      assert forall k :: 0 <= k < n ==> before[k] == events[k];
      assert before[..n] == before && events[..n + 1] == events && before + [e] == events;
      ClosedFormExactly(before, id);
      assert AlwaysRedoable(events, id) <==>
          AlwaysRedoable(before, id) && (Redoes(e, id) ==> Redoable(before, e));
      if Closed(before, id) { ClosedStep(before, e, id); }
    }
  }

  /** In particular it holds whenever every undo and redo names a target. */
  lemma ClosedForm(events: seq<Stroke>, id: string)
    requires AllTargeted(events)
    ensures Closed(events, id)
  {
    ClosedFormExactly(events, id);
    forall k | 0 <= k < |events| && Redoes(events[k], id) ensures Redoable(events[..k], events[k]) {
      if j :| 0 <= j < k && Draws(events[..k][j]) && events[..k][j].id == id {
        assert IsStroke(events[j]);
      }
    }
    assert events[..|events|] == events;
  }

  /** The closed form does fail: an undo with a blank target draws itself,
      and once undone a redo cannot find it again. */
  lemma BlankUndoBreaksClosedForm(x: Stroke, u: Stroke, r: Stroke)
    requires x.action == Some(Undo) && x.target == Some("")
    requires Undoes(u, x.id) && Redoes(r, x.id)
    ensures var events := [x, u, r];
            Drawn(events, x.id) && !LatestIsUndo(events, x.id) && !HasId(Replay(events).visible, x.id)
  {
    var b1, b2 := BoardState([x], {}, [x]), BoardState([x, u], {x.id}, []);
    assert Step(EMPTY, x) == b1;
    assert Step(b1, u) == b2 by {
      assert [x] + [u] == [x, u] && [x][..0] == [];
      assert Without([x], x.id) == [];
    }
    assert Step(b2, r).visible == [] by {
      assert [x, u] + [r] == [x, u, r];
      assert FindStroke([x, u, r], x.id).None?;
    }
    assert [x, u, r] == [] + [x] + [u] + [r];
    FoldSnoc(EMPTY, [], x);
    FoldSnoc(EMPTY, [] + [x], u);
    FoldSnoc(EMPTY, [] + [x] + [u], r);
    assert Drawn([x, u, r], x.id) by { assert [x, u, r][0] == x; }
    LatestIsUndoSnoc([] + [x] + [u], r, x.id);
  }

  // ----- the same, field by field

  /** For every event list: an id is in the undone set exactly when it is not blank and the latest event that
      undoes or redoes it is an undo. */
  lemma UndoneByFields(events: seq<Stroke>, id: string)
    ensures id in Replay(events).undone <==>
            id != "" && exists k :: && 0 <= k < |events|
                                    && events[k].action == Some(Undo) && events[k].target == Some(id)
                                    && forall j :: k < j < |events| && events[j].target == Some(id) ==>
                                                     events[j].action != Some(Undo) && events[j].action != Some(Redo)
  {
    ReplaySound(events);
    if id != "" {
      if k :| && 0 <= k < |events| && events[k].action == Some(Undo) && events[k].target == Some(id)
              && forall j :: k < j < |events| && events[j].target == Some(id) ==>
                               events[j].action != Some(Undo) && events[j].action != Some(Redo)
      {
        assert Undoes(events[k], id);
        assert forall j :: k < j < |events| ==> !Targets(events[j], id);
      }
      if k :| 0 <= k < |events| && Undoes(events[k], id) && forall j :: k < j < |events| ==> !Targets(events[j], id) {
        assert forall j :: k < j < |events| && events[j].target == Some(id) ==> !Targets(events[j], id);
      }
    }
  }

  /** Every undo and redo names a target. */
  ghost predicate Named(events: seq<Stroke>) {
    forall k :: 0 <= k < |events| && (events[k].action == Some(Undo) || events[k].action == Some(Redo)) ==>
                  events[k].target.Some? && events[k].target.value != ""
  }

  lemma ShownUnlessUndone(events: seq<Stroke>, id: string)
    requires Named(events)
    ensures (exists s :: s in Replay(events).visible && s.id == id) <==>
            (exists k :: 0 <= k < |events| && IsStroke(events[k]) && events[k].id == id) && id !in Replay(events).undone
  {
    ClosedForm(events, id);
    UndoneExactly(events, id);
    HasIdMember(Replay(events).visible, id);
    if k :| 0 <= k < |events| && Draws(events[k]) && events[k].id == id {
      assert IsStroke(events[k]);
    }
  }

  /** When every undo and redo names a target: a stroke of an id is shown exactly when one was drawn, and no
      undo of the id is the latest event to undo or redo it. */
  lemma ShownByFields(events: seq<Stroke>, id: string)
    requires Named(events)
    ensures (exists s :: s in Replay(events).visible && s.id == id) <==>
            && (exists k :: 0 <= k < |events| && (events[k].action.None? || events[k].action == Some(Draw)) && events[k].id == id)
            && !(id != "" && exists k :: && 0 <= k < |events|
                                         && events[k].action == Some(Undo) && events[k].target == Some(id)
                                         && forall j :: k < j < |events| && events[j].target == Some(id) ==>
                                                          events[j].action != Some(Undo) && events[j].action != Some(Redo))
  {
    ShownUnlessUndone(events, id);
    UndoneByFields(events, id);
  }

  // ----- many boards

  type Boards = map<string, BoardState>

  function At(bs: Boards, board: string): BoardState { if board in bs then bs[board] else EMPTY }

  /** One committed event on the maps of a replica. */
  function ApplyEvent(bs: Boards, e: Stroke): Boards { bs[e.boardId := Step(At(bs, e.boardId), e)] }

  function ApplyAll(bs: Boards, events: seq<Stroke>): Boards {
    if events == [] then bs else ApplyEvent(ApplyAll(bs, events[..|events| - 1]), events[|events| - 1])
  }

  lemma ApplyAllSnoc(bs: Boards, events: seq<Stroke>, e: Stroke)
    ensures ApplyAll(bs, events + [e]) == ApplyEvent(ApplyAll(bs, events), e)
  {
    assert (events + [e])[..|events|] == events;
  }

  lemma {:induction false} ApplyAllConcat(bs: Boards, first: seq<Stroke>, second: seq<Stroke>)
    ensures ApplyAll(bs, first + second) == ApplyAll(ApplyAll(bs, first), second)
    decreases |second|
  {
    if second == [] {
      assert first + second == first;
    } else {
      var before, last := second[..|second| - 1], second[|second| - 1];
      assert ApplyAll(bs, first + second) == ApplyEvent(ApplyAll(bs, first + before), last) by {
        assert first + second == (first + before) + [last];
        ApplyAllSnoc(bs, first + before, last);
      }
      ApplyAllConcat(bs, first, before);
    }
  }

  function OnBoard(events: seq<Stroke>, board: string): (r: seq<Stroke>)
    ensures forall e :: e in r ==> e in events && e.boardId == board
  {
    if events == [] then []
    else
      var rest := OnBoard(events[..|events| - 1], board);
      if events[|events| - 1].boardId == board then rest + [events[|events| - 1]] else rest
  }

  /** What a snapshot stores: the event list of every board. */
  function EventLists(bs: Boards): map<string, seq<Stroke>> { map b | b in bs :: bs[b].events }

  /** Interleaving does not matter: each board of an interleaved replay is the replay of its own events. */
  lemma {:induction false} BoardsAreIndependent(events: seq<Stroke>, board: string)
    ensures var bs := ApplyAll(map[], events);
            && (board in bs <==> OnBoard(events, board) != [])
            && At(bs, board) == Replay(OnBoard(events, board))
            && At(bs, board).events == OnBoard(events, board)
  {
    if events != [] {
      var n := |events| - 1;
      BoardsAreIndependent(events[..n], board);
      if events[n].boardId == board {
        FoldSnoc(EMPTY, OnBoard(events[..n], board), events[n]);
      }
    }
    FoldEvents(EMPTY, OnBoard(events, board));
  }

  /** The lists of a snapshot replayed board by board, in the given order. */
  function Restore(order: seq<string>, lists: map<string, seq<Stroke>>): Boards
    requires forall b :: b in order ==> b in lists
  {
    if order == [] then map[]
    else ApplyAll(Restore(order[..|order| - 1], lists), lists[order[|order| - 1]])
  }

  /** Every list is filed under the board its events name. */
  ghost predicate Filed(lists: map<string, seq<Stroke>>) {
    forall b, e :: b in lists && e in lists[b] ==> e.boardId == b
  }

  /** The order-free meaning of a snapshot's lists. */
  function Rebuild(lists: map<string, seq<Stroke>>): Boards {
    map b | b in lists && lists[b] != [] :: Replay(lists[b])
  }

  ghost predicate Lists(order: seq<string>, keys: set<string>) {
    && (forall b :: b in keys <==> b in order)
    && (forall i, j :: 0 <= i < j < |order| ==> order[i] != order[j])
  }

  lemma {:induction false} ApplyOneBoard(bs: Boards, events: seq<Stroke>, board: string)
    requires forall e :: e in events ==> e.boardId == board
    ensures ApplyAll(bs, events) ==
            if events == [] then bs else bs[board := Fold(At(bs, board), events)]
  {
    if events != [] {
      var n := |events| - 1;
      ApplyOneBoard(bs, events[..n], board);
      assert events[n] in events;
    }
  }

  lemma {:induction false} RestoreInOrder(order: seq<string>, lists: map<string, seq<Stroke>>)
    requires Filed(lists)
    requires forall b :: b in order ==> b in lists
    requires forall i, j :: 0 <= i < j < |order| ==> order[i] != order[j]
    ensures Restore(order, lists) == map b | b in lists && b in order && lists[b] != [] :: Replay(lists[b])
  {
    if order != [] {
      var n := |order| - 1;
      RestoreInOrder(order[..n], lists);
      ApplyOneBoard(Restore(order[..n], lists), lists[order[n]], order[n]);
      assert order == order[..n] + [order[n]];
      assert order[n] !in order[..n];
    }
  }

  /** Replaying the lists board by board gives the same maps in every board order. */
  lemma RestoreAnyOrder(order: seq<string>, lists: map<string, seq<Stroke>>)
    requires Filed(lists) && Lists(order, lists.Keys)
    ensures Restore(order, lists) == Rebuild(lists)
  {
    RestoreInOrder(order, lists);
  }

  /** A board that is the replay of its own, non-empty and correctly filed, event list. */
  ghost predicate IsReplay(board: string, st: BoardState) {
    && st.events != []
    && st == Replay(st.events)
    && forall e :: e in st.events ==> e.boardId == board
  }

  ghost predicate Replayed(bs: Boards) { forall b :: b in bs ==> IsReplay(b, bs[b]) }

  lemma StepKeepsReplay(board: string, st: BoardState, e: Stroke)
    requires st == EMPTY || IsReplay(board, st)
    requires e.boardId == board
    ensures IsReplay(board, Step(st, e))
  {
    FoldSnoc(EMPTY, st.events, e);
    var after := Step(st, e);
    assert after.events == st.events + [e];
    assert forall x :: x in after.events ==> x in st.events || x == e;
  }

  lemma ApplyKeepsReplayed(bs: Boards, e: Stroke)
    requires Replayed(bs)
    ensures Replayed(ApplyEvent(bs, e))
  {
    StepKeepsReplay(e.boardId, At(bs, e.boardId), e);
  }

  lemma {:induction false} ApplyAllKeepsReplayed(bs: Boards, events: seq<Stroke>)
    requires Replayed(bs)
    ensures Replayed(ApplyAll(bs, events))
  {
    if events != [] {
      ApplyAllKeepsReplayed(bs, events[..|events| - 1]);
      ApplyKeepsReplayed(ApplyAll(bs, events[..|events| - 1]), events[|events| - 1]);
    }
  }

  lemma RebuildInverts(bs: Boards)
    requires Replayed(bs)
    ensures Filed(EventLists(bs)) && Rebuild(EventLists(bs)) == bs
  {
    var lists := EventLists(bs);
    forall b | b in bs ensures b in Rebuild(lists) && Rebuild(lists)[b] == bs[b] {
      assert IsReplay(b, bs[b]) && lists[b] == bs[b].events;
    }
    assert Filed(lists) by {
      forall b: string, e: Stroke | b in lists && e in lists[b] ensures e.boardId == b {
        assert IsReplay(b, bs[b]);
      }
    }
  }

  lemma RebuildIsReplayed(lists: map<string, seq<Stroke>>)
    requires Filed(lists)
    ensures Replayed(Rebuild(lists))
  {
    forall b | b in Rebuild(lists)
      ensures Rebuild(lists)[b].events == lists[b]
    {
      FoldEvents(EMPTY, lists[b]);
    }
  }

  /** A snapshot means the log it replaces: saving the event lists of an interleaved log and replaying
      them, board by board in any order, gives back the very maps the log had produced, and applying
      the rest of the log on top gives what applying the whole log would have. */
  lemma SnapshotPreservesMeaning(covered: seq<Stroke>, rest: seq<Stroke>, order: seq<string>)
    requires Lists(order, ApplyAll(map[], covered).Keys)
    ensures var lists := EventLists(ApplyAll(map[], covered));
            && Restore(order, lists) == ApplyAll(map[], covered)
            && ApplyAll(Restore(order, lists), rest) == ApplyAll(map[], covered + rest)
            && forall b :: b in lists ==> lists[b] == OnBoard(covered, b)
  {
    var bs := ApplyAll(map[], covered);
    ApplyAllKeepsReplayed(map[], covered);
    RebuildInverts(bs);
    RestoreAnyOrder(order, EventLists(bs));
    ApplyAllConcat(map[], covered, rest);
    forall b | b in EventLists(bs) ensures EventLists(bs)[b] == OnBoard(covered, b) {
      BoardsAreIndependent(covered, b);
    }
  }
}
