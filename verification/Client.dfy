/** The browser's form of the board: an archive of drawings instead of an event list and undone set. It
    follows the replica's board only as long as ids are drawn once, and not while undone, and no redo comes
    up empty. */
module Client {
  import opened Types
  import opened Board

  datatype ClientState = ClientState(strokes: seq<Stroke>, archive: map<string, Stroke>)

  const BLANK := ClientState([], map[])

  function ClientStep(c: ClientState, e: Stroke): ClientState {
    match KindOf(e)
    case UndoOf(t) => c.(strokes := Without(c.strokes, t))
    case RedoOf(t) =>
      if HasId(c.strokes, t) || t !in c.archive then c else c.(strokes := c.strokes + [c.archive[t]])
    case Drawing =>
      if HasId(c.strokes, e.id) then c else ClientState(c.strokes + [e], c.archive[e.id := e])
  }

  class BoardHook {
    var archive: map<string, Stroke>

    constructor ()
      ensures archive == map[]
    {
      archive := map[];
    }

    /** Returns the new list and writes the archive. */
    method ApplyStrokeEvent(current: seq<Stroke>, event: Stroke) returns (next: seq<Stroke>)
      modifies this
      ensures ClientState(next, archive) == ClientStep(ClientState(current, old(archive)), event)
    {
      match KindOf(event) {
        case UndoOf(target) => return Without(current, target);
        case RedoOf(target) =>
          if HasId(current, target) || target !in archive { return current; }
          return current + [archive[target]];
        case Drawing =>
          if HasId(current, event.id) { return current; }
          archive := archive[event.id := event];
          next := current + [event];
      }
    }
  }

  function ClientReplay(events: seq<Stroke>): ClientState {
    if events == [] then BLANK else ClientStep(ClientReplay(events[..|events| - 1]), events[|events| - 1])
  }

  // ----- when client and replica agree

  /** The event draws, under an id that is new and not undone at that point. */
  ghost predicate FreshDraw(before: seq<Stroke>, e: Stroke) {
    Draws(e) ==> !Drawn(before, e.id) && !LatestIsUndo(before, e.id)
  }

  /** Every drawing so far was fresh and every redo found its stroke. */
  ghost predicate Plain(events: seq<Stroke>) {
    events != [] ==>
      var before, e := events[..|events| - 1], events[|events| - 1];
      Plain(before) && FreshDraw(before, e) && Redoable(before, e)
  }

  /** After every event so far, both show the same list. */
  ghost predicate Agree(events: seq<Stroke>) {
    Same(events) && (events != [] ==> Agree(events[..|events| - 1]))
  }

  ghost predicate Same(events: seq<Stroke>) { ClientReplay(events).strokes == Replay(events).visible }

  /** The archive holds each drawn id, with the drawing a redo would find if it finds one. */
  ghost predicate Archived(events: seq<Stroke>) { forall id :: ArchivedId(events, id) }

  ghost predicate ArchivedId(events: seq<Stroke>, id: string) {
    var archive := ClientReplay(events).archive;
    && (id in archive <==> Drawn(events, id))
    && (FindStroke(events, id).Some? && id in archive ==> FindStroke(events, id).value == archive[id])
  }

  /** A drawing under a fresh id is not on the board yet. */
  lemma ShownWasDrawn(events: seq<Stroke>, id: string)
    requires HasId(Replay(events).visible, id)
    ensures Drawn(events, id) && !LatestIsUndo(events, id) && id !in Replay(events).undone
  {
    ReplaySound(events);
    var k :| 0 <= k < |Replay(events).visible| && Replay(events).visible[k].id == id;
    var s := Replay(events).visible[k];
    assert s in events;
    var j :| 0 <= j < |events| && events[j] == s;
  }

  lemma ClientSnoc(events: seq<Stroke>, e: Stroke)
    ensures ClientReplay(events + [e]) == ClientStep(ClientReplay(events), e)
  {
    assert (events + [e])[..|events|] == events;
  }

  lemma ArchiveIdSnoc(events: seq<Stroke>, e: Stroke, id: string)
    requires ArchivedId(events, id) && FreshDraw(events, e) && Same(events)
    requires HasId(Replay(events).visible, e.id) ==> Drawn(events, e.id)
    ensures ArchivedId(events + [e], id)
  {
    ClientSnoc(events, e);
    DrawnSnoc(events, e, id);
    FindSnoc(events, e, id);
    if FindStroke(events, id).Some? { FoundWasDrawn(events, id); }
  }

  lemma ArchiveSnoc(events: seq<Stroke>, e: Stroke)
    requires Archived(events) && FreshDraw(events, e) && Same(events)
    ensures Archived(events + [e])
  {
    if HasId(Replay(events).visible, e.id) { ShownWasDrawn(events, e.id); }
    forall id ensures ArchivedId(events + [e], id) {
      assert ArchivedId(events, id);
      ArchiveIdSnoc(events, e, id);
    }
  }

  lemma DrawAgrees(events: seq<Stroke>, e: Stroke)
    requires KindOf(e).Drawing? && Same(events) && Closed(events, e.id)
    ensures ClientStep(ClientReplay(events), e).strokes == Step(Replay(events), e).visible <==> FreshDraw(events, e)
  {
    ReplaySound(events);
    var shown := Replay(events).visible;
    assert |shown + [e]| != |shown|;
  }

  lemma RedoAgrees(events: seq<Stroke>, e: Stroke)
    requires KindOf(e).RedoOf? && ArchivedId(events, KindOf(e).id) && Same(events) && Closed(events, KindOf(e).id)
    ensures ClientStep(ClientReplay(events), e).strokes == Step(Replay(events), e).visible <==> Redoable(events, e)
  {
    var t, c, b := KindOf(e).id, ClientReplay(events), Replay(events);
    ReplayEvents(events);
    FindSnoc(events, e, t);
    if HasId(b.visible, t) {
      assert ClientStep(c, e).strokes == c.strokes && Step(b, e).visible == b.visible;
    } else {
      if t in c.archive {
        assert |c.strokes + [c.archive[t]]| != |b.visible|;
        assert ClientStep(c, e).strokes == c.strokes + [c.archive[t]];
      } else {
        assert ClientStep(c, e).strokes == c.strokes;
      }
      if FindStroke(events, t).Some? {
        FoundWasDrawn(events, t);
        assert Step(b, e).visible == b.visible + [FindStroke(events, t).value];
      } else {
        assert Step(b, e).visible == b.visible;
      }
    }
  }

  /** One event keeps the lists equal exactly when it is no drawing of a used or undone id, and no redo
      that comes up empty. */
  lemma StepAgrees(events: seq<Stroke>, e: Stroke)
    requires Archived(events) && Same(events) && forall id :: Closed(events, id)
    ensures Same(events + [e]) <==> FreshDraw(events, e) && Redoable(events, e)
  {
    ClientSnoc(events, e);
    FoldSnoc(EMPTY, events, e);
    match KindOf(e) {
      case UndoOf(_) =>
      case RedoOf(t) =>
        assert ArchivedId(events, t) && Closed(events, t);
        RedoAgrees(events, e);
      case Drawing =>
        assert Closed(events, e.id);
        DrawAgrees(events, e);
    }
  }

  lemma {:induction false} PlainIsClosed(events: seq<Stroke>, id: string)
    requires Plain(events)
    ensures Closed(events, id)
  {
    if events != [] {
      var before, e := events[..|events| - 1], events[|events| - 1];
      assert events == before + [e];
      PlainIsClosed(before, id);
      ClosedStep(before, e, id);
    }
  }

  lemma {:induction false} PlainKeepsArchive(events: seq<Stroke>)
    requires Plain(events) && Agree(events)
    ensures Archived(events)
  {
    if events == [] {
      forall id ensures ArchivedId([], id) {}
    } else {
      var before, e := events[..|events| - 1], events[|events| - 1];
      assert events == before + [e];
      PlainKeepsArchive(before);
      ArchiveSnoc(before, e);
    }
  }

  /** For every event list: client and replica show the same strokes after each event if and only if each
      drawing comes under an id neither drawn before nor undone, and no redo comes up empty. */
  lemma {:induction false} ClientAgreesExactly(events: seq<Stroke>)
    ensures Agree(events) <==> Plain(events)
  {
    if events != [] {
      var before, e := events[..|events| - 1], events[|events| - 1];
      assert events == before + [e];
      ClientAgreesExactly(before);
      if Plain(before) {
        PlainKeepsArchive(before);
        forall id ensures Closed(before, id) { PlainIsClosed(before, id); }
        StepAgrees(before, e);
      }
    }
  }

  // ----- the client alone

  /** Event `k` leaves a stroke of the id on the list: a drawing under it, or a redo of an id drawn before. */
  ghost predicate Brings(events: seq<Stroke>, k: nat, id: string)
    requires k < |events|
  {
    (Draws(events[k]) && events[k].id == id) || (Redoes(events[k], id) && Drawn(events[..k], id))
  }

  /** The latest event that brings the id or undoes it brings it. */
  ghost predicate Brought(events: seq<Stroke>, id: string) {
    exists k: nat :: k < |events| && Brings(events, k, id) && forall j :: k < j < |events| ==> !Undoes(events[j], id)
  }

  lemma BroughtSnoc(events: seq<Stroke>, e: Stroke, id: string)
    ensures Brought(events + [e], id) <==>
            || (Draws(e) && e.id == id) || (Redoes(e, id) && Drawn(events, id))
            || (Brought(events, id) && !Undoes(e, id))
  {
    var all, n := events + [e], |events|;
    assert all[..n] == events && all[n] == e;
    forall k: nat | k < n ensures Brings(all, k, id) <==> Brings(events, k, id) {
      assert all[..k] == events[..k] && all[k] == events[k];
    }
    if Brought(all, id) {
      var k: nat :| k < |all| && Brings(all, k, id) && forall j :: k < j < |all| ==> !Undoes(all[j], id);
      if k < n { assert forall j :: k < j < n ==> events[j] == all[j]; }
    }
    if Brought(events, id) && !Undoes(e, id) {
      var k: nat :| k < n && Brings(events, k, id) && forall j :: k < j < n ==> !Undoes(events[j], id);
      assert Brings(all, k, id) && forall j :: k < j < |all| ==> !Undoes(all[j], id);
    }
    if (Draws(e) && e.id == id) || (Redoes(e, id) && Drawn(events, id)) {
      assert Brings(all, n, id);
    }
  }

  ghost predicate Apart(s: seq<Stroke>) { forall i, j :: 0 <= i < j < |s| ==> s[i].id != s[j].id }

  ghost predicate FromArchive(c: ClientState) { forall s :: s in c.strokes ==> s.id in c.archive && c.archive[s.id] == s }

  /** The list shows an id at most once, exactly when it is brought and not undone since, and with the drawing
      that the archive has; the archive has every id ever drawn. */
  ghost predicate Kept(events: seq<Stroke>) {
    var c := ClientReplay(events);
    && Apart(c.strokes) && FromArchive(c)
    && (forall id :: id in c.archive <==> Drawn(events, id))
    && (forall id :: HasId(c.strokes, id) <==> Brought(events, id))
  }

  lemma {:induction false} WithoutKeepsApart(s: seq<Stroke>, id: string)
    requires Apart(s)
    ensures Apart(Without(s, id))
  {
    if s != [] {
      var front, last := s[..|s| - 1], s[|s| - 1];
      WithoutKeepsApart(front, id);
      assert forall x :: x in Without(front, id) ==> x in front;
    }
  }

  lemma AddKeepsApart(s: seq<Stroke>, x: Stroke)
    requires Apart(s) && !HasId(s, x.id)
    ensures Apart(s + [x])
  {
  }

  lemma StepKeepsApart(c: ClientState, e: Stroke)
    requires Apart(c.strokes) && (forall id :: id in c.archive ==> c.archive[id].id == id)
    ensures Apart(ClientStep(c, e).strokes)
  {
    match KindOf(e) {
      case UndoOf(t) => WithoutKeepsApart(c.strokes, t);
      case RedoOf(t) => if !HasId(c.strokes, t) && t in c.archive { AddKeepsApart(c.strokes, c.archive[t]); }
      case Drawing => if !HasId(c.strokes, e.id) { AddKeepsApart(c.strokes, e); }
    }
  }

  lemma StepFromArchive(c: ClientState, e: Stroke)
    requires FromArchive(c) && (forall id :: id in c.archive ==> c.archive[id].id == id)
    ensures FromArchive(ClientStep(c, e))
  {
    HasIdMember(c.strokes, e.id);
  }

  /** What one event does to whether the list shows `id`. */
  lemma ClientShows(c: ClientState, e: Stroke, id: string)
    requires forall id :: id in c.archive ==> c.archive[id].id == id
    ensures HasId(ClientStep(c, e).strokes, id) <==>
            || (Draws(e) && e.id == id) || (Redoes(e, id) && id in c.archive)
            || (HasId(c.strokes, id) && !Undoes(e, id))
  {
    match KindOf(e) {
      case UndoOf(t) =>
        HasIdMember(Without(c.strokes, t), id);
        HasIdMember(c.strokes, id);
      case RedoOf(t) => if t in c.archive { HasIdSnoc(c.strokes, c.archive[t], id); }
      case Drawing => HasIdSnoc(c.strokes, e, id);
    }
  }

  lemma {:induction false} ArchiveIds(events: seq<Stroke>, id: string)
    requires id in ClientReplay(events).archive
    ensures ClientReplay(events).archive[id].id == id
  {
    if id in ClientReplay(events[..|events| - 1]).archive { ArchiveIds(events[..|events| - 1], id); }
  }

  lemma KeptSnoc(events: seq<Stroke>, e: Stroke)
    requires Kept(events)
    ensures Kept(events + [e])
  {
    var c := ClientReplay(events);
    ClientSnoc(events, e);
    forall id | id in c.archive ensures c.archive[id].id == id { ArchiveIds(events, id); }
    StepKeepsApart(c, e);
    StepFromArchive(c, e);
    forall id ensures id in ClientStep(c, e).archive <==> Drawn(events + [e], id) {
      DrawnSnoc(events, e, id);
      if Draws(e) && HasId(c.strokes, e.id) { HasIdMember(c.strokes, e.id); }
    }
    forall id ensures HasId(ClientStep(c, e).strokes, id) <==> Brought(events + [e], id) {
      BroughtSnoc(events, e, id);
      ClientShows(c, e, id);
    }
  }

  /** So it is for every event list, also after the client has come to differ from the replica. */
  lemma {:induction false} ClientExactly(events: seq<Stroke>)
    ensures Kept(events)
  {
    if events != [] {
      ClientExactly(events[..|events| - 1]);
      KeptSnoc(events[..|events| - 1], events[|events| - 1]);
      assert events == events[..|events| - 1] + [events[|events| - 1]];
    }
  }
}
