/** The gateway's copy of the board: one mutable record per board. */
module Gateway {
  import opened Types
  import opened Board

  class BoardRecord {
    var strokes: seq<Stroke>
    var events: seq<Stroke>
    var undoneStrokeIds: set<string>

    constructor ()
      ensures State() == EMPTY
    {
      strokes, events, undoneStrokeIds := [], [], {};
    }

    function State(): BoardState reads this { BoardState(events, undoneStrokeIds, strokes) }

    /** The step a replica takes. */
    method Take(stroke: Stroke)
      modifies this
      ensures State() == Step(old(State()), stroke)
    {
      events := events + [stroke];
      match KindOf(stroke) {
        case UndoOf(target) =>
          undoneStrokeIds := undoneStrokeIds + {target};
          strokes := Without(strokes, target);
        case RedoOf(target) =>
          undoneStrokeIds := undoneStrokeIds - {target};
          if !HasId(strokes, target) {
            var found := FindStroke(events, target);
            if found.Some? { strokes := strokes + [found.value]; }
          }
        case Drawing =>
          if stroke.id !in undoneStrokeIds { strokes := strokes + [stroke]; }
      }
    }
  }

  class BoardManager {
    var boards: map<string, BoardRecord>

    /** Every board has a record of its own. */
    ghost predicate Valid()
      reads this
    {
      forall a, b :: a in boards && b in boards && a != b ==> boards[a] != boards[b]
    }

    function Records(): set<BoardRecord> reads this { set b | b in boards :: boards[b] }

    function StateOf(board: string): BoardState
      reads this, Records()
    {
      if board in boards then boards[board].State() else EMPTY
    }

    constructor ()
      ensures Valid() && boards == map[]
    {
      boards := map[];
    }

    method GetOrCreateBoard(board: string) returns (r: BoardRecord)
      requires Valid()
      modifies this
      ensures Valid() && board in boards && r == boards[board]
      ensures forall b :: b in old(boards) ==> b in boards && boards[b] == old(boards[b])
      ensures forall b :: b in boards && b !in old(boards) ==> b == board && fresh(boards[b])
      ensures forall b :: StateOf(b) == old(StateOf(b))
      ensures Records() <= old(Records()) + {r}
    {
      if board in boards { return boards[board]; }
      r := new BoardRecord();
      boards := boards[board := r];
    }

    /** The event is taken in by its board's record, and by no other. */
    method AddStroke(board: string, stroke: Stroke)
      requires Valid()
      modifies this, Records()
      ensures Valid() && board in boards
      ensures StateOf(board) == Step(old(StateOf(board)), stroke)
      ensures forall b :: b != board ==> StateOf(b) == old(StateOf(b))
    {
      var r := GetOrCreateBoard(board);
      assert forall b :: b in boards && b != board ==> boards[b] != r;
      r.Take(stroke);
    }
  }
}
