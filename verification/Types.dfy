/** The values the replicas exchange: strokes, log entries and remote calls. */
module Types {

  datatype Option<+T> = None | Some(value: T)

  type NodeId = nat

  datatype Action = Draw | Undo | Redo

  /** The part of a stroke that only the canvas looks at. */
  datatype Ink = Ink(userId: string, color: string, width: real, points: seq<(real, real)>, timestamp: int)

  /** `action` and `target` are optional in the wire format; see `Kind`. */
  datatype Stroke = Stroke(id: string, boardId: string, ink: Ink, action: Option<Action>, target: Option<string>)

  datatype Entry = Entry(index: nat, term: nat, stroke: Stroke)

  datatype Role = Follower | Candidate | Leader

  datatype VoteArgs = VoteArgs(term: nat, candidate: NodeId, lastIndex: nat, lastTerm: nat)
  datatype VoteResult = VoteResult(term: nat, granted: bool)

  datatype AppendArgs = AppendArgs(term: nat, leader: NodeId, prevIndex: nat, prevTerm: nat,
                                   entries: seq<Entry>, commit: nat)
  datatype AppendResult = AppendResult(term: nat, success: bool, logLength: nat)

  datatype BeatArgs = BeatArgs(term: nat, leader: NodeId, commit: nat)
  datatype BeatResult = BeatResult(term: nat, success: bool)

  /** `boards` holds, per board, the list of events applied to it. */
  datatype Snapshot = Snapshot(lastIndex: nat, lastTerm: nat, boards: map<string, seq<Stroke>>)
  datatype InstallArgs = InstallArgs(term: nat, leader: NodeId, snapshot: Snapshot)

  function Min(a: nat, b: nat): nat { if a <= b then a else b }

  function Max(a: nat, b: nat): nat { if a >= b then a else b }
}
