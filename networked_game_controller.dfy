/** The server side of a networked game (NetworkedGameController): the turn gate on the
    acting seat's id, error routing to the acting seat only, and the fan-out of every
    accepted action to both seats' connections.

    Each connection is an outbox of the calls made on it. The Board is not part of this
    model: the controller sees it as a `Board` value (the current id, the previous
    player, both players and the current player's occupiable positions), and what
    `board.movePawn` and `board.placeWalls` answer is given as a parameter (a
    `MoveReply` or `WallReply`). */
module Server {
  import opened JavaText
  import opened Protocol

  /** The calls the controller makes on a seat's connection (a ClientSocketIOThread). */
  datatype Message =
    | AvailableMove(x: int, y: int)
    | ErrorMessage(text: string)
    | PawnUpdate(x: int, y: int, playerId: int)
    | StatsUpdate(moveCount: int, wallCount: int, playerId: int)
    | CurrentPlayerUpdate(playerId: int)
    | WallUpdate(topLeftX: int, topLeftY: int, orientation: WallPlacement, playerId: int)
    | ResetWalls

  /** A seat's connection: every call made on it, in order. */
  class Connection {
    var outbox: seq<Message>

    constructor ()
      ensures outbox == []
    {
      outbox := [];
    }

    method Send(m: Message)
      modifies this
      ensures outbox == old(outbox) + [m]
    {
      outbox := outbox + [m];
    }
  }

  /** What the controller reads of a Player. */
  datatype PlayerInfo = PlayerInfo(id: int, x: int, y: int, moveCount: int, wallCount: int)

  /** What the controller reads of the Board. */
  datatype Board = Board(currentId: int, player1: PlayerInfo, player2: PlayerInfo,
                         previous: PlayerInfo, occupiable: seq<Cell>)

  /** `board.movePawn(x, y)`: the board afterwards and whether the game is over, or the
      message of the IllegalArgumentException it throws. */
  datatype MoveReply = MoveDone(after: Board, gameOver: bool) | MoveRefused(message: string)

  /** `board.placeWalls(x, y, orientation)`: the board afterwards, or the message of the
      IllegalStateException it throws. */
  datatype WallReply = WallDone(after: Board) | WallRefused(message: string)

  /** One call into the controller, with the board's answer where the controller asks it. */
  datatype Request =
    | MoveRequest(x: int, y: int, playerID: int, moveReply: MoveReply)
    | WallRequest(topLeftX: int, topLeftY: int, orientation: WallPlacement, playerID: int, wallReply: WallReply)
    | AvailableRequest

  /** The board and both outboxes. */
  datatype Session = Session(board: Board, out1: seq<Message>, out2: seq<Message>)

  const NotYourTurn := "It isn't your turn."

  /** The error routing the controller repeats: seat 1 or seat 2 gets the text if it is
      the acting seat; an id that is neither reaches nobody. */
  function ErrorTo(playerID: int, seat: int, text: string): seq<Message> {
    if playerID == seat then [ErrorMessage(text)] else []
  }

  /** `sendPawnUpdate(previous)` as one connection sees it. */
  function PawnUpdates(b: Board): seq<Message> {
    var p := b.previous;
    [PawnUpdate(p.x, p.y, p.id), StatsUpdate(p.moveCount, p.wallCount, p.id), CurrentPlayerUpdate(b.currentId)]
  }

  /** `sendGUIResetCommands` as one connection sees it: its own player first. The other
      player's stats carry that player's move count in the wall-count place. */
  function ResetCommands(own: PlayerInfo, other: PlayerInfo): seq<Message> {
    [StatsUpdate(own.moveCount, own.wallCount, own.id), StatsUpdate(other.moveCount, other.moveCount, other.id),
     PawnUpdate(own.x, own.y, own.id), PawnUpdate(other.x, other.y, other.id), ResetWalls]
  }

  function ResetCommandsFor(b: Board, seat: int): seq<Message> {
    if seat == 1 then ResetCommands(b.player1, b.player2) else ResetCommands(b.player2, b.player1)
  }

  /** `sendWallUpdate` as one connection sees it. */
  function WallUpdates(b: Board, x: int, y: int, o: WallPlacement): seq<Message> {
    var p := b.previous;
    [WallUpdate(x, y, o, p.id), StatsUpdate(p.moveCount, p.wallCount, p.id), CurrentPlayerUpdate(b.currentId)]
  }

  /** The highlights `showCurrentPlayerMoves` sends to each connection: one per
      occupiable position, in board order, at doubled (GUI grid) coordinates. */
  function Highlights(cells: seq<Cell>): (r: seq<Message>)
    ensures |r| == |cells|
    ensures forall k :: 0 <= k < |cells| ==> r[k] == AvailableMove(2 * cells[k].x, 2 * cells[k].y)
  {
    if cells == [] then []
    else
      var last := cells[|cells| - 1];
      Highlights(cells[..|cells| - 1]) + [AvailableMove(last.x * 2, last.y * 2)]
  }

  /** The action is turned away: an out-of-turn move, or the board refusing it. */
  predicate Rejected(b: Board, r: Request) {
    match r
    case MoveRequest(_, _, p, reply) => p != b.currentId || reply.MoveRefused?
    case WallRequest(_, _, _, _, reply) => reply.WallRefused?
    case AvailableRequest => false
  }

  /** The text a rejected action sends back. */
  function Reason(b: Board, r: Request): string
    requires Rejected(b, r)
  {
    match r
    case MoveRequest(_, _, p, reply) => if p != b.currentId then NotYourTurn else reply.message
    case WallRequest(_, _, _, _, reply) => reply.message
  }

  predicate ActedBy(r: Request, seat: int) {
    !r.AvailableRequest? && r.playerID == seat
  }

  predicate EndsGame(r: Request) {
    r.MoveRequest? && r.moveReply.MoveDone? && r.moveReply.gameOver
  }

  function NextBoard(b: Board, r: Request): Board {
    match r
    case MoveRequest(_, _, p, reply) => if p == b.currentId && reply.MoveDone? then reply.after else b
    case WallRequest(_, _, _, _, reply) => if reply.WallDone? then reply.after else b
    case AvailableRequest => b
  }

  /** What connection `seat` receives while the controller handles `r`. */
  function Delivered(b: Board, r: Request, seat: int): seq<Message> {
    match r
    case MoveRequest(_, _, p, reply) =>
      if p != b.currentId then ErrorTo(p, seat, NotYourTurn)
      else (
        match reply
        case MoveRefused(message) => ErrorTo(p, seat, message)
        case MoveDone(after, gameOver) =>
          PawnUpdates(after) + (if gameOver then ResetCommandsFor(after, seat) else []))
    case WallRequest(x, y, o, p, reply) =>
      (match reply
       case WallRefused(message) => ErrorTo(p, seat, message)
       case WallDone(after) => WallUpdates(after, x, y, o))
    case AvailableRequest => Highlights(b.occupiable)
  }

  /** Who is sent what for one request: a rejected action reaches its acting seat alone,
      as exactly one error line, and an error line reaches no other seat. */
  lemma DeliveredRouting(b: Board, r: Request, seat: int)
    ensures Rejected(b, r) && !ActedBy(r, seat) ==> Delivered(b, r, seat) == []
    ensures Rejected(b, r) && ActedBy(r, seat) ==> Delivered(b, r, seat) == [ErrorMessage(Reason(b, r))]
    ensures forall m | m in Delivered(b, r, seat) :: m.ErrorMessage? ==> ActedBy(r, seat)
  {
  }

  /** An accepted action that does not end the game is sent identically to both seats. */
  lemma DeliveredAlike(b: Board, r: Request)
    ensures !Rejected(b, r) && !EndsGame(r) ==> Delivered(b, r, 1) == Delivered(b, r, 2)
  {
  }

  /** The controller handling one request. */
  function Serve(s: Session, r: Request): (t: Session)
    // outboxes only grow
    ensures s.out1 <= t.out1 && s.out2 <= t.out2
    // a rejected action never touches the board ...
    ensures Rejected(s.board, r) ==> t.board == s.board
    // ... reaches no seat but the acting one ...
    ensures Rejected(s.board, r) && !ActedBy(r, 1) ==> t.out1 == s.out1
    ensures Rejected(s.board, r) && !ActedBy(r, 2) ==> t.out2 == s.out2
    // ... and reaches the acting seat as exactly one error line
    ensures Rejected(s.board, r) && ActedBy(r, 1) ==> t.out1 == s.out1 + [ErrorMessage(Reason(s.board, r))]
    ensures Rejected(s.board, r) && ActedBy(r, 2) ==> t.out2 == s.out2 + [ErrorMessage(Reason(s.board, r))]
    // a move is gated on the acting id; the turn error is the fixed text
    ensures r.MoveRequest? && r.playerID != s.board.currentId ==> Rejected(s.board, r) && Reason(s.board, r) == NotYourTurn
    // placing a wall is not gated on the turn: the board's answer alone decides
    ensures r.WallRequest? && r.wallReply.WallDone? ==> !Rejected(s.board, r) && t.board == r.wallReply.after
    // no error line ever reaches a seat that did not act
    ensures forall m | m in t.out1[|s.out1|..] :: m.ErrorMessage? ==> ActedBy(r, 1)
    ensures forall m | m in t.out2[|s.out2|..] :: m.ErrorMessage? ==> ActedBy(r, 2)
    // an accepted action that does not end the game shows both seats the same updates
    ensures !Rejected(s.board, r) && !EndsGame(r) ==> t.out1[|s.out1|..] == t.out2[|s.out2|..]
  {
    var t := Session(NextBoard(s.board, r), s.out1 + Delivered(s.board, r, 1), s.out2 + Delivered(s.board, r, 2));
    DeliveredRouting(s.board, r, 1);
    DeliveredRouting(s.board, r, 2);
    DeliveredAlike(s.board, r);
    assert t.out1[|s.out1|..] == Delivered(s.board, r, 1);
    assert t.out2[|s.out2|..] == Delivered(s.board, r, 2);
    t
  }

  /** The controller handling a sequence of requests, one at a time. */
  function ServeAll(s: Session, rs: seq<Request>): Session
    decreases |rs|
  {
    if rs == [] then s else ServeAll(Serve(s, rs[0]), rs[1..])
  }

  /** The state updates in an outbox: everything but the error lines. */
  function Updates(ms: seq<Message>): seq<Message>
    decreases |ms|
  {
    if ms == [] then []
    else (if ms[0].ErrorMessage? then [] else [ms[0]]) + Updates(ms[1..])
  }

  lemma {:induction false} UpdatesAppend(a: seq<Message>, b: seq<Message>)
    ensures Updates(a + b) == Updates(a) + Updates(b)
    decreases |a|
  {
    if a != [] {
      assert (a + b)[0] == a[0];
      assert (a + b)[1..] == a[1..] + b;
      UpdatesAppend(a[1..], b);
    } else {
      assert a + b == b;
    }
  }

  lemma {:induction false} UpdatesOfErrors(ms: seq<Message>)
    requires forall i :: 0 <= i < |ms| ==> ms[i].ErrorMessage?
    ensures Updates(ms) == []
    decreases |ms|
  {
    if ms != [] {
      UpdatesOfErrors(ms[1..]);
    }
  }

  /** Apart from error lines, both seats are sent the same thing for any request that
      does not end the game. */
  lemma SameUpdatesForOneRequest(b: Board, r: Request)
    requires !EndsGame(r)
    ensures Updates(Delivered(b, r, 1)) == Updates(Delivered(b, r, 2))
  {
    if Rejected(b, r) {
      UpdatesOfErrors(Delivered(b, r, 1));
      UpdatesOfErrors(Delivered(b, r, 2));
    }
  }

  /** Broadcast consistency: seats that have been shown the same state updates are still
      shown the same ones after any run of requests in which no game ends. */
  lemma {:induction false} SeatsSeeSameUpdates(s: Session, rs: seq<Request>)
    requires Updates(s.out1) == Updates(s.out2)
    requires forall i :: 0 <= i < |rs| ==> !EndsGame(rs[i])
    ensures Updates(ServeAll(s, rs).out1) == Updates(ServeAll(s, rs).out2)
    decreases |rs|
  {
    if rs != [] {
      var next := Serve(s, rs[0]);
      SameUpdatesForOneRequest(s.board, rs[0]);
      UpdatesAppend(s.out1, Delivered(s.board, rs[0], 1));
      UpdatesAppend(s.out2, Delivered(s.board, rs[0], 2));
      SeatsSeeSameUpdates(next, rs[1..]);
    }
  }

  /** The move and wall counts a seat was last sent for player `id`. */
  function LatestStats(ms: seq<Message>, id: int): Option<(int, int)>
    decreases |ms|
  {
    if ms == [] then None
    else
      var m := ms[|ms| - 1];
      if m.StatsUpdate? && m.playerId == id then Some((m.moveCount, m.wallCount))
      else LatestStats(ms[..|ms| - 1], id)
  }

  /** After a game-over move each seat is last told its own player's true counts, but
      the other player's wall count is reported as that player's move count: the two
      seats disagree about a player's walls whenever its two counts differ. */
  lemma GameOverReportsMoveCountAsWalls(s: Session, r: Request)
    requires r.MoveRequest? && r.playerID == s.board.currentId && EndsGame(r)
    requires r.moveReply.after.player1.id != r.moveReply.after.player2.id
    ensures var p1, p2, t := r.moveReply.after.player1, r.moveReply.after.player2, Serve(s, r);
      && LatestStats(t.out1, p1.id) == Some((p1.moveCount, p1.wallCount))
      && LatestStats(t.out1, p2.id) == Some((p2.moveCount, p2.moveCount))
      && LatestStats(t.out2, p2.id) == Some((p2.moveCount, p2.wallCount))
      && LatestStats(t.out2, p1.id) == Some((p1.moveCount, p1.moveCount))
  {
    var after := r.moveReply.after;
    var p1, p2, t := after.player1, after.player2, Serve(s, r);
    var base1 := s.out1 + PawnUpdates(after);
    var base2 := s.out2 + PawnUpdates(after);
    assert t.out1 == base1 + ResetCommands(p1, p2);
    assert t.out2 == base2 + ResetCommands(p2, p1);
    LatestStatsOfReset(base1, p1, p2);
    LatestStatsOfReset(base2, p2, p1);
  }

  lemma LatestStatsSnoc(ms: seq<Message>, m: Message, id: int)
    ensures LatestStats(ms + [m], id)
         == if m.StatsUpdate? && m.playerId == id then Some((m.moveCount, m.wallCount)) else LatestStats(ms, id)
  {
    assert (ms + [m])[..|ms|] == ms;
  }

  lemma LatestStatsOfReset(base: seq<Message>, own: PlayerInfo, other: PlayerInfo)
    requires own.id != other.id
    ensures LatestStats(base + ResetCommands(own, other), own.id) == Some((own.moveCount, own.wallCount))
    ensures LatestStats(base + ResetCommands(own, other), other.id) == Some((other.moveCount, other.moveCount))
  {
    var r := ResetCommands(own, other);
    var m1 := base + [r[0]];
    var m2 := m1 + [r[1]];
    var m3 := m2 + [r[2]];
    var m4 := m3 + [r[3]];
    assert base + r == m4 + [r[4]];
    forall id | id == own.id || id == other.id
      ensures LatestStats(base + r, id) == LatestStats(m2, id)
    {
      LatestStatsSnoc(m4, r[4], id);
      LatestStatsSnoc(m3, r[3], id);
      LatestStatsSnoc(m2, r[2], id);
    }
    LatestStatsSnoc(m1, r[1], own.id);
    LatestStatsSnoc(base, r[0], own.id);
    LatestStatsSnoc(m1, r[1], other.id);
  }

  /** NetworkedGameController: the two seats' connections, each set once, and the board. */
  class NetworkedGameController {
    var player1IO: Connection?
    var player2IO: Connection?
    var board: Board

    /** Both seats are connected, on different connections. */
    ghost predicate Connected()
      reads this
    {
      player1IO != null && player2IO != null && player1IO != player2IO
    }

    ghost function State(): Session
      reads this, player1IO, player2IO
      requires Connected()
    {
      Session(board, player1IO.outbox, player2IO.outbox)
    }

    constructor (board: Board)
      ensures this.board == board && player1IO == null && player2IO == null
    {
      this.board := board;
      player1IO := null;
      player2IO := null;
    }

    /** Only the first connection offered for seat 1 is kept. */
    method SetPlayer1IO(ioThread: Connection)
      modifies this`player1IO
      ensures player1IO == if old(player1IO) == null then ioThread else old(player1IO)
    {
      if player1IO == null {
        player1IO := ioThread;
      }
    }

    /** Only the first connection offered for seat 2 is kept. */
    method SetPlayer2IO(ioThread: Connection)
      modifies this`player2IO
      ensures player2IO == if old(player2IO) == null then ioThread else old(player2IO)
    {
      if player2IO == null {
        player2IO := ioThread;
      }
    }

    method ShowCurrentPlayerMoves()
      requires Connected()
      modifies player1IO, player2IO
      ensures State() == Serve(old(State()), AvailableRequest)
    {
      var availablePositions := board.occupiable;
      var i := 0;
      while i < |availablePositions|
        invariant 0 <= i <= |availablePositions|
        invariant player1IO.outbox == old(player1IO.outbox) + Highlights(availablePositions[..i])
        invariant player2IO.outbox == old(player2IO.outbox) + Highlights(availablePositions[..i])
      {
        var pos := availablePositions[i];
        var x := pos.x * 2;
        var y := pos.y * 2;
        player1IO.Send(AvailableMove(x, y));
        player2IO.Send(AvailableMove(x, y));
        assert availablePositions[..i + 1][..i] == availablePositions[..i];
        i := i + 1;
      }
      assert availablePositions[..i] == availablePositions;
    }

    method PlaceWall(topLeftX: int, topLeftY: int, orientation: WallPlacement, playerID: int, reply: WallReply)
      requires Connected()
      modifies this`board, player1IO, player2IO
      ensures State() == Serve(old(State()), WallRequest(topLeftX, topLeftY, orientation, playerID, reply))
    {
      match reply {
        case WallDone(after) =>
          board := after;
          SendWallUpdate(topLeftX, topLeftY, orientation);
        case WallRefused(message) =>
          SendErrorMessage(playerID, message);
      }
    }

    method MovePawn(posX: int, posY: int, playerID: int, reply: MoveReply)
      requires Connected()
      modifies this`board, player1IO, player2IO
      ensures State() == Serve(old(State()), MoveRequest(posX, posY, playerID, reply))
    {
      if playerID == board.currentId {
        match reply {
          case MoveDone(after, gameOver) =>
            board := after;
            var prevPlayer := board.previous;
            SendPawnUpdate(prevPlayer);
            if gameOver {
              SendGUIResetCommands();
            }
          case MoveRefused(message) =>
            SendErrorMessage(playerID, message);
        }
      } else {
        SendErrorMessage(playerID, NotYourTurn);
      }
    }

    /** The `if (playerID == 1) … else if (playerID == 2) …` error routing of the callers. */
    method SendErrorMessage(playerID: int, text: string)
      requires Connected()
      modifies player1IO, player2IO
      ensures player1IO.outbox == old(player1IO.outbox) + ErrorTo(playerID, 1, text)
      ensures player2IO.outbox == old(player2IO.outbox) + ErrorTo(playerID, 2, text)
    {
      if playerID == 1 {
        player1IO.Send(ErrorMessage(text));
      } else if playerID == 2 {
        player2IO.Send(ErrorMessage(text));
      }
    }

    method SendPawnUpdate(prevPlayer: PlayerInfo)
      requires Connected() && prevPlayer == board.previous
      modifies player1IO, player2IO
      ensures player1IO.outbox == old(player1IO.outbox) + PawnUpdates(board)
      ensures player2IO.outbox == old(player2IO.outbox) + PawnUpdates(board)
    {
      player1IO.Send(PawnUpdate(prevPlayer.x, prevPlayer.y, prevPlayer.id));
      player1IO.Send(StatsUpdate(prevPlayer.moveCount, prevPlayer.wallCount, prevPlayer.id));
      player2IO.Send(PawnUpdate(prevPlayer.x, prevPlayer.y, prevPlayer.id));
      player2IO.Send(StatsUpdate(prevPlayer.moveCount, prevPlayer.wallCount, prevPlayer.id));
      player1IO.Send(CurrentPlayerUpdate(board.currentId));
      player2IO.Send(CurrentPlayerUpdate(board.currentId));
    }

    method SendWallUpdate(topLeftX: int, topLeftY: int, orientation: WallPlacement)
      requires Connected()
      modifies player1IO, player2IO
      ensures player1IO.outbox == old(player1IO.outbox) + WallUpdates(board, topLeftX, topLeftY, orientation)
      ensures player2IO.outbox == old(player2IO.outbox) + WallUpdates(board, topLeftX, topLeftY, orientation)
    {
      var previous := board.previous;
      player1IO.Send(WallUpdate(topLeftX, topLeftY, orientation, previous.id));
      player2IO.Send(WallUpdate(topLeftX, topLeftY, orientation, previous.id));
      player1IO.Send(StatsUpdate(previous.moveCount, previous.wallCount, previous.id));
      player2IO.Send(StatsUpdate(previous.moveCount, previous.wallCount, previous.id));
      player1IO.Send(CurrentPlayerUpdate(board.currentId));
      player2IO.Send(CurrentPlayerUpdate(board.currentId));
    }

    method SendGUIResetCommands()
      requires Connected()
      modifies player1IO, player2IO
      ensures player1IO.outbox == old(player1IO.outbox) + ResetCommandsFor(board, 1)
      ensures player2IO.outbox == old(player2IO.outbox) + ResetCommandsFor(board, 2)
    {
      var player1 := board.player1;
      var player2 := board.player2;
      player1IO.Send(StatsUpdate(player1.moveCount, player1.wallCount, player1.id));
      player1IO.Send(StatsUpdate(player2.moveCount, player2.moveCount, player2.id));
      player1IO.Send(PawnUpdate(player1.x, player1.y, player1.id));
      player1IO.Send(PawnUpdate(player2.x, player2.y, player2.id));
      player2IO.Send(StatsUpdate(player2.moveCount, player2.wallCount, player2.id));
      player2IO.Send(StatsUpdate(player1.moveCount, player1.moveCount, player1.id));
      player2IO.Send(PawnUpdate(player2.x, player2.y, player2.id));
      player2IO.Send(PawnUpdate(player1.x, player1.y, player1.id));
      player1IO.Send(ResetWalls);
      player2IO.Send(ResetWalls);
    }
  }
}
