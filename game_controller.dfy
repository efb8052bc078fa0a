/** The two-player rule engine of GameController: pawn moves with the adjacency-and-wall
    check, wall placement, turn alternation and the reset after a win.

    The specification functions below work on a `Game` value; the class `GameController`
    at the end holds the same state in fields and changes it step by step, in the
    order of the Java methods, and each of its methods is proved to end in the state
    the matching specification function gives. */
module Rules {
  import opened Protocol

  /** PositionWallLocation: the side of a cell that a wall flag blocks. */
  datatype Side = Left | Right | Top | Bottom

  /** One of a Position's four boolean wall flags; a flag is set when it is in `Game.flags`. */
  datatype WallFlag = WallFlag(cell: Cell, side: Side)

  /** A Player's coordinates and counters. */
  datatype Player = Player(x: int, y: int, moveCount: int, wallCount: int)

  /** The current-player pointer: which of the two Player objects it refers to. */
  datatype Seat = Player1 | Player2

  /** The static state of GameController together with the board state it touches:
      the Positions' wall flags and the board's list of walled-off positions. */
  datatype Game = Game(player1: Player, player2: Player, current: Seat,
                       flags: set<WallFlag>, walledOff: seq<Cell>)

  /** The exceptions the engine throws ("Position is occupied", "That isn't a valid
      move", "You have no remaining walls"), and the silent rejection of player 2's
      invalid move. */
  datatype Error = PositionOccupied | InvalidMove | NoRemainingWalls
  datatype Outcome = Accepted | Won | Ignored | Failed(error: Error)

  const Size := 9
  const StartingWalls := 10


  /** `board.getPosition(x, y)` exists: the coordinates are on the 9x9 grid. */
  predicate OnBoard(c: Cell) {
    0 <= c.x < Size && 0 <= c.y < Size
  }

  predicate IsTop(c: Cell) { c.y == 0 }
  predicate IsBottom(c: Cell) { c.y == Size - 1 }

  /** Player 1 starts on the top row and wins on the bottom row; player 2 the reverse. */
  predicate ReachedGoal(s: Seat, c: Cell) {
    if s == Player1 then IsBottom(c) else IsTop(c)
  }

  function CellOf(p: Player): Cell { Cell(p.x, p.y) }

  const Start1 := Player(4, 0, 0, StartingWalls)
  const Start2 := Player(4, 8, 0, StartingWalls)

  function Other(s: Seat): Seat {
    if s == Player1 then Player2 else Player1
  }

  function PlayerAt(g: Game, s: Seat): Player {
    if s == Player1 then g.player1 else g.player2
  }

  /** The player whose turn it is. */
  function Mover(g: Game): Player { PlayerAt(g, g.current) }

  /** The player waiting for its turn. */
  function Opponent(g: Game): Player { PlayerAt(g, Other(g.current)) }

  function WithPlayer(g: Game, s: Seat, p: Player): Game {
    if s == Player1 then g.(player1 := p) else g.(player2 := p)
  }

  /** The cell across side `s` of `c`; "top" is the smaller y. */
  function Neighbour(c: Cell, s: Side): Cell {
    match s
    case Left => Cell(c.x - 1, c.y)
    case Right => Cell(c.x + 1, c.y)
    case Top => Cell(c.x, c.y - 1)
    case Bottom => Cell(c.x, c.y + 1)
  }

  /** `isValidMove`, branch by branch. */
  predicate IsValidMove(flags: set<WallFlag>, p: Player, newX: int, newY: int) {
    var here := CellOf(p);
    if (newX == p.x + 1 || newX == p.x - 1) && newY == p.y then
      if newX == p.x - 1 && WallFlag(here, Left) !in flags then true
      else newX == p.x + 1 && WallFlag(here, Right) !in flags
    else if (newY == p.y + 1 || newY == p.y - 1) && newX == p.x then
      if newY == p.y - 1 && WallFlag(here, Top) !in flags then true
      else newY == p.y + 1 && WallFlag(here, Bottom) !in flags
    else false
  }

  /** A move is valid exactly when the target is one step away along one axis and the
      mover's own cell has no wall flag on that side. The target cell's flags are not
      consulted, nor is the target checked to be on the board. */
  lemma ValidMoveMeaning(flags: set<WallFlag>, p: Player, newX: int, newY: int)
    ensures IsValidMove(flags, p, newX, newY) <==>
      exists s :: Neighbour(CellOf(p), s) == Cell(newX, newY) && WallFlag(CellOf(p), s) !in flags
  {
    var here := CellOf(p);
    assert Neighbour(here, Left) == Cell(p.x - 1, p.y) && Neighbour(here, Right) == Cell(p.x + 1, p.y);
    assert Neighbour(here, Top) == Cell(p.x, p.y - 1) && Neighbour(here, Bottom) == Cell(p.x, p.y + 1);
  }

  /** The state the constructor sets up on a board without walls. */
  const Initial := Game(Start1, Start2, Player1, {}, [])

  /** `changePlayer`: the pointer moves to the other player and nothing else changes. */
  function Alternate(g: Game): (r: Game)
    ensures r.current != g.current && Other(r.current) == g.current
    ensures r.player1 == g.player1 && r.player2 == g.player2
    ensures r.flags == g.flags && r.walledOff == g.walledOff
  {
    g.(current := Other(g.current))
  }

  /** `getPreviousPlayer`: always the player that is not current. */
  function Previous(g: Game): (s: Seat)
    ensures s != g.current
    ensures PlayerAt(g, s) == Opponent(g)
  {
    if g.current == Player1 then Player2 else Player1
  }

  /** `resetWalledOffPositions`: every flag of every recorded position is cleared. */
  function ClearWalledOff(flags: set<WallFlag>, walledOff: seq<Cell>): set<WallFlag> {
    set f | f in flags && f.cell !in walledOff
  }

  /** The invariant every reachable state keeps: counters in range, both pawns on the
      board on different cells, and every set flag belongs to a recorded position. */
  predicate Invariant(g: Game) {
    && 0 <= g.player1.wallCount <= StartingWalls && 0 <= g.player2.wallCount <= StartingWalls
    && 0 <= g.player1.moveCount && 0 <= g.player2.moveCount
    && OnBoard(CellOf(g.player1)) && OnBoard(CellOf(g.player2))
    && CellOf(g.player1) != CellOf(g.player2)
    && (forall f :: f in g.flags ==> f.cell in g.walledOff)
    && (forall i :: 0 <= i < |g.walledOff| ==> OnBoard(g.walledOff[i]))
  }

  /** `resetGame`: counters and pawns back to the start, the recorded positions' flags
      cleared, the record emptied, and player 1 current. In a state that keeps the
      invariant, no flag is left. */
  function Reset(g: Game): (r: Game)
    ensures r.player1 == Start1 && r.player2 == Start2 && r.current == Player1
    ensures r.walledOff == [] && r.flags <= g.flags
    ensures forall f :: f in g.flags && f.cell !in g.walledOff ==> f in r.flags
    ensures forall f :: f in r.flags ==> f.cell !in g.walledOff
    ensures Invariant(g) ==> r.flags == {}
    ensures Invariant(r) <==> r.flags == {}
  {
    Game(Start1, Start2, Player1, ClearWalledOff(g.flags, g.walledOff), [])
  }

  /** `movePawn(x, y)` by the current player. */
  function StepMove(g: Game, x: int, y: int): (r: (Game, Outcome))
    // the target is looked up on the board only once the move has passed isValidMove
    requires IsValidMove(g.flags, Mover(g), x, y) ==> OnBoard(Cell(x, y))
    // the occupied check comes first, for both players
    ensures r.1 == Failed(PositionOccupied) <==> Cell(x, y) == CellOf(Opponent(g))
    // an accepted move is one onto a free cell that isValidMove allows
    ensures r.1 in {Accepted, Won} <==>
      Cell(x, y) != CellOf(Opponent(g)) && IsValidMove(g.flags, Mover(g), x, y)
    // an invalid move throws for player 1 and is silently dropped for player 2
    ensures r.1 == Failed(InvalidMove) <==>
      g.current == Player1 && Cell(x, y) != CellOf(Opponent(g)) && !IsValidMove(g.flags, Mover(g), x, y)
    ensures r.1 == Ignored <==>
      g.current == Player2 && Cell(x, y) != CellOf(Opponent(g)) && !IsValidMove(g.flags, Mover(g), x, y)
    // a rejected move changes nothing, not even the turn
    ensures r.1 !in {Accepted, Won} ==> r.0 == g
    // an accepted move changes only the mover's cell and move count, and passes the turn
    ensures r.1 == Accepted ==>
      && PlayerAt(r.0, g.current) == Mover(g).(x := x, y := y, moveCount := Mover(g).moveCount + 1)
      && PlayerAt(r.0, Other(g.current)) == Opponent(g)
      && r.0.current == Other(g.current)
      && r.0.flags == g.flags && r.0.walledOff == g.walledOff
    // reaching the goal row resets the game, and player 2 moves first afterwards
    ensures r.1 == Won <==> r.1 in {Accepted, Won} && ReachedGoal(g.current, Cell(x, y))
    ensures r.1 == Won ==> r.0 == Reset(g).(current := Player2)
  {
    var mover := Mover(g);
    if x == Opponent(g).x && y == Opponent(g).y then (g, Failed(PositionOccupied))
    else if !IsValidMove(g.flags, mover, x, y) then
      (g, if g.current == Player1 then Failed(InvalidMove) else Ignored)
    else
      var moved := WithPlayer(g, g.current, mover.(x := x, y := y, moveCount := mover.moveCount + 1));
      if ReachedGoal(g.current, Cell(x, y)) then (Alternate(Reset(moved)), Won)
      else (Alternate(moved), Accepted)
  }

  /** `placeWall` with the four covered positions and the border of each that gets a flag. */
  function StepWall(g: Game, f1: WallFlag, f2: WallFlag, f3: WallFlag, f4: WallFlag): (r: (Game, Outcome))
    ensures r.1 == Accepted || r.1 == Failed(NoRemainingWalls)
    // `hasWalls`: a wall can be placed exactly when the current player has one left
    ensures r.1 == Accepted <==> Mover(g).wallCount > 0
    ensures r.1 != Accepted ==> r.0 == g
    ensures r.1 == Accepted ==>
      // exactly the four named flags are set, all others are as they were
      && r.0.flags == g.flags + {f1, f2, f3, f4}
      // the covered positions are recorded for the next reset, in order
      && r.0.walledOff == g.walledOff + [f1.cell, f2.cell, f3.cell, f4.cell]
      // one wall spent, one move counted, by the placer only
      && PlayerAt(r.0, g.current) == Mover(g).(wallCount := Mover(g).wallCount - 1, moveCount := Mover(g).moveCount + 1)
      && PlayerAt(r.0, Other(g.current)) == Opponent(g)
      && r.0.current == Other(g.current)
  {
    var placer := Mover(g);
    if placer.wallCount > 0 then
      var walled := g.(flags := g.flags + {f1, f2, f3, f4},
                       walledOff := g.walledOff + [f1.cell, f2.cell, f3.cell, f4.cell]);
      var spent := placer.(wallCount := placer.wallCount - 1, moveCount := placer.moveCount + 1);
      (Alternate(WithPlayer(walled, g.current, spent)), Accepted)
    else (g, Failed(NoRemainingWalls))
  }

  /** One action of the current player. */
  datatype Action = MoveTo(x: int, y: int) | BuildWall(f1: WallFlag, f2: WallFlag, f3: WallFlag, f4: WallFlag)

  /** Every coordinate the action hands to `board.getPosition` is on the board. */
  predicate OnBoardAction(a: Action) {
    match a
    case MoveTo(x, y) => OnBoard(Cell(x, y))
    case BuildWall(f1, f2, f3, f4) => OnBoard(f1.cell) && OnBoard(f2.cell) && OnBoard(f3.cell) && OnBoard(f4.cell)
  }

  function Step(g: Game, a: Action): (Game, Outcome)
    requires OnBoardAction(a)
  {
    match a
    case MoveTo(x, y) => StepMove(g, x, y)
    case BuildWall(f1, f2, f3, f4) => StepWall(g, f1, f2, f3, f4)
  }

  /** The state after a sequence of actions, each taken by whoever is current. */
  function Play(g: Game, actions: seq<Action>): Game
    requires forall i :: 0 <= i < |actions| ==> OnBoardAction(actions[i])
    decreases |actions|
  {
    if actions == [] then g else Play(Step(g, actions[0]).0, actions[1..])
  }

  /** One action keeps the invariant; the turn passes on every accepted action and on no
      rejected one, except that after a win it is always player 2's turn. */
  lemma StepKeepsInvariant(g: Game, a: Action)
    requires Invariant(g) && OnBoardAction(a)
    ensures Invariant(Step(g, a).0)
    ensures Step(g, a).1 == Accepted ==> Step(g, a).0.current == Other(g.current)
    ensures Step(g, a).1 == Won ==> Step(g, a).0.current == Player2
    ensures Step(g, a).1 !in {Accepted, Won} ==> Step(g, a).0 == g
  {
    var (r, o) := Step(g, a);
    match a
    case MoveTo(x, y) =>
      if o == Accepted {
        assert CellOf(PlayerAt(r, g.current)) == Cell(x, y);
        assert CellOf(PlayerAt(r, Other(g.current))) == CellOf(Opponent(g));
      }
    case BuildWall(f1, f2, f3, f4) =>
      if o == Accepted {
        forall f | f in r.flags ensures f.cell in r.walledOff {
          if f in g.flags {
            assert f.cell in g.walledOff;
          } else {
            assert f.cell in [f1.cell, f2.cell, f3.cell, f4.cell];
          }
        }
      }
  }

  /** Every state reachable from a state that keeps the invariant keeps it: wall counts
      stay within 0..10, move counts are never negative, the pawns stay on the board on
      different cells, and no flag outlives the record that lets a reset clear it. */
  lemma {:induction false} PlayKeepsInvariant(g: Game, actions: seq<Action>)
    requires Invariant(g)
    requires forall i :: 0 <= i < |actions| ==> OnBoardAction(actions[i])
    ensures Invariant(Play(g, actions))
    decreases |actions|
  {
    if actions != [] {
      StepKeepsInvariant(g, actions[0]);
      PlayKeepsInvariant(Step(g, actions[0]).0, actions[1..]);
    }
  }

  /** A winning move leaves the board without any wall flag, whoever wins. */
  lemma WinClearsAllWalls(g: Game, x: int, y: int)
    requires Invariant(g) && OnBoard(Cell(x, y))
    requires StepMove(g, x, y).1 == Won
    ensures StepMove(g, x, y).0.flags == {}
    ensures StepMove(g, x, y).0 == Initial.(current := Player2)
  {
  }

  /** The game state of GameController: the two Player objects, the current-player
      pointer, and the board's wall flags and walled-off list that it updates. */
  class GameController {
    var player1: Player
    var player2: Player
    var currentPlayer: Seat
    var flags: set<WallFlag>
    var walledOff: seq<Cell>

    function State(): Game
      reads this
    {
      Game(player1, player2, currentPlayer, flags, walledOff)
    }

    /** Players at (4,0) and (4,8), player 1 current, on a board without walls. */
    constructor ()
      ensures State() == Initial
      ensures Invariant(State())
    {
      player1 := Player(4, 0, 0, StartingWalls);
      player2 := Player(4, 8, 0, StartingWalls);
      currentPlayer := Player1;
      flags := {};
      walledOff := [];
    }

    function GetPreviousPlayer(): (p: Player)
      reads this
      ensures p == PlayerAt(State(), Previous(State()))
    {
      if currentPlayer == Player1 then player2 else player1
    }

    method ChangePlayer()
      modifies this
      ensures State() == Alternate(old(State()))
    {
      if currentPlayer == Player1 {
        currentPlayer := Player2;
      } else {
        currentPlayer := Player1;
      }
    }

    method AssignWall(flag: WallFlag)
      modifies this
      ensures flags == old(flags) + {flag}
      ensures player1 == old(player1) && player2 == old(player2)
      ensures currentPlayer == old(currentPlayer) && walledOff == old(walledOff)
    {
      flags := flags + {flag};
    }

    method ResetGame()
      modifies this
      ensures State() == Reset(old(State()))
    {
      player1 := player1.(moveCount := 0);
      player2 := player2.(moveCount := 0);
      player1 := player1.(wallCount := StartingWalls);
      player2 := player2.(wallCount := StartingWalls);
      player1 := player1.(x := 4, y := 0);
      player2 := player2.(x := 4, y := 8);
      currentPlayer := Player1;
      flags := ClearWalledOff(flags, walledOff);
      walledOff := [];
    }

    method PlaceWall(f1: WallFlag, f2: WallFlag, f3: WallFlag, f4: WallFlag) returns (outcome: Outcome)
      // the covered positions are looked up only when the player has a wall left
      requires Mover(State()).wallCount > 0 ==>
        OnBoard(f1.cell) && OnBoard(f2.cell) && OnBoard(f3.cell) && OnBoard(f4.cell)
      modifies this
      ensures (State(), outcome) == StepWall(old(State()), f1, f2, f3, f4)
    {
      ghost var before := State();
      ghost var placer := Mover(before);
      if (if currentPlayer == Player1 then player1 else player2).wallCount > 0 {
        AssignWall(f1);
        AssignWall(f2);
        AssignWall(f3);
        AssignWall(f4);
        walledOff := walledOff + [f1.cell];
        walledOff := walledOff + [f2.cell];
        walledOff := walledOff + [f3.cell];
        walledOff := walledOff + [f4.cell];
        if currentPlayer == Player1 {
          player1 := player1.(wallCount := player1.wallCount - 1);
          player1 := player1.(moveCount := player1.moveCount + 1);
        } else {
          player2 := player2.(wallCount := player2.wallCount - 1);
          player2 := player2.(moveCount := player2.moveCount + 1);
        }
        assert walledOff == before.walledOff + [f1.cell, f2.cell, f3.cell, f4.cell];
        assert flags == before.flags + {f1, f2, f3, f4};
        assert PlayerAt(State(), before.current) == placer.(wallCount := placer.wallCount - 1, moveCount := placer.moveCount + 1);
        ChangePlayer();
        outcome := Accepted;
      } else {
        outcome := Failed(NoRemainingWalls);
      }
    }

    method MovePawn(posX: int, posY: int) returns (outcome: Outcome)
      requires IsValidMove(flags, Mover(State()), posX, posY) ==> OnBoard(Cell(posX, posY))
      modifies this
      ensures (State(), outcome) == StepMove(old(State()), posX, posY)
    {
      if currentPlayer == Player1 {
        if posX == player2.x && posY == player2.y {
          outcome := Failed(PositionOccupied);
        } else if IsValidMove(flags, player1, posX, posY) {
          player1 := player1.(x := posX, y := posY);
          player1 := player1.(moveCount := player1.moveCount + 1);
          outcome := Accepted;
          if IsBottom(Cell(posX, posY)) {
            ResetGame();
            outcome := Won;
          }
          ChangePlayer();
        } else {
          outcome := Failed(InvalidMove);
        }
      } else {
        if posX == player1.x && posY == player1.y {
          outcome := Failed(PositionOccupied);
        } else if IsValidMove(flags, player2, posX, posY) {
          player2 := player2.(x := posX, y := posY);
          player2 := player2.(moveCount := player2.moveCount + 1);
          outcome := Accepted;
          if IsTop(Cell(posX, posY)) {
            ResetGame();
            outcome := Won;
          }
          ChangePlayer();
        } else {
          // player 2's invalid move falls through: no exception, nothing changes
          outcome := Ignored;
        }
      }
    }
  }
}
