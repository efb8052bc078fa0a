/** The client side of the line protocol (GameClient): each line from the server is
    split on whitespace and dispatched on its first token into calls on the board GUI,
    or into the client's own set-once state; outbound requests are single lines built
    from space-separated fields.

    GUI calls are returned as values. The socket, the thread and the GUI itself are not
    part of this model; reading lines becomes a given sequence of lines. */
module Client {
  import opened JavaText
  import opened Protocol

  /** The calls the client makes on the board GUI (NetworkedBoardGUI). */
  datatype GuiCall =
    | UpdatePlayerMoveCount(moveCount: Int32, playerID: Int32)
    | UpdatePlayerWallCount(wallCount: Int32, playerID: Int32)
    | UpdatePlayerPawnPosition(x: Int32, y: Int32, playerID: Int32)
    | UpdateActivePlayer(playerID: Int32)
    | HighlightPositionAvailability(x: Int32, y: Int32)
    | DisplayErrorMessage(message: string)
    | DisplayWall(topLeftX: Int32, topLeftY: Int32, orientation: WallPlacement, playerID: Int32)
    | ResetWalls
    | RemoveWallDisplay(topLeftX: Int32, topLeftY: Int32, orientation: WallPlacement)
    | SetInitialPawnPositions(player1X: Int32, player1Y: Int32, player2X: Int32, player2Y: Int32,
                              player3X: Int32, player3Y: Int32, player4X: Int32, player4Y: Int32)

  /** What one server line does: launch permission, an id offer, GUI calls, nothing
      (an unknown command), or nothing because an exception ended its handling
      (a missing token, a non-numeric field or an unknown orientation). */
  datatype LineEffect =
    | BootGui
    | AssignId(id: Int32)
    | Gui(calls: seq<GuiCall>)
    | Unrecognised
    | Malformed

  /** The first tokens the client acts on. */
  const Commands: set<string> :=
    {"bootGUI", "setID", "stats", "pawn", "currentPlayer", "highlight", "error", "wall",
     "reset", "remove-wall-display", "coordinate"}

  /** `Integer.parseInt(commands[i])`, None when the token is missing or not an int. */
  function IntField(commands: seq<string>, i: nat): (r: Option<Int32>)
    ensures r.Some? ==> i < |commands| && ParseInt(commands[i]) == r
  {
    if i < |commands| then ParseInt(commands[i]) else None
  }

  /** `WallPlacement.valueOf(commands[i])`, None when missing or not a constant name. */
  function OrientationField(commands: seq<string>, i: nat): (r: Option<WallPlacement>)
    ensures r.Some? ==> i < |commands| && Name(r.value) == commands[i]
  {
    if i < |commands| then ValueOf(commands[i]) else None
  }

  /** `updatePlayerStats`: decoded exactly when fields 1 to 3 are ints. */
  function UpdatePlayerStats(commands: seq<string>): (r: Option<seq<GuiCall>>)
    ensures r.Some? <==> IntField(commands, 1).Some? && IntField(commands, 2).Some? && IntField(commands, 3).Some?
  {
    var moveCount :- IntField(commands, 1);
    var wallCount :- IntField(commands, 2);
    var playerID :- IntField(commands, 3);
    Some([GuiCall.UpdatePlayerMoveCount(moveCount, playerID), GuiCall.UpdatePlayerWallCount(wallCount, playerID)])
  }

  /** `updatePlayerPawnPosition`: decoded exactly when fields 1 to 3 are ints. */
  function UpdatePlayerPawnPosition(commands: seq<string>): (r: Option<seq<GuiCall>>)
    ensures r.Some? <==> IntField(commands, 1).Some? && IntField(commands, 2).Some? && IntField(commands, 3).Some?
  {
    var x :- IntField(commands, 1);
    var y :- IntField(commands, 2);
    var playerID :- IntField(commands, 3);
    Some([GuiCall.UpdatePlayerPawnPosition(x, y, playerID)])
  }

  /** `updateCurrentPlayer`: decoded exactly when field 1 is an int. */
  function UpdateCurrentPlayer(commands: seq<string>): (r: Option<seq<GuiCall>>)
    ensures r.Some? <==> IntField(commands, 1).Some?
  {
    var playerID :- IntField(commands, 1);
    Some([GuiCall.UpdateActivePlayer(playerID)])
  }

  /** `highlightAvailablePositions`: decoded exactly when fields 1 and 2 are ints. */
  function HighlightAvailablePositions(commands: seq<string>): (r: Option<seq<GuiCall>>)
    ensures r.Some? <==> IntField(commands, 1).Some? && IntField(commands, 2).Some?
  {
    var x :- IntField(commands, 1);
    var y :- IntField(commands, 2);
    Some([GuiCall.HighlightPositionAvailability(x, y)])
  }

  /** `updateWallPosition`: decoded exactly when fields 1, 2 and 4 are ints and field 3
      names an orientation. */
  function UpdateWallPosition(commands: seq<string>): (r: Option<seq<GuiCall>>)
    ensures r.Some? <==> IntField(commands, 1).Some? && IntField(commands, 2).Some? &&
                         OrientationField(commands, 3).Some? && IntField(commands, 4).Some?
  {
    var topLeftX :- IntField(commands, 1);
    var topLeftY :- IntField(commands, 2);
    var orientation :- OrientationField(commands, 3);
    var playerID :- IntField(commands, 4);
    Some([GuiCall.DisplayWall(topLeftX, topLeftY, orientation, playerID)])
  }

  /** `removeWallDisplay`: decoded exactly when fields 1 and 2 are ints and field 3 names
      an orientation. */
  function RemoveWallDisplay(commands: seq<string>): (r: Option<seq<GuiCall>>)
    ensures r.Some? <==> IntField(commands, 1).Some? && IntField(commands, 2).Some? && OrientationField(commands, 3).Some?
  {
    var topLeftX :- IntField(commands, 1);
    var topLeftY :- IntField(commands, 2);
    var orientation :- OrientationField(commands, 3);
    Some([GuiCall.RemoveWallDisplay(topLeftX, topLeftY, orientation)])
  }

  /** The `coordinate` branch: four ints for players 1 and 2, then either -1 for players
      3 and 4 (a two-player GUI) or four more ints. */
  function Coordinate(commands: seq<string>, twoPlayers: bool): (r: Option<seq<GuiCall>>)
    ensures r.Some? <==>
      && IntField(commands, 1).Some? && IntField(commands, 2).Some?
      && IntField(commands, 3).Some? && IntField(commands, 4).Some?
      && (twoPlayers || (&& IntField(commands, 5).Some? && IntField(commands, 6).Some?
                         && IntField(commands, 7).Some? && IntField(commands, 8).Some?))
  {
    var player1X :- IntField(commands, 1);
    var player1Y :- IntField(commands, 2);
    var player2X :- IntField(commands, 3);
    var player2Y :- IntField(commands, 4);
    if twoPlayers then
      Some([GuiCall.SetInitialPawnPositions(player1X, player1Y, player2X, player2Y, -1, -1, -1, -1)])
    else
      var player3X :- IntField(commands, 5);
      var player3Y :- IntField(commands, 6);
      var player4X :- IntField(commands, 7);
      var player4Y :- IntField(commands, 8);
      Some([GuiCall.SetInitialPawnPositions(player1X, player1Y, player2X, player2Y,
                                            player3X, player3Y, player4X, player4Y)])
  }

  function Min(a: int, b: int): int {
    if a <= b then a else b
  }

  /** The message `displayErrorMessage` builds: every token after the first, each
      followed by one space. */
  function ErrorText(commands: seq<string>): string
    decreases |commands|
  {
    if |commands| <= 1 then "" else ErrorText(commands[..|commands| - 1]) + commands[|commands| - 1] + " "
  }

  function Decoded(calls: Option<seq<GuiCall>>): LineEffect {
    match calls
    case Some(cs) => Gui(cs)
    case None => Malformed
  }

  /** One pass of the body of `listenForServerInput`'s read loop on the tokens of a
      line, in its branch order. */
  function Handle(commands: seq<string>, twoPlayers: bool): (r: LineEffect)
    // a line whose first token is no command does nothing
    ensures r.Unrecognised? <==> |commands| >= 1 && commands[0] !in Commands
    // only a setID line offers an id, and only a bootGUI line permits the launch
    ensures r.AssignId? ==> |commands| >= 2 && commands[0] == "setID" && ParseInt(commands[1]) == Some(r.id)
    ensures r.BootGui? <==> |commands| >= 1 && commands[0] == "bootGUI"
    // the bootGUI, error and reset branches read no field, so they never fail
    ensures r.Malformed? ==> |commands| == 0 || commands[0] !in {"bootGUI", "error", "reset"}
  {
    if |commands| == 0 then Malformed
    else
      var head := commands[0];
      if head == "bootGUI" then BootGui
      else if head == "setID" then
        (match IntField(commands, 1)
         case Some(id) => AssignId(id)
         case None => Malformed)
      else if head == "stats" then Decoded(UpdatePlayerStats(commands))
      else if head == "pawn" then Decoded(UpdatePlayerPawnPosition(commands))
      else if head == "currentPlayer" then Decoded(UpdateCurrentPlayer(commands))
      else if head == "highlight" then Decoded(HighlightAvailablePositions(commands))
      else if head == "error" then Gui([GuiCall.DisplayErrorMessage(ErrorText(commands))])
      else if head == "wall" then Decoded(UpdateWallPosition(commands))
      else if head == "reset" then Gui([GuiCall.ResetWalls])
      else if head == "remove-wall-display" then Decoded(RemoveWallDisplay(commands))
      else if head == "coordinate" then Decoded(Coordinate(commands, twoPlayers))
      else Unrecognised
  }

  /** A server line: split on whitespace, then handled. */
  function Dispatch(line: string, twoPlayers: bool): LineEffect {
    Handle(Split(line), twoPlayers)
  }

  /** The client's own state that server lines change. */
  datatype ClientState = ClientState(guiCanBeLaunched: bool, playerID: Int32, idIsAssigned: bool)

  const InitialState := ClientState(false, 0, false)

  /** `setPlayerID`: only the first id offered is kept. */
  function AssignedId(st: ClientState, id: Int32): (r: ClientState)
    ensures r.idIsAssigned && r.guiCanBeLaunched == st.guiCanBeLaunched
    ensures r.playerID == if st.idIsAssigned then st.playerID else id
  {
    if !st.idIsAssigned then st.(playerID := id, idIsAssigned := true) else st
  }

  /** A line's effect on the client state, and the GUI calls it makes. */
  function Apply(st: ClientState, e: LineEffect): (ClientState, seq<GuiCall>) {
    match e
    case BootGui => (st.(guiCanBeLaunched := true), [])
    case AssignId(id) => (AssignedId(st, id), [])
    case Gui(calls) => (st, calls)
    case Unrecognised => (st, [])
    case Malformed => (st, [])
  }

  /** The effect of each line, in order. */
  function Effects(lines: seq<string>, twoPlayers: bool): (r: seq<LineEffect>)
    ensures |r| == |lines|
    decreases |lines|
  {
    if lines == [] then [] else [Dispatch(lines[0], twoPlayers)] + Effects(lines[1..], twoPlayers)
  }

  lemma {:induction false} EffectsAt(lines: seq<string>, i: nat, twoPlayers: bool)
    requires i < |lines|
    ensures Effects(lines, twoPlayers)[i] == Dispatch(lines[i], twoPlayers)
    decreases i
  {
    if i > 0 {
      EffectsAt(lines[1..], i - 1, twoPlayers);
    }
  }

  /** Line effects applied in order: the final state and every GUI call, in order. */
  function Replay(st: ClientState, effects: seq<LineEffect>): (ClientState, seq<GuiCall>)
    decreases |effects|
  {
    if effects == [] then (st, [])
    else
      var before := Replay(st, effects[..|effects| - 1]);
      var after := Apply(before.0, effects[|effects| - 1]);
      (after.0, before.1 + after.1)
  }

  /** The read loop over a sequence of lines. A malformed line ends one call of
      `listenForServerInput`, and `run` starts the next on the following line, so the
      loop simply goes on. */
  function Run(st: ClientState, lines: seq<string>, twoPlayers: bool): (ClientState, seq<GuiCall>) {
    Replay(st, Effects(lines, twoPlayers))
  }

  /** Replaying two stretches of effects is replaying the second from where the first ends. */
  lemma {:induction false} ReplayAppend(st: ClientState, a: seq<LineEffect>, b: seq<LineEffect>)
    ensures Replay(st, a + b).0 == Replay(Replay(st, a).0, b).0
    ensures Replay(st, a + b).1 == Replay(st, a).1 + Replay(Replay(st, a).0, b).1
    decreases |b|
  {
    if b == [] {
      assert a + b == a;
    } else {
      var ab := a + b;
      assert ab[..|ab| - 1] == a + b[..|b| - 1];
      assert ab[|ab| - 1] == b[|b| - 1];
      ReplayAppend(st, a, b[..|b| - 1]);
    }
  }

  lemma ReplayOne(st: ClientState, e: LineEffect)
    ensures Replay(st, [e]) == Apply(st, e)
  {
    assert [e][..0] == [];
    assert [] + Apply(st, e).1 == Apply(st, e).1;
  }

  lemma NoEffectIsSkipped(st: ClientState, a: seq<LineEffect>, e: LineEffect, b: seq<LineEffect>)
    requires e.Unrecognised? || e.Malformed?
    ensures Replay(st, a + [e] + b) == Replay(st, a + b)
  {
    ReplayAppend(st, a + [e], b);
    ReplayAppend(st, a, [e]);
    ReplayAppend(st, a, b);
    ReplayOne(Replay(st, a).0, e);
    assert Replay(st, a).1 + [] == Replay(st, a).1;
  }

  lemma {:induction false} EffectsAppend(a: seq<string>, b: seq<string>, twoPlayers: bool)
    ensures Effects(a + b, twoPlayers) == Effects(a, twoPlayers) + Effects(b, twoPlayers)
    decreases |a|
  {
    if a == [] {
      assert a + b == b;
    } else {
      assert (a + b)[0] == a[0];
      assert (a + b)[1..] == a[1..] + b;
      EffectsAppend(a[1..], b, twoPlayers);
    }
  }

  /** A line with an unknown command or a malformed field has no effect on the rest of
      the run: the run is the same as if the line had never arrived. */
  lemma NoEffectLineIsSkipped(st: ClientState, a: seq<string>, line: string, b: seq<string>, twoPlayers: bool)
    requires Dispatch(line, twoPlayers).Unrecognised? || Dispatch(line, twoPlayers).Malformed?
    ensures Run(st, a + [line] + b, twoPlayers) == Run(st, a + b, twoPlayers)
  {
    EffectsAppend(a + [line], b, twoPlayers);
    EffectsAppend(a, [line], twoPlayers);
    EffectsAppend(a, b, twoPlayers);
    EffectsAt([line], 0, twoPlayers);
    assert Effects([line], twoPlayers) == [Dispatch(line, twoPlayers)];
    NoEffectIsSkipped(st, Effects(a, twoPlayers), Dispatch(line, twoPlayers), Effects(b, twoPlayers));
  }

  /** Once an id is assigned, no later line changes it. */
  lemma {:induction false} AssignedIdIsKept(st: ClientState, effects: seq<LineEffect>)
    requires st.idIsAssigned
    ensures Replay(st, effects).0.idIsAssigned
    ensures Replay(st, effects).0.playerID == st.playerID
    decreases |effects|
  {
    if effects != [] {
      AssignedIdIsKept(st, effects[..|effects| - 1]);
    }
  }

  /** Effects that offer no id leave the id unassigned. */
  lemma {:induction false} UnassignedWithoutOffer(st: ClientState, effects: seq<LineEffect>)
    requires !st.idIsAssigned
    requires forall i :: 0 <= i < |effects| ==> !effects[i].AssignId?
    ensures !Replay(st, effects).0.idIsAssigned
    decreases |effects|
  {
    if effects != [] {
      UnassignedWithoutOffer(st, effects[..|effects| - 1]);
    }
  }

  /** The client's id is the one from the first setID line it accepts, whatever follows. */
  lemma FirstOfferedIdWins(a: seq<string>, line: string, b: seq<string>, twoPlayers: bool)
    requires forall i :: 0 <= i < |a| ==> !Dispatch(a[i], twoPlayers).AssignId?
    requires Dispatch(line, twoPlayers).AssignId?
    ensures Run(InitialState, a + [line] + b, twoPlayers).0.idIsAssigned
    ensures Run(InitialState, a + [line] + b, twoPlayers).0.playerID == Dispatch(line, twoPlayers).id
  {
    var ea, e, eb := Effects(a, twoPlayers), Dispatch(line, twoPlayers), Effects(b, twoPlayers);
    EffectsAppend(a + [line], b, twoPlayers);
    EffectsAppend(a, [line], twoPlayers);
    EffectsAt([line], 0, twoPlayers);
    assert Effects([line], twoPlayers) == [e];
    forall i | 0 <= i < |ea|
      ensures !ea[i].AssignId?
    {
      EffectsAt(a, i, twoPlayers);
    }
    UnassignedWithoutOffer(InitialState, ea);
    ReplayAppend(InitialState, ea + [e], eb);
    ReplayAppend(InitialState, ea, [e]);
    ReplayOne(Replay(InitialState, ea).0, e);
    AssignedIdIsKept(Replay(InitialState, ea + [e]).0, eb);
  }

  /** A bootGUI line permits the launch and changes nothing else. */
  lemma BootGuiLine(st: ClientState, rest: seq<string>, twoPlayers: bool)
    requires AllWords(["bootGUI"] + rest)
    ensures Run(st, [Unwords(["bootGUI"] + rest)], twoPlayers) == (st.(guiCanBeLaunched := true), [])
  {
    SplitUnwords(["bootGUI"] + rest);
    var line := Unwords(["bootGUI"] + rest);
    assert Effects([line], twoPlayers) == [BootGui];
    ReplayOne(st, BootGui);
  }

  /** The line `tokens` joined by single spaces, with the given leading command and int fields. */
  function IntLine(command: string, fields: seq<Int32>): string {
    Unwords([command] + IntTokens(fields))
  }

  function IntTokens(fields: seq<Int32>): (r: seq<string>)
    ensures |r| == |fields|
    ensures forall i :: 0 <= i < |fields| ==> r[i] == IntToString(fields[i])
  {
    if fields == [] then [] else [IntToString(fields[0])] + IntTokens(fields[1..])
  }

  /** The tokens of an int line are the command and the rendered fields, and every
      field parses back to its value. */
  lemma SplitIntLine(command: string, fields: seq<Int32>)
    requires IsWord(command)
    ensures Split(IntLine(command, fields)) == [command] + IntTokens(fields)
    ensures forall i :: 0 < i <= |fields| ==> IntField(Split(IntLine(command, fields)), i) == Some(fields[i - 1])
  {
    SplitIntLineTokens(command, fields);
    IntTokensParse(command, fields);
  }

  lemma SplitIntLineTokens(command: string, fields: seq<Int32>)
    requires IsWord(command)
    ensures Split(IntLine(command, fields)) == [command] + IntTokens(fields)
  {
    var tokens := [command] + IntTokens(fields);
    assert AllWords(tokens);
    SplitUnwords(tokens);
  }

  lemma IntTokensParse(command: string, fields: seq<Int32>)
    ensures forall i :: 0 < i <= |fields| ==> IntField([command] + IntTokens(fields), i) == Some(fields[i - 1])
  {
    forall i | 0 < i <= |fields|
      ensures IntField([command] + IntTokens(fields), i) == Some(fields[i - 1])
    {
      ParseIntToString(fields[i - 1]);
    }
  }

  lemma CommandWords()
    ensures IsWord("stats") && IsWord("pawn") && IsWord("currentPlayer") && IsWord("highlight")
    ensures IsWord("setID") && IsWord("coordinate") && IsWord("wall") && IsWord("remove-wall-display")
    ensures IsWord("move") && IsWord("remove-wall") && IsWord("error")
  {
  }

  /** A stats line carries move count, wall count and player id, in that order. */
  lemma StatsFieldOrder(moveCount: Int32, wallCount: Int32, playerID: Int32, twoPlayers: bool)
    ensures Dispatch(IntLine("stats", [moveCount, wallCount, playerID]), twoPlayers)
         == Gui([GuiCall.UpdatePlayerMoveCount(moveCount, playerID), GuiCall.UpdatePlayerWallCount(wallCount, playerID)])
  {
    CommandWords();
    SplitIntLine("stats", [moveCount, wallCount, playerID]);
    var commands := Split(IntLine("stats", [moveCount, wallCount, playerID]));
    assert commands[0] == "stats";
    assert Handle(commands, twoPlayers) == Decoded(UpdatePlayerStats(commands));
  }

  /** A pawn line carries x, y and player id, in that order. */
  lemma PawnFieldOrder(x: Int32, y: Int32, playerID: Int32, twoPlayers: bool)
    ensures Dispatch(IntLine("pawn", [x, y, playerID]), twoPlayers)
         == Gui([GuiCall.UpdatePlayerPawnPosition(x, y, playerID)])
  {
    CommandWords();
    SplitIntLine("pawn", [x, y, playerID]);
    var commands := Split(IntLine("pawn", [x, y, playerID]));
    assert commands[0] == "pawn";
    assert Handle(commands, twoPlayers) == Decoded(UpdatePlayerPawnPosition(commands));
  }

  lemma CurrentPlayerLine(playerID: Int32, twoPlayers: bool)
    ensures Dispatch(IntLine("currentPlayer", [playerID]), twoPlayers) == Gui([GuiCall.UpdateActivePlayer(playerID)])
  {
    CommandWords();
    SplitIntLine("currentPlayer", [playerID]);
  }

  lemma HighlightLine(x: Int32, y: Int32, twoPlayers: bool)
    ensures Dispatch(IntLine("highlight", [x, y]), twoPlayers) == Gui([GuiCall.HighlightPositionAvailability(x, y)])
  {
    CommandWords();
    SplitIntLine("highlight", [x, y]);
  }

  lemma SetIdLine(id: Int32, twoPlayers: bool)
    ensures Dispatch(IntLine("setID", [id]), twoPlayers) == AssignId(id)
  {
    CommandWords();
    SplitIntLine("setID", [id]);
  }

  /** With a two-player GUI a coordinate line needs four ints, and players 3 and 4 are
      padded with -1. */
  lemma TwoPlayerCoordinates(p1x: Int32, p1y: Int32, p2x: Int32, p2y: Int32)
    ensures Dispatch(IntLine("coordinate", [p1x, p1y, p2x, p2y]), true)
         == Gui([GuiCall.SetInitialPawnPositions(p1x, p1y, p2x, p2y, -1, -1, -1, -1)])
  {
    CommandWords();
    SplitIntLine("coordinate", [p1x, p1y, p2x, p2y]);
  }

  /** Otherwise it needs eight ints ... */
  lemma FourPlayerCoordinates(ps: seq<Int32>)
    requires |ps| == 8
    ensures Dispatch(IntLine("coordinate", ps), false)
         == Gui([GuiCall.SetInitialPawnPositions(ps[0], ps[1], ps[2], ps[3], ps[4], ps[5], ps[6], ps[7])])
  {
    CommandWords();
    SplitIntLine("coordinate", ps);
  }

  /** ... and a four-int line is malformed there. */
  lemma FourPlayerShortCoordinates(p1x: Int32, p1y: Int32, p2x: Int32, p2y: Int32)
    ensures Dispatch(IntLine("coordinate", [p1x, p1y, p2x, p2y]), false) == Malformed
  {
    CommandWords();
    SplitIntLine("coordinate", [p1x, p1y, p2x, p2y]);
  }

  /** An error line's message is the words after "error" joined by single spaces, with
      one more space at the end. */
  lemma {:induction false} ErrorTextOfWords(ws: seq<string>)
    requires |ws| >= 1
    ensures ErrorText(["error"] + ws) == Unwords(ws) + " "
    decreases |ws|
  {
    var commands := ["error"] + ws;
    if |ws| == 1 {
      assert commands[..1] == ["error"];
    } else {
      var init := ws[..|ws| - 1];
      assert commands[..|commands| - 1] == ["error"] + init;
      ErrorTextOfWords(init);
      UnwordsSnoc(init, ws[|ws| - 1]);
      assert init + [ws[|ws| - 1]] == ws;
    }
  }

  lemma {:induction false} UnwordsSnoc(ws: seq<string>, w: string)
    requires |ws| >= 1
    ensures Unwords(ws + [w]) == Unwords(ws) + " " + w
    decreases |ws|
  {
    if |ws| == 1 {
      assert ws + [w] == [ws[0], w];
    } else {
      assert (ws + [w])[1..] == ws[1..] + [w];
      UnwordsSnoc(ws[1..], w);
    }
  }

  lemma HandleError(commands: seq<string>, twoPlayers: bool)
    requires |commands| >= 1 && commands[0] == "error"
    ensures Handle(commands, twoPlayers) == Gui([GuiCall.DisplayErrorMessage(ErrorText(commands))])
  {
  }

  lemma AllWordsCons(w: string, ws: seq<string>)
    requires IsWord(w) && AllWords(ws)
    ensures AllWords([w] + ws)
  {
    forall i | 0 < i < |[w] + ws|
      ensures IsWord(([w] + ws)[i])
    {
      assert ([w] + ws)[i] == ws[i - 1];
    }
  }

  /** A line of words joined by single spaces is handled on exactly those words. */
  lemma DispatchWords(commands: seq<string>, twoPlayers: bool)
    requires |commands| >= 1 && AllWords(commands)
    ensures Dispatch(Unwords(commands), twoPlayers) == Handle(commands, twoPlayers)
  {
    SplitUnwords(commands);
  }

  lemma ErrorLine(ws: seq<string>, twoPlayers: bool)
    requires |ws| >= 1 && AllWords(ws)
    ensures Dispatch(Unwords(["error"] + ws), twoPlayers) == Gui([GuiCall.DisplayErrorMessage(Unwords(ws) + " ")])
  {
    CommandWords();
    AllWordsCons("error", ws);
    DispatchWords(["error"] + ws, twoPlayers);
    HandleError(["error"] + ws, twoPlayers);
    ErrorTextOfWords(ws);
  }

  /** `sendMove`: "move x y id". */
  function MoveLine(x: Int32, y: Int32, playerID: Int32): string {
    "move " + IntToString(x) + " " + IntToString(y) + " " + IntToString(playerID)
  }

  /** `sendWallMove`: "wall x y ORIENTATION id". */
  function WallLine(topLeftX: Int32, topLeftY: Int32, orientation: WallPlacement, playerID: Int32): string {
    "wall " + IntToString(topLeftX) + " " + IntToString(topLeftY) + " " + Name(orientation) + " " + IntToString(playerID)
  }

  /** `sendWallRemoval`: "remove-wall x y ORIENTATION id". */
  function WallRemovalLine(topLeftX: Int32, topLeftY: Int32, orientation: WallPlacement, playerID: Int32): string {
    "remove-wall " + IntToString(topLeftX) + " " + IntToString(topLeftY) + " " + Name(orientation) + " " + IntToString(playerID)
  }

  const AvailableLine := "available"
  const StartCoordinatesLine := "start-coordinates"

  /** A wall or removal line, field by field: the command, then x, y, orientation and id. */
  function WallTokens(command: string, x: Int32, y: Int32, o: WallPlacement, playerID: Int32): seq<string> {
    [command, IntToString(x), IntToString(y), Name(o), IntToString(playerID)]
  }

  /** A reference decoder of the "move x y id" line format: split on whitespace, then
      each field parsed. The server's own line parsing is not part of this model. */
  function MoveFields(line: string): Option<(Int32, Int32, Int32)> {
    var commands := Split(line);
    if |commands| != 4 || commands[0] != "move" then None
    else
      var x :- IntField(commands, 1);
      var y :- IntField(commands, 2);
      var playerID :- IntField(commands, 3);
      Some((x, y, playerID))
  }

  /** A reference decoder of the "<command> x y ORIENTATION id" line format. */
  function WallFields(command: string, line: string): Option<(Int32, Int32, WallPlacement, Int32)> {
    var commands := Split(line);
    if |commands| != 5 || commands[0] != command then None
    else
      var x :- IntField(commands, 1);
      var y :- IntField(commands, 2);
      var o :- OrientationField(commands, 3);
      var playerID :- IntField(commands, 4);
      Some((x, y, o, playerID))
  }

  lemma UnwordsCons(w: string, ws: seq<string>)
    requires |ws| >= 1
    ensures Unwords([w] + ws) == w + " " + Unwords(ws)
  {
    assert ([w] + ws)[1..] == ws;
  }

  /** Four fields joined by single spaces, as the senders concatenate them. */
  lemma Unwords4(a: string, b: string, c: string, d: string)
    ensures Unwords([a, b, c, d]) == a + " " + b + " " + c + " " + d
  {
    UnwordsCons(c, [d]);
    assert [c] + [d] == [c, d];
    UnwordsCons(b, [c, d]);
    assert [b] + [c, d] == [b, c, d];
    UnwordsCons(a, [b, c, d]);
    assert [a] + [b, c, d] == [a, b, c, d];
  }

  lemma Unwords5(a: string, b: string, c: string, d: string, e: string)
    ensures Unwords([a, b, c, d, e]) == a + " " + b + " " + c + " " + d + " " + e
  {
    Unwords4(b, c, d, e);
    UnwordsCons(a, [b, c, d, e]);
    assert [a] + [b, c, d, e] == [a, b, c, d, e];
  }

  /** A move line gives back its coordinates and id. */
  lemma MoveRoundTrip(x: Int32, y: Int32, playerID: Int32)
    ensures MoveFields(MoveLine(x, y, playerID)) == Some((x, y, playerID))
  {
    CommandWords();
    Unwords4("move", IntToString(x), IntToString(y), IntToString(playerID));
    assert "move " == "move" + " ";
    assert ["move"] + IntTokens([x, y, playerID]) == ["move", IntToString(x), IntToString(y), IntToString(playerID)];
    assert MoveLine(x, y, playerID) == IntLine("move", [x, y, playerID]);
    SplitIntLine("move", [x, y, playerID]);
  }

  lemma WallTokensSplit(command: string, x: Int32, y: Int32, o: WallPlacement, playerID: Int32)
    requires IsWord(command)
    ensures Split(Unwords(WallTokens(command, x, y, o, playerID))) == WallTokens(command, x, y, o, playerID)
    ensures IntField(WallTokens(command, x, y, o, playerID), 1) == Some(x)
    ensures IntField(WallTokens(command, x, y, o, playerID), 2) == Some(y)
    ensures OrientationField(WallTokens(command, x, y, o, playerID), 3) == Some(o)
    ensures IntField(WallTokens(command, x, y, o, playerID), 4) == Some(playerID)
  {
    SplitUnwords(WallTokens(command, x, y, o, playerID));
    ParseIntToString(x);
    ParseIntToString(y);
    ParseIntToString(playerID);
  }

  /** A wall line gives back its position, orientation and id, both to the server and
      through the client's own `wall` branch. */
  lemma WallRoundTrip(x: Int32, y: Int32, o: WallPlacement, playerID: Int32, twoPlayers: bool)
    ensures WallFields("wall", WallLine(x, y, o, playerID)) == Some((x, y, o, playerID))
    ensures Dispatch(WallLine(x, y, o, playerID), twoPlayers) == Gui([GuiCall.DisplayWall(x, y, o, playerID)])
  {
    CommandWords();
    Unwords5("wall", IntToString(x), IntToString(y), Name(o), IntToString(playerID));
    assert "wall " == "wall" + " ";
    assert WallLine(x, y, o, playerID) == Unwords(WallTokens("wall", x, y, o, playerID));
    WallTokensSplit("wall", x, y, o, playerID);
  }

  /** A removal line gives back its position, orientation and id. */
  lemma WallRemovalRoundTrip(x: Int32, y: Int32, o: WallPlacement, playerID: Int32)
    ensures WallFields("remove-wall", WallRemovalLine(x, y, o, playerID)) == Some((x, y, o, playerID))
  {
    CommandWords();
    Unwords5("remove-wall", IntToString(x), IntToString(y), Name(o), IntToString(playerID));
    assert "remove-wall " == "remove-wall" + " ";
    assert WallRemovalLine(x, y, o, playerID) == Unwords(WallTokens("remove-wall", x, y, o, playerID));
    WallTokensSplit("remove-wall", x, y, o, playerID);
  }

  /** A remove-wall-display line drops the id field the removal request carried. */
  lemma RemoveWallDisplayLine(x: Int32, y: Int32, o: WallPlacement, twoPlayers: bool)
    ensures Dispatch(Unwords(["remove-wall-display", IntToString(x), IntToString(y), Name(o)]), twoPlayers)
         == Gui([GuiCall.RemoveWallDisplay(x, y, o)])
  {
    CommandWords();
    var tokens := ["remove-wall-display", IntToString(x), IntToString(y), Name(o)];
    SplitUnwords(tokens);
    ParseIntToString(x);
    ParseIntToString(y);
  }

  /** A wall line whose orientation is not a constant name is malformed. */
  lemma UnknownOrientationIsMalformed(x: Int32, y: Int32, o: string, playerID: Int32, twoPlayers: bool)
    requires IsWord(o) && ValueOf(o).None?
    ensures Dispatch(Unwords(["wall", IntToString(x), IntToString(y), o, IntToString(playerID)]), twoPlayers) == Malformed
  {
    CommandWords();
    var tokens := ["wall", IntToString(x), IntToString(y), o, IntToString(playerID)];
    SplitUnwords(tokens);
    ParseIntToString(x);
    ParseIntToString(y);
  }

  /** The positions of the int fields a command reads. */
  function IntFieldIndices(head: string, twoPlayers: bool): set<nat> {
    if head == "setID" || head == "currentPlayer" then {1}
    else if head == "stats" || head == "pawn" then {1, 2, 3}
    else if head == "highlight" || head == "remove-wall-display" then {1, 2}
    else if head == "wall" then {1, 2, 4}
    else if head == "coordinate" then (if twoPlayers then {1, 2, 3, 4} else {1, 2, 3, 4, 5, 6, 7, 8})
    else {}
  }

  /** The positions of the orientation fields a command reads. */
  function OrientationFieldIndices(head: string): set<nat> {
    if head == "wall" || head == "remove-wall-display" then {3} else {}
  }

  /** One of the fields the command reads is missing, is not an int where an int is read
      (`parseInt` throws), or is not an orientation name where one is read (`valueOf`
      throws). */
  predicate FieldFails(commands: seq<string>, twoPlayers: bool)
    requires |commands| >= 1
  {
    || (exists i :: i in IntFieldIndices(commands[0], twoPlayers) && IntField(commands, i).None?)
    || (exists i :: i in OrientationFieldIndices(commands[0]) && OrientationField(commands, i).None?)
  }

  /** Each decoder fails exactly when a field its command reads fails to parse. */
  lemma SetIdFails(commands: seq<string>, twoPlayers: bool)
    requires |commands| >= 1 && commands[0] == "setID"
    ensures IntField(commands, 1).None? <==> FieldFails(commands, twoPlayers)
  {
    assert IntFieldIndices(commands[0], twoPlayers) == {1} && OrientationFieldIndices(commands[0]) == {};
  }

  lemma StatsFails(commands: seq<string>, twoPlayers: bool)
    requires |commands| >= 1 && commands[0] == "stats"
    ensures UpdatePlayerStats(commands).None? <==> FieldFails(commands, twoPlayers)
  {
    assert IntFieldIndices(commands[0], twoPlayers) == {1, 2, 3} && OrientationFieldIndices(commands[0]) == {};
  }

  lemma PawnFails(commands: seq<string>, twoPlayers: bool)
    requires |commands| >= 1 && commands[0] == "pawn"
    ensures UpdatePlayerPawnPosition(commands).None? <==> FieldFails(commands, twoPlayers)
  {
    assert IntFieldIndices(commands[0], twoPlayers) == {1, 2, 3} && OrientationFieldIndices(commands[0]) == {};
  }

  lemma CurrentPlayerFails(commands: seq<string>, twoPlayers: bool)
    requires |commands| >= 1 && commands[0] == "currentPlayer"
    ensures UpdateCurrentPlayer(commands).None? <==> FieldFails(commands, twoPlayers)
  {
    assert IntFieldIndices(commands[0], twoPlayers) == {1} && OrientationFieldIndices(commands[0]) == {};
  }

  lemma HighlightFails(commands: seq<string>, twoPlayers: bool)
    requires |commands| >= 1 && commands[0] == "highlight"
    ensures HighlightAvailablePositions(commands).None? <==> FieldFails(commands, twoPlayers)
  {
    assert IntFieldIndices(commands[0], twoPlayers) == {1, 2} && OrientationFieldIndices(commands[0]) == {};
  }

  lemma WallFails(commands: seq<string>, twoPlayers: bool)
    requires |commands| >= 1 && commands[0] == "wall"
    ensures UpdateWallPosition(commands).None? <==> FieldFails(commands, twoPlayers)
  {
    assert IntFieldIndices(commands[0], twoPlayers) == {1, 2, 4} && OrientationFieldIndices(commands[0]) == {3};
  }

  lemma RemoveWallDisplayFails(commands: seq<string>, twoPlayers: bool)
    requires |commands| >= 1 && commands[0] == "remove-wall-display"
    ensures RemoveWallDisplay(commands).None? <==> FieldFails(commands, twoPlayers)
  {
    assert IntFieldIndices(commands[0], twoPlayers) == {1, 2} && OrientationFieldIndices(commands[0]) == {3};
  }

  lemma CoordinateFails(commands: seq<string>, twoPlayers: bool)
    requires |commands| >= 1 && commands[0] == "coordinate"
    ensures Coordinate(commands, twoPlayers).None? <==> FieldFails(commands, twoPlayers)
  {
    var ints := IntFieldIndices(commands[0], twoPlayers);
    assert OrientationFieldIndices(commands[0]) == {};
    if twoPlayers {
      assert ints == {1, 2, 3, 4};
    } else {
      assert ints == {1, 2, 3, 4, 5, 6, 7, 8};
      if Coordinate(commands, twoPlayers).None? {
        var i :| 1 <= i <= 8 && IntField(commands, i).None?;
        assert i in ints;
      }
    }
  }

  /** A line is malformed exactly when a field its command reads fails to parse; lines
      with another command, or one that reads no field, never are. */
  lemma MalformedExactly(commands: seq<string>, twoPlayers: bool)
    requires |commands| >= 1
    ensures Handle(commands, twoPlayers).Malformed? <==> FieldFails(commands, twoPlayers)
  {
    var head := commands[0];
    if head == "setID" {
      SetIdFails(commands, twoPlayers);
    } else if head == "stats" {
      StatsFails(commands, twoPlayers);
    } else if head == "pawn" {
      PawnFails(commands, twoPlayers);
    } else if head == "currentPlayer" {
      CurrentPlayerFails(commands, twoPlayers);
    } else if head == "highlight" {
      HighlightFails(commands, twoPlayers);
    } else if head == "wall" {
      WallFails(commands, twoPlayers);
    } else if head == "remove-wall-display" {
      RemoveWallDisplayFails(commands, twoPlayers);
    } else if head == "coordinate" {
      CoordinateFails(commands, twoPlayers);
    } else {
      assert IntFieldIndices(head, twoPlayers) == {} && OrientationFieldIndices(head) == {};
    }
  }

  /** The same for a line of words: it is dropped as malformed exactly when a field its
      command reads fails to parse. */
  lemma MalformedLine(words: seq<string>, twoPlayers: bool)
    requires |words| >= 1 && AllWords(words)
    ensures Dispatch(Unwords(words), twoPlayers).Malformed? <==> FieldFails(words, twoPlayers)
  {
    SplitUnwords(words);
    MalformedExactly(words, twoPlayers);
  }

  /** A reset line clears the displayed walls and changes nothing else. */
  lemma ResetLine(st: ClientState, rest: seq<string>, twoPlayers: bool)
    requires AllWords(["reset"] + rest)
    ensures Run(st, [Unwords(["reset"] + rest)], twoPlayers) == (st, [GuiCall.ResetWalls])
  {
    SplitUnwords(["reset"] + rest);
    var line := Unwords(["reset"] + rest);
    assert Effects([line], twoPlayers) == [Gui([GuiCall.ResetWalls])];
    ReplayOne(st, Gui([GuiCall.ResetWalls]));
  }

  /** GameClient: the client's set-once state and the lines it has sent. */
  class GameClient {
    var guiCanBeLaunched: bool
    var guiIsLaunched: bool
    var playerID: Int32
    var idIsAssigned: bool
    var sent: seq<string>

    function State(): ClientState
      reads this
    {
      ClientState(guiCanBeLaunched, playerID, idIsAssigned)
    }

    constructor ()
      ensures State() == InitialState && !guiIsLaunched && sent == []
    {
      guiCanBeLaunched := false;
      guiIsLaunched := false;
      playerID := 0;
      idIsAssigned := false;
      sent := [];
    }

    method SetPlayerID(id: Int32)
      modifies this`playerID, this`idIsAssigned
      ensures State() == AssignedId(old(State()), id)
    {
      if !idIsAssigned {
        playerID := id;
        idIsAssigned := true;
      }
    }

    method SetGUILaunched(booted: bool)
      modifies this`guiIsLaunched
      ensures guiIsLaunched == booted
    {
      guiIsLaunched := booted;
    }

    /** One line's branch of the read loop, on its decoded effect. */
    method ApplyEffect(effect: LineEffect) returns (made: seq<GuiCall>)
      modifies this`guiCanBeLaunched, this`playerID, this`idIsAssigned
      ensures (State(), made) == Apply(old(State()), effect)
    {
      made := [];
      match effect {
        case BootGui =>
          guiCanBeLaunched := true;
        case AssignId(id) =>
          SetPlayerID(id);
        case Gui(calls) =>
          made := calls;
        case Unrecognised =>
        case Malformed =>
      }
    }

    /** The read loop over the given lines: the GUI calls made, in order. Each line is
        decoded by `Dispatch` (`Effects` holds those decodings, see `EffectsAt`) and its
        effect applied before the next one is looked at. */
    method ListenForServerInput(lines: seq<string>, twoPlayers: bool) returns (calls: seq<GuiCall>)
      modifies this`guiCanBeLaunched, this`playerID, this`idIsAssigned
      ensures (State(), calls) == Run(old(State()), lines, twoPlayers)
    {
      calls := [];
      var effects := Effects(lines, twoPlayers);
      var i := 0;
      while i < |lines|
        invariant 0 <= i <= |lines|
        invariant (State(), calls) == Replay(old(State()), effects[..i])
      {
        var effect := effects[i];
        assert effects[..i + 1][..i] == effects[..i];
        var made := ApplyEffect(effect);
        calls := calls + made;
        i := i + 1;
      }
      assert effects[..i] == effects;
    }

    /** `displayErrorMessage`'s message, built token by token. */
    method DisplayErrorMessage(commands: seq<string>) returns (message: string)
      ensures message == ErrorText(commands)
    {
      message := "";
      var i := 1;
      while i < |commands|
        invariant 1 <= i <= |commands| + 1
        invariant i > |commands| ==> |commands| == 0
        invariant message == ErrorText(commands[..Min(i, |commands|)])
      {
        message := message + commands[i] + " ";
        assert commands[..i + 1][..i] == commands[..i];
        i := i + 1;
      }
      assert commands[..Min(i, |commands|)] == commands;
    }

    method SendMove(x: Int32, y: Int32)
      modifies this`sent
      ensures sent == old(sent) + [MoveLine(x, y, playerID)]
    {
      sent := sent + [MoveLine(x, y, playerID)];
    }

    method SendWallMove(topLeftX: Int32, topLeftY: Int32, orientation: WallPlacement)
      modifies this`sent
      ensures sent == old(sent) + [WallLine(topLeftX, topLeftY, orientation, playerID)]
    {
      sent := sent + [WallLine(topLeftX, topLeftY, orientation, playerID)];
    }

    method SendWallRemoval(topLeftX: Int32, topLeftY: Int32, orientation: WallPlacement)
      modifies this`sent
      ensures sent == old(sent) + [WallRemovalLine(topLeftX, topLeftY, orientation, playerID)]
    {
      sent := sent + [WallRemovalLine(topLeftX, topLeftY, orientation, playerID)];
    }

    method RequestCurrentPlayerAvailableMoves()
      modifies this`sent
      ensures sent == old(sent) + [AvailableLine]
    {
      sent := sent + [AvailableLine];
    }

    method RequestInitialPlayerPawnPositions()
      modifies this`sent
      ensures sent == old(sent) + [StartCoordinatesLine]
    {
      sent := sent + [StartCoordinatesLine];
    }
  }
}
