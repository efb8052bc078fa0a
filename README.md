# Quoridor game core in Dafny

This project models the game logic of a two-player Quoridor-style board game: pawns move on a
9x9 grid and players place two-cell walls. Three parts of the Java program are modelled:

- **The local rule engine** (`GameController`), in `game_controller.dfy`, module `Rules`.
  It holds two players, a current-player pointer, the board's per-cell wall flags and the list
  of walled-off positions. Its operations are the adjacency-and-wall move check, pawn moves with
  the occupied check and the win check, wall placement, turn alternation and the reset after a
  win. Spec functions on a `Game` value (`StepMove`, `StepWall`, `Reset`, `Alternate`) state
  the behaviour. The class `Rules.GameController` changes its fields step by step as the Java
  does, and each of its methods is proved equal to the matching spec function.
- **The server turn gate and broadcast** (`NetworkedGameController`), in
  `networked_game_controller.dfy`, module `Server`. Each seat's connection is an outbox of
  message values. The `Board` is an abstract value. Its answer to `movePawn` / `placeWalls` is
  a parameter: the board afterwards plus the game-over flag, or the exception message. The
  spec function `Serve` states, for one request, what each outbox receives and what the board
  becomes. The class's methods are proved equal to it.
- **The client line protocol** (`GameClient`), in `game_client.dfy`, module `Client`:
  - `Handle`/`Dispatch` decode inbound lines into GUI calls, modelled as values;
  - `MoveLine`, `WallLine` and the other encoders build outbound lines;
  - `playerID`, `guiCanBeLaunched` and the other fields are the client's set-once state;
  - `Run` folds the read loop over a given sequence of lines.

Two support modules model the Java library behaviour the protocol depends on:

- `java_text.dfy`, module `JavaText`:
  - `String.split("\\s+")`;
  - `Integer.parseInt` and `Integer.toString` on 32-bit ints;
  - a parse/print round trip and a split/join round trip.
- `protocol.dfy`, module `Protocol`: grid cells and the `WallPlacement` enum with `name`/`valueOf`.

Where the code departs from the usual rules of the game, or from what its own comments and names suggest, the model follows the code:

- In the local engine, an invalid move by player 2 is silently ignored. Only player 1's throws.
- After any win, player 2 moves first.
- The server's `placeWall` has no turn check.
- After a game over, each seat is sent the other player's move count in place of its wall count.
  So the seats do not end up with identical state.
- The client's error text ends with a space. It is not just the tokens rejoined by single spaces.
- A malformed server line does not end the client's reading: `run` calls
  `listenForServerInput` again, and later lines are still handled.

## Model

| member | source | states |
|---|---|---|
| JavaText.Split | src/GameClient.java:97 | `split("\\s+")`: every token is whitespace-free, only the first may be empty, and a line starting with a non-blank character yields a non-empty first token |
| JavaText.SplitUnwords | src/GameClient.java:97 | splitting words joined by single spaces gives back exactly those words (what the client sees of a line built by the senders) |
| JavaText.ParseInt | src/GameClient.java:102 | `Integer.parseInt` accepts exactly an optional '-' or '+' followed by at least one digit whose signed value fits in 32 bits, and returns that value; a lone sign, any other character or an out-of-range value is rejected |
| JavaText.IntToString | src/GameClient.java:163 | an int concatenated into a line is one non-empty token with no whitespace, starting with '-' exactly when negative |
| JavaText.ParseIntToString | src/GameClient.java:162-168 | `Integer.parseInt(Integer.toString(n)) == n` for every 32-bit int |
| JavaText.NatToStringValue | src/GameClient.java:163 | the decimal digits printed for n denote n |
| Protocol.ValueOf | src/GameClient.java:194 | `WallPlacement.valueOf` succeeds exactly on "VERTICAL" and "HORIZONTAL" and returns the constant with that name |
| Protocol.Name | src/GameClient.java:167 | an orientation concatenated into a line is a single word |
| Rules.IsValidMove | src/GameController.java:166-191 | `isValidMove` branch by branch; what it means is stated by `Rules.ValidMoveMeaning` |
| Rules.ValidMoveMeaning | src/GameController.java:166-191 | valid exactly when the target is one step away on one axis and the mover's own cell has no flag on that side; the target's flags are not consulted |
| Rules.Alternate | src/GameController.java:246-255 | the pointer moves to the other player; players, flags and walled-off list unchanged |
| Rules.Previous | src/GameController.java:62-69 | the previous player is always the one that is not current |
| Rules.Reset | src/GameController.java:196-214 | both players back at (4,0)/(4,8) with 0 moves and 10 walls, player 1 current, the record emptied, exactly the recorded cells' flags cleared (all flags in an invariant state) |
| Rules.StepMove | src/GameController.java:117-157 | occupied iff the target is the other pawn; accepted iff free and valid; invalid throws for player 1 and is ignored for player 2; a rejected move changes nothing; an accepted move changes only the mover's cell and move count and passes the turn; a win resets and leaves player 2 current |
| Rules.StepWall | src/GameController.java:78-110 | accepted iff the placer has a wall left, else nothing changes; exactly the four flags added, the four cells recorded in order, the placer's wall count down by 1 and move count up by 1, the turn passed |
| Rules.StepKeepsInvariant | src/GameController.java:117-157 | every move or wall keeps counts in range and the pawns on distinct on-board cells; an accepted action passes the turn, a win hands it to player 2, a rejected one changes nothing |
| Rules.PlayKeepsInvariant | src/GameController.java:78-157 | any sequence of moves and walls from a valid state keeps the invariant (wall counts in 0..10, pawns on distinct cells, every flag recorded for the next reset) |
| Rules.WinClearsAllWalls | src/GameController.java:129-132 | after a winning move no wall flag is left and the state is the initial one with player 2 to move |
| Rules.GameController.constructor | src/GameController.java:28-35 | player 1 at (4,0), player 2 at (4,8), player 1 current, no walls; the invariant holds |
| Rules.GameController.GetPreviousPlayer | src/GameController.java:62-69 | the player record of the non-current seat |
| Rules.GameController.ChangePlayer | src/GameController.java:246-255 | the new state is `Alternate` of the old |
| Rules.GameController.AssignWall | src/GameController.java:222-241 | sets exactly the one named flag, nothing else changes |
| Rules.GameController.ResetGame | src/GameController.java:196-214 | the new state is `Reset` of the old |
| Rules.GameController.PlaceWall | src/GameController.java:78-110 | the new state and outcome are `StepWall` of the old state |
| Rules.GameController.MovePawn | src/GameController.java:117-157 | the new state and outcome are `StepMove` of the old state |
| Server.Highlights | src/NetworkedGameController.java:32-42 | one highlight per occupiable position, in board order, at (2x, 2y) |
| Server.PawnUpdates | src/NetworkedGameController.java:202-209 | the pawn, stats and current-player lines of `sendPawnUpdate`; both seats get the same ones (`Server.DeliveredAlike`) |
| Server.WallUpdates | src/NetworkedGameController.java:184-193 | the wall, stats and current-player lines of `sendWallUpdate`; both seats get the same ones (`Server.DeliveredAlike`) |
| Server.ResetCommands | src/NetworkedGameController.java:211-227 | `sendGUIResetCommands` for one seat; what each seat ends up believing is stated by `Server.LatestStatsOfReset` and `Server.GameOverReportsMoveCountAsWalls` |
| Server.Delivered | src/NetworkedGameController.java:76-138 | what each seat is sent for one request; its routing is stated by `Server.DeliveredRouting` and `Server.DeliveredAlike` |
| Server.Serve | src/NetworkedGameController.java:112-138 | outboxes only grow; a rejected action leaves the board alone, sends nothing to a seat that did not act and exactly one error line to the one that did; an out-of-turn move gets "It isn't your turn."; a successful wall needs no turn; no error line reaches a non-acting seat; an accepted action without game over sends both seats the same lines |
| Server.DeliveredRouting | src/NetworkedGameController.java:76-138 | a rejected action reaches the acting seat alone, as exactly one error line with the reason; no seat that did not act is ever sent an error line |
| Server.DeliveredAlike | src/NetworkedGameController.java:76-138 | an accepted action that does not end the game sends both seats identical lines |
| Server.SameUpdatesForOneRequest | src/NetworkedGameController.java:202-209 | apart from error lines both seats receive the same messages for any request that does not end the game |
| Server.SeatsSeeSameUpdates | src/NetworkedGameController.java:184-209 | seats that were shown the same state updates still are after any run of requests without a game over |
| Server.LatestStatsOfReset | src/NetworkedGameController.java:211-227 | after the reset commands a seat was last told its own player's true counts and the other player's move count as that player's walls |
| Server.GameOverReportsMoveCountAsWalls | src/NetworkedGameController.java:216-221 | after a game-over move seat 1 holds (moves, moves) for player 2 while seat 2 holds (moves, walls), and symmetrically for player 1 |
| Server.NetworkedGameController.constructor | src/NetworkedGameController.java:10-12 | the board is stored, no seat connected |
| Server.NetworkedGameController.SetPlayer1IO | src/NetworkedGameController.java:14-18 | only the first connection offered for seat 1 is kept |
| Server.NetworkedGameController.SetPlayer2IO | src/NetworkedGameController.java:20-24 | only the first connection offered for seat 2 is kept |
| Server.NetworkedGameController.ShowCurrentPlayerMoves | src/NetworkedGameController.java:31-42 | both outboxes grow by the highlights of the occupiable positions, board unchanged |
| Server.NetworkedGameController.PlaceWall | src/NetworkedGameController.java:76-87 | board and outboxes become `Serve` of the wall request |
| Server.NetworkedGameController.MovePawn | src/NetworkedGameController.java:112-138 | board and outboxes become `Serve` of the move request |
| Server.NetworkedGameController.SendErrorMessage | src/NetworkedGameController.java:121-128 | the text goes to seat 1 or seat 2 when that is the acting id, and to nobody otherwise |
| Server.NetworkedGameController.SendPawnUpdate | src/NetworkedGameController.java:202-209 | each outbox gets pawn(prev), stats(prev), currentPlayer(current id) |
| Server.NetworkedGameController.SendWallUpdate | src/NetworkedGameController.java:184-193 | each outbox gets wall(x, y, orientation, prev id), stats(prev), currentPlayer(current id) |
| Server.NetworkedGameController.SendGUIResetCommands | src/NetworkedGameController.java:211-227 | each seat gets its own stats, the other's stats with the move count twice, both pawns, then reset-walls |
| Client.IntField | src/GameClient.java:238-240 | a field parses only when the token exists and `parseInt` accepts it |
| Client.OrientationField | src/GameClient.java:201 | an orientation field parses only to the constant whose name is the token |
| Client.UpdatePlayerStats | src/GameClient.java:237-243 | decoded exactly when fields 1 to 3 are ints (field order: `Client.StatsFieldOrder`) |
| Client.UpdatePlayerPawnPosition | src/GameClient.java:225-235 | decoded exactly when fields 1 to 3 are ints (field order: `Client.PawnFieldOrder`) |
| Client.UpdateCurrentPlayer | src/GameClient.java:220-223 | decoded exactly when field 1 is an int |
| Client.HighlightAvailablePositions | src/GameClient.java:214-218 | decoded exactly when fields 1 and 2 are ints |
| Client.UpdateWallPosition | src/GameClient.java:198-204 | decoded exactly when fields 1, 2 and 4 are ints and field 3 is an orientation name |
| Client.RemoveWallDisplay | src/GameClient.java:191-196 | decoded exactly when fields 1 and 2 are ints and field 3 is an orientation name |
| Client.Coordinate | src/GameClient.java:129-148 | decoded exactly when fields 1 to 4 are ints and, unless the GUI has two players, fields 5 to 8 as well |
| Client.ErrorText | src/GameClient.java:206-212 | every token after the first, each followed by a space; `Client.ErrorTextOfWords` states it is the words joined by single spaces plus one trailing space |
| Client.Dispatch | src/GameClient.java:96-97 | a line is split on whitespace and handled; its results are stated by `Client.MalformedLine`, the field-order lemmas and the round trips |
| Client.SetIdFails | src/GameClient.java:101-103 | a setID line fails exactly when its field 1 is missing or not an int |
| Client.StatsFails | src/GameClient.java:237-240 | a stats line's decoding fails exactly when one of its int fields fails |
| Client.PawnFails | src/GameClient.java:225-228 | a pawn line's decoding fails exactly when one of its int fields fails |
| Client.CurrentPlayerFails | src/GameClient.java:220-221 | a currentPlayer line's decoding fails exactly when its int field fails |
| Client.HighlightFails | src/GameClient.java:214-216 | a highlight line's decoding fails exactly when one of its int fields fails |
| Client.WallFails | src/GameClient.java:198-202 | a wall line's decoding fails exactly when an int field or the orientation fails |
| Client.RemoveWallDisplayFails | src/GameClient.java:191-194 | a remove-wall-display line's decoding fails exactly when an int field or the orientation fails |
| Client.CoordinateFails | src/GameClient.java:129-148 | a coordinate line's decoding fails exactly when one of the four, or in four-player mode eight, int fields fails |
| Client.MalformedExactly | src/GameClient.java:97-157 | a line's handling ends in an exception exactly when a field its command reads is missing, not an int, or not an orientation name; bootGUI, error, reset and unknown commands never do |
| Client.MalformedLine | src/GameClient.java:97-157 | the same for a line of words: it is dropped exactly when one of its command's fields fails to parse |
| Client.Handle | src/GameClient.java:97-155 | unrecognised exactly when the first token is no command; only setID offers an id (the parsed second token); only bootGUI permits the launch; bootGUI, error and reset never fail |
| Client.AssignedId | src/GameClient.java:56-61 | afterwards an id is assigned, and it is the old one if one was already assigned |
| Client.ReplayAppend | src/GameClient.java:50-54 | reading two stretches of input is reading the second from where the first left off |
| Client.NoEffectLineIsSkipped | src/GameClient.java:157-159 | a line with an unknown command or a malformed field leaves the whole run as if it had never arrived |
| Client.AssignedIdIsKept | src/GameClient.java:56-61 | once assigned, no later line changes the id |
| Client.FirstOfferedIdWins | src/GameClient.java:101-103 | the id is the one from the first setID line, whatever follows |
| Client.ResetLine | src/GameClient.java:123-125 | a reset line clears the displayed walls and changes no client state |
| Client.BootGuiLine | src/GameClient.java:98-99 | a bootGUI line sets only `guiCanBeLaunched` and makes no GUI call |
| Client.StatsFieldOrder | src/GameClient.java:237-243 | a stats line's fields are move count, wall count, player id, in that order |
| Client.PawnFieldOrder | src/GameClient.java:225-235 | a pawn line's fields are x, y, player id |
| Client.CurrentPlayerLine | src/GameClient.java:220-223 | a currentPlayer line marks that player active |
| Client.HighlightLine | src/GameClient.java:214-218 | a highlight line highlights its (x, y) |
| Client.SetIdLine | src/GameClient.java:101-103 | a setID line offers its id |
| Client.TwoPlayerCoordinates | src/GameClient.java:129-143 | with a two-player GUI four ints suffice and players 3 and 4 are set to (-1, -1) |
| Client.FourPlayerCoordinates | src/GameClient.java:143-148 | otherwise eight ints are read, in player order |
| Client.FourPlayerShortCoordinates | src/GameClient.java:129-148 | otherwise a four-int line is malformed |
| Client.ErrorTextOfWords | src/GameClient.java:206-212 | the error text is the words joined by single spaces plus one trailing space |
| Client.ErrorLine | src/GameClient.java:117-119 | an error line displays its words joined by single spaces with a trailing space |
| Client.MoveLine | src/GameClient.java:162-164 | the `sendMove` line; that it decodes back to its fields is `Client.MoveRoundTrip` |
| Client.WallLine | src/GameClient.java:166-168 | the `sendWallMove` line; that it decodes back to its fields is `Client.WallRoundTrip` |
| Client.WallRemovalLine | src/GameClient.java:170-173 | the `sendWallRemoval` line; that it decodes back to its fields is `Client.WallRemovalRoundTrip` |
| Client.MoveRoundTrip | src/GameClient.java:162-164 | the line `sendMove` emits gives back its x, y and id |
| Client.WallRoundTrip | src/GameClient.java:166-168 | the line `sendWallMove` emits gives back x, y, orientation and id, also through the client's own `wall` branch |
| Client.WallRemovalRoundTrip | src/GameClient.java:170-173 | the line `sendWallRemoval` emits gives back x, y, orientation and id |
| Client.RemoveWallDisplayLine | src/GameClient.java:191-196 | a remove-wall-display line removes the wall at its x, y and orientation |
| Client.UnknownOrientationIsMalformed | src/GameClient.java:198-204 | a wall line whose orientation is not a constant name has no effect |
| Client.GameClient.constructor | src/GameClient.java:42-48 | no launch permission, not launched, no id assigned, nothing sent |
| Client.GameClient.SetPlayerID | src/GameClient.java:56-61 | the state becomes `AssignedId` of the old state |
| Client.GameClient.SetGUILaunched | src/GameClient.java:187-189 | the flag takes the given value |
| Client.GameClient.ApplyEffect | src/GameClient.java:98-155 | one line's branch changes the state and makes the calls `Apply` gives |
| Client.GameClient.ListenForServerInput | src/GameClient.java:92-160 | the final state and the GUI calls are those of `Run` over the lines |
| Client.GameClient.DisplayErrorMessage | src/GameClient.java:206-212 | the built message is `ErrorText` of the tokens |
| Client.GameClient.SendMove | src/GameClient.java:162-164 | one `MoveLine` with the client's id is sent |
| Client.GameClient.SendWallMove | src/GameClient.java:166-168 | one `WallLine` with the client's id is sent |
| Client.GameClient.SendWallRemoval | src/GameClient.java:170-173 | one `WallRemovalLine` with the client's id is sent |
| Client.GameClient.RequestCurrentPlayerAvailableMoves | src/GameClient.java:175-177 | the line "available" is sent |
| Client.GameClient.RequestInitialPlayerPawnPositions | src/GameClient.java:179-181 | the line "start-coordinates" is sent |

## Left out

- Rules.StepMove: requires the target cell to be on the 9x9 board when the move passes `isValidMove`, because only then is the target looked up with `Board.getPosition`, which is not part of this model and whose behaviour off the board is unknown.
- Rules.GameController.MovePawn: the same requires, for the same reason.
- Rules.GameController.PlaceWall: requires the four covered cells to be on the board when the player has a wall left, because only then are they looked up.
- Rules.GameController.constructor: the board handed to the Java constructor is stored as it is; the model takes it to be a fresh board with no wall flags and no walled-off positions.
- `Board`, `Player` and `Position` are not part of this model:
  - a player is its coordinates and two counters;
  - `new Player(x, y)` is taken to start with 0 moves and 10 walls;
  - `hasWalls` is taken to be "wall count above 0";
  - wall flags are a set of (cell, side) pairs;
  - `resetWalledOffPositions` clears every flag of every recorded cell and empties the record.
- The GUI calls made by `GameController` (move and wall counts, pawn positions, `changeActivePlayer`, `resetWalls`): they have no effect on the game state.
- `GameController.showCurrentPlayerMoves` and `getCurrentPlayer`: the first only forwards the board's occupiable positions to the GUI, which is not part of this model; the second is a getter.
- In the server, what the Board does with a move or a wall is not modelled; its answer is a parameter, so the server model holds for any board answer, under the two assumptions that follow.
- Server.Serve: a refused move or wall is taken to leave the board as it was. The claim "a rejected action leaves the board alone" rests on `board.movePawn` and `board.placeWalls` changing nothing when they throw.
- Server.Serve: the board is taken to throw only IllegalArgumentException from `movePawn` and IllegalStateException from `placeWalls`. Any other exception escapes the catch and ends the broadcast part-way; that path is not modelled.
- Server.NetworkedGameController.MovePawn, PlaceWall, ShowCurrentPlayerMoves and the Send methods require both seats to be connected, on distinct connections. The Java never checks this. An action before seat 2 connects throws NullPointerException part-way through: for an accepted move, after the board has changed and after seat 1 got its pawn and stats lines. That path is not modelled.
- The two-argument `movePawn(posX, posY)` of the server: an empty method that does nothing.
- Client.WallLine and Client.WallRemovalLine: `sendWallMove` and `sendWallRemoval` write the orientation through `toString()`; the model writes the constant's name, taking `WallPlacement` not to override `toString` (WallPlacement's source is not part of this model).
- The exception texts of `GameController` ("Position is occupied", "That isn't a valid move", "You have no remaining walls") are not carried by the model's outcomes: nothing in the modelled core reads them, and the server passes the board's texts through as given strings.
- `getCurrentPlayer` and `getPlayer1X`…`getPlayer2Y` of the server: getters that forward to the board.
- `removeWall`, `resetGame`, the unused `placeWall` overloads, the commented-out code, `sendWallRemovalUpdate` and `sendWallRemovalListenerSignal`: empty stubs or dead code.
- ClientSocketIOThread's encoding of each message as a text line: that class is not part of this model, so server messages are values.
- The connection threads: they run concurrently and may race on the board. Requests are served one at a time.
- Server.NetworkedGameController.ShowCurrentPlayerMoves: does not model 32-bit overflow of `pos.getX() * 2`, because positions are board cells (0..8).
- The client's socket: `connectToServer`, `initThread`, `run`'s endless loop, `readLine`, `Alert` and logging. The input is a given sequence of lines.
- `Platform.runLater`: pawn and coordinate updates are deferred to the GUI thread in Java. The model lists every GUI call in line order.
- `gui.getNumberOfPlayers()` is a parameter (`twoPlayers`).
- JavaText.ParseInt: accepts only ASCII digits, while Java's `Integer.parseInt` also accepts other Unicode decimal digits.
- Move, wall and position counters are unbounded integers, where Java uses 32-bit ints; no reachable game gets near the bound.
