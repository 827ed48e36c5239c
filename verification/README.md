# Nibbles: a verified model

Nibbles is a multiplayer snake game. A server advances the one true game; clients replay it from the
messages the server sends. This project models the game, its replication, the packets it travels in and
the server around it, and proves what they promise. To check it:

    dafny verify dfyconfig.toml

The parts, from the inside out:

* **Geometry, Sequences, Blocks, Definitions, Boards** - coordinates as `uint32_t`, the column-by-column
  iterator over blocks, level definitions with random blocks, and the board array.
* **Snakes, Scores, LevelModel, Levels** - `LevelModel` says what a tick is: three simultaneous phases, in
  which the fate of a snake is a function of the board before the phase and of the bag of cells that all
  heads are about to enter. `Levels` has the object with its sequential loops over a shared board, and
  proves that it does just that.
* **LevelInvariants, OrderIndependence** - what every tick keeps: the board agrees with the bodies, walls
  stand, bodies hang together, lengths add up, the number is where the board shows it; and the order of the
  snakes does not matter.
* **TickMeaning** - what a tick does to every player, snake and cell, said with the board, the snakes and the
  moves alone.
* **GameModel, Games, GameInvariants, GameRuns** - levels that follow one another, as values and as an
  object; all invariants together; and, by induction over whole games, the laws of scores, lives, lengths
  and meals across level restarts.
* **TurnQueues, TurnRuns, TurnCommands** - from the commands of a client to the turns of a snake, in every
  run of the server.
* **Replica, Clients** - a client as a fold over the message log, and the client object that refines it.
* **ServerModel, Servers, ServerInvariants, ServerRosters, ServerSurvival, ServerWitness** - the server as a
  state machine over events, the server object that refines it, the theorems over all its runs, exactly
  which events it does not survive, and runs that lead to such events.
* **ServerMeaning, Readiness** - what each event does, in plain terms: when a game starts and with what, what a
  countdown does, when a game ends, who is there, who is ready and what clients know of that.
* **Framing, Links, TcpSockets, Delivery** - length-prefixed packets, one direction of a connection as a
  state machine over sends, writes and reads of any size, the socket object with its in-place buffer, and
  the composition: what a client at the far end of a link shows.
* **ClientRosters** - the list of players that a client makes from the messages, and when it is right.
* **HighScores** - the tables of high scores, the report on a new score, and what it means; the server's
  game end uses them.

Objects that the program updates in place are classes here, each with a function that gives its value; every
method says how the value changes in terms of the model functions, and the lemmas are about those
functions. Random choices and the time are inputs of a step. Lemmas switch automatic induction off, so
that a proof shows where it uses induction.

Four properties are true only under a condition, which is proved to be exact:

* The server survives an event if and only if it does not fail as `ServerSurvival.Fails` says, for every
  state of every run (`ServerSurvival.TheServerSurvives`). It fails in four ways: a game starts with more
  players than its first level has starts; a level is completed and the next one has fewer starts than
  there are players; a game ends while a player that joined during it is there, whom the scorer does not
  know; a tick is run without a game. For three of them `ServerWitness` has a run from the idle server.
  Where the program ends in an exception or a failed assertion, or uses a game that is not there, the
  model has no next state, and the methods of the server object return false.
* A game is driven by a single timer in all states of a run if and only if the last client never leaves
  while the game is paused (`ServerInvariants.SingleTickDriver`). Then no tick is run without a game
  (`ServerSurvival.NoTickWithoutGame`). If it does leave, the server drops the game but stays paused, and
  there is a continuation it does not survive (`ServerSurvival.LeavingAPausedGameIsFatal`).
* A client shows the game of the server with the list of players it has made from the messages if and only
  if no client with players has left before the game started, because nobody is told of that
  (`ClientRosters.ClientsFollowUnlessSomebodyLeaves`).
* Moving a block iterator by n at once is n single steps if and only if `Blocks.StaysExact` holds
  (`Blocks.AdvanceIsSteps`); by -1, if and only if the row is not row 0.

The assertion in `nibbles/level.cpp:11` that moves are sorted is not claimed: `Server::tick` collects them
from a hashed index. Moves are a map here, so that nothing depends on their order.

## Model

| member | source | states |
|---|---|---|
| `Geometry.OppositeUndoes` | nibbles/direction.hpp:11-13 | Turning a direction round (flipping the lowest bit of its code) is its own inverse, has no fixed point, and undoes a step on the torus |
| `Geometry.StepOnTheTorus` | nibbles/board.cpp:50-81 | Up lowers the row by one, Down raises it, Left lowers the column and Right raises it, modulo the size of the board |
| `Geometry.NeighboursDiffer` | nibbles/board.cpp:50-81 | On boards of at least 3 by 3 cells the four neighbours of a cell are four cells different from each other and from the cell |
| `Geometry.InteriorStep` | nibbles/board.cpp:50-81 | From strictly inside the border no step takes a wrap-around branch |
| `Blocks.StepsAreNormal` | nibbles/block.hpp:57-71 | n single increments or decrements of a block iterator land where row overflow into the neighbouring columns lands; in a block that reaches up to row 0, as long as the row stays at or above 0 |
| `Blocks.AdvanceIsSteps` | nibbles/block.hpp:57-83 | For every n, moving n positions at once equals n single steps if and only if: going back in a block that reaches up to row 0, the row arrived at is one of the block; otherwise, the row does not leave the range of uint32_t, or leaves it a multiple of the height of the block times |
| `Blocks.WalkVisits` | nibbles/block.hpp:57-63 | From any position, iterating visits exactly the cells of the block that are not before it, in strict column-by-column order |
| `Blocks.WalkVisitsEachCellOnce` | nibbles/block.hpp:57-94 | Iterating over a block of positive height (or one without columns) visits each cell exactly once and stops |
| `Blocks.Iterator.Advance` | nibbles/block.hpp:73-83 | The object lands there in place, equals n single steps under exactly that condition, and both loops terminate for every n |
| `Definitions.NumberCells` | nibbles/number.hpp:16-17 | A number has two cells, one above the other |
| `Definitions.Realise` | nibbles/leveldefinition.cpp:9-24 | The loops turn a definition into its realisation: drawn cells become blocks of their own, in order, and no random blocks remain |
| `Definitions.PushChosen` | nibbles/leveldefinition.cpp:16-20 | The inner loop pushes exactly the drawn cells of one random block, in the order of the walk |
| `Definitions.RealisedWalls` | nibbles/leveldefinition.cpp:9-24 | After realising, a cell is wall if and only if it is on the border, in a fixed block, or a drawn cell of a random block; the definition stays well formed |
| `Boards.Board.Assign` | nibbles/board.cpp:43-48 | Assigning a block changes exactly the cells of the block, each of them |
| `Boards.Board.Init` | nibbles/board.cpp:18-41 | Laying out a realised definition makes wall exactly the border and the blocks, and empties everything else |
| `Boards.Board.InitBorder` | nibbles/board.cpp:27-36 | Four overlapping strips wall in exactly the border |
| `Boards.RealisedBoard` | nibbles/board.cpp:18-41 | On the board of a realised level, a cell is wall if and only if it is on the border, in a fixed block or a drawn cell of a random block, and empty otherwise |
| `Scores.ScoreTracker.AddAll` | bin/gtk/ui/playing.cpp:230-234 | Entering all players into an empty scorer gives each of them no points and all lives |
| `Snakes.NewSnake` | nibbles/snake.hpp:28-35 | A new snake's cells and pending growth add up to max(1, startLength), also for startLength 0, where startLength - 1 wraps |
| `Snakes.Snake.AdvanceHead` | nibbles/snake.cpp:16-45 | The snake dies if and only if more than one head enters its next cell or the cell shows a wall or a snake; it eats if and only if its head alone enters the cell and the cell shows the number; the cell is entered and marked exactly if it does not die |
| `Snakes.Snake.AdvanceTail` | nibbles/snake.cpp:47-58 | Pending growth is used up, or else the last cell is given up and unmarked |
| `Levels.Level.Start` | nibbles/level.hpp:87-97 | A client's level: the players' snakes on the starts in order, the bare board, no number; no level if and only if there are more players than starts |
| `Levels.Level.StartWithNumber` | nibbles/level.hpp:72-85 | The server's level: the same with number 1 on the first drawn block that is free; no level if and only if there are more players than starts |
| `Levels.Level.InitSnakes` | nibbles/level.hpp:159-174 | One snake per player on the start of the same position; a level with too few starts is refused |
| `Levels.Level.TurnSnakes` | nibbles/level.cpp:16-27 | The first loop turns all snakes and collects the next heads of the turned snakes |
| `Levels.Level.AdvanceOneHead` | nibbles/level.cpp:28-48 | One snake advances on the shared board; exactly its own player's score, life and growth are settled |
| `Levels.Level.AdvanceHeads` | nibbles/level.cpp:28-48 | Advancing the heads one after the other on the shared board gives the board, snakes, scores and overall result of advancing them all at once |
| `Levels.Level.AdvanceTails` | nibbles/level.cpp:50-52 | Drawing in the tails one after the other gives the result of drawing them in all at once |
| `Levels.Level.Tick` | nibbles/level.cpp:5-55 | The whole sequential tick equals the simultaneous three-phase tick: level, scores and result |
| `Levels.Level.ClearNumber` | nibbles/level.cpp:62-66 | What is left of the old number is cleared and nothing else |
| `Levels.Level.SetNumber` | nibbles/level.cpp:57-74 | The old number's remains go, the new number's cells are marked, snakes and definition stay |
| `Levels.Level.RandomNumber` | nibbles/level.hpp:99-134 | The number placed lies on the first drawn block whose cells are all empty |
| `Levels.Level.DrawFree` | nibbles/level.hpp:120-131 | The retry loop ends with the first free draw, provided one of the draws is free |
| `Levels.Level.TickAndDraw` | nibbles/level.hpp:136-157 | A server tick is the client's tick, followed by the next number if one was eaten; eating the ninth advances the level instead |
| `TickMeaning.WhoDiesAndWhoEats` | nibbles/snake.cpp:16-45 | In a tick, a player loses a life if and only if another snake is about to enter the same neighbouring cell or the cell shows a wall or a snake, and scores if and only if neither is the case and the cell shows the number; the cell is the neighbour of the head in the direction of the move, or straight on without a move across the axis |
| `TickMeaning.ScoresInPlainTerms` | nibbles/level.cpp:28-48 | After a tick, the score of whoever eats is higher by the value of the number, that of whoever dies by deathScore, who also has one life less; no other score or life changes |
| `TickMeaning.ResultInPlainTerms` | nibbles/level.hpp:136-157 | The result of a tick: the game is over if somebody dies on a last life; otherwise dead if somebody dies; otherwise the level is completed if somebody eats the 9; otherwise a number was eaten or nothing happened |
| `TickMeaning.SnakesInPlainTerms` | nibbles/snake.cpp:7-58 | Every snake after a tick, cell by cell: the new head in front unless it dies, the last cell gone unless growth is pending, and what is left of the growth |
| `TickMeaning.BoardInPlainTerms` | nibbles/level.cpp:16-52 | Every cell after a tick: empty if a snake has given it up, a snake if a surviving one has entered it, and otherwise what it showed |
| `LevelModel.FateWhateverTheOrder` | nibbles/snake.cpp:22-45 | A snake's fate on the board before the phase is its fate on the board after any number of other heads have moved |
| `LevelModel.GridAfterOneMore` | nibbles/level.cpp:28-29 | One more head on the sequential board is one more claimed cell of the simultaneous move |
| `LevelModel.ScoresAfterOneMore` | nibbles/level.cpp:30-43 | Settling one more snake is adding its player to the eaters or casualties |
| `LevelModel.OutcomeAfterOneMore` | nibbles/level.cpp:40-47 | The running maximum of results is the outcome for the snakes so far |
| `LevelInvariants.StartAgrees` | nibbles/level.hpp:82-96 | At the start of a level board and bodies agree, although start cells are not marked |
| `LevelInvariants.TickKeepsAgreement` | nibbles/level.cpp:5-55 | Every tick, deadly or not, keeps the agreement: off the start cells a cell is marked if and only if some body has it, and then it occurs once in all bodies; a marked start cell is in some body |
| `LevelInvariants.NumberKeepsAgreement` | nibbles/level.cpp:57-74 | Placing a number on empty cells keeps the agreement |
| `LevelInvariants.StartHasWalls` | nibbles/level.hpp:159-174 | At the start of a level the walls are those of the definition and no body is on one if and only if no start used lies on a wall |
| `LevelInvariants.TickKeepsWalls` | nibbles/level.cpp:5-55 | A tick changes no wall and moves no body onto one |
| `LevelInvariants.TickKeepsTogether` | nibbles/level.cpp:5-55 | A tick in which nobody dies leaves every body chained, its neck straight behind its head |
| `LevelInvariants.NoWrapRound` | nibbles/board.cpp:50-81 | Off the walls, bodies are strictly inside the border, consecutive cells are unit steps apart, and no step in any direction wraps round |
| `LevelInvariants.NeverIntoTheNeck` | nibbles/snake.cpp:7-20 | On boards of at least 3 by 3 cells no turn makes a snake enter its own neck |
| `LevelInvariants.LengthAfterTick` | nibbles/level.cpp:31-37 | A surviving snake's cells and pending growth grow by value times growthFactor if it eats, and not otherwise |
| `LevelInvariants.TickKeepsNumberShown` | nibbles/level.cpp:28-52 | Unless the number is eaten, a tick, deadly or not, keeps it on the board, off the start cells |
| `LevelInvariants.NewNumberShown` | nibbles/level.cpp:57-74 | After setting a number, exactly its cells show it |
| `OrderIndependence.TickWhateverTheOrder` | nibbles/level.cpp:16-54 | For any reordering of the snakes, a tick gives the same board, the same snake for each player, the same scores and lives and the same overall result |
| `GameInvariants.FirstIsSound` | nibbles/level.hpp:72-85 | A level with its first number satisfies all level invariants |
| `GameInvariants.ProgressIsSound` | nibbles/level.hpp:136-157 | A tick in which nobody dies and the level goes on keeps all level invariants; the number goes up by one exactly if somebody eats |
| `Games.Game.Start` | nibbles/game.hpp:45-54 | Starting a game plays the start level for the players in their order and announces level and number; it fails exactly if that level has too few starts |
| `Games.Game.StartLevel` | nibbles/game.cpp:5-16 | The level asked for, or the last of the pack beyond it, is set up in place and announced before its first number; it fails exactly if that level has too few starts |
| `Games.Game.Tick` | nibbles/game.cpp:18-49 | A tick in place has the outcome of the game model: a death restarts the level, a completed level is followed by the next; it fails exactly if a level that starts has too few starts |
| `Games.Game.MoveOn` | nibbles/game.cpp:33-47 | Exactly a death or a completed level starts a level; any other result leaves the game alone |
| `GameRuns.StepLawful` | nibbles/game.cpp:18-49 | Every tick keeps the laws of scores, lives, lengths and meals and the soundness of the level |
| `GameRuns.RunsAreLawful` | nibbles/game.cpp:18-49 | All laws hold in every state of every run |
| `GameRuns.NextTickCanRun` | nibbles/scoretracker.cpp:32-45 | Until the game is over, the next tick meets every assertion on its way: each snake has a head, the scorer knows each player, nobody is out of lives |
| `GameRuns.GamesAreLawful` | nibbles/game.hpp:45-54 | With at least one life at the start, every state of every game is lawful and, until the game is over, can be ticked |
| `GameRuns.LawsOfAGame` | nibbles/level.cpp:28-48 | For every game: score = value eaten + deathScore * lives lost; at most players * (startLives - 1) ticks cost the level; until the end all lives are positive, the number is 1 + eating ticks, and size = max(1, startLength) + growthFactor * value eaten in the level if that cannot leave the range of its type |
| `GameRuns.BoardsAgree` | nibbles/level.cpp:16-52 | In every reachable level, off the start cells: marked if and only if in a body, no cell twice in bodies, number shown if and only if in the number's block; on start cells marked implies in a body |
| `GameRuns.BodiesStayInside` | nibbles/board.cpp:18-81 | In every reachable level whose starts are off the walls: walls are those of the definition, bodies are inside the border in unit steps, and no step wraps round |
| `GameRuns.NecksAreSafe` | nibbles/snake.cpp:7-20 | In every reachable level on a board of at least 3 by 3 cells, whatever the moves, no snake is about to enter its own neck |
| `GameRuns.NinthMeal` | nibbles/level.hpp:147-154 | The level id goes up by one exactly in the ninth eating tick of a level, if nobody dies in it, and never otherwise |
| `GameRuns.LevelsPlayed` | nibbles/game.cpp:5-16 | In every state of every game the level id is the start level plus the number of completed levels, and the level played has the size, the starts and the walls of levels[id], or of the last level if id is beyond the pack, and other walls only in its random blocks |
| `GameRuns.WhatIsPlayedNext` | nibbles/game.cpp:33-47 | The ninth meal at id k puts levels[k + 1] on the board if there is one, and a death that does not end the game levels[k] again; then every snake is one cell on its start, in the direction of the start, with all growth pending, and the number is 1 |
| `GameRuns.MostEatenInALevel` | nibbles/level.cpp:31-37 | A player never eats more than 45 in one level |
| `TurnCommands.EventFollows` | bin/server/server.cpp:204-247 | What every event does to the queue of every player: a countdown, the start of a level and the end of a pause empty it, a turn command of the client that owns the player queues the turn, a tick takes at most the front, and nothing else changes it |
| `TurnCommands.TurnsAreTheCommands` | bin/server/remoteplayer.cpp:5-27 | After every run of the server and for every player: the turns taken by ticks since the last reset, followed by those waiting, are exactly the turn commands its client has given since then, without those on the axis of the last one kept |
| `TurnRuns.EventSteers` | bin/server/server.cpp:183-359 | Every event of the server keeps, for every player: the turns taken since the last reset and the turns waiting are perpendicular to one another, and the player's snake moves along the axis of the last one taken |
| `TurnRuns.EveryLaterTurnTakesEffect` | bin/server/server.cpp:320-340 | After every run of the server and for every snake: in a tick that plays, the turn in front of its player's queue changes its direction, except the first one since a reset if it lies on the snake's own axis; the new direction stays unless a level starts |
| `Replica.AnnouncementMirrors` | bin/gtk/ui/playing.cpp:262-293 | The announcement of a level puts a client that knows the same players into the server's state |
| `Replica.TickMirrors` | bin/gtk/ui/playing.cpp:287-302 | The messages of a whole server tick take a client from the server's state before it to the server's state after it |
| `Replica.OnlySinceGameStart` | bin/gtk/ui/playing.cpp:230-234 | What was sent before the last gameStart makes no difference to a client |
| `Replica.NeverGaveUp` | bin/gtk/ui/playing.cpp:287-302 | A client that shows something has met no failed check on any message since the last gameStart |
| `Replica.SamePlayersNeeded` | nibbles/level.hpp:169-173 | Server and client build the same level if and only if they hold the same players in the same order |
| `Clients.Playing.Handle` | bin/gtk/ui/playing.cpp:262-302 | Whatever message a client can follow, the object goes through the states of the replay |
| `Servers.TakeMoves` | bin/server/server.cpp:321-327 | The moves of a tick are the fronts of the players' queues, each of which loses its front |
| `Servers.Server.Begin` | bin/server/server.cpp:280-288 | A game begins with gameStart, then the first level and number, and all players are seated; it fails exactly if the first level has too few starts |
| `Servers.Server.CheckForGameStart` | bin/server/server.cpp:269-290 | A game starts exactly if there is none, there are players and connections, and every connection is ready; it fails exactly if the first level has too few starts or the first tick fails |
| `Servers.Server.Play` | bin/server/server.cpp:320-341 | A tick that plays: moves to all clients, game ticked, end of the game or reset of the queues after a lost or completed level; it fails exactly if a level with too few starts starts, or the game ends and some player has no score |
| `Servers.Server.Tick` | bin/server/server.cpp:292-345 | A tick with any countdown does in place what the state machine does, and fails exactly where the state machine does not survive |
| `Servers.Server.GameEnd` | bin/server/server.cpp:361-372 | The game's score enters the tables, the report goes out, every connection becomes unready and is announced so, scorer and game are gone; it fails exactly if some player has no score |
| `Servers.Server.FinalHighScore` | nibbles/highscore.hpp:25-42 | The score of a game is the sum of all players' scores, and each player's score by name; there is none exactly if some player has no score |
| `Servers.Server.DeleteConnection` | bin/server/server.cpp:120-137 | Connection and players of a client go; with the last connection the game, scores and timer go |
| `Servers.Server.Handle` | bin/server/server.cpp:249-267 | For every event that the world allows, the object survives if and only if the state machine does, and then ends in the same state |
| `ServerMeaning.GameStartsExactlyIf` | bin/server/server.cpp:269-281 | An event sends gameStart if and only if it adds a player or sets a readiness, there is no game, some player is there and every connection is ready, with the readiness just set |
| `ServerMeaning.GameStartInPlainTerms` | bin/server/server.cpp:280-289 | Unless a pause was asked for: a game starts with gameStart, level, number 1 and the first count; on the start level of the pack, with the server's players in their order, all snakes on their starts, no points, all lives and no turns waiting |
| `ServerMeaning.CountdownRuns` | bin/server/server.cpp:311-318 | With n waits of the timer a countdown goes down by n, each count is sent once, in order, all keys are forgotten and nothing is played |
| `ServerMeaning.TimerInPlainTerms` | bin/server/server.cpp:292-345 | A wait that ends pauses the game if a pause was asked for and no countdown runs; counts down if neither; and otherwise plays: the moves are sent; the game is gone if and only if somebody dies on a last life; a countdown follows and no turns wait if the level is lost or completed; otherwise the next tick plays at once |
| `ServerMeaning.AnnouncedInPlainTerms` | nibbles/game.cpp:5-47 | What a tick announces after its moves: the level that starts and its number 1, or the next number if somebody has eaten and nobody died, or nothing |
| `ServerMeaning.PauseInPlainTerms` | bin/server/server.cpp:347-359 | A pause command for somebody else's player changes nothing; otherwise it asks for a pause, or ends one with all turns forgotten and a tick that plays |
| `ServerMeaning.TurnInPlainTerms` | bin/server/server.cpp:214-240 | A turn command for somebody else's player changes nothing; any other changes nothing but the turns of that player |
| `ServerMeaning.RosterInPlainTerms` | bin/server/server.cpp:56-137 | Who is there after every event: a client is admitted unless a game is on, takes along exactly its own players, and adds a player with the next id unless the name is taken |
| `ServerMeaning.ReadinessInPlainTerms` | bin/server/server.cpp:95-102 | After every event each connection has the readiness it had, or that was just set, unless the event has ended a game, after which nobody is ready |
| `Readiness.ReadinessIsKnown` | bin/server/server.cpp:95-102 | After every run of the server, the last readiness sent for a connection is the one it has |
| `ServerInvariants.EventKeeps` | bin/server/server.cpp:120-372 | Every event keeps: without a game the scorer is empty; with one the game is lawful and a client that knows its players and has received everything shows it; player ids are distinct |
| `ServerInvariants.ClientsMirrorTheServer` | bin/server/server.cpp:321-345 | After every run of the server, the replay of its log by a client that knows the players of the game is exactly the server's level, scores and lives, and the game obeys all laws |
| `ServerInvariants.LaggingClientsMirrorThePast` | bin/server/server.cpp:321-345 | A client that has the log as of an earlier event shows exactly what the server had then; logs only grow |
| `ServerInvariants.FinalScoreShown` | bin/server/server.cpp:361-372 | When a game ends, the score that enters the high-score tables and is reported to all is made of the very scores that clients show |
| `ServerInvariants.TablesStayOrdered` | bin/server/highscoremanager.cpp:28-50 | In every run of the server the high-score tables stay strictly ordered, so that ReportMeaning applies to every report |
| `ServerInvariants.EventDrives` | bin/server/server.cpp:269-372 | Every event keeps a single tick driver if and only if it is not the last client leaving a paused game |
| `ServerInvariants.SingleTickDriver` | bin/server/server.cpp:269-372 | In all states of a run, a game exists if and only if exactly one of timer and pause is on, there is never a second timer, and never both pausing and paused - if and only if the last client never leaves a paused game in the run |
| `ServerSurvival.SurvivesUnlessItFails` | bin/server/server.cpp:183-372 | In every state that keeps the invariants and for every event the world allows: the server survives if and only if the event starts no game with more players than starts, completes no level before one with too few, ends no game while a player without a score is there, and runs no tick without a game |
| `ServerSurvival.TheServerSurvives` | bin/server/server.cpp:269-372 | The same after every run of the server |
| `ServerSurvival.NoTickWithoutGame` | bin/server/server.cpp:292-345 | If the last client never leaves a paused game, no event of the run or after it runs a tick without a game |
| `ServerSurvival.LeavingAPausedGameIsFatal` | bin/server/server.cpp:120-137 | After every run in which the last client leaves a paused game: a client that connects and adds a player can send a pause command, and the server does not survive it |
| `ServerWitness.TheServerCanLoseItsGame` | bin/server/server.cpp:347-359 | A run of eight events, from the idle server on, after which a pause command is allowed and runs a tick without a game |
| `ServerWitness.TheServerCanBeOvercrowded` | nibbles/level.hpp:164-168 | A run in which nobody leaves, after which a player may join that the first level has no start for |
| `ServerWitness.TheServerCanMissAScore` | nibbles/scoretracker.cpp:18-23 | A run after which a tick ends the game while a player that joined during it is there |
| `ServerRosters.PlayersOfOthers` | bin/server/server.cpp:120-125 | When a client leaves, exactly its own players leave with it |
| `ServerRosters.RunsAreHosted` | bin/server/server.cpp:56-137 | In every run connections differ, every player belongs to a connected client, players differ by name, and a game has at least one client |
| `ServerRosters.EverybodyIsScored` | nibbles/highscore.hpp:33-41 | When names differ, the score of a game holds exactly each player's own score under the player's name |
| `ServerRosters.GameIsFiled` | bin/server/highscoremanager.cpp:33-35 | A finished game is filed with the time of its end, the sum of all points and each player's points, in the table for its number of players and its settings and in no other |
| `Framing.ParseAfterFrames` | nibbles/tcpsocket.cpp:95-108 | Parsing framed packets gives back the packets, whatever follows them |
| `Framing.FrameBytes` | nibbles/tcpsocket.cpp:59-62 | A frame is two bytes, the length of the packet with the high byte first, and the packet |
| `Framing.FramesRestoreTheStream` | nibbles/tcpsocket.cpp:48-65 | Framing the packets parsed from any stream, with the unparsed rest, gives back the stream byte for byte |
| `Framing.PiecesDoNotMatter` | nibbles/tcpsocket.cpp:82-111 | Cutting the stream into read chunks anywhere changes neither the packets nor the rest |
| `Framing.FramingIsUnambiguous` | nibbles/tcpsocket.cpp:59-62 | Two packet sequences with the same frames are the same |
| `Framing.RoomAfterParsing` | nibbles/tcpsocket.cpp:95-109 | After the parse loop a proper prefix of one frame is left at offset 0, and at least one byte of the buffer is free unless the frame declares more than maxPacketLen bytes |
| `Framing.FullBuffer` | nibbles/tcpsocket.hpp:49-52 | A receive buffer with an unfinished frame, filled up, holds a whole packet if and only if the declared length is at most maxPacketLen; otherwise nothing is ever cut out of it |
| `Links.StepIsSound` | nibbles/tcpsocket.cpp:48-139 | Every send, write, write completion and read keeps: frames of the accepted packets = frames of the delivered ones + receive buffer + stream + unwritten part of writing_ + outgoing_ |
| `Links.WritesAreLeftAlone` | nibbles/tcpsocket.cpp:113-139 | While a write is under way its bytes do not change and no other write starts |
| `Links.DeliveredInOrder` | nibbles/tcpsocket.cpp:48-139 | In every run, delivered packets are a prefix of the accepted ones, the missing ones are exactly the pending bytes, there is room for another byte, and writing_ is non-empty if and only if a write is in flight |
| `Links.EverythingArrives` | nibbles/tcpsocket.cpp:82-139 | Once nothing more is sent, every order of writes and reads comes to an end after a bounded number of steps, and only when everything accepted has been delivered |
| `TcpSockets.TcpSocket.Send` | nibbles/tcpsocket.cpp:48-65 | A packet of at most maxPacketLen bytes is queued behind its length and a write starts unless one is in flight; a longer one is dropped |
| `TcpSockets.TcpSocket.HandleWrite` | nibbles/tcpsocket.cpp:126-139 | The end of a write starts the next one if anything waits; after an error the socket is closed and what waits stays |
| `TcpSockets.TcpSocket.HandleRead` | nibbles/tcpsocket.cpp:82-111 | After a read, exactly the whole packets at the front of the buffer are delivered and the rest is kept at offset 0 |
| `TcpSockets.TcpSocket.CutOut` | nibbles/tcpsocket.cpp:95-108 | The loop over the buffer in place yields the parse of its contents and terminates |
| `Delivery.LogArrivesInOrder` | nibbles/tcpsocket.cpp:48-139 | What a client decodes from a link is a prefix of what the server has sent, and all of it once nothing is on the way |
| `Delivery.ClientsFollowOverALink` | bin/server/server.cpp:56-102 | A client admitted when no game is on, at the far end of a link with any chunking, that knows the players of the game, shows the server's game as of the moment whose messages it has received |
| `ClientRosters.KnownStaysDistinct` | bin/gtk/ui/configuring.cpp:344-356 | Whatever a client hears, its list of players never has an id or a name twice, and nobody is struck off |
| `ClientRosters.WaitingRun` | bin/gtk/ui/configuring.cpp:344-356 | While no game is on, the list of players that a client makes from the messages goes on matching the players of the server if no client with players leaves; if one does, it holds a player that is gone, from then on |
| `ClientRosters.ClientsFollowUnlessSomebodyLeaves` | bin/gtk/ui/playing.cpp:262-273 | A client whose list matches the players of the server when it begins to listen shows, with its own list, the next game for as long as it is on, if and only if no client with players leaves before that game starts |
| `HighScores.InsertedIsAscending` | nibbles/highscore.cpp:5-12 | Adding a score keeps a table strictly ordered by total, then earlier time |
| `HighScores.InsertedStands` | bin/server/highscoremanager.cpp:34-35 | The new score, or the equivalent one that was there, is the only equivalent one afterwards; nothing else comes or goes |
| `HighScores.HighScoreManager.Insert` | bin/server/highscoremanager.cpp:28-50 | The early-exit scan yields the listing that a full scan of the table would yield, and the tables with the new score |
| `HighScores.AtMostOneMore` | bin/server/highscoremanager.cpp:40-48 | A listing holds the top ten, or all there are, and at most one entry more |
| `HighScores.ReportMeaning` | bin/server/highscoremanager.cpp:28-50 | An entry is reported if and only if fewer than ten are strictly better or it is equivalent to the new score, with rank 1 + number of strictly better entries; ranks increase strictly; at most eleven entries; tables of other game types are unchanged |
| `HighScores.ReportByTotalsAndTimes` | nibbles/highscore.cpp:5-12 | The report in totals and times alone: each entry has a higher total than the next, or the same at an earlier time; its rank is one more than the number of entries of the table that are so above it; exactly what has fewer than ten above it is reported, and the entry with the total and time of the new score; the first has rank 1 and the greatest total |

## Left out

- Tick intervals: scaled by a floating point factor; nothing here depends on when a tick happens.
- The clock: the time at which a game ends is an input of the tick that ends it.
- HighScores.HighScoreManager.Insert: the ordered set of the standard library is a strictly ascending
  sequence, and finding the place for a new element is a function.
- Levels.Level.DrawFree: the retry loop is given its draws, one of which is free; that the random engine will
  ever return one is not proved.
- Scores and lives are unbounded integers here, and so are player and client ids.
- What is left of an object after a method has returned false: the program ends there.
- Servers.Server.Handle: that the draws serve a tick or a start that can run is part of what the world allows,
  as in Levels.Level.DrawFree.
- ClientRosters.ClientsFollowUnlessSomebodyLeaves: the list a client begins with is given. When it is
  admitted, `Server::sendStateToConnection` sends it the players there are in the order of a hashed index,
  which need not be the order in which they joined; with no more than one player there, they agree. From the
  start of a game until its user goes back to the configuration, a client ignores new players; a client that
  comes back to the configuration begins with the list that it has then.
- Messages sent to a single connection when it is admitted.
- Payload encoding: a lossless codec is an assumption of Delivery. Packets that are no message, and the
  exceptions they cause, are not modelled.
- Network errors end the guarantees of Links; the object's error branches are modelled, reconnecting is not.
- Shutdown, saving and loading of high scores and level packs, options, message output.
- Level packs: their tables are data; well-formedness of a definition is a precondition.
- Rendering, sound, key bindings and the rest of the client's user interface.
