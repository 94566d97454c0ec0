# Tic-tac-toe view model in Dafny

A model of `GameViewModel`, the game engine of an Android tic-tac-toe app.
A human plays CIRCLE (`O`) against a rule-based computer that plays CROSS
(`X`). The view model keeps a map from cell numbers 1..9 to
`NONE`/`CIRCLE`/`CROSS`, and an observable `GameState` snapshot. The snapshot
holds:

- the starter and the player to move;
- a hint text;
- the line a win was made on (`victoryType`);
- a won flag;
- three tallies: CIRCLE's wins, CROSS's wins and draws.

The model turns the mutable map and snapshot into one immutable `Game`
value. Each operation takes a `Game` and returns a new one.

Files:

- `board.dfy` (module `Board`) holds the board, the eight winning lines and
  the reference definitions:
  - a line is defined by grid geometry: row, column or diagonal of a cell;
  - `Wins` means some line is all one player's;
  - `FirstLine` is the first complete line in the order the victory check
    tests them;
  - `IsFirstWinningCell` is the lowest cell that would win at once;
  - `EmptyCells` lists the empty cells in key order.

  Lemmas connect the geometric lines to the literal cell triples the
  engine tests.
- `game_view_model.dfy` (module `GameViewModel`) holds the engine, one
  function per method of the view model:
  - `CheckForVictory`, `HasBoardFull`, `FindWinningMove`;
  - `AddValueToBoard`, `ComputerPlay`, `GameReset`, `OnAction`.

  The victory test writes `victoryType` even when `findWinningMove` calls it
  for a hypothetical mark. The model threads that write through exactly as
  the view model does. So after the two probes, `victoryType` may name a line
  nobody completed.
- `game_properties.dfy` (module `GameProperties`) holds two game invariants
  and a session of intents:
  - `Consistent` is what every placement keeps. The players alternate from
    the starter. A won game is locked, exactly one player holds a line, and
    `victoryType` names that player's first line. An unwon game has no
    complete line.
  - `Settled` is what holds after every handled intent. It is `Consistent`,
    and CROSS is never left to move while a cell is free.
  - `Run` feeds a sequence of intents through `OnAction`.
- `scenarios.dfy` (module `Scenarios`) holds concrete games:
  - the computer preferring its own win to a block;
  - the stale line a block leaves in `victoryType`;
  - a nine-intent session that ends with the random fallback asked to pick
    from no cells at all.

Modelling choices, in the system's own terms:

- **Cell numbers.** Cell `n` is index `n - 1` of a 9-element sequence. A
  number outside 1..9 is not a key of the board map. Looking it up gives
  `null`, which is not `NONE`, so the tap is ignored. `IsEmptyCell` is false
  for such numbers.
- **The random fallback.** `keys.random()` becomes a caller-supplied
  `pick: nat`. The chosen cell is `EmptyCells(b)[pick % |EmptyCells(b)|]`.
  The keys of the board map keep their insertion order 1..9, which is the
  order of `EmptyCells`. Every empty cell is the result of some pick
  (`GameViewModel.EveryEmptyCellPickable`), so the properties proved for all
  picks cover every run of the fallback.
- **The crash case.** Picking from an empty collection throws. `OnAction`
  returns `NoEmptyCellToPick` in exactly that case.
- **Reachability of the crash.** The crash can be reached. In a game CROSS
  starts, CROSS's ninth mark can fill the board without a win. The draw
  leaves `currentTurn` at CROSS. The next tap lands on an occupied cell, and
  the computer is then asked to move on a full board.
  `Scenarios.SessionStrandsTheComputer` plays such a session from the first
  game.

Behaviour of the code that the model keeps:

- Picking a random element of an empty collection throws, and the case
  above reaches it.
- A reset writes the hint `"Player '0' turn"`, with the digit zero. When
  CROSS then opens, its move overwrites that hint with `"Player 'O' turn"`.
- The victory test records `victoryType` both on a real win and during the
  computer's probes.
- A single mark can complete two lines at once. The victory test reports the
  first of them in its test order, and `FirstLine` models that order.

## Model

| member | source | states |
|---|---|---|
| GameViewModel.CheckForVictory | app/src/main/java/com/example/tictactoe/GameViewModel.kt:143-186 | Answers true exactly when the player holds a whole row, column or diagonal. On true it records the first such line, in the order rows, columns, diagonals. On false the snapshot is returned unchanged. |
| Board.FirstLineIsFirst | app/src/main/java/com/example/tictactoe/GameViewModel.kt:143-186 | The line the victory check reports is not NONE exactly when the player wins. It is then a complete line with no complete line before it in the test order. |
| Board.LinesAsTriples | app/src/main/java/com/example/tictactoe/GameViewModel.kt:145-183 | Each of the eight geometric lines is complete exactly when its literal cell triple (1-2-3, ..., 3-5-7) holds the player's mark. |
| Board.FirstLineAsTriples | app/src/main/java/com/example/tictactoe/GameViewModel.kt:144-186 | The first complete line in order equals the line picked by testing the eight triples one after another, and NONE when none holds. |
| Board.WinsAsTriples | app/src/main/java/com/example/tictactoe/GameViewModel.kt:144-186 | A player wins exactly when one of the eight triples is all theirs. |
| GameViewModel.HasBoardFull | app/src/main/java/com/example/tictactoe/GameViewModel.kt:189-191 | True exactly when no cell is empty, and exactly when the list of empty cells is empty. |
| GameViewModel.FindWinningMove | app/src/main/java/com/example/tictactoe/GameViewModel.kt:82-94 | The board comes back unchanged. A returned cell is the smallest cell where the player's mark would win at once, and the snapshot then holds the line that mark completes. With no result, no cell wins and the snapshot is untouched. |
| GameViewModel.AddValueToBoard | app/src/main/java/com/example/tictactoe/GameViewModel.kt:96-141 | No change on an occupied or invalid cell or when nobody is to move. Otherwise exactly that cell gets the mover's mark, and one of three outcomes follows. A win locks the turn, sets the won hint, records the first line and adds one to the mover's tally. A draw sets the draw hint and adds one draw. Otherwise the turn and hint pass to the other player. Occupied cells never change and tallies never fall. |
| Board.EmptyCells | app/src/main/java/com/example/tictactoe/GameViewModel.kt:78 | Lists exactly the empty cells, each once, in increasing order: the keys the fallback picks from. |
| GameViewModel.RandomEmptyCell | app/src/main/java/com/example/tictactoe/GameViewModel.kt:78 | On a board with a free cell, the fallback's pick is an empty cell. |
| GameViewModel.EveryEmptyCellPickable | app/src/main/java/com/example/tictactoe/GameViewModel.kt:78 | Every empty cell is the fallback's result for some pick, so the picks cover every cell `keys.random()` can return. |
| GameViewModel.ComputerPlay | app/src/main/java/com/example/tictactoe/GameViewModel.kt:70-80 | The computer's move places the mark of the player to move, CROSS at every call site, on an empty cell its priority rules choose. It follows a snapshot whose `victoryType` the two probes rewrote as `ProbedVictory` describes. |
| GameViewModel.ChoiceOfProbes | app/src/main/java/com/example/tictactoe/GameViewModel.kt:71-79 | The cell picked from the two probes' answers is empty and is the priority choice: CROSS's first winning cell, else CIRCLE's first winning cell, else the centre, else the random pick. |
| GameViewModel.VictoryOfProbes | app/src/main/java/com/example/tictactoe/GameViewModel.kt:71-72 | The two probes leave the board and every snapshot field but `victoryType` unchanged. `victoryType` ends as CIRCLE's probe line if CIRCLE can win at once, else CROSS's probe line, else its old value. |
| GameProperties.ComputerChoiceIsUnique | app/src/main/java/com/example/tictactoe/GameViewModel.kt:74-79 | The priority rules determine a single cell. |
| GameProperties.ComputerPlaysChoice | app/src/main/java/com/example/tictactoe/GameViewModel.kt:70-80 | Any cell the priority rules allow is empty, and the computer's move is the placement on that very cell. |
| GameProperties.ComputerTakesWinFirst | app/src/main/java/com/example/tictactoe/GameViewModel.kt:74-75 | When CROSS can win at once, the computer takes its first winning cell whatever CIRCLE threatens. It books the win: won flag, locked turn, won hint, the completed line, and CROSS's tally plus one with the other tallies unchanged. |
| GameProperties.BlockLeavesStaleVictory | app/src/main/java/com/example/tictactoe/GameViewModel.kt:82-94 | When only CIRCLE can win at once, the computer blocks CIRCLE's first winning cell. Nobody has won afterwards, yet `victoryType` names the line CIRCLE would have completed. |
| GameProperties.CrossCompletesLine | app/src/main/java/com/example/tictactoe/GameViewModel.kt:120-128 | CROSS placing on a winning cell books CROSS's win with the line it completes. |
| GameViewModel.CrossPlacesQuietly | app/src/main/java/com/example/tictactoe/GameViewModel.kt:134-138 | A CROSS mark that neither wins nor fills the board changes only that cell, the hint and the turn, which passes to CIRCLE. |
| GameViewModel.ComputerOpensInCentre | app/src/main/java/com/example/tictactoe/GameViewModel.kt:62-66 | When the reset hands the start to CROSS, the computer has nothing to win or block and takes the centre. The turn passes to CIRCLE and the rest of the snapshot is kept. |
| GameViewModel.GameReset | app/src/main/java/com/example/tictactoe/GameViewModel.kt:46-67 | The starter flips. Tallies are kept. The won flag and the line are cleared and CIRCLE is to move. The board is empty with the reset hint, or holds CROSS's centre mark with CIRCLE's turn hint when CROSS starts. |
| GameViewModel.OnAction | app/src/main/java/com/example/tictactoe/GameViewModel.kt:26-44 | Play-again always succeeds and leaves an unfinished game as it is. On a won or full game it resets: the starter flips, tallies are kept, the won flag and `victoryType` are cleared, and CIRCLE is to move. The board is then empty with the reset hint, or holds CROSS's centre mark with CIRCLE's turn hint. A tap by CIRCLE on an empty cell succeeds and leaves CIRCLE's mark on that cell. A tap on an occupied cell, or with nobody to move, changes nothing unless CROSS is to move. A tap with CROSS to move on a full board fails with the empty random pick. A successful tap only adds marks and never lowers a tally. |
| GameProperties.AddValueToBoardKeepsConsistent | app/src/main/java/com/example/tictactoe/GameViewModel.kt:96-141 | Every placement keeps the game consistent. The starter's count minus the other player's stays 0 or 1. The player to move is the one the counts say. A full board never leaves the non-starter to move. A won game is locked, has exactly one player holding a line, and names that player's first line in `victoryType`. An unwon game has no complete line. |
| GameProperties.WonGameNamesItsLine | app/src/main/java/com/example/tictactoe/GameViewModel.kt:96-141 | In a consistent game the won flag is set exactly when some player holds a line. A won game has one winner only, and its `victoryType` is a line that winner completed, never a stale probe line. |
| GameProperties.ComputerPlayKeepsSettled | app/src/main/java/com/example/tictactoe/GameViewModel.kt:70-80 | On a consistent game with CROSS to move and a free cell, the computer's move leaves a game in which CROSS is to move only if the board is full. |
| GameProperties.GameResetSettled | app/src/main/java/com/example/tictactoe/GameViewModel.kt:46-67 | Every reset starts a settled game. |
| GameViewModel.InitialGame | app/src/main/java/com/example/tictactoe/GameViewModel.kt:9-24 | The first game has every cell NONE and CIRCLE as the starter. |
| GameProperties.InitialGameSettled | app/src/main/java/com/example/tictactoe/GameViewModel.kt:9 | The first game, with an empty board and CIRCLE starting, is settled when CIRCLE or nobody is to move and no win is recorded. |
| GameProperties.OnActionKeepsSettled | app/src/main/java/com/example/tictactoe/GameViewModel.kt:26-44 | Every intent handled on a settled game leaves a settled game. |
| GameProperties.RunKeepsSettled | app/src/main/java/com/example/tictactoe/GameViewModel.kt:26-44 | Every game a session of intents reaches from a settled game is settled. |
| GameProperties.MarkBalance | app/src/main/java/com/example/tictactoe/GameViewModel.kt:26-44 | In every game reached from the first one, the starter has made as many moves as the other player or one more. |
| GameProperties.TapFailsIffCrossToMove | app/src/main/java/com/example/tictactoe/GameViewModel.kt:29-35 | On a settled game a tap makes the random fallback pick from no cells exactly when CROSS is to move. |
| GameProperties.CrossToMoveOnlyAfterCrossDraw | app/src/main/java/com/example/tictactoe/GameViewModel.kt:129-133 | On a settled game, CROSS is left to move only after a draw in a game CROSS started: full board, no win, five CROSS marks and four CIRCLE marks. |
| Scenarios.TapAnswered | app/src/main/java/com/example/tictactoe/GameViewModel.kt:29-35 | A tap on an empty cell that neither wins nor fills the board is answered by the computer on its chosen cell. The result's board is the two-mark board. Its won flag and turn follow from whether CROSS completed a triple or filled the board. |
| Scenarios.HumanTapPassesTurn | app/src/main/java/com/example/tictactoe/GameViewModel.kt:114-118 | CIRCLE's mark that neither wins nor fills the board hands the turn and hint to CROSS and changes nothing else. |
| Scenarios.WinBeatsBlock | app/src/main/java/com/example/tictactoe/GameViewModel.kt:74-76 | On X X _ / O O _ / _ _ _, both players threaten. The computer completes its own top row and books the win on the top row. |
| Scenarios.BlockNamesCirclesLine | app/src/main/java/com/example/tictactoe/GameViewModel.kt:82-94 | On O O _ / _ X _ / _ _ _, the computer blocks on cell 3. Nobody has won and CIRCLE is to move, yet `victoryType` is the top row. |
| Scenarios.RematchAfterWin | app/src/main/java/com/example/tictactoe/GameViewModel.kt:38-42 | Play-again after a won game CIRCLE started hands the start to CROSS. The session continues from CROSS's centre mark with CIRCLE to move. |
| Scenarios.SessionStrandsTheComputer | app/src/main/java/com/example/tictactoe/GameViewModel.kt:78 | From any first game with CIRCLE to move and no win recorded, the session runs as follows. It plays taps 1, 2, 4, then play-again, then taps 1, 8, 7, 6 and 1, with every pick 0. It ends with the random fallback picking from an empty collection. |

## Left out

- The `isComputerPlaying` guard (lines 11, 27, 32-34, 63-65) is left out. The model is sequential, so the flag is always false when an intent arrives.
- Compose state observation (`mutableStateOf`) and the `ViewModel` lifecycle are left out. They are UI plumbing with no game logic.
- `keys.random()` is replaced by the `pick` parameter. The model does not state that the choice is uniform.
- The exception from `random()` on an empty collection becomes the `NoEmptyCellToPick` outcome. Its propagation out of the view model, and the guard it would leave set, are not modelled.
- GameViewModel.AddValueToBoard: the tallies are unbounded integers. The wrap-around of Kotlin's 32-bit `Int` after 2^31 - 1 wins or draws is not modelled.
- `GameState.kt`, the `BoardCellValue`, `VictoryType` and `UserAction` declarations, and the UI files are not part of this model. Their shapes come from how `GameViewModel.kt` uses them. The snapshot's default field values, other than the starter set on line 9, are a parameter (`defaults`) of the first game.
