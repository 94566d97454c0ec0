/**
 The game engine of the view model: the state record, the victory and
 full-board tests, the placement of a mark with its bookkeeping, the
 computer's move, the reset and the two user intents.

 The mutable board map and the observable `state` of the view model become
 one immutable `Game` value that every operation takes and returns. The
 victory test writes `victoryType` as a side effect, also when it is used to
 probe a hypothetical move; the model threads that write through exactly as
 the view model performs it.
 */
module GameViewModel {
  import opened Board

  /** An optional value; `Option<int>` stands for the nullable `Int?` cell
      number that `findWinningMove` returns. */
  datatype Option<T> = None | Some(value: T)

  const CircleWonHint := "Player 'O' Won"
  const CrossWonHint := "Player 'X' Won"
  const DrawHint := "Game Draw"
  const CircleTurnHint := "Player 'O' turn"
  const CrossTurnHint := "Player 'X' turn"
  /** What a reset writes; the literal has the digit zero where the other hints have the letter O. */
  const ResetHint := "Player '0' turn"

  /** The outward snapshot of the game. */
  datatype GameState = GameState(
    startingPlayer: CellValue,
    currentTurn: CellValue,
    hintText: string,
    victoryType: VictoryType,
    hasWon: bool,
    playerCircleCount: int,
    playerCrossCount: int,
    drawCount: int)

  /** The board together with the snapshot. */
  datatype Game = Game(board: Board, state: GameState)

  datatype UserAction = BoardTapped(cellNo: int) | PlayAgainButtonClicked

  /** The result of an intent. `NoEmptyCellToPick` is the failure of picking a
      random element of an empty collection of cells. */
  datatype Outcome = Ok(game: Game) | NoEmptyCellToPick

  /** A victory probe: the winning cell if any, the board after the probe and
      the snapshot after the probe. */
  datatype Probe = Probe(move: Option<int>, board: Board, state: GameState)

  /** The first game of a session: an empty board and CIRCLE to start; every
      other field keeps the value the state record declares by default. */
  function InitialGame(defaults: GameState): (g: Game)
    ensures g.board == EmptyBoard && g.state.startingPlayer == Circle
  {
    Game(EmptyBoard, defaults.(startingPlayer := Circle))
  }

  function WonHint(p: CellValue): string {
    if p == Circle then CircleWonHint else CrossWonHint
  }

  function TurnHint(p: CellValue): string {
    if p == Circle then CircleTurnHint else CrossTurnHint
  }

  /** The board map holds NONE under cellNo. A number that is not a key of the
      map looks up nothing, which is not NONE, so it counts as occupied. */
  predicate IsEmptyCell(b: Board, cellNo: int) {
    ValidCell(cellNo) && At(b, cellNo) == Empty
  }

  /** True when no cell holds NONE. */
  function HasBoardFull(b: Board): (full: bool)
    ensures full <==> Full(b)
    ensures full <==> |EmptyCells(b)| == 0
  {
    assert Full(b) ==> Empty !in b by {
      if Empty in b {
        var i :| 0 <= i < |b| && b[i] == Empty;
        assert At(b, i + 1) == Empty;
      }
    }
    Empty !in b
  }

  /** Tests the eight lines in order for `boardValue`; on the first complete
      one it records that line in the snapshot and answers true. */
  function CheckForVictory(b: Board, boardValue: CellValue, s: GameState): (r: (bool, GameState))
    ensures r.0 <==> Wins(b, boardValue)
    ensures r.0 ==> r.1 == s.(victoryType := FirstLine(b, boardValue))
    ensures !r.0 ==> r.1 == s
  {
    WinsAsTriples(b, boardValue);
    FirstLineAsTriples(b, boardValue);
    var p := boardValue;
    if Triple(b, p, 1, 2, 3) then (true, s.(victoryType := Horizontal1))
    else if Triple(b, p, 4, 5, 6) then (true, s.(victoryType := Horizontal2))
    else if Triple(b, p, 7, 8, 9) then (true, s.(victoryType := Horizontal3))
    else if Triple(b, p, 1, 4, 7) then (true, s.(victoryType := Vertical1))
    else if Triple(b, p, 2, 5, 8) then (true, s.(victoryType := Vertical2))
    else if Triple(b, p, 3, 6, 9) then (true, s.(victoryType := Vertical3))
    else if Triple(b, p, 1, 5, 9) then (true, s.(victoryType := Diagonal1))
    else if Triple(b, p, 3, 5, 7) then (true, s.(victoryType := Diagonal2))
    else (false, s)
  }

  /** Tries cells 1..9 in turn: an empty cell is set to `player`, the victory
      test runs, and the cell is set back to NONE. Answers the first cell
      where the test succeeded. */
  function FindWinningMove(b: Board, player: CellValue, s: GameState): (r: Probe)
    ensures r.board == b
    ensures r.move.Some? ==>
      && IsFirstWinningCell(b, player, r.move.value)
      && r.state == s.(victoryType := FirstLine(Put(b, r.move.value, player), player))
    ensures r.move.None? ==> (forall n :: !IsWinningCell(b, player, n)) && r.state == s
  {
    FindWinningMoveFrom(b, player, s, 1)
  }

  function FindWinningMoveFrom(b: Board, player: CellValue, s: GameState, i: int): (r: Probe)
    requires 1 <= i <= 10
    ensures r.board == b
    ensures r.move.Some? ==>
      && i <= r.move.value
      && IsWinningCell(b, player, r.move.value)
      && (forall n :: i <= n < r.move.value ==> !IsWinningCell(b, player, n))
      && r.state == s.(victoryType := FirstLine(Put(b, r.move.value, player), player))
    ensures r.move.None? ==> (forall n :: i <= n ==> !IsWinningCell(b, player, n)) && r.state == s
    decreases 10 - i
  {
    if i == 10 then
      Probe(None, b, s)
    else if At(b, i) == Empty then
      var probe := Put(b, i, player);
      var (won, s') := CheckForVictory(probe, player, s);
      var restored := Put(probe, i, Empty);
      assert restored == b;
      if won then Probe(Some(i), restored, s')
      else FindWinningMoveFrom(restored, player, s, i + 1)
    else
      FindWinningMoveFrom(b, player, s, i + 1)
  }

  /** Places the mark of the player to move on cellNo, then settles the
      outcome: a win, a draw, or the turn passing to the other player. */
  function AddValueToBoard(g: Game, cellNo: int): (r: Game)
    ensures Extends(g.board, r.board)
    ensures g.state.playerCircleCount <= r.state.playerCircleCount
    ensures g.state.playerCrossCount <= r.state.playerCrossCount
    ensures g.state.drawCount <= r.state.drawCount
    ensures !IsEmptyCell(g.board, cellNo) || g.state.currentTurn == Empty ==> r == g
    ensures IsEmptyCell(g.board, cellNo) && g.state.currentTurn != Empty ==>
      var p := g.state.currentTurn;
      && r.board == Put(g.board, cellNo, p)
      && r.state.startingPlayer == g.state.startingPlayer
      && (Wins(r.board, p) ==>
            && r.state.hasWon
            && r.state.currentTurn == Empty
            && r.state.hintText == WonHint(p)
            && r.state.victoryType == FirstLine(r.board, p)
            && r.state.playerCircleCount == g.state.playerCircleCount + (if p == Circle then 1 else 0)
            && r.state.playerCrossCount == g.state.playerCrossCount + (if p == Cross then 1 else 0)
            && r.state.drawCount == g.state.drawCount)
      && (!Wins(r.board, p) && Full(r.board) ==>
            && r.state == g.state.(hintText := DrawHint, drawCount := g.state.drawCount + 1))
      && (!Wins(r.board, p) && !Full(r.board) ==>
            && r.state == g.state.(hintText := TurnHint(Opponent(p)), currentTurn := Opponent(p)))
  {
    if !IsEmptyCell(g.board, cellNo) then
      g
    else if g.state.currentTurn == Circle || g.state.currentTurn == Cross then
      var p := g.state.currentTurn;
      var b := Put(g.board, cellNo, p);
      var (won, s) := CheckForVictory(b, p, g.state);
      var s' :=
        if won then
          if p == Circle then
            s.(hintText := CircleWonHint, playerCircleCount := s.playerCircleCount + 1,
               currentTurn := Empty, hasWon := true)
          else
            s.(hintText := CrossWonHint, playerCrossCount := s.playerCrossCount + 1,
               currentTurn := Empty, hasWon := true)
        else if HasBoardFull(b) then
          s.(hintText := DrawHint, drawCount := s.drawCount + 1)
        else if p == Circle then
          s.(hintText := CrossTurnHint, currentTurn := Cross)
        else
          s.(hintText := CircleTurnHint, currentTurn := Circle);
      Game(b, s')
    else
      g
  }

  /** The cell the random fallback takes: the pick-th empty cell, counting
      round the list of empty cells. */
  function RandomEmptyCell(b: Board, pick: nat): (c: int)
    requires !HasBoardFull(b)
    ensures IsEmptyCell(b, c)
  {
    var cells := EmptyCells(b);
    cells[pick % |cells|]
  }

  /** A pick below the number of empty cells indexes them directly. Stated on
      its own so that the remainder fact is proved outside the context of the
      empty-cell list, where the solver does not find it. */
  lemma SmallRemainder(a: nat, n: int)
    requires a < n
    ensures a % n == a
  {
  }

  /** The pick covers every outcome of the random fallback: each empty cell
      is the result of some pick. */
  lemma EveryEmptyCellPickable(b: Board, n: int)
    requires IsEmptyCell(b, n)
    ensures !HasBoardFull(b)
    ensures exists pick: nat :: RandomEmptyCell(b, pick) == n
  {
    var cells := EmptyCells(b);
    assert n in cells;
    var k :| 0 <= k < |cells| && cells[k] == n;
    SmallRemainder(k, |cells|);
    assert RandomEmptyCell(b, k) == n;
  }

  /** The cell the computer must take: its own winning cell, else the cell
      that blocks CIRCLE, else the centre, else the random pick. */
  ghost predicate ComputerChoice(b: Board, pick: nat, c: int) {
    if exists n :: IsWinningCell(b, Cross, n) then IsFirstWinningCell(b, Cross, c)
    else if exists n :: IsWinningCell(b, Circle, n) then IsFirstWinningCell(b, Circle, c)
    else if At(b, 5) == Empty then c == 5
    else 0 < |EmptyCells(b)| && c == EmptyCells(b)[pick % |EmptyCells(b)|]
  }

  /** What the two probes leave in `victoryType`: the CIRCLE probe runs last,
      so its line stands whenever CIRCLE has a winning cell; else the CROSS
      probe's line; else the old value. */
  ghost predicate ProbedVictory(b: Board, before: VictoryType, v: VictoryType) {
    if exists n :: IsWinningCell(b, Circle, n) then
      exists n :: IsFirstWinningCell(b, Circle, n) && v == FirstLine(Put(b, n, Circle), Circle)
    else if exists n :: IsWinningCell(b, Cross, n) then
      exists n :: IsFirstWinningCell(b, Cross, n) && v == FirstLine(Put(b, n, Cross), Cross)
    else
      v == before
  }

  /** The computer's move. Both probes run before the choice is made. */
  function ComputerPlay(g: Game, pick: nat): (r: Game)
    requires !HasBoardFull(g.board)
    ensures exists c, v ::
      && IsEmptyCell(g.board, c)
      && ComputerChoice(g.board, pick, c)
      && ProbedVictory(g.board, g.state.victoryType, v)
      && r == AddValueToBoard(Game(g.board, g.state.(victoryType := v)), c)
    ensures Extends(g.board, r.board)
    ensures g.state.playerCircleCount <= r.state.playerCircleCount
    ensures g.state.playerCrossCount <= r.state.playerCrossCount
    ensures g.state.drawCount <= r.state.drawCount
  {
    var winning := FindWinningMove(g.board, Cross, g.state);
    var blocking := FindWinningMove(winning.board, Circle, winning.state);
    var cell :=
      if winning.move.Some? then winning.move.value
      else if blocking.move.Some? then blocking.move.value
      else if At(blocking.board, 5) == Empty then 5
      else RandomEmptyCell(blocking.board, pick);
    ChoiceOfProbes(g.board, g.state, pick, winning, blocking, cell);
    VictoryOfProbes(g.board, g.state, winning, blocking);
    var probed := Game(g.board, g.state.(victoryType := blocking.state.victoryType));
    assert Game(blocking.board, blocking.state) == probed;
    AddValueToBoard(probed, cell)
  }

  /** The cell picked from the two probes' answers is the computer's choice. */
  lemma ChoiceOfProbes(b: Board, s: GameState, pick: nat, winning: Probe, blocking: Probe, cell: int)
    requires !HasBoardFull(b)
    requires winning == FindWinningMove(b, Cross, s)
    requires blocking == FindWinningMove(winning.board, Circle, winning.state)
    requires cell == if winning.move.Some? then winning.move.value
                     else if blocking.move.Some? then blocking.move.value
                     else if At(blocking.board, 5) == Empty then 5
                     else RandomEmptyCell(blocking.board, pick)
    ensures IsEmptyCell(b, cell) && ComputerChoice(b, pick, cell)
  {
  }

  /** The snapshot the two probes leave behind is the one `ProbedVictory`
      describes. */
  lemma VictoryOfProbes(b: Board, s: GameState, winning: Probe, blocking: Probe)
    requires winning == FindWinningMove(b, Cross, s)
    requires blocking == FindWinningMove(winning.board, Circle, winning.state)
    ensures blocking.board == b
    ensures blocking.state == s.(victoryType := blocking.state.victoryType)
    ensures ProbedVictory(b, s.victoryType, blocking.state.victoryType)
  {
    if blocking.move.Some? {
      assert IsFirstWinningCell(b, Circle, blocking.move.value);
    } else if winning.move.Some? {
      assert IsFirstWinningCell(b, Cross, winning.move.value);
    }
  }

  /** The computer's move places CROSS on some empty cell, after the probes
      have rewritten `victoryType`. */
  lemma ComputerPlayPlaces(g: Game, pick: nat) returns (c: int, v: VictoryType)
    requires !HasBoardFull(g.board)
    ensures IsEmptyCell(g.board, c) && ComputerChoice(g.board, pick, c)
    ensures ProbedVictory(g.board, g.state.victoryType, v)
    ensures ComputerPlay(g, pick) == AddValueToBoard(Game(g.board, g.state.(victoryType := v)), c)
  {
    var r := ComputerPlay(g, pick);
    c, v :| && IsEmptyCell(g.board, c)
            && ComputerChoice(g.board, pick, c)
            && ProbedVictory(g.board, g.state.victoryType, v)
            && r == AddValueToBoard(Game(g.board, g.state.(victoryType := v)), c);
  }

  /** On an empty board the computer has nothing to win or block and takes
      the centre; the turn passes to CIRCLE. */
  lemma ComputerOpensInCentre(s: GameState, pick: nat)
    requires s.currentTurn == Cross
    ensures !HasBoardFull(EmptyBoard)
    ensures ComputerPlay(Game(EmptyBoard, s), pick)
            == Game(Put(EmptyBoard, 5, Cross), s.(hintText := CircleTurnHint, currentTurn := Circle))
  {
    assert !HasBoardFull(EmptyBoard) by {
      assert At(EmptyBoard, 1) == Empty;
    }
    var c, v := ComputerPlayPlaces(Game(EmptyBoard, s), pick);
    OpeningCell(pick, c);
    OpeningProbes(s.victoryType, v);
    CentreWinsNothing();
    CrossPlacesQuietly(Game(EmptyBoard, s), 5);
  }

  /** A lone CROSS in the centre neither wins nor fills the board. */
  lemma CentreWinsNothing()
    ensures !Wins(Put(EmptyBoard, 5, Cross), Cross) && !Full(Put(EmptyBoard, 5, Cross))
  {
    SingleMarkWinsNothing(5, Cross, Cross);
    assert At(Put(EmptyBoard, 5, Cross), 1) == Empty;
  }

  /** With nothing to win or block on the empty board, the computer chooses
      the centre. */
  lemma OpeningCell(pick: nat, c: int)
    requires ComputerChoice(EmptyBoard, pick, c)
    ensures c == 5
  {
    EmptyBoardHasNoWinningCell(Cross);
    EmptyBoardHasNoWinningCell(Circle);
  }

  /** On the empty board the probes find nothing and leave `victoryType` alone. */
  lemma OpeningProbes(before: VictoryType, v: VictoryType)
    requires ProbedVictory(EmptyBoard, before, v)
    ensures v == before
  {
    EmptyBoardHasNoWinningCell(Cross);
    EmptyBoardHasNoWinningCell(Circle);
  }

  /** CROSS takes an empty cell without winning or filling the board: the
      turn passes to CIRCLE and nothing else in the state changes. */
  lemma CrossPlacesQuietly(g: Game, c: int)
    requires g.state.currentTurn == Cross && IsEmptyCell(g.board, c)
    requires !Wins(Put(g.board, c, Cross), Cross) && !Full(Put(g.board, c, Cross))
    ensures AddValueToBoard(g, c)
      == Game(Put(g.board, c, Cross), g.state.(hintText := CircleTurnHint, currentTurn := Circle))
  {
  }

  /** Clears the board, hands the first move to the other player and, when
      that is CROSS, lets the computer move at once. */
  function GameReset(g: Game, pick: nat): (r: Game)
    ensures g.state.startingPlayer != Empty ==> r.state.startingPlayer == Opponent(g.state.startingPlayer)
    ensures g.state.startingPlayer == Empty ==> r.state.startingPlayer == Circle
    ensures r.state.playerCircleCount == g.state.playerCircleCount
    ensures r.state.playerCrossCount == g.state.playerCrossCount
    ensures r.state.drawCount == g.state.drawCount
    ensures !r.state.hasWon && r.state.victoryType == NoVictory
    ensures r.state.currentTurn == Circle
    ensures r.state.startingPlayer == Circle ==> r.board == EmptyBoard && r.state.hintText == ResetHint
    ensures r.state.startingPlayer == Cross ==>
      r.board == Put(EmptyBoard, 5, Cross) && r.state.hintText == CircleTurnHint
  {
    var starter := if g.state.startingPlayer == Circle then Cross else Circle;
    var s := g.state.(startingPlayer := starter, currentTurn := starter, hintText := ResetHint,
                      victoryType := NoVictory, hasWon := false);
    var cleared := Game(EmptyBoard, s);
    assert !HasBoardFull(cleared.board) by { assert At(cleared.board, 1) == Empty; }
    if s.currentTurn == Cross then
      ComputerOpensInCentre(s, pick);
      ComputerPlay(cleared, pick)
    else
      cleared
  }

  /** A tap places the human's mark and, when the turn then belongs to CROSS,
      lets the computer answer; play-again resets a finished game. `pick`
      stands for the random source of the computer's fallback move. */
  function OnAction(g: Game, action: UserAction, pick: nat): (r: Outcome)
    ensures action.PlayAgainButtonClicked? ==> r.Ok?
    ensures action.PlayAgainButtonClicked? && !g.state.hasWon && !Full(g.board) ==> r == Ok(g)
    ensures action.PlayAgainButtonClicked? && (g.state.hasWon || Full(g.board)) ==>
      r.game.state.currentTurn == Circle && !r.game.state.hasWon
      && r.game.state.drawCount == g.state.drawCount
      && r.game.state.playerCircleCount == g.state.playerCircleCount
      && r.game.state.playerCrossCount == g.state.playerCrossCount
      && r.game.state.startingPlayer == (if g.state.startingPlayer == Circle then Cross else Circle)
      && r.game.state.victoryType == NoVictory
      && (r.game.state.startingPlayer == Circle ==>
            r.game.board == EmptyBoard && r.game.state.hintText == ResetHint)
      && (r.game.state.startingPlayer == Cross ==>
            r.game.board == Put(EmptyBoard, 5, Cross) && r.game.state.hintText == CircleTurnHint)
    ensures action.BoardTapped? && g.state.currentTurn == Circle && IsEmptyCell(g.board, action.cellNo) ==>
      r.Ok? && At(r.game.board, action.cellNo) == Circle
    ensures action.BoardTapped? && g.state.currentTurn == Empty ==> r == Ok(g)
    ensures action.BoardTapped? && g.state.currentTurn == Circle && !IsEmptyCell(g.board, action.cellNo) ==> r == Ok(g)
    ensures action.BoardTapped? && g.state.currentTurn == Cross && Full(g.board) ==> r == NoEmptyCellToPick
    ensures action.BoardTapped? && r.Ok? ==> Extends(g.board, r.game.board)
    ensures action.BoardTapped? && r.Ok? ==>
      && g.state.playerCircleCount <= r.game.state.playerCircleCount
      && g.state.playerCrossCount <= r.game.state.playerCrossCount
      && g.state.drawCount <= r.game.state.drawCount
  {
    match action
    case BoardTapped(cellNo) =>
      var g' := AddValueToBoard(g, cellNo);
      if g'.state.currentTurn == Cross then
        if HasBoardFull(g'.board) then NoEmptyCellToPick
        else Ok(ComputerPlay(g', pick))
      else
        Ok(g')
    case PlayAgainButtonClicked =>
      if g.state.hasWon || HasBoardFull(g.board) then Ok(GameReset(g, pick))
      else Ok(g)
  }
}
