/**
 Properties of whole games: the invariant every placement keeps, the
 stronger one that holds whenever an intent has been handled, and what a
 session of intents can and cannot reach from the first game.
 */
module GameProperties {
  import opened Board
  import opened GameViewModel

  /** The starter's marks minus the other player's marks. */
  function Lead(g: Game): int
    requires g.state.startingPlayer != Empty
  {
    Count(g.board, g.state.startingPlayer) - Count(g.board, Opponent(g.state.startingPlayer))
  }

  /** The player whose move it is by the marks on the board: the starter when
      both have moved equally often, the other player when the starter leads. */
  function ToMove(g: Game): CellValue
    requires g.state.startingPlayer != Empty
  {
    if Lead(g) == 0 then g.state.startingPlayer else Opponent(g.state.startingPlayer)
  }

  /** `p` holds a line, the other player holds none, and `victoryType` names
      the first line `p` holds. */
  ghost predicate WonBy(g: Game, p: CellValue)
    requires p != Empty
  {
    && Wins(g.board, p) && !Wins(g.board, Opponent(p))
    && g.state.victoryType == FirstLine(g.board, p)
  }

  /** What every placement keeps: the players alternate from the starter, a
      won game is locked and names the line of its one winner, and an unwon
      game has no complete line. */
  ghost predicate Consistent(g: Game) {
    && g.state.startingPlayer != Empty
    && 0 <= Lead(g) <= 1
    && (g.state.currentTurn != Empty && !Full(g.board) ==> g.state.currentTurn == ToMove(g))
    && (Full(g.board) ==> g.state.currentTurn != Opponent(g.state.startingPlayer))
    && (g.state.hasWon ==> g.state.currentTurn == Empty && (WonBy(g, Circle) || WonBy(g, Cross)))
    && (!g.state.hasWon ==> !Wins(g.board, Circle) && !Wins(g.board, Cross))
  }

  /** In a consistent game the won flag is exactly "some player holds a
      line"; a won game has exactly one winner, and its `victoryType` is a
      line that winner completed, never a line left over from a probe. */
  lemma WonGameNamesItsLine(g: Game)
    requires Consistent(g)
    ensures g.state.hasWon <==> Wins(g.board, Circle) || Wins(g.board, Cross)
    ensures g.state.hasWon ==> Wins(g.board, Circle) != Wins(g.board, Cross)
    ensures g.state.hasWon ==>
      && g.state.victoryType != NoVictory
      && (Completes(g.board, Circle, g.state.victoryType) || Completes(g.board, Cross, g.state.victoryType))
  {
    if g.state.hasWon {
      FirstLineIsFirst(g.board, Circle);
      FirstLineIsFirst(g.board, Cross);
    }
  }

  /** Consistent, and CROSS is never left to move while a cell is free: the
      computer always answers before an intent returns. */
  ghost predicate Settled(g: Game) {
    Consistent(g) && (g.state.currentTurn == Cross ==> Full(g.board))
  }

  /** On a full board the starter has made five moves and the other player four. */
  lemma FullBoardCounts(g: Game)
    requires g.state.startingPlayer != Empty && 0 <= Lead(g) <= 1 && Full(g.board)
    ensures Count(g.board, g.state.startingPlayer) == 5
    ensures Count(g.board, Opponent(g.state.startingPlayer)) == 4
  {
    CountsSum(g.board);
    assert HasBoardFull(g.board);
  }

  /** Placing a mark keeps the game consistent, whichever of win, draw and
      turn change follows. */
  lemma AddValueToBoardKeepsConsistent(g: Game, cellNo: int)
    requires Consistent(g)
    ensures Consistent(AddValueToBoard(g, cellNo))
  {
    var r := AddValueToBoard(g, cellNo);
    var p := g.state.currentTurn;
    if IsEmptyCell(g.board, cellNo) && p != Empty {
      var starter := g.state.startingPlayer;
      assert !Full(g.board);
      assert p == ToMove(g);
      CountPut(g.board, cellNo, p, starter);
      CountPut(g.board, cellNo, p, Opponent(starter));
      assert 0 <= Lead(r) <= 1;
      PutOtherKeepsWins(g.board, cellNo, p, Opponent(p));
      if !Wins(r.board, p) && Full(r.board) {
        FullBoardCounts(r);
        assert p == starter;
      }
    }
  }

  /** The computer's move, made when CROSS is to move on a board with a free
      cell, leaves a settled game. */
  lemma ComputerPlayKeepsSettled(g: Game, pick: nat)
    requires Consistent(g) && g.state.currentTurn == Cross && !Full(g.board)
    ensures !HasBoardFull(g.board)
    ensures Settled(ComputerPlay(g, pick))
  {
    var c, v := ComputerPlayPlaces(g, pick);
    SnapshotKeepsConsistent(g, v);
    CrossMoveKeepsSettled(Game(g.board, g.state.(victoryType := v)), c);
  }

  /** Consistency of an unwon game does not look at `victoryType`. */
  lemma SnapshotKeepsConsistent(g: Game, v: VictoryType)
    requires Consistent(g) && !g.state.hasWon
    ensures Consistent(Game(g.board, g.state.(victoryType := v)))
  {
    var g' := Game(g.board, g.state.(victoryType := v));
    assert Lead(g') == Lead(g) && ToMove(g') == ToMove(g);
  }

  /** A mark CROSS places on a free cell of a consistent game ends its turn
      unless the board fills up without a win. */
  lemma CrossMoveKeepsSettled(g: Game, c: int)
    requires Consistent(g) && g.state.currentTurn == Cross && IsEmptyCell(g.board, c)
    ensures Settled(AddValueToBoard(g, c))
  {
    AddValueToBoardKeepsConsistent(g, c);
  }

  /** A reset always starts a settled game: an empty board, or the computer's
      single mark in the centre. */
  lemma GameResetSettled(g: Game, pick: nat)
    ensures Settled(GameReset(g, pick))
  {
    var r := GameReset(g, pick);
    if r.state.startingPlayer == Circle {
      EmptyBoardSettled(r);
    } else {
      CentreBoardSettled(r);
    }
  }

  /** An empty board with CIRCLE, its starter, to move (or nobody) and no win
      recorded is settled. */
  lemma EmptyBoardSettled(g: Game)
    requires g.board == EmptyBoard && g.state.startingPlayer == Circle
    requires (g.state.currentTurn == Circle || g.state.currentTurn == Empty) && !g.state.hasWon
    ensures Settled(g)
  {
    assert multiset(EmptyBoard)[Circle] == 0 && multiset(EmptyBoard)[Cross] == 0;
    assert !Full(g.board) by { assert At(g.board, 1) == Empty; }
    SingleMarkWinsNothing(1, Empty, Circle);
    SingleMarkWinsNothing(1, Empty, Cross);
    assert Put(EmptyBoard, 1, Empty) == EmptyBoard;
  }

  /** CROSS's opening mark in the centre, with CIRCLE to answer and no win
      recorded, is settled. */
  lemma CentreBoardSettled(g: Game)
    requires g.board == Put(EmptyBoard, 5, Cross) && g.state.startingPlayer == Cross
    requires g.state.currentTurn == Circle && !g.state.hasWon
    ensures Settled(g)
  {
    assert multiset(EmptyBoard)[Circle] == 0 && multiset(EmptyBoard)[Cross] == 0;
    assert !Full(g.board) by { assert At(g.board, 1) == Empty; }
    CountPut(EmptyBoard, 5, Cross, Cross);
    CountPut(EmptyBoard, 5, Cross, Circle);
    SingleMarkWinsNothing(5, Cross, Circle);
    SingleMarkWinsNothing(5, Cross, Cross);
  }

  /** Every handled intent leaves a settled game. */
  lemma OnActionKeepsSettled(g: Game, action: UserAction, pick: nat)
    requires Settled(g)
    ensures OnAction(g, action, pick).Ok? ==> Settled(OnAction(g, action, pick).game)
  {
    match action
    case BoardTapped(cellNo) =>
      var g' := AddValueToBoard(g, cellNo);
      AddValueToBoardKeepsConsistent(g, cellNo);
      if g'.state.currentTurn == Cross && !HasBoardFull(g'.board) {
        ComputerPlayKeepsSettled(g', pick);
      }
    case PlayAgainButtonClicked =>
      GameResetSettled(g, pick);
  }

  /** In a settled game a tap fails exactly when CROSS is to move: the board is
      then full and the computer's random fallback has no cell to pick. */
  lemma TapFailsIffCrossToMove(g: Game, cellNo: int, pick: nat)
    requires Settled(g)
    ensures OnAction(g, BoardTapped(cellNo), pick).NoEmptyCellToPick?
            <==> g.state.currentTurn == Cross
  {
    var g' := AddValueToBoard(g, cellNo);
    if g.state.currentTurn == Cross {
      assert !IsEmptyCell(g.board, cellNo);
      assert HasBoardFull(g'.board);
    }
  }

  /** CROSS is left to move in a settled game only after a draw in a game
      CROSS started, in which CROSS made the ninth move. */
  lemma CrossToMoveOnlyAfterCrossDraw(g: Game)
    requires Settled(g) && g.state.currentTurn == Cross
    ensures Full(g.board) && !g.state.hasWon
    ensures g.state.startingPlayer == Cross
    ensures Count(g.board, Cross) == 5 && Count(g.board, Circle) == 4
  {
    FullBoardCounts(g);
  }

  /** The first game of a session is settled when CIRCLE, its starter, is to
      move (or nobody is) and no win is recorded. */
  lemma InitialGameSettled(defaults: GameState)
    requires defaults.currentTurn == Circle || defaults.currentTurn == Empty
    requires !defaults.hasWon
    ensures Settled(InitialGame(defaults))
  {
    EmptyBoardSettled(InitialGame(defaults));
  }

  /** The priority rules leave the computer exactly one cell. */
  lemma ComputerChoiceIsUnique(b: Board, pick: nat, c1: int, c2: int)
    requires ComputerChoice(b, pick, c1) && ComputerChoice(b, pick, c2)
    ensures c1 == c2
  {
    if exists n :: IsWinningCell(b, Cross, n) {
      assert !(c1 < c2) && !(c2 < c1);
    } else if exists n :: IsWinningCell(b, Circle, n) {
      assert !(c1 < c2) && !(c2 < c1);
    }
  }

  /** The computer's move is the placement of CROSS on the cell its priority
      rules choose, after probes that touch only `victoryType`. */
  lemma ComputerPlaysChoice(g: Game, pick: nat, c: int)
    requires !HasBoardFull(g.board) && ComputerChoice(g.board, pick, c)
    ensures IsEmptyCell(g.board, c)
    ensures exists v :: && ProbedVictory(g.board, g.state.victoryType, v)
                        && ComputerPlay(g, pick) == AddValueToBoard(Game(g.board, g.state.(victoryType := v)), c)
  {
    var r := ComputerPlay(g, pick);
    var c', v :| && IsEmptyCell(g.board, c')
                 && ComputerChoice(g.board, pick, c')
                 && ProbedVictory(g.board, g.state.victoryType, v)
                 && r == AddValueToBoard(Game(g.board, g.state.(victoryType := v)), c');
    ComputerChoiceIsUnique(g.board, pick, c, c');
  }

  /** When CROSS can win at once the computer wins, whatever CIRCLE threatens:
      its first winning cell is taken and the win is booked. */
  lemma ComputerTakesWinFirst(g: Game, pick: nat)
    requires g.state.currentTurn == Cross && !Full(g.board)
    requires exists n :: IsWinningCell(g.board, Cross, n)
    ensures var r := ComputerPlay(g, pick);
      && (exists c :: IsFirstWinningCell(g.board, Cross, c) && r.board == Put(g.board, c, Cross))
      && r.state.hasWon && r.state.currentTurn == Empty && r.state.hintText == CrossWonHint
      && r.state.victoryType == FirstLine(r.board, Cross)
      && r.state.playerCrossCount == g.state.playerCrossCount + 1
      && r.state.playerCircleCount == g.state.playerCircleCount
      && r.state.drawCount == g.state.drawCount
  {
    var c, v := ComputerPlayPlaces(g, pick);
    WinChoice(g.board, pick, c);
    CrossCompletesLine(Game(g.board, g.state.(victoryType := v)), c);
  }

  /** CROSS placing on a winning cell books CROSS's win. */
  lemma CrossCompletesLine(g: Game, c: int)
    requires g.state.currentTurn == Cross && IsWinningCell(g.board, Cross, c)
    ensures var r := AddValueToBoard(g, c);
      && r.board == Put(g.board, c, Cross)
      && r.state.hasWon && r.state.currentTurn == Empty && r.state.hintText == CrossWonHint
      && r.state.victoryType == FirstLine(r.board, Cross)
      && r.state.playerCrossCount == g.state.playerCrossCount + 1
      && r.state.playerCircleCount == g.state.playerCircleCount
      && r.state.drawCount == g.state.drawCount
  {
  }

  /** With a winning cell for CROSS, the computer's choice is the first one. */
  lemma WinChoice(b: Board, pick: nat, c: int)
    requires exists n :: IsWinningCell(b, Cross, n)
    requires ComputerChoice(b, pick, c)
    ensures IsFirstWinningCell(b, Cross, c)
  {
  }

  /** A blocking move leaves the probe's line in `victoryType`: the snapshot
      names the line CIRCLE would have completed, although nobody has won. */
  lemma BlockLeavesStaleVictory(g: Game, pick: nat)
    requires Consistent(g) && g.state.currentTurn == Cross && !Full(g.board)
    requires forall n :: !IsWinningCell(g.board, Cross, n)
    requires exists n :: IsWinningCell(g.board, Circle, n)
    ensures var r := ComputerPlay(g, pick);
      && (exists c :: && IsFirstWinningCell(g.board, Circle, c)
                      && r.board == Put(g.board, c, Cross)
                      && r.state.victoryType == FirstLine(Put(g.board, c, Circle), Circle))
      && r.state.victoryType != NoVictory
      && !r.state.hasWon
      && !Wins(r.board, Circle) && !Wins(r.board, Cross)
  {
    var c, v := ComputerPlayPlaces(g, pick);
    BlockChoice(g.board, pick, c);
    BlockProbe(g.board, g.state.victoryType, v, c);
    BlockOutcome(g, c, v, ComputerPlay(g, pick));
  }

  /** With no winning cell for CROSS, the computer's choice is CIRCLE's
      first winning cell. */
  lemma BlockChoice(b: Board, pick: nat, c: int)
    requires forall n :: !IsWinningCell(b, Cross, n)
    requires exists n :: IsWinningCell(b, Circle, n)
    requires ComputerChoice(b, pick, c)
    ensures IsFirstWinningCell(b, Circle, c)
  {
  }

  /** The blocking probe leaves the line of CIRCLE's first winning cell. */
  lemma BlockProbe(b: Board, before: VictoryType, v: VictoryType, c: int)
    requires IsFirstWinningCell(b, Circle, c)
    requires ProbedVictory(b, before, v)
    ensures v == FirstLine(Put(b, c, Circle), Circle)
  {
    var n :| IsFirstWinningCell(b, Circle, n) && v == FirstLine(Put(b, n, Circle), Circle);
    assert n == c by {
      assert !(n < c) && !(c < n);
    }
  }

  /** The placement half of a blocking move: CROSS on CIRCLE's winning cell
      wins nothing, so the probe's line stays in the snapshot. */
  lemma BlockOutcome(g: Game, c: int, v: VictoryType, r: Game)
    requires Consistent(g) && g.state.currentTurn == Cross
    requires forall n :: !IsWinningCell(g.board, Cross, n)
    requires IsWinningCell(g.board, Circle, c)
    requires v == FirstLine(Put(g.board, c, Circle), Circle)
    requires r == AddValueToBoard(Game(g.board, g.state.(victoryType := v)), c)
    ensures r.board == Put(g.board, c, Cross) && r.state.victoryType == v
    ensures v != NoVictory && !r.state.hasWon
    ensures !Wins(r.board, Circle) && !Wins(r.board, Cross)
  {
    FirstLineIsFirst(Put(g.board, c, Circle), Circle);
    assert !IsWinningCell(g.board, Cross, c);
    PutOtherKeepsWins(g.board, c, Cross, Circle);
  }

  /** One intent together with the value the random source yields for it. */
  datatype Input = Input(action: UserAction, pick: nat)

  /** A session: the intents handled one after another, stopping at the
      first failure. */
  function Run(g: Game, inputs: seq<Input>): Outcome
    decreases |inputs|
  {
    if inputs == [] then Ok(g)
    else
      match OnAction(g, inputs[0].action, inputs[0].pick)
      case NoEmptyCellToPick => NoEmptyCellToPick
      case Ok(g') => Run(g', inputs[1..])
  }

  /** Every game a session reaches from a settled game is settled. */
  lemma {:induction false} RunKeepsSettled(g: Game, inputs: seq<Input>)
    requires Settled(g)
    ensures Run(g, inputs).Ok? ==> Settled(Run(g, inputs).game)
    decreases |inputs|
  {
    if inputs != [] {
      OnActionKeepsSettled(g, inputs[0].action, inputs[0].pick);
      if OnAction(g, inputs[0].action, inputs[0].pick).Ok? {
        RunKeepsSettled(OnAction(g, inputs[0].action, inputs[0].pick).game, inputs[1..]);
      }
    }
  }

  /** In every game a session reaches from the first one, the starter has
      made as many moves as the other player or one more. */
  lemma MarkBalance(defaults: GameState, inputs: seq<Input>)
    requires defaults.currentTurn == Circle || defaults.currentTurn == Empty
    requires !defaults.hasWon
    ensures Run(InitialGame(defaults), inputs).Ok? ==>
      var g := Run(InitialGame(defaults), inputs).game;
      && g.state.startingPlayer != Empty
      && 0 <= Count(g.board, g.state.startingPlayer) - Count(g.board, Opponent(g.state.startingPlayer)) <= 1
  {
    InitialGameSettled(defaults);
    RunKeepsSettled(InitialGame(defaults), inputs);
  }
}
