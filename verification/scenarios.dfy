/** Concrete sessions of the tic-tac-toe view model: the computer preferring
    its own win over a block, the stale line a block leaves in
    `victoryType`, and a session that ends with the random fallback asked to
    choose among no cells at all. */
module Scenarios {
  import opened Board
  import opened GameViewModel
  import opened GameProperties

  /** A cell number, spelled out. */
  lemma CellCases(n: int)
    requires ValidCell(n)
    ensures n == 1 || n == 2 || n == 3 || n == 4 || n == 5 || n == 6 || n == 7 || n == 8 || n == 9
  {
  }

  /** Two boards that agree cell by cell are the same board. */
  lemma SameBoard(a: Board, b: Board)
    requires a[0] == b[0] && a[1] == b[1] && a[2] == b[2]
    requires a[3] == b[3] && a[4] == b[4] && a[5] == b[5]
    requires a[6] == b[6] && a[7] == b[7] && a[8] == b[8]
    ensures a == b
  {
    forall i | 0 <= i < 9
      ensures a[i] == b[i]
    {
      CellCases(i + 1);
    }
  }

  /** A computable stand-in for `IsWinningCell`, decided by the eight triples. */
  predicate WinsAt(b: Board, p: CellValue, n: int)
    requires ValidCell(n)
  {
    At(b, n) == Empty && AnyTriple(Put(b, n, p), p)
  }

  /** No cell below `n` wins for `p`. */
  predicate NoWinBefore(b: Board, p: CellValue, n: int)
    requires 1 <= n <= 10
    decreases n
  {
    n == 1 || (!WinsAt(b, p, n - 1) && NoWinBefore(b, p, n - 1))
  }

  lemma WinsAtIsWinningCell(b: Board, p: CellValue, n: int)
    requires ValidCell(n)
    ensures WinsAt(b, p, n) <==> IsWinningCell(b, p, n)
  {
    WinsAsTriples(Put(b, n, p), p);
  }

  lemma {:induction false} NoWinBeforeMeansNone(b: Board, p: CellValue, n: int)
    requires 1 <= n <= 10 && NoWinBefore(b, p, n)
    ensures forall m :: m < n ==> !IsWinningCell(b, p, m)
    decreases n
  {
    if n > 1 {
      NoWinBeforeMeansNone(b, p, n - 1);
      WinsAtIsWinningCell(b, p, n - 1);
    }
  }

  /** A winning cell with no winning cell below it is the first one. */
  lemma FirstWinningCellIs(b: Board, p: CellValue, c: int)
    requires ValidCell(c) && WinsAt(b, p, c) && NoWinBefore(b, p, c)
    ensures IsFirstWinningCell(b, p, c)
  {
    WinsAtIsWinningCell(b, p, c);
    NoWinBeforeMeansNone(b, p, c);
  }

  /** A board on which `p` has no winning cell. */
  lemma NoWinningCell(b: Board, p: CellValue)
    requires NoWinBefore(b, p, 10)
    ensures forall n :: !IsWinningCell(b, p, n)
  {
    NoWinBeforeMeansNone(b, p, 10);
  }

  /** The four rungs of the computer's choice, one lemma each. */
  lemma ChoiceWin(b: Board, pick: nat, c: int)
    requires IsFirstWinningCell(b, Cross, c)
    ensures ComputerChoice(b, pick, c)
  {
  }

  lemma ChoiceBlock(b: Board, pick: nat, c: int)
    requires NoWinBefore(b, Cross, 10)
    requires IsFirstWinningCell(b, Circle, c)
    ensures ComputerChoice(b, pick, c)
  {
    NoWinningCell(b, Cross);
  }

  lemma ChoiceCentre(b: Board, pick: nat)
    requires NoWinBefore(b, Cross, 10) && NoWinBefore(b, Circle, 10)
    requires At(b, 5) == Empty
    ensures ComputerChoice(b, pick, 5)
  {
    NoWinningCell(b, Cross);
    NoWinningCell(b, Circle);
  }

  /** CIRCLE taps an empty cell, turning `g.board` into `tapped` without
      winning or filling it, and the computer answers on cell `c`, turning
      `tapped` into `reply`: the outcome of the whole intent. */
  lemma TapAnswered(g: Game, n: int, pick: nat, tapped: Board, c: int, reply: Board)
    requires g.state.currentTurn == Circle && IsEmptyCell(g.board, n)
    requires Put(g.board, n, Circle) == tapped
    requires !AnyTriple(tapped, Circle) && !HasBoardFull(tapped)
    requires ValidCell(c) && ComputerChoice(tapped, pick, c)
    requires Put(tapped, c, Cross) == reply
    ensures OnAction(g, BoardTapped(n), pick).Ok?
    ensures var r := OnAction(g, BoardTapped(n), pick).game;
      && r.board == reply
      && r.state.startingPlayer == g.state.startingPlayer
      && (AnyTriple(reply, Cross) ==> r.state.hasWon && r.state.currentTurn == Empty)
      && (!AnyTriple(reply, Cross) ==> r.state.hasWon == g.state.hasWon)
      && (!AnyTriple(reply, Cross) && HasBoardFull(reply) ==> r.state.currentTurn == Cross)
      && (!AnyTriple(reply, Cross) && !HasBoardFull(reply) ==> r.state.currentTurn == Circle)
  {
    HumanTapPassesTurn(g, n, tapped);
    var g1 := Game(tapped, g.state.(hintText := CrossTurnHint, currentTurn := Cross));
    assert OnAction(g, BoardTapped(n), pick) == Ok(ComputerPlay(g1, pick));
    ComputerAnswers(g1, pick, c, reply);
  }

  /** CIRCLE's mark that neither wins nor fills the board hands the turn to
      CROSS. */
  lemma HumanTapPassesTurn(g: Game, n: int, tapped: Board)
    requires g.state.currentTurn == Circle && IsEmptyCell(g.board, n)
    requires Put(g.board, n, Circle) == tapped
    requires !AnyTriple(tapped, Circle) && !HasBoardFull(tapped)
    ensures AddValueToBoard(g, n) == Game(tapped, g.state.(hintText := CrossTurnHint, currentTurn := Cross))
  {
    WinsAsTriples(tapped, Circle);
  }

  /** The computer's answer on its chosen cell `c`, read off the result. */
  lemma ComputerAnswers(g: Game, pick: nat, c: int, reply: Board)
    requires g.state.currentTurn == Cross && !HasBoardFull(g.board)
    requires ValidCell(c) && ComputerChoice(g.board, pick, c)
    requires Put(g.board, c, Cross) == reply
    ensures var r := ComputerPlay(g, pick);
      && r.board == reply
      && r.state.startingPlayer == g.state.startingPlayer
      && (AnyTriple(reply, Cross) ==> r.state.hasWon && r.state.currentTurn == Empty)
      && (!AnyTriple(reply, Cross) ==> r.state.hasWon == g.state.hasWon)
      && (!AnyTriple(reply, Cross) && HasBoardFull(reply) ==> r.state.currentTurn == Cross)
      && (!AnyTriple(reply, Cross) && !HasBoardFull(reply) ==> r.state.currentTurn == Circle)
  {
    var cell, v := ComputerPlayPlaces(g, pick);
    ComputerChoiceIsUnique(g.board, pick, c, cell);
    CrossMoveOutcome(Game(g.board, g.state.(victoryType := v)), c, reply);
  }

  /** What CROSS's mark on a free cell does to the state, read off the board
      it leaves. */
  lemma CrossMoveOutcome(g: Game, c: int, reply: Board)
    requires g.state.currentTurn == Cross && IsEmptyCell(g.board, c)
    requires Put(g.board, c, Cross) == reply
    ensures var r := AddValueToBoard(g, c);
      && r.board == reply
      && r.state.startingPlayer == g.state.startingPlayer
      && (AnyTriple(reply, Cross) ==> r.state.hasWon && r.state.currentTurn == Empty)
      && (!AnyTriple(reply, Cross) ==> r.state.hasWon == g.state.hasWon)
      && (!AnyTriple(reply, Cross) && HasBoardFull(reply) ==> r.state.currentTurn == Cross)
      && (!AnyTriple(reply, Cross) && !HasBoardFull(reply) ==> r.state.currentTurn == Circle)
  {
    WinsAsTriples(reply, Cross);
  }

  // The boards of the sessions below, written out.
  const ThreatBoard: Board := [Cross, Cross, Empty, Circle, Circle, Empty, Empty, Empty, Empty]
  const BlockBoard: Board := [Circle, Circle, Empty, Empty, Cross, Empty, Empty, Empty, Empty]

  /** On `ThreatBoard` both players can complete the top row or the middle
      row; the computer completes its own top row and books the win. */
  lemma WinBeatsBlock(s: GameState, pick: nat)
    requires s.currentTurn == Cross
    ensures !HasBoardFull(ThreatBoard)
    ensures var r := ComputerPlay(Game(ThreatBoard, s), pick);
      && r.board == Put(ThreatBoard, 3, Cross)
      && r.state.hasWon && r.state.currentTurn == Empty
      && r.state.victoryType == Horizontal1
      && r.state.hintText == CrossWonHint
      && r.state.playerCrossCount == s.playerCrossCount + 1
  {
    ThreatBoardFacts();
    ChoiceWin(ThreatBoard, pick, 3);
    var c, v := ComputerPlayPlaces(Game(ThreatBoard, s), pick);
    ComputerChoiceIsUnique(ThreatBoard, pick, c, 3);
    CrossCompletesLine(Game(ThreatBoard, s.(victoryType := v)), 3);
  }

  /** What the winning session needs to know about `ThreatBoard`. */
  lemma ThreatBoardFacts()
    ensures !HasBoardFull(ThreatBoard)
    ensures IsFirstWinningCell(ThreatBoard, Cross, 3)
    ensures FirstLine(Put(ThreatBoard, 3, Cross), Cross) == Horizontal1
  {
    assert At(ThreatBoard, 3) == Empty;
    assert WinsAt(ThreatBoard, Cross, 3) && NoWinBefore(ThreatBoard, Cross, 3);
    FirstWinningCellIs(ThreatBoard, Cross, 3);
    var b := Put(ThreatBoard, 3, Cross);
    assert Triple(b, Cross, 1, 2, 3);
    FirstLineAsTriples(b, Cross);
  }

  /** The computer blocks on cell `c`: the board gains CROSS there, the turn
      passes to CIRCLE, and `victoryType` holds the probe's `line`. */
  lemma BlockPlayed(g: Game, pick: nat, c: int, line: VictoryType)
    requires g.state.currentTurn == Cross && !HasBoardFull(g.board)
    requires NoWinBefore(g.board, Cross, 10)
    requires IsFirstWinningCell(g.board, Circle, c)
    requires FirstLine(Put(g.board, c, Circle), Circle) == line
    requires !Wins(Put(g.board, c, Cross), Cross) && !Full(Put(g.board, c, Cross))
    ensures ComputerPlay(g, pick)
      == Game(Put(g.board, c, Cross),
              g.state.(victoryType := line, hintText := CircleTurnHint, currentTurn := Circle))
  {
    ChoiceBlock(g.board, pick, c);
    ComputerPlaysChoice(g, pick, c);
    var v :| && ProbedVictory(g.board, g.state.victoryType, v)
             && ComputerPlay(g, pick) == AddValueToBoard(Game(g.board, g.state.(victoryType := v)), c);
    BlockProbe(g.board, g.state.victoryType, v, c);
    CrossPlacesQuietly(Game(g.board, g.state.(victoryType := v)), c);
  }

  /** What the blocking session needs to know about `BlockBoard`. */
  lemma BlockBoardFacts()
    ensures NoWinBefore(BlockBoard, Cross, 10)
    ensures !HasBoardFull(BlockBoard)
    ensures IsFirstWinningCell(BlockBoard, Circle, 3)
    ensures FirstLine(Put(BlockBoard, 3, Circle), Circle) == Horizontal1
    ensures !Wins(Put(BlockBoard, 3, Cross), Cross) && !Full(Put(BlockBoard, 3, Cross))
  {
    BlockBoardCrossQuiet();
    BlockBoardCircleFirst();
    FirstWinningCellIs(BlockBoard, Circle, 3);
    BlockBoardProbe();
    BlockBoardReply();
  }

  lemma BlockBoardCrossQuiet()
    ensures NoWinBefore(BlockBoard, Cross, 10)
  {
  }

  lemma BlockBoardCircleFirst()
    ensures WinsAt(BlockBoard, Circle, 3) && NoWinBefore(BlockBoard, Circle, 3)
  {
  }

  lemma BlockBoardProbe()
    ensures FirstLine(Put(BlockBoard, 3, Circle), Circle) == Horizontal1
  {
    var probe := Put(BlockBoard, 3, Circle);
    assert Triple(probe, Circle, 1, 2, 3);
    FirstLineAsTriples(probe, Circle);
  }

  lemma BlockBoardReply()
    ensures !Wins(Put(BlockBoard, 3, Cross), Cross) && !Full(Put(BlockBoard, 3, Cross))
  {
    var b := Put(BlockBoard, 3, Cross);
    SameBoard(b, [Circle, Circle, Cross, Empty, Cross, Empty, Empty, Empty, Empty]);
    WinsAsTriples(b, Cross);
    assert At(b, 9) == Empty;
  }

  /** On `BlockBoard` the computer blocks the top row: nobody has won, yet
      `victoryType` names the top row CIRCLE would have completed. */
  lemma BlockNamesCirclesLine(s: GameState, pick: nat)
    requires s.currentTurn == Cross && !s.hasWon
    ensures !HasBoardFull(BlockBoard)
    ensures var r := ComputerPlay(Game(BlockBoard, s), pick);
      && r.board == Put(BlockBoard, 3, Cross)
      && !r.state.hasWon && r.state.currentTurn == Circle
      && r.state.victoryType == Horizontal1
  {
    BlockBoardFacts();
    BlockPlayed(Game(BlockBoard, s), pick, 3, Horizontal1);
  }

  // The session below, one board per half-move. CIRCLE starts the first
  // game and CROSS the second.
  const Tap1: Board := [Circle, Empty, Empty, Empty, Empty, Empty, Empty, Empty, Empty]
  const Reply1: Board := [Circle, Empty, Empty, Empty, Cross, Empty, Empty, Empty, Empty]
  const Tap2: Board := [Circle, Circle, Empty, Empty, Cross, Empty, Empty, Empty, Empty]
  const Reply2: Board := [Circle, Circle, Cross, Empty, Cross, Empty, Empty, Empty, Empty]
  const Tap3: Board := [Circle, Circle, Cross, Circle, Cross, Empty, Empty, Empty, Empty]
  const Reply3: Board := [Circle, Circle, Cross, Circle, Cross, Empty, Cross, Empty, Empty]
  const Rematch: Board := [Empty, Empty, Empty, Empty, Cross, Empty, Empty, Empty, Empty]
  const Reply4: Board := [Circle, Cross, Empty, Empty, Cross, Empty, Empty, Empty, Empty]
  const Tap5: Board := [Circle, Cross, Empty, Empty, Cross, Empty, Empty, Circle, Empty]
  const Reply5: Board := [Circle, Cross, Cross, Empty, Cross, Empty, Empty, Circle, Empty]
  const Tap6: Board := [Circle, Cross, Cross, Empty, Cross, Empty, Circle, Circle, Empty]
  const Reply6: Board := [Circle, Cross, Cross, Cross, Cross, Empty, Circle, Circle, Empty]
  const Tap7: Board := [Circle, Cross, Cross, Cross, Cross, Circle, Circle, Circle, Empty]
  const Reply7: Board := [Circle, Cross, Cross, Cross, Cross, Circle, Circle, Circle, Cross]

  /** CIRCLE opens on 1 and the computer takes the centre. */
  lemma Move1Boards()
    ensures IsEmptyCell(EmptyBoard, 1) && Put(EmptyBoard, 1, Circle) == Tap1
    ensures !AnyTriple(Tap1, Circle) && !HasBoardFull(Tap1)
    ensures Put(Tap1, 5, Cross) == Reply1
    ensures !AnyTriple(Reply1, Cross) && !HasBoardFull(Reply1)
  {
    Move1Tap();
    Move1Reply();
  }

  lemma Move1Tap()
    ensures IsEmptyCell(EmptyBoard, 1) && Put(EmptyBoard, 1, Circle) == Tap1
    ensures !AnyTriple(Tap1, Circle) && !HasBoardFull(Tap1)
  {
    SameBoard(Put(EmptyBoard, 1, Circle), Tap1);
    assert Tap1[8] == Empty;
  }

  lemma Move1Reply()
    ensures Put(Tap1, 5, Cross) == Reply1
    ensures !AnyTriple(Reply1, Cross) && !HasBoardFull(Reply1)
  {
    SameBoard(Put(Tap1, 5, Cross), Reply1);
    assert Reply1[8] == Empty;
  }

  lemma Move1Choice()
    ensures ComputerChoice(Tap1, 0, 5)
  {
    assert NoWinBefore(Tap1, Cross, 10);
    assert NoWinBefore(Tap1, Circle, 10);
    ChoiceCentre(Tap1, 0);
  }

  /** CIRCLE threatens the top row on 2 and the computer blocks on 3. */
  lemma Move2Boards()
    ensures IsEmptyCell(Reply1, 2) && Put(Reply1, 2, Circle) == Tap2
    ensures !AnyTriple(Tap2, Circle) && !HasBoardFull(Tap2)
    ensures Put(Tap2, 3, Cross) == Reply2
    ensures !AnyTriple(Reply2, Cross) && !HasBoardFull(Reply2)
  {
    Move2Tap();
    Move2Reply();
  }

  lemma Move2Tap()
    ensures IsEmptyCell(Reply1, 2) && Put(Reply1, 2, Circle) == Tap2
    ensures !AnyTriple(Tap2, Circle) && !HasBoardFull(Tap2)
  {
    SameBoard(Put(Reply1, 2, Circle), Tap2);
    assert Tap2[8] == Empty;
  }

  lemma Move2Reply()
    ensures Put(Tap2, 3, Cross) == Reply2
    ensures !AnyTriple(Reply2, Cross) && !HasBoardFull(Reply2)
  {
    SameBoard(Put(Tap2, 3, Cross), Reply2);
    assert Reply2[8] == Empty;
  }

  lemma Move2Choice()
    ensures ComputerChoice(Tap2, 0, 3)
  {
    assert NoWinBefore(Tap2, Cross, 10);
    FirstWinningCellIs(Tap2, Circle, 3);
    ChoiceBlock(Tap2, 0, 3);
  }

  /** CIRCLE plays 4 and the computer completes the diagonal 3-5-7. */
  lemma Move3Boards()
    ensures IsEmptyCell(Reply2, 4) && Put(Reply2, 4, Circle) == Tap3
    ensures !AnyTriple(Tap3, Circle) && !HasBoardFull(Tap3)
    ensures Put(Tap3, 7, Cross) == Reply3
    ensures AnyTriple(Reply3, Cross)
  {
    Move3Tap();
    Move3Reply();
  }

  lemma Move3Tap()
    ensures IsEmptyCell(Reply2, 4) && Put(Reply2, 4, Circle) == Tap3
    ensures !AnyTriple(Tap3, Circle) && !HasBoardFull(Tap3)
  {
    SameBoard(Put(Reply2, 4, Circle), Tap3);
    assert Tap3[8] == Empty;
  }

  lemma Move3Reply()
    ensures Put(Tap3, 7, Cross) == Reply3
    ensures AnyTriple(Reply3, Cross)
  {
    SameBoard(Put(Tap3, 7, Cross), Reply3);
  }

  lemma Move3Choice()
    ensures ComputerChoice(Tap3, 0, 7)
  {
    FirstWinningCellIs(Tap3, Cross, 7);
    ChoiceWin(Tap3, 0, 7);
  }

  /** With no threat and the centre taken, the computer takes the cell the
      random fallback lands on. */
  lemma ChoiceRandomAt(b: Board, pick: nat, c: int)
    requires NoWinBefore(b, Cross, 10) && NoWinBefore(b, Circle, 10) && At(b, 5) != Empty
    requires pick < |EmptyCells(b)| && EmptyCells(b)[pick] == c
    ensures ComputerChoice(b, pick, c)
  {
    var cells := EmptyCells(b);
    assert pick % |cells| == pick by {
      SmallRemainder(pick, |cells|);
    }
    NoWinningCell(b, Cross);
    NoWinningCell(b, Circle);
  }

  /** In the second game CIRCLE plays 1 beside the computer's centre; nobody
      threatens, and the random fallback, with 0 as its value, takes the
      first empty cell, 2. */
  lemma Move4Boards()
    ensures IsEmptyCell(Rematch, 1) && Put(Rematch, 1, Circle) == Reply1
    ensures !AnyTriple(Reply1, Circle) && !HasBoardFull(Reply1)
    ensures Put(Reply1, 2, Cross) == Reply4
    ensures !AnyTriple(Reply4, Cross) && !HasBoardFull(Reply4)
  {
    Move4Tap();
    Move4Reply();
  }

  lemma Move4Tap()
    ensures IsEmptyCell(Rematch, 1) && Put(Rematch, 1, Circle) == Reply1
    ensures !AnyTriple(Reply1, Circle) && !HasBoardFull(Reply1)
  {
    SameBoard(Put(Rematch, 1, Circle), Reply1);
    assert Reply1[8] == Empty;
  }

  lemma Move4Reply()
    ensures Put(Reply1, 2, Cross) == Reply4
    ensures !AnyTriple(Reply4, Cross) && !HasBoardFull(Reply4)
  {
    SameBoard(Put(Reply1, 2, Cross), Reply4);
    assert Reply4[8] == Empty;
  }

  lemma Move4Choice()
    ensures ComputerChoice(Reply1, 0, 2)
  {
    Reply1CrossQuiet();
    Reply1CircleQuiet();
    Reply1FirstEmpty();
    ChoiceRandomAt(Reply1, 0, 2);
  }

  lemma Reply1CrossQuiet() ensures NoWinBefore(Reply1, Cross, 10) {}
  lemma Reply1CircleQuiet() ensures NoWinBefore(Reply1, Circle, 10) {}
  lemma Reply1FirstEmpty() ensures 0 < |EmptyCells(Reply1)| && EmptyCells(Reply1)[0] == 2 {}

  /** CIRCLE blocks the middle column on 8; nobody threatens, and the random
      fallback takes the first empty cell, 3. */
  lemma Move5Boards()
    ensures IsEmptyCell(Reply4, 8) && Put(Reply4, 8, Circle) == Tap5
    ensures !AnyTriple(Tap5, Circle) && !HasBoardFull(Tap5)
    ensures Put(Tap5, 3, Cross) == Reply5
    ensures !AnyTriple(Reply5, Cross) && !HasBoardFull(Reply5)
  {
    Move5Tap();
    Move5Reply();
  }

  lemma Move5Tap()
    ensures IsEmptyCell(Reply4, 8) && Put(Reply4, 8, Circle) == Tap5
    ensures !AnyTriple(Tap5, Circle) && !HasBoardFull(Tap5)
  {
    SameBoard(Put(Reply4, 8, Circle), Tap5);
    assert Tap5[8] == Empty;
  }

  lemma Move5Reply()
    ensures Put(Tap5, 3, Cross) == Reply5
    ensures !AnyTriple(Reply5, Cross) && !HasBoardFull(Reply5)
  {
    SameBoard(Put(Tap5, 3, Cross), Reply5);
    assert Reply5[8] == Empty;
  }

  lemma Move5Choice()
    ensures ComputerChoice(Tap5, 0, 3)
  {
    Tap5CrossQuiet();
    Tap5CircleQuiet();
    Tap5FirstEmpty();
    ChoiceRandomAt(Tap5, 0, 3);
  }

  lemma Tap5CrossQuiet() ensures NoWinBefore(Tap5, Cross, 10) {}
  lemma Tap5CircleQuiet() ensures NoWinBefore(Tap5, Circle, 10) {}
  lemma Tap5FirstEmpty() ensures 0 < |EmptyCells(Tap5)| && EmptyCells(Tap5)[0] == 3 {}

  /** CIRCLE blocks the diagonal 3-5-7 on 7 and now threatens twice; the
      computer blocks the first threat, on 4. */
  lemma Move6Boards()
    ensures IsEmptyCell(Reply5, 7) && Put(Reply5, 7, Circle) == Tap6
    ensures !AnyTriple(Tap6, Circle) && !HasBoardFull(Tap6)
    ensures Put(Tap6, 4, Cross) == Reply6
    ensures !AnyTriple(Reply6, Cross) && !HasBoardFull(Reply6)
  {
    Move6Tap();
    Move6Reply();
  }

  lemma Move6Tap()
    ensures IsEmptyCell(Reply5, 7) && Put(Reply5, 7, Circle) == Tap6
    ensures !AnyTriple(Tap6, Circle) && !HasBoardFull(Tap6)
  {
    SameBoard(Put(Reply5, 7, Circle), Tap6);
    assert Tap6[8] == Empty;
  }

  lemma Move6Reply()
    ensures Put(Tap6, 4, Cross) == Reply6
    ensures !AnyTriple(Reply6, Cross) && !HasBoardFull(Reply6)
  {
    SameBoard(Put(Tap6, 4, Cross), Reply6);
    assert Reply6[8] == Empty;
  }

  lemma Move6Choice()
    ensures ComputerChoice(Tap6, 0, 4)
  {
    assert NoWinBefore(Tap6, Cross, 10);
    FirstWinningCellIs(Tap6, Circle, 4);
    ChoiceBlock(Tap6, 0, 4);
  }

  /** CIRCLE blocks the middle row on 6 and the computer blocks the bottom
      row on 9, the last cell: the board is full and nobody has won. */
  lemma Move7Boards()
    ensures IsEmptyCell(Reply6, 6) && Put(Reply6, 6, Circle) == Tap7
    ensures !AnyTriple(Tap7, Circle) && !HasBoardFull(Tap7)
    ensures Put(Tap7, 9, Cross) == Reply7
    ensures !AnyTriple(Reply7, Cross) && HasBoardFull(Reply7)
  {
    Move7Tap();
    Move7Reply();
  }

  lemma Move7Tap()
    ensures IsEmptyCell(Reply6, 6) && Put(Reply6, 6, Circle) == Tap7
    ensures !AnyTriple(Tap7, Circle) && !HasBoardFull(Tap7)
  {
    SameBoard(Put(Reply6, 6, Circle), Tap7);
    assert Tap7[8] == Empty;
  }

  lemma Move7Reply()
    ensures Put(Tap7, 9, Cross) == Reply7
    ensures !AnyTriple(Reply7, Cross) && HasBoardFull(Reply7)
  {
    SameBoard(Put(Tap7, 9, Cross), Reply7);
  }

  lemma Move7Choice()
    ensures ComputerChoice(Tap7, 0, 9)
  {
    assert NoWinBefore(Tap7, Cross, 10);
    FirstWinningCellIs(Tap7, Circle, 9);
    ChoiceBlock(Tap7, 0, 9);
  }

  lemma Move1(g: Game, inputs: seq<Input>, i: nat) returns (g': Game)
    requires g.board == EmptyBoard && g.state.currentTurn == Circle && !g.state.hasWon && g.state.startingPlayer == Circle
    requires i < |inputs| && inputs[i] == Input(BoardTapped(1), 0)
    ensures Run(g, inputs[i..]) == Run(g', inputs[i + 1..])
    ensures CircleToMoveOn(g', Reply1, Circle)
  {
    Move1Boards();
    Move1Choice();
    TapAnswered(g, 1, 0, Tap1, 5, Reply1);
    g' := OnAction(g, BoardTapped(1), 0).game;
    RunStep(g, inputs, i, inputs[i], g');
  }

  lemma Move2(g: Game, inputs: seq<Input>, i: nat) returns (g': Game)
    requires CircleToMoveOn(g, Reply1, Circle)
    requires i < |inputs| && inputs[i] == Input(BoardTapped(2), 0)
    ensures Run(g, inputs[i..]) == Run(g', inputs[i + 1..])
    ensures CircleToMoveOn(g', Reply2, Circle)
  {
    Move2Boards();
    Move2Choice();
    TapAnswered(g, 2, 0, Tap2, 3, Reply2);
    g' := OnAction(g, BoardTapped(2), 0).game;
    RunStep(g, inputs, i, inputs[i], g');
  }

  lemma Move3(g: Game, inputs: seq<Input>, i: nat) returns (g': Game)
    requires CircleToMoveOn(g, Reply2, Circle)
    requires i < |inputs| && inputs[i] == Input(BoardTapped(4), 0)
    ensures Run(g, inputs[i..]) == Run(g', inputs[i + 1..])
    ensures g'.board == Reply3 && g'.state.hasWon && g'.state.startingPlayer == Circle
  {
    Move3Boards();
    Move3Choice();
    TapAnswered(g, 4, 0, Tap3, 7, Reply3);
    g' := OnAction(g, BoardTapped(4), 0).game;
    RunStep(g, inputs, i, inputs[i], g');
  }

  lemma Move4(g: Game, inputs: seq<Input>, i: nat) returns (g': Game)
    requires CircleToMoveOn(g, Rematch, Cross)
    requires i < |inputs| && inputs[i] == Input(BoardTapped(1), 0)
    ensures Run(g, inputs[i..]) == Run(g', inputs[i + 1..])
    ensures CircleToMoveOn(g', Reply4, Cross)
  {
    Move4Boards();
    Move4Choice();
    TapAnswered(g, 1, 0, Reply1, 2, Reply4);
    g' := OnAction(g, BoardTapped(1), 0).game;
    RunStep(g, inputs, i, inputs[i], g');
  }

  lemma Move5(g: Game, inputs: seq<Input>, i: nat) returns (g': Game)
    requires CircleToMoveOn(g, Reply4, Cross)
    requires i < |inputs| && inputs[i] == Input(BoardTapped(8), 0)
    ensures Run(g, inputs[i..]) == Run(g', inputs[i + 1..])
    ensures CircleToMoveOn(g', Reply5, Cross)
  {
    Move5Boards();
    Move5Choice();
    TapAnswered(g, 8, 0, Tap5, 3, Reply5);
    g' := OnAction(g, BoardTapped(8), 0).game;
    RunStep(g, inputs, i, inputs[i], g');
  }

  lemma Move6(g: Game, inputs: seq<Input>, i: nat) returns (g': Game)
    requires CircleToMoveOn(g, Reply5, Cross)
    requires i < |inputs| && inputs[i] == Input(BoardTapped(7), 0)
    ensures Run(g, inputs[i..]) == Run(g', inputs[i + 1..])
    ensures CircleToMoveOn(g', Reply6, Cross)
  {
    Move6Boards();
    Move6Choice();
    TapAnswered(g, 7, 0, Tap6, 4, Reply6);
    g' := OnAction(g, BoardTapped(7), 0).game;
    RunStep(g, inputs, i, inputs[i], g');
  }

  lemma Move7(g: Game, inputs: seq<Input>, i: nat) returns (g': Game)
    requires CircleToMoveOn(g, Reply6, Cross)
    requires i < |inputs| && inputs[i] == Input(BoardTapped(6), 0)
    ensures Run(g, inputs[i..]) == Run(g', inputs[i + 1..])
    ensures g'.board == Reply7 && g'.state.currentTurn == Cross
  {
    Move7Boards();
    Move7Choice();
    TapAnswered(g, 6, 0, Tap7, 9, Reply7);
    g' := OnAction(g, BoardTapped(6), 0).game;
    RunStep(g, inputs, i, inputs[i], g');
  }

  /** The session: CIRCLE loses the first game, starts the second against a
      computer that opened in the centre, and the second game ends in a draw
      on CROSS's move; CIRCLE then taps an occupied cell. Every random value
      is 0. */
  const Session: seq<Input> := [
    Input(BoardTapped(1), 0), Input(BoardTapped(2), 0), Input(BoardTapped(4), 0),
    Input(PlayAgainButtonClicked, 0),
    Input(BoardTapped(1), 0), Input(BoardTapped(8), 0), Input(BoardTapped(7), 0),
    Input(BoardTapped(6), 0), Input(BoardTapped(1), 0)]

  /** A session whose `k`-th intent succeeds goes on from the game it left. */
  lemma RunStep(g: Game, inputs: seq<Input>, k: nat, i: Input, g': Game)
    requires k < |inputs| && inputs[k] == i && OnAction(g, i.action, i.pick) == Ok(g')
    ensures Run(g, inputs[k..]) == Run(g', inputs[k + 1..])
  {
    assert inputs[k..][0] == i;
    assert inputs[k..][1..] == inputs[k + 1..];
  }

  /** CIRCLE is to move on board `b` in a game `starter` began, and nobody
      has won. */
  predicate CircleToMoveOn(g: Game, b: Board, starter: CellValue) {
    && g.board == b && g.state.currentTurn == Circle
    && !g.state.hasWon && g.state.startingPlayer == starter
  }

  /** After the draw CROSS is still to move; the tap on cell 1 changes
      nothing, and the computer is asked to pick among no empty cells. */
  lemma SessionFromReply7(g: Game)
    requires g.board == Reply7 && g.state.currentTurn == Cross
    ensures Run(g, Session[8..]) == NoEmptyCellToPick
  {
    assert Session[8..] == [Input(BoardTapped(1), 0)];
    assert !IsEmptyCell(Reply7, 1);
    assert HasBoardFull(Reply7) by {
      Move7Boards();
    }
  }

  lemma SessionFromReply6(g: Game)
    requires CircleToMoveOn(g, Reply6, Cross)
    ensures Run(g, Session[7..]) == NoEmptyCellToPick
  {
    var g' := Move7(g, Session, 7);
    SessionFromReply7(g');
  }

  lemma SessionFromReply5(g: Game)
    requires CircleToMoveOn(g, Reply5, Cross)
    ensures Run(g, Session[6..]) == NoEmptyCellToPick
  {
    var g' := Move6(g, Session, 6);
    SessionFromReply6(g');
  }

  lemma SessionFromReply4(g: Game)
    requires CircleToMoveOn(g, Reply4, Cross)
    ensures Run(g, Session[5..]) == NoEmptyCellToPick
  {
    var g' := Move5(g, Session, 5);
    SessionFromReply5(g');
  }

  lemma SessionFromRematch(g: Game)
    requires CircleToMoveOn(g, Rematch, Cross)
    ensures Run(g, Session[4..]) == NoEmptyCellToPick
  {
    var g' := Move4(g, Session, 4);
    SessionFromReply4(g');
  }

  /** CROSS has won the first game; play-again hands the start to CROSS,
      whose computer opens in the centre. */
  lemma SessionFromReply3(g: Game)
    requires g.board == Reply3 && g.state.hasWon && g.state.startingPlayer == Circle
    ensures Run(g, Session[3..]) == NoEmptyCellToPick
  {
    var g' := RematchAfterWin(g, Session, 3);
    SessionFromRematch(g');
  }

  /** Play-again after CIRCLE's game was won: CROSS starts the next game and
      has already taken the centre. */
  lemma RematchAfterWin(g: Game, inputs: seq<Input>, i: nat) returns (g': Game)
    requires g.state.hasWon && g.state.startingPlayer == Circle
    requires i < |inputs| && inputs[i] == Input(PlayAgainButtonClicked, 0)
    ensures Run(g, inputs[i..]) == Run(g', inputs[i + 1..])
    ensures CircleToMoveOn(g', Rematch, Cross)
  {
    SameBoard(Put(EmptyBoard, 5, Cross), Rematch);
    g' := GameReset(g, 0);
    RunStep(g, inputs, i, inputs[i], g');
  }

  lemma SessionFromReply2(g: Game)
    requires CircleToMoveOn(g, Reply2, Circle)
    ensures Run(g, Session[2..]) == NoEmptyCellToPick
  {
    var g' := Move3(g, Session, 2);
    SessionFromReply3(g');
  }

  lemma SessionFromReply1(g: Game)
    requires CircleToMoveOn(g, Reply1, Circle)
    ensures Run(g, Session[1..]) == NoEmptyCellToPick
  {
    var g' := Move2(g, Session, 1);
    SessionFromReply2(g');
  }

  /** The random fallback is reachable with no empty cell: from the first
      game, whatever the other defaults, the session ends in
      `NoEmptyCellToPick`. */
  lemma SessionStrandsTheComputer(defaults: GameState)
    requires defaults.currentTurn == Circle && !defaults.hasWon
    ensures Run(InitialGame(defaults), Session) == NoEmptyCellToPick
  {
    var g := InitialGame(defaults);
    var g' := Move1(g, Session, 0);
    SessionFromReply1(g');
  }
}
