/**
 The 3x3 tic-tac-toe board, the marks it holds and the eight winning lines.

 Cells are numbered 1..9 row by row, as the game's board map keys them:

     1 | 2 | 3
     4 | 5 | 6
     7 | 8 | 9

 This module holds the reference definitions the game engine is checked
 against: a line is described by grid geometry (row, column, diagonal), not
 by the literal triples the engine tests.
 */
module Board {

  /** A cell's content, or the player a mark belongs to (`NONE`, `CIRCLE`, `CROSS`). */
  datatype CellValue = Empty | Circle | Cross

  /** The other player. */
  function Opponent(p: CellValue): (q: CellValue)
    requires p != Empty
    ensures q != Empty && q != p
  {
    if p == Circle then Cross else Circle
  }

  /** Nine cells; cell n is stored at index n - 1. */
  type Board = b: seq<CellValue> | |b| == 9
    witness [Empty, Empty, Empty, Empty, Empty, Empty, Empty, Empty, Empty]

  const EmptyBoard: Board := [Empty, Empty, Empty, Empty, Empty, Empty, Empty, Empty, Empty]

  /** The cell numbers that exist on the board. */
  predicate ValidCell(n: int) {
    1 <= n <= 9
  }

  function At(b: Board, n: int): CellValue
    requires ValidCell(n)
  {
    b[n - 1]
  }

  /** The board with cell n set to v and every other cell kept. */
  function Put(b: Board, n: int, v: CellValue): (b': Board)
    requires ValidCell(n)
    ensures At(b', n) == v
    ensures forall m :: ValidCell(m) && m != n ==> At(b', m) == At(b, m)
  {
    b[n - 1 := v]
  }

  /** Number of cells holding v. */
  function Count(b: Board, v: CellValue): nat {
    multiset(b)[v]
  }

  /** Setting a cell moves one unit of count from its old value to its new one. */
  lemma CountPut(b: Board, n: int, v: CellValue, w: CellValue)
    requires ValidCell(n)
    ensures Count(Put(b, n, v), w)
            == Count(b, w) - (if At(b, n) == w then 1 else 0) + (if v == w then 1 else 0)
  {
    assert multiset(b[n - 1 := v]) == multiset(b) - multiset{b[n - 1]} + multiset{v};
  }

  /** Every cell holds one of the three values. */
  lemma {:induction false} CountsSum(s: seq<CellValue>)
    ensures multiset(s)[Empty] + multiset(s)[Circle] + multiset(s)[Cross] == |s|
  {
    if s != [] {
      CountsSum(s[1..]);
      assert s == [s[0]] + s[1..];
      assert multiset(s) == multiset{s[0]} + multiset(s[1..]);
      match s[0]
      case Empty => assert multiset{s[0]}[Circle] == 0 && multiset{s[0]}[Cross] == 0;
      case Circle => assert multiset{s[0]}[Empty] == 0 && multiset{s[0]}[Cross] == 0;
      case Cross => assert multiset{s[0]}[Empty] == 0 && multiset{s[0]}[Circle] == 0;
    }
  }

  /** Every cell that is occupied in b holds the same mark in b'. */
  ghost predicate Extends(b: Board, b': Board) {
    forall n :: ValidCell(n) && At(b, n) != Empty ==> At(b', n) == At(b, n)
  }

  /** The reference meaning of a full board: no cell is empty. */
  ghost predicate Full(b: Board) {
    forall n :: ValidCell(n) ==> At(b, n) != Empty
  }

  function Row(n: int): int
    requires ValidCell(n)
  {
    if n <= 3 then 0 else if n <= 6 then 1 else 2
  }

  function Col(n: int): int
    requires ValidCell(n)
  {
    n - 1 - 3 * Row(n)
  }

  /** Which line a win was made on; `NoVictory` when none is recorded. */
  datatype VictoryType =
    | NoVictory
    | Horizontal1 | Horizontal2 | Horizontal3
    | Vertical1 | Vertical2 | Vertical3
    | Diagonal1 | Diagonal2

  /** Cell n lies on line v: rows top to bottom, columns left to right,
      the diagonal from the top-left corner and the one from the top-right corner. */
  predicate OnLine(v: VictoryType, n: int)
    requires ValidCell(n)
  {
    match v
    case NoVictory => false
    case Horizontal1 => Row(n) == 0
    case Horizontal2 => Row(n) == 1
    case Horizontal3 => Row(n) == 2
    case Vertical1 => Col(n) == 0
    case Vertical2 => Col(n) == 1
    case Vertical3 => Col(n) == 2
    case Diagonal1 => Row(n) == Col(n)
    case Diagonal2 => Row(n) + Col(n) == 2
  }

  /** Every cell of line v holds p. */
  ghost predicate Completes(b: Board, p: CellValue, v: VictoryType) {
    && v != NoVictory
    && forall n :: ValidCell(n) && OnLine(v, n) ==> At(b, n) == p
  }

  /** The eight lines in the order a victory check tests them. */
  const Lines: seq<VictoryType> :=
    [Horizontal1, Horizontal2, Horizontal3, Vertical1, Vertical2, Vertical3, Diagonal1, Diagonal2]

  /** Player p holds some whole line. */
  ghost predicate Wins(b: Board, p: CellValue) {
    exists k :: 0 <= k < |Lines| && Completes(b, p, Lines[k])
  }

  /** v is the first line, in the order of Lines, that p completes on b. */
  ghost predicate IsFirstLine(b: Board, p: CellValue, v: VictoryType) {
    exists k :: 0 <= k < |Lines| && Lines[k] == v && Completes(b, p, v)
                && forall j :: 0 <= j < k ==> !Completes(b, p, Lines[j])
  }

  /** The first line, in the order of Lines, that p completes on b, or
      NoVictory when p completes none. */
  ghost function FirstLine(b: Board, p: CellValue): VictoryType {
    FirstLineFrom(b, p, 0)
  }

  ghost function FirstLineFrom(b: Board, p: CellValue, k: nat): VictoryType
    requires k <= |Lines|
    decreases |Lines| - k
  {
    if k == |Lines| then NoVictory
    else if Completes(b, p, Lines[k]) then Lines[k]
    else FirstLineFrom(b, p, k + 1)
  }

  /** When the scan finds nothing, no line from k on is complete. */
  lemma {:induction false} FirstLineFromFinds(b: Board, p: CellValue, k: nat)
    requires k <= |Lines|
    ensures FirstLineFrom(b, p, k) == NoVictory ==>
              forall i :: k <= i < |Lines| ==> !Completes(b, p, Lines[i])
    decreases |Lines| - k
  {
    if k < |Lines| && !Completes(b, p, Lines[k]) {
      FirstLineFromFinds(b, p, k + 1);
    }
  }

  /** The line the scan finds is complete, and no line between k and it is. */
  lemma {:induction false} FirstLineFromIsFirst(b: Board, p: CellValue, k: nat)
    requires k <= |Lines|
    ensures FirstLineFrom(b, p, k) != NoVictory ==>
              exists i :: k <= i < |Lines| && Lines[i] == FirstLineFrom(b, p, k)
                          && Completes(b, p, Lines[i])
                          && forall j :: k <= j < i ==> !Completes(b, p, Lines[j])
    decreases |Lines| - k
  {
    if k == |Lines| {
    } else if Completes(b, p, Lines[k]) {
      assert FirstLineFrom(b, p, k) == Lines[k];
    } else {
      FirstLineFromIsFirst(b, p, k + 1);
      if FirstLineFrom(b, p, k + 1) != NoVictory {
        var i :| k + 1 <= i < |Lines| && Lines[i] == FirstLineFrom(b, p, k + 1)
                 && Completes(b, p, Lines[i])
                 && forall j :: k + 1 <= j < i ==> !Completes(b, p, Lines[j]);
        assert forall j :: k <= j < i ==> !Completes(b, p, Lines[j]);
      }
    }
  }

  /** FirstLine is nonempty exactly when p wins, and then it is a line p
      completes with no earlier line of the order complete. */
  lemma FirstLineIsFirst(b: Board, p: CellValue)
    ensures FirstLine(b, p) != NoVictory <==> Wins(b, p)
    ensures Wins(b, p) ==> IsFirstLine(b, p, FirstLine(b, p))
  {
    FirstLineFromFinds(b, p, 0);
    FirstLineFromIsFirst(b, p, 0);
  }

  /** Cells x, y and z all hold p. */
  predicate Triple(b: Board, p: CellValue, x: int, y: int, z: int)
    requires ValidCell(x) && ValidCell(y) && ValidCell(z)
  {
    At(b, x) == p && At(b, y) == p && At(b, z) == p
  }

  /** The geometric lines are exactly the eight triples of cell numbers. */
  lemma LinesAsTriples(b: Board, p: CellValue)
    ensures Completes(b, p, Horizontal1) <==> Triple(b, p, 1, 2, 3)
    ensures Completes(b, p, Horizontal2) <==> Triple(b, p, 4, 5, 6)
    ensures Completes(b, p, Horizontal3) <==> Triple(b, p, 7, 8, 9)
    ensures Completes(b, p, Vertical1) <==> Triple(b, p, 1, 4, 7)
    ensures Completes(b, p, Vertical2) <==> Triple(b, p, 2, 5, 8)
    ensures Completes(b, p, Vertical3) <==> Triple(b, p, 3, 6, 9)
    ensures Completes(b, p, Diagonal1) <==> Triple(b, p, 1, 5, 9)
    ensures Completes(b, p, Diagonal2) <==> Triple(b, p, 3, 5, 7)
  {
    RowsAsTriples(b, p);
    ColumnsAsTriples(b, p);
    DiagonalsAsTriples(b, p);
  }

  /** The three rows as triples. */
  lemma RowsAsTriples(b: Board, p: CellValue)
    ensures Completes(b, p, Horizontal1) <==> Triple(b, p, 1, 2, 3)
    ensures Completes(b, p, Horizontal2) <==> Triple(b, p, 4, 5, 6)
    ensures Completes(b, p, Horizontal3) <==> Triple(b, p, 7, 8, 9)
  {
    LineIsTriple(b, p, Horizontal1, 1, 2, 3);
    LineIsTriple(b, p, Horizontal2, 4, 5, 6);
    LineIsTriple(b, p, Horizontal3, 7, 8, 9);
  }

  /** The three columns as triples. */
  lemma ColumnsAsTriples(b: Board, p: CellValue)
    ensures Completes(b, p, Vertical1) <==> Triple(b, p, 1, 4, 7)
    ensures Completes(b, p, Vertical2) <==> Triple(b, p, 2, 5, 8)
    ensures Completes(b, p, Vertical3) <==> Triple(b, p, 3, 6, 9)
  {
    LineIsTriple(b, p, Vertical1, 1, 4, 7);
    LineIsTriple(b, p, Vertical2, 2, 5, 8);
    LineIsTriple(b, p, Vertical3, 3, 6, 9);
  }

  /** The two diagonals as triples. */
  lemma DiagonalsAsTriples(b: Board, p: CellValue)
    ensures Completes(b, p, Diagonal1) <==> Triple(b, p, 1, 5, 9)
    ensures Completes(b, p, Diagonal2) <==> Triple(b, p, 3, 5, 7)
  {
    LineIsTriple(b, p, Diagonal1, 1, 5, 9);
    LineIsTriple(b, p, Diagonal2, 3, 5, 7);
  }

  lemma LineIsTriple(b: Board, p: CellValue, v: VictoryType, x: int, y: int, z: int)
    requires v != NoVictory && ValidCell(x) && ValidCell(y) && ValidCell(z)
    requires forall n :: ValidCell(n) ==> (OnLine(v, n) <==> n == x || n == y || n == z)
    ensures Completes(b, p, v) <==> At(b, x) == p && At(b, y) == p && At(b, z) == p
  {
  }

  /** Some one of the eight triples of cell numbers is all p. */
  predicate AnyTriple(b: Board, p: CellValue) {
    || Triple(b, p, 1, 2, 3) || Triple(b, p, 4, 5, 6) || Triple(b, p, 7, 8, 9)
    || Triple(b, p, 1, 4, 7) || Triple(b, p, 2, 5, 8) || Triple(b, p, 3, 6, 9)
    || Triple(b, p, 1, 5, 9) || Triple(b, p, 3, 5, 7)
  }

  /** The first line of the order that p completes, read off the eight
      triples tested one after another. */
  lemma FirstLineAsTriples(b: Board, p: CellValue)
    ensures FirstLine(b, p) ==
      if Triple(b, p, 1, 2, 3) then Horizontal1
      else if Triple(b, p, 4, 5, 6) then Horizontal2
      else if Triple(b, p, 7, 8, 9) then Horizontal3
      else if Triple(b, p, 1, 4, 7) then Vertical1
      else if Triple(b, p, 2, 5, 8) then Vertical2
      else if Triple(b, p, 3, 6, 9) then Vertical3
      else if Triple(b, p, 1, 5, 9) then Diagonal1
      else if Triple(b, p, 3, 5, 7) then Diagonal2
      else NoVictory
  {
    LinesAsTriples(b, p);
    FirstLineStep(b, p, 7, 3, 5, 7);
    FirstLineStep(b, p, 6, 1, 5, 9);
    FirstLineStep(b, p, 5, 3, 6, 9);
    FirstLineStep(b, p, 4, 2, 5, 8);
    FirstLineStep(b, p, 3, 1, 4, 7);
    FirstLineStep(b, p, 2, 7, 8, 9);
    FirstLineStep(b, p, 1, 4, 5, 6);
    FirstLineStep(b, p, 0, 1, 2, 3);
  }

  /** One step of the scan, with line k read as the triple x, y, z. */
  lemma FirstLineStep(b: Board, p: CellValue, k: nat, x: int, y: int, z: int)
    requires k < |Lines| && ValidCell(x) && ValidCell(y) && ValidCell(z)
    requires Completes(b, p, Lines[k]) <==> Triple(b, p, x, y, z)
    ensures FirstLineFrom(b, p, k) == if Triple(b, p, x, y, z) then Lines[k] else FirstLineFrom(b, p, k + 1)
  {
  }

  /** A player wins exactly when one of the eight triples is all theirs. */
  lemma WinsAsTriples(b: Board, p: CellValue)
    ensures Wins(b, p) <==> AnyTriple(b, p)
  {
    FirstLineIsFirst(b, p);
    FirstLineAsTriples(b, p);
  }

  /** Every line has three cells, so one mark on an empty board completes none. */
  lemma SingleMarkWinsNothing(n: int, v: CellValue, p: CellValue)
    requires ValidCell(n) && p != Empty
    ensures !Wins(Put(EmptyBoard, n, v), p)
  {
    WinsAsTriples(Put(EmptyBoard, n, v), p);
  }

  /** On an empty board no cell wins at once. */
  lemma EmptyBoardHasNoWinningCell(p: CellValue)
    requires p != Empty
    ensures forall n :: !IsWinningCell(EmptyBoard, p, n)
  {
    forall n | ValidCell(n)
      ensures !IsWinningCell(EmptyBoard, p, n)
    {
      SingleMarkWinsNothing(n, p, p);
    }
  }

  /** A line is completed only by the marks on it, so a mark of another
      value placed on an empty cell cannot give p a line. */
  lemma PutOtherKeepsWins(b: Board, n: int, v: CellValue, p: CellValue)
    requires ValidCell(n) && At(b, n) == Empty && v != p
    ensures Wins(Put(b, n, v), p) ==> Wins(b, p)
  {
    var b' := Put(b, n, v);
    if Wins(b', p) {
      var k :| 0 <= k < |Lines| && Completes(b', p, Lines[k]);
      forall m | ValidCell(m) && OnLine(Lines[k], m)
        ensures At(b, m) == p
      {
        assert At(b', m) == p;
      }
      assert Completes(b, p, Lines[k]);
    }
  }

  /** n is an empty cell where a mark of p would complete a line for p. */
  ghost predicate IsWinningCell(b: Board, p: CellValue, n: int) {
    ValidCell(n) && At(b, n) == Empty && Wins(Put(b, n, p), p)
  }

  /** n is the lowest-numbered winning cell for p. */
  ghost predicate IsFirstWinningCell(b: Board, p: CellValue, n: int) {
    IsWinningCell(b, p, n) && forall m :: 1 <= m < n ==> !IsWinningCell(b, p, m)
  }

  /** The empty cells of b, in increasing order. */
  function EmptyCells(b: Board): (cs: seq<int>)
    ensures forall k :: 0 <= k < |cs| ==> ValidCell(cs[k]) && At(b, cs[k]) == Empty
    ensures forall n :: ValidCell(n) && At(b, n) == Empty ==> n in cs
    ensures forall k, l :: 0 <= k < l < |cs| ==> cs[k] < cs[l]
  {
    EmptyCellsFrom(b, 1)
  }

  function EmptyCellsFrom(b: Board, i: int): (cs: seq<int>)
    requires 1 <= i <= 10
    ensures forall k :: 0 <= k < |cs| ==> i <= cs[k] <= 9 && At(b, cs[k]) == Empty
    ensures forall n :: i <= n <= 9 && At(b, n) == Empty ==> n in cs
    ensures forall k, l :: 0 <= k < l < |cs| ==> cs[k] < cs[l]
    decreases 10 - i
  {
    if i == 10 then []
    else if At(b, i) == Empty then [i] + EmptyCellsFrom(b, i + 1)
    else EmptyCellsFrom(b, i + 1)
  }
}
