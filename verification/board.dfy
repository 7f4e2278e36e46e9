/**
 * The 3x3 board and the rules the bot applies to it: the scan for a winning
 * line (`check_winner`, written identically in both bot modules) and the list
 * of free cells (`get_empty_cells`).
 */
module Board {
  import opened Wrappers

  /** The two marks a player can hold: '❌' and '⭕'. */
  datatype Mark = Cross | Nought

  /**
   * One cell of the board: the blank ' ', a player's mark, or Python's `None`,
   * which a move writes when the mover has not been given a mark yet.
   */
  datatype Cell = Blank | Marked(mark: Mark) | Unset

  /** A board always holds nine cells. */
  const Size: nat := 9

  /** The cell a player holding `symbol` writes. */
  function CellOf(symbol: Option<Mark>): (c: Cell)
    ensures c != Blank
  {
    match symbol
    case Some(m) => Marked(m)
    case None => Unset
  }

  /** The mark the opponent receives when the chooser picks `m`: the two marks
      differ, so between them they are '❌' and '⭕'. */
  function Other(m: Mark): (r: Mark)
    ensures r != m
  {
    if m == Cross then Nought else Cross
  }

  /** Three cell indices. */
  datatype Line = Line(a: nat, b: nat, c: nat)

  /** The eight winning lines, in the order the bot scans them: rows, columns, diagonals. */
  const Lines: seq<Line> := [
    Line(0, 1, 2), Line(3, 4, 5), Line(6, 7, 8),
    Line(0, 3, 6), Line(1, 4, 7), Line(2, 5, 8),
    Line(0, 4, 8), Line(2, 4, 6)
  ]

  /** Line `l` holds three equal non-blank cells: the chained test
      `board[a] == board[b] == board[c] != ' '`. */
  predicate Complete(board: seq<Cell>, l: Line) {
    && l.a < |board| && l.b < |board| && l.c < |board|
    && board[l.a] == board[l.b]
    && board[l.b] == board[l.c]
    && board[l.c] != Blank
  }

  /** The scan loop from position `k` on: the index of the first complete line, if any. */
  function WinningLineFrom(board: seq<Cell>, k: nat): (r: Option<nat>)
    requires |board| == Size && k <= |Lines|
    ensures r.Some? ==> k <= r.value < |Lines| && Complete(board, Lines[r.value])
    ensures r.Some? ==> forall j :: k <= j < r.value ==> !Complete(board, Lines[j])
    ensures r.None? <==> forall j :: k <= j < |Lines| ==> !Complete(board, Lines[j])
    decreases |Lines| - k
  {
    if k == |Lines| then None
    else if Complete(board, Lines[k]) then Some(k)
    else WinningLineFrom(board, k + 1)
  }

  /**
   * `check_winner`: the cell shared by the first complete line in scan order, or
   * `None` when no line is complete. The cell may be `Unset` (three `None`s in a
   * row), which the bot then treats as no winner, since `None` is falsy.
   */
  function CheckWinner(board: seq<Cell>): (r: Option<Cell>)
    requires |board| == Size
    ensures r.None? <==> forall k :: 0 <= k < |Lines| ==> !Complete(board, Lines[k])
    ensures r.Some? ==> r.value != Blank
    ensures r.Some? ==>
      exists k :: 0 <= k < |Lines| && Complete(board, Lines[k]) && r.value == board[Lines[k].a]
        && forall j :: 0 <= j < k ==> !Complete(board, Lines[j])
  {
    match WinningLineFrom(board, 0)
    case None => None
    case Some(k) => Some(board[Lines[k].a])
  }

  /** The truth value of `if winner:` in the bot: only a real mark counts. */
  predicate IsWin(w: Option<Cell>) {
    w.Some? && w.value.Marked?
  }

  /**
   * On a board with no complete line, writing one non-blank cell `c` into a blank
   * cell can only complete lines through that cell, so the winner found afterwards
   * is `c` or nobody: the mover is the only player who can have just won.
   */
  lemma OnlyMoverCanWin(board: seq<Cell>, i: nat, c: Cell)
    requires |board| == Size && i < Size && board[i] == Blank && c != Blank
    requires CheckWinner(board).None?
    ensures CheckWinner(board[i := c]) == None || CheckWinner(board[i := c]) == Some(c)
  {
    var after := board[i := c];
    var w := CheckWinner(after);
    if w.Some? {
      var k :| 0 <= k < |Lines| && Complete(after, Lines[k]) && w.value == after[Lines[k].a];
      var l := Lines[k];
      assert !Complete(board, l);
      assert l.a == i || l.b == i || l.c == i;
    }
  }

  /**
   * `get_empty_cells`: the indices of the blank cells, in ascending order (so
   * without repeats); empty exactly when the board is full.
   */
  method GetEmptyCells(board: seq<Cell>) returns (cells: seq<nat>)
    requires |board| == Size
    ensures forall j :: 0 <= j < |cells| ==> cells[j] < Size && board[cells[j]] == Blank
    ensures forall i :: 0 <= i < Size && board[i] == Blank ==> i in cells
    ensures forall j, k :: 0 <= j < k < |cells| ==> cells[j] < cells[k]
    ensures |cells| == 0 <==> Blank !in board
  {
    cells := [];
    for i := 0 to Size
      invariant forall j :: 0 <= j < |cells| ==> cells[j] < i && board[cells[j]] == Blank
      invariant forall x :: 0 <= x < i && board[x] == Blank ==> x in cells
      invariant forall j, k :: 0 <= j < k < |cells| ==> cells[j] < cells[k]
    {
      if board[i] == Blank {
        cells := cells + [i];
      }
    }
    if Blank in board {
      var i :| 0 <= i < |board| && board[i] == Blank;
      assert i in cells;
    }
    if |cells| > 0 {
      assert board[cells[0]] == Blank;
    }
  }

  /** `[' ' for _ in range(9)]`: the board a new game starts with. */
  function EmptyBoard(): (b: seq<Cell>)
    ensures |b| == Size && forall j :: 0 <= j < Size ==> b[j] == Blank
  {
    seq(Size, _ => Blank)
  }

  /** The first mark on an empty board never wins: every line has two other cells, still blank. */
  lemma FirstMarkNeverWins(i: nat, c: Cell)
    requires i < Size
    ensures CheckWinner(EmptyBoard()[i := c]).None?
  {
    var board := EmptyBoard()[i := c];
    forall k | 0 <= k < |Lines|
      ensures !Complete(board, Lines[k])
    {
      var l := Lines[k];
      assert l.a != l.b && l.b != l.c;
      assert board[l.a] == Blank || board[l.b] == Blank;
      assert board[l.b] == Blank || board[l.c] == Blank;
    }
  }

  /**
   * A move: `board[i] = symbol` on the shared board, then `check_winner` on the
   * result. On a board nobody had won yet, the only possible winner is the mark
   * just written.
   */
  method Place(board: array<Cell>, i: nat, c: Cell) returns (winner: Option<Cell>)
    requires board.Length == Size && i < Size && board[i] == Blank && c != Blank
    modifies board
    ensures board[..] == old(board[..])[i := c]
    ensures winner == CheckWinner(board[..])
    ensures CheckWinner(old(board[..])).None? ==> winner.None? || winner == Some(c)
  {
    ghost var before := board[..];
    board[i] := c;
    assert board[..] == before[i := c];
    if CheckWinner(before).None? {
      OnlyMoverCanWin(before, i, c);
    }
    winner := CheckWinner(board[..]);
  }
}
