/**
 * What the two animal-chess clients share about playing on the 9x7 board:
 * squares, which side owns a piece (upper case moves when the side to move is
 * 'w', lower case when it is 'b'), the move itself, and the "play" command
 * that tells the engine about a square.
 */
module Play {
  import opened Text
  import opened Grids
  import opened RunLength

  /** A board square, row 0 at the top. */
  datatype Square = Square(row: nat, col: nat)

  predicate OnBoard(s: Square) { s.row < Rows && s.col < Cols }

  /** The piece `c` belongs to the side to move `player`. */
  predicate Owned(player: char, c: char) {
    (player == 'w' && IsUpper(c)) || (player == 'b' && IsLower(c))
  }

  /** The toggle `'b' if p == 'w' else 'w'`. */
  function Other(p: char): (q: char)
    ensures q == 'w' || q == 'b'
    ensures (p == 'w' || p == 'b') ==> q != p
  {
    if p == 'w' then 'b' else 'w'
  }

  /** The engine colours are the reverse of the board's: side 'w' plays as B. */
  function GtpColor(p: char): (color: char) { if p == 'w' then 'B' else 'W' }

  /** The square as the clients name it to the engine: column letter from A, then 9 - row. */
  function SquareName(s: Square): (name: string)
    requires OnBoard(s)
    ensures 2 <= |name| <= 2 && IsUpper(name[0]) && IsDigit(name[1])
  {
    [('A' as int + s.col) as char] + NatStr(Rows - s.row)
  }

  function PlayCommand(player: char, s: Square): (cmd: string)
    requires OnBoard(s)
  {
    "play " + [GtpColor(player)] + " " + SquareName(s)
  }

  /** The grid after the piece on `from` moves to `to`: `to` takes it and `from` is emptied. */
  function MoveCells(g: seq<seq<char>>, from: Square, to: Square): (h: seq<seq<char>>)
    requires Shaped(g, Rows, Cols) && OnBoard(from) && OnBoard(to)
    ensures Shaped(h, Rows, Cols)
    ensures from != to ==> h[to.row][to.col] == g[from.row][from.col]
    ensures h[from.row][from.col] == Empty
    ensures forall r, c :: 0 <= r < Rows && 0 <= c < Cols && Square(r, c) != from && Square(r, c) != to
              ==> h[r][c] == g[r][c]
    ensures WellFormed(g) ==> WellFormed(h)
  {
    Write(Write(g, to.row, to.col, g[from.row][from.col]), from.row, from.col, Empty)
  }


  /** A play command is a single line. */
  lemma PlayCommandOneLine(player: char, s: Square)
    requires OnBoard(s)
    ensures '\n' !in PlayCommand(player, s)
  {
    var cmd := PlayCommand(player, s);
    var name := SquareName(s);
    assert cmd == "play " + [GtpColor(player)] + " " + name;
    forall i | 0 <= i < |cmd| ensures cmd[i] != '\n' {
      if i >= 7 {
        assert cmd[i] == name[i - 7];
      }
    }
  }

  /** Row `r` of the starting position (`initial_board`), top row first. */
  function OpeningRow(r: int): (row: string)
    ensures |row| == Cols && forall c :: 0 <= c < Cols ==> IsCell(row[c])
  {
    if r == 0 then "l     t"
    else if r == 1 then " d   c "
    else if r == 2 then "r j w e"
    else if r == 6 then "E W J R"
    else if r == 7 then " C   D "
    else if r == 8 then "T     L"
    else "       "
  }

  /** The starting position of every animal-chess client. */
  const InitialRows: seq<seq<char>> := seq(Rows, OpeningRow)

  lemma InitialWellFormed()
    ensures WellFormed(InitialRows)
  {
    forall r, c | 0 <= r < Rows && 0 <= c < Cols ensures IsCell(InitialRows[r][c]) {
      assert InitialRows[r] == OpeningRow(r);
    }
  }
}
