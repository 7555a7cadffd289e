/**
 * The xiangqi board of xiangqi.py (`ChessBoard`): a 9x10 grid stored column
 * by column (`board[x][y]`, file x from the left, rank y from the top), the
 * side to move, the halfmove clock and the fullmove number, with the FEN
 * reader `parse_fen`, the writer `get_fen` and `move_piece`; and the
 * conversion of the engine's best move into the two squares of the arrow.
 *
 * The reader is lenient in the way the code is: every digit advances the
 * file by its own value (so "12" skips three files), any other character is
 * a piece, missing rows and files stay empty, and only a piece that lands off
 * the board raises, leaving the pieces placed so far on the board.
 */
module XiangqiBoard {
  import opened Text
  import opened Grids
  import opened Maybe
  import RunLength

  const Files: nat := 9
  const Ranks: nat := 10

  /** A piece: its colour ('r' or 'b') and its letter in upper case. */
  datatype Piece = Piece(color: char, kind: char)

  /** The starting position. */
  const FenInitial: string := "rnbakabnr/9/1c5c1/p1p1p1p1p/9/9/P1P1P1P1P/1C5C1/9/RNBAKABNR w - - 0 1"

  /** The piece a FEN character stands for: lower case is black, anything else red. */
  function PieceOf(c: char): (p: Piece)
    ensures p.color == (if IsLower(c) then 'b' else 'r')
    ensures p.kind == Upper(c)
  {
    Piece(if IsLower(c) then 'b' else 'r', Upper(c))
  }

  /** The FEN character of a piece: black pieces in lower case. */
  function FenChar(p: Piece): (c: char) {
    if p.color == 'b' then Lower(p.kind) else p.kind
  }

  /**
   * The pieces the reader can produce and the writer reproduces: the letter
   * is not a digit, '/', whitespace or lower case, and black pieces are letters.
   */
  predicate PieceOk(p: Piece) {
    !IsDigit(p.kind) && p.kind != '/' && !IsSpace(p.kind) && !IsLower(p.kind)
    && (p.color == 'r' || (p.color == 'b' && IsUpper(p.kind)))
  }

  /** Writing a piece and reading it back gives the same piece. */
  lemma PieceRoundTrip(p: Piece)
    requires PieceOk(p)
    ensures PieceOf(FenChar(p)) == p
    ensures !IsDigit(FenChar(p)) && FenChar(p) != '/' && !IsSpace(FenChar(p))
  {
  }

  /** Every character the reader turns into a piece gives a piece the writer reproduces. */
  lemma PieceOfOk(c: char)
    requires !IsDigit(c) && c != '/' && !IsSpace(c)
    ensures PieceOk(PieceOf(c))
  {
  }

  /** A 9x10 board, file-major, whose pieces are all ones the writer reproduces. */
  predicate BoardOk(g: seq<seq<Option<Piece>>>) {
    Shaped(g, Files, Ranks)
    && forall x, y :: 0 <= x < Files && 0 <= y < Ranks && g[x][y].Some? ==> PieceOk(g[x][y].value)
  }

  /** The whole state of a `ChessBoard`. */
  datatype Xq = Xq(board: seq<seq<Option<Piece>>>, turn: string, halfmove: nat, fullmove: nat)

  /** The state invariant: a good board and a side token the writer can emit as one field. */
  predicate XqOk(s: Xq) {
    BoardOk(s.board) && s.turn != [] && NoSpace(s.turn)
  }

  // ---------------------------------------------------------------------
  // Writing

  /** The cells of rank `y`, file 0 first. */
  function RankCells(g: seq<seq<Option<Piece>>>, y: nat): (cells: seq<Option<Piece>>)
    requires Shaped(g, Files, Ranks) && y < Ranks
    ensures |cells| == Files && forall x :: 0 <= x < Files ==> cells[x] == g[x][y]
  {
    seq(Files, x requires 0 <= x < Files => g[x][y])
  }

  /** The text of `cells` when `e` empty cells precede them. */
  function EncodeFrom(cells: seq<Option<Piece>>, e: nat): (text: string)
    decreases |cells|
  {
    if cells == [] then RunLength.Flush(e)
    else if cells[0].None? then EncodeFrom(cells[1..], e + 1)
    else RunLength.Flush(e) + [FenChar(cells[0].value)] + EncodeFrom(cells[1..], 0)
  }

  function RankTexts(g: seq<seq<Option<Piece>>>): (ts: seq<string>)
    requires Shaped(g, Files, Ranks)
    ensures |ts| == Ranks && forall y :: 0 <= y < Ranks ==> ts[y] == EncodeFrom(RankCells(g, y), 0)
  {
    seq(Ranks, y requires 0 <= y < Ranks => EncodeFrom(RankCells(g, y), 0))
  }

  /** The FEN of a state: ranks top first, the side, two placeholders and the two counters. */
  function FenText(s: Xq): (fen: string)
    requires Shaped(s.board, Files, Ranks)
  {
    Join([Join(RankTexts(s.board), '/'), s.turn, "-", "-", NatStr(s.halfmove), NatStr(s.fullmove)], ' ')
  }

  // ---------------------------------------------------------------------
  // Reading

  /** What stops the reader: a blank text, or a piece placed off the board. */
  datatype Fault = NoFields | OffBoard(x: nat, y: nat)

  /** The board as the reader leaves it, and the fault that stopped it, if any. */
  datatype Placing = Placing(board: seq<seq<Option<Piece>>>, fault: Option<Fault>)

  /** Rank text `row` placed on rank `y` from file `x` on. */
  function PlaceRow(g: seq<seq<Option<Piece>>>, y: nat, row: string, x: nat): (p: Placing)
    requires Shaped(g, Files, Ranks)
    ensures Shaped(p.board, Files, Ranks)
    decreases |row|
  {
    if row == [] then Placing(g, None)
    else if IsDigit(row[0]) then PlaceRow(g, y, row[1..], x + DigitVal(row[0]))
    else if x >= Files || y >= Ranks then Placing(g, Some(OffBoard(x, y)))
    else PlaceRow(Write(g, x, y, Some(PieceOf(row[0]))), y, row[1..], x + 1)
  }

  /** `p`, or when it did not fault, the ranks `rows` placed after it from rank `y` on. */
  function Then(p: Placing, rows: seq<string>, y: nat): (q: Placing)
    requires Shaped(p.board, Files, Ranks)
    ensures Shaped(q.board, Files, Ranks)
    decreases |rows|, 1
  {
    if p.fault.Some? then p else PlaceRows(p.board, rows, y)
  }

  /** The rank texts `rows` placed from rank `y` on. */
  function PlaceRows(g: seq<seq<Option<Piece>>>, rows: seq<string>, y: nat): (p: Placing)
    requires Shaped(g, Files, Ranks)
    ensures Shaped(p.board, Files, Ranks)
    decreases |rows|, 0
  {
    if rows == [] then Placing(g, None)
    else Then(PlaceRow(g, y, rows[0], 0), rows[1..], y + 1)
  }

  /** A counter field: its value when present and all digits, otherwise `prev`. */
  function Counter(parts: seq<string>, i: nat, prev: nat): (n: nat) {
    if i < |parts| && parts[i] != [] && AllDigits(parts[i]) then ParseDigits(parts[i]) else prev
  }

  /** The state after reading `fen` into state `s`, and the fault that was raised, if any. */
  datatype Parsed = Parsed(state: Xq, fault: Option<Fault>)

  /**
   * `parse_fen`: a blank text raises before anything changes; otherwise the
   * board is cleared and the ranks placed, and a fault leaves the pieces placed
   * so far; otherwise the side comes from the second field and each counter
   * from its field when that is all digits.
   */
  function ParseFen(s: Xq, fen: string): (r: Parsed)
    requires Shaped(s.board, Files, Ranks)
    ensures Shaped(r.state.board, Files, Ranks)
  {
    var parts := Words(fen);
    if parts == [] then Parsed(s, Some(NoFields))
    else
      var p := PlaceRows(Filled(Files, Ranks, None), Split(parts[0], '/'), 0);
      if p.fault.Some? then Parsed(s.(board := p.board), p.fault)
      else
        Parsed(Xq(p.board, if |parts| > 1 then parts[1] else s.turn,
                  Counter(parts, 4, s.halfmove), Counter(parts, 5, s.fullmove)), None)
  }

  // ---------------------------------------------------------------------
  // Properties of the reader and the writer

  /** Every piece the reader places is one the writer reproduces. */
  lemma {:induction false} PlaceRowOk(g: seq<seq<Option<Piece>>>, y: nat, row: string, x: nat)
    requires BoardOk(g) && '/' !in row && NoSpace(row)
    ensures BoardOk(PlaceRow(g, y, row, x).board)
    decreases |row|
  {
    if row != [] && !IsDigit(row[0]) && x < Files && y < Ranks {
      PieceOfOk(row[0]);
      PlaceRowOk(Write(g, x, y, Some(PieceOf(row[0]))), y, row[1..], x + 1);
    } else if row != [] && IsDigit(row[0]) {
      PlaceRowOk(g, y, row[1..], x + DigitVal(row[0]));
    }
  }

  lemma {:induction false} PlaceRowsOk(g: seq<seq<Option<Piece>>>, rows: seq<string>, y: nat)
    requires BoardOk(g)
    requires forall i :: 0 <= i < |rows| ==> '/' !in rows[i] && NoSpace(rows[i])
    ensures BoardOk(PlaceRows(g, rows, y).board)
    decreases |rows|
  {
    if rows != [] {
      PlaceRowOk(g, y, rows[0], 0);
      var p := PlaceRow(g, y, rows[0], 0);
      if p.fault.None? {
        PlaceRowsOk(p.board, rows[1..], y + 1);
      }
    }
  }

  /** The pieces of a word split on '/' hold neither '/' nor whitespace. */
  lemma {:induction false} SplitFromClean(s: string, cur: string)
    requires NoSpace(s) && NoSpace(cur) && '/' !in cur
    ensures forall i :: 0 <= i < |SplitFrom(s, '/', cur)| ==>
      '/' !in SplitFrom(s, '/', cur)[i] && NoSpace(SplitFrom(s, '/', cur)[i])
    decreases |s|
  {
    if s != [] {
      if s[0] == '/' {
        SplitFromClean(s[1..], []);
      } else {
        SplitFromClean(s[1..], cur + [s[0]]);
      }
    }
  }

  /** Reading keeps the state invariant, whether or not it faults. */
  lemma ParseFenOk(s: Xq, fen: string)
    requires XqOk(s)
    ensures XqOk(ParseFen(s, fen).state)
  {
    var parts := Words(fen);
    if parts != [] {
      SplitFromClean(parts[0], []);
      PlaceRowsOk(Filled(Files, Ranks, None), Split(parts[0], '/'), 0);
    }
  }

  /** A written run count is read back as that many skipped files. */
  lemma PlaceFlush(g: seq<seq<Option<Piece>>>, y: nat, e: nat, rest: string, x: nat)
    requires Shaped(g, Files, Ranks) && e < 10
    ensures PlaceRow(g, y, RunLength.Flush(e) + rest, x) == PlaceRow(g, y, rest, x + e)
  {
    if e > 0 {
      assert RunLength.Flush(e) == [DigitChar(e)];
      assert (RunLength.Flush(e) + rest)[1..] == rest;
    } else {
      assert RunLength.Flush(e) + rest == rest;
    }
  }

  /** Reading the text of a piece after `e` pending empty files places the piece on file `k`. */
  lemma PlacePiece(g: seq<seq<Option<Piece>>>, y: nat, p: Piece, tail: string, k: nat, e: nat)
    requires Shaped(g, Files, Ranks) && y < Ranks && e <= k < Files && PieceOk(p)
    ensures PlaceRow(g, y, RunLength.Flush(e) + ([FenChar(p)] + tail), k - e) == PlaceRow(Write(g, k, y, Some(p)), y, tail, k + 1)
  {
    PlaceFlush(g, y, e, [FenChar(p)] + tail, k - e);
    PieceRoundTrip(p);
    assert ([FenChar(p)] + tail)[1..] == tail;
  }

  /** The cells of `g` with the pieces of `cells` from file `k` on written onto rank `y`. */
  predicate Stamped(h: seq<seq<Option<Piece>>>, g: seq<seq<Option<Piece>>>, y: nat, cells: seq<Option<Piece>>, k: nat)
    requires Shaped(h, Files, Ranks) && Shaped(g, Files, Ranks) && |cells| == Files
  {
    forall x, z :: 0 <= x < Files && 0 <= z < Ranks ==>
      h[x][z] == if z == y && k <= x && cells[x].Some? then cells[x] else g[x][z]
  }

  lemma StampedSkip(h: seq<seq<Option<Piece>>>, g: seq<seq<Option<Piece>>>, y: nat, cells: seq<Option<Piece>>, k: nat)
    requires Shaped(h, Files, Ranks) && Shaped(g, Files, Ranks) && |cells| == Files
    requires k < Files && cells[k].None? && Stamped(h, g, y, cells, k + 1)
    ensures Stamped(h, g, y, cells, k)
  {
  }

  lemma StampedPut(h: seq<seq<Option<Piece>>>, g: seq<seq<Option<Piece>>>, y: nat, cells: seq<Option<Piece>>, k: nat)
    requires Shaped(h, Files, Ranks) && Shaped(g, Files, Ranks) && |cells| == Files
    requires k < Files && y < Ranks && cells[k].Some? && Stamped(h, Write(g, k, y, cells[k]), y, cells, k + 1)
    ensures Stamped(h, g, y, cells, k)
  {
  }

  /** One empty cell more before the rest of the rank: the same placement as with one pending empty file more. */
  lemma EncodedSkip(g: seq<seq<Option<Piece>>>, y: nat, cells: seq<Option<Piece>>, k: nat, e: nat)
    requires Shaped(g, Files, Ranks) && y < Ranks
    requires |cells| == Files && e <= k < Files && cells[k].None?
    requires PlaceRow(g, y, EncodeFrom(cells[k + 1..], e + 1), (k + 1) - (e + 1)).fault.None?
    requires Stamped(PlaceRow(g, y, EncodeFrom(cells[k + 1..], e + 1), (k + 1) - (e + 1)).board, g, y, cells, k + 1)
    ensures PlaceRow(g, y, EncodeFrom(cells[k..], e), k - e).fault.None?
    ensures Stamped(PlaceRow(g, y, EncodeFrom(cells[k..], e), k - e).board, g, y, cells, k)
  {
    var rest := cells[k..];
    assert rest[0] == cells[k] && rest[1..] == cells[k + 1..];
    assert EncodeFrom(rest, e) == EncodeFrom(cells[k + 1..], e + 1);
    StampedSkip(PlaceRow(g, y, EncodeFrom(rest, e), k - e).board, g, y, cells, k);
  }

  /** A piece before the rest of the rank: it is written on file `k`, then the rest is placed. */
  lemma EncodedPut(g: seq<seq<Option<Piece>>>, y: nat, cells: seq<Option<Piece>>, k: nat, e: nat)
    requires Shaped(g, Files, Ranks) && y < Ranks
    requires |cells| == Files && e <= k < Files && cells[k].Some? && PieceOk(cells[k].value)
    requires PlaceRow(Write(g, k, y, cells[k]), y, EncodeFrom(cells[k + 1..], 0), (k + 1) - 0).fault.None?
    requires Stamped(PlaceRow(Write(g, k, y, cells[k]), y, EncodeFrom(cells[k + 1..], 0), (k + 1) - 0).board,
                     Write(g, k, y, cells[k]), y, cells, k + 1)
    ensures PlaceRow(g, y, EncodeFrom(cells[k..], e), k - e).fault.None?
    ensures Stamped(PlaceRow(g, y, EncodeFrom(cells[k..], e), k - e).board, g, y, cells, k)
  {
    var rest := cells[k..];
    assert rest[0] == cells[k] && rest[1..] == cells[k + 1..];
    var tail := EncodeFrom(cells[k + 1..], 0);
    assert EncodeFrom(rest, e) == RunLength.Flush(e) + ([FenChar(cells[k].value)] + tail);
    PlacePiece(g, y, cells[k].value, tail, k, e);
    StampedPut(PlaceRow(g, y, EncodeFrom(rest, e), k - e).board, g, y, cells, k);
  }

  /**
   * Placing the text of the cells from file `k` on (after `e` pending empty
   * files) writes exactly their pieces onto rank `y` and nothing else.
   */
  lemma {:induction false} PlaceEncoded(g: seq<seq<Option<Piece>>>, y: nat, cells: seq<Option<Piece>>, k: nat, e: nat)
    requires Shaped(g, Files, Ranks) && y < Ranks
    requires |cells| == Files && e <= k <= Files
    requires forall x :: 0 <= x < Files && cells[x].Some? ==> PieceOk(cells[x].value)
    ensures PlaceRow(g, y, EncodeFrom(cells[k..], e), k - e).fault.None?
    ensures Stamped(PlaceRow(g, y, EncodeFrom(cells[k..], e), k - e).board, g, y, cells, k)
    decreases Files - k
  {
    if k == Files {
      assert cells[k..] == [];
      PlaceFlush(g, y, e, [], k - e);
      assert RunLength.Flush(e) + [] == RunLength.Flush(e);
    } else if cells[k].None? {
      PlaceEncoded(g, y, cells, k + 1, e + 1);
      EncodedSkip(g, y, cells, k, e);
    } else {
      PlaceEncoded(Write(g, k, y, cells[k]), y, cells, k + 1, 0);
      EncodedPut(g, y, cells, k, e);
    }
  }

  /** Placing the written ranks from rank `y` on onto a board that is right above `y` and empty below rebuilds the board. */
  lemma {:induction false} PlaceRanks(h: seq<seq<Option<Piece>>>, g: seq<seq<Option<Piece>>>, y: nat)
    requires BoardOk(g) && Shaped(h, Files, Ranks) && y <= Ranks
    requires forall x, z :: 0 <= x < Files && 0 <= z < Ranks ==> h[x][z] == if z < y then g[x][z] else None
    ensures PlaceRows(h, RankTexts(g)[y..], y) == Placing(g, None)
    decreases Ranks - y
  {
    var ts := RankTexts(g)[y..];
    if y == Ranks {
      assert ts == [];
      GridExt(h, g, Files, Ranks);
    } else {
      var cells := RankCells(g, y);
      PlaceEncoded(h, y, cells, 0, 0);
      assert cells[0..] == cells;
      var p := PlaceRow(h, y, ts[0], 0);
      assert ts[1..] == RankTexts(g)[y + 1..];
      PlaceRanks(p.board, g, y + 1);
    }
  }

  /** A rank text holds only piece characters and digits, and is never empty. */
  lemma {:induction false} EncodeChars(cells: seq<Option<Piece>>, e: nat)
    requires forall x :: 0 <= x < |cells| && cells[x].Some? ==> PieceOk(cells[x].value)
    requires |cells| > 0 || e > 0
    ensures EncodeFrom(cells, e) != []
    ensures forall i :: 0 <= i < |EncodeFrom(cells, e)| ==>
      EncodeFrom(cells, e)[i] != '/' && !IsSpace(EncodeFrom(cells, e)[i])
    decreases |cells|
  {
    if cells != [] {
      if cells[0].None? {
        EncodeChars(cells[1..], e + 1);
      } else {
        PieceRoundTrip(cells[0].value);
        if |cells| > 1 {
          EncodeChars(cells[1..], 0);
        }
      }
    }
  }

  /** The board field is a non-empty word and splits on '/' into the ten rank texts. */
  lemma BoardField(g: seq<seq<Option<Piece>>>)
    requires BoardOk(g)
    ensures Join(RankTexts(g), '/') != [] && NoSpace(Join(RankTexts(g), '/'))
    ensures Split(Join(RankTexts(g), '/'), '/') == RankTexts(g)
  {
    var ts := RankTexts(g);
    forall y | 0 <= y < Ranks ensures ts[y] != [] && '/' !in ts[y] && NoSpace(ts[y]) {
      EncodeChars(RankCells(g, y), 0);
    }
    SplitJoin(ts, '/');
    JoinChars(ts, '/', c => !IsSpace(c));
    assert Join(ts, '/') == ts[0] + ['/'] + Join(ts[1..], '/');
  }

  /**
   * Round trip: reading the FEN of a good state, into any state, gives back
   * its board, side, halfmove clock and fullmove number, without a fault.
   */
  lemma FenRoundTrip(s: Xq, into: Xq)
    requires XqOk(s) && Shaped(into.board, Files, Ranks)
    ensures ParseFen(into, FenText(s)) == Parsed(s, None)
  {
    var b := Join(RankTexts(s.board), '/');
    var fields := [b, s.turn, "-", "-", NatStr(s.halfmove), NatStr(s.fullmove)];
    BoardField(s.board);
    WordsJoin(fields);
    assert Words(FenText(s)) == fields;
    PlaceRanks(Filled(Files, Ranks, None), s.board, 0);
    assert RankTexts(s.board)[0..] == RankTexts(s.board);
    ParseNatStr(s.halfmove);
    ParseNatStr(s.fullmove);
  }

  // ---------------------------------------------------------------------
  // Moves

  /** A square: file `x` from the left, rank `y` from the top. */
  datatype Point = Point(x: nat, y: nat)

  predicate OnGrid(p: Point) { p.x < Files && p.y < Ranks }

  /**
   * `move_piece`: the piece on `from` goes to `to` and `from` is emptied; the
   * turn passes; the halfmove clock restarts on a capture and otherwise counts
   * up; the fullmove number counts up when the turn passes back to 'w'.
   */
  function MoveSpec(s: Xq, from: Point, to: Point): (t: Xq)
    requires Shaped(s.board, Files, Ranks) && OnGrid(from) && OnGrid(to)
    ensures Shaped(t.board, Files, Ranks)
    ensures t.board[from.x][from.y].None?
    ensures from != to ==> t.board[to.x][to.y] == s.board[from.x][from.y]
    ensures forall x, y :: 0 <= x < Files && 0 <= y < Ranks && Point(x, y) != from && Point(x, y) != to ==>
      t.board[x][y] == s.board[x][y]
    ensures t.turn == (if s.turn == "w" then "b" else "w")
    ensures t.halfmove == (if s.board[to.x][to.y].Some? then 0 else s.halfmove + 1)
    ensures t.fullmove == s.fullmove + (if t.turn == "w" then 1 else 0)
    ensures XqOk(s) ==> XqOk(t)
  {
    var g := Write(Write(s.board, to.x, to.y, s.board[from.x][from.y]), from.x, from.y, None);
    var turn := if s.turn == "w" then "b" else "w";
    Xq(g, turn, if s.board[to.x][to.y].Some? then 0 else s.halfmove + 1,
       if turn == "w" then s.fullmove + 1 else s.fullmove)
  }

  /** Two moves in a row from 'w' count one full move, and the turn is back with 'w'. */
  lemma FullMoveCount(s: Xq, a: Point, b: Point, c: Point, d: Point)
    requires Shaped(s.board, Files, Ranks) && s.turn == "w"
    requires OnGrid(a) && OnGrid(b) && OnGrid(c) && OnGrid(d)
    ensures var t := MoveSpec(MoveSpec(s, a, b), c, d);
      t.turn == "w" && t.fullmove == s.fullmove + 1
  {
  }

  /** Moving a piece onto its own square removes it from the board and counts as a capture. */
  lemma MoveInPlace(s: Xq, at: Point)
    requires Shaped(s.board, Files, Ranks) && OnGrid(at) && s.board[at.x][at.y].Some?
    ensures MoveSpec(s, at, at).board[at.x][at.y].None?
    ensures MoveSpec(s, at, at).halfmove == 0
  {
  }

  // ---------------------------------------------------------------------
  // The engine's best move

  /** The two squares of a best-move arrow. */
  datatype Arrow = Arrow(from: Point, to: Point)

  predicate FileLetter(c: char) { 'a' <= c <= 'i' }

  /** The length of the run of digits at the front of `s`. */
  function DigitRun(s: string): (n: nat)
    ensures n <= |s| && AllDigits(s[..n]) && (n < |s| ==> !IsDigit(s[n]))
  {
    if s != [] && IsDigit(s[0]) then 1 + DigitRun(s[1..]) else 0
  }

  /** The four groups of the pattern file letter, rank, file letter, rank. */
  datatype MoveGroups = MoveGroups(file1: char, rank1: string, file2: char, rank2: string)

  /**
   * The match of `^([a-i])(\d+)([a-i])(\d+)$` against `m`. The first rank is
   * the whole run of digits after the first letter, since a letter must follow it.
   */
  function MatchMove(m: string): (r: Option<MoveGroups>)
    ensures r.Some? ==> FileLetter(r.value.file1) && FileLetter(r.value.file2)
    ensures r.Some? ==> r.value.rank1 != [] && AllDigits(r.value.rank1) && r.value.rank2 != [] && AllDigits(r.value.rank2)
    ensures r.Some? ==> m == [r.value.file1] + (r.value.rank1 + ([r.value.file2] + r.value.rank2))
  {
    if m == [] || !FileLetter(m[0]) then None
    else
      var n := DigitRun(m[1..]);
      var rest := m[1 + n..];
      if n == 0 || rest == [] || !FileLetter(rest[0]) || rest[1..] == [] || !AllDigits(rest[1..]) then None
      else
        assert m == [m[0]] + (m[1..1 + n] + ([rest[0]] + rest[1..]));
        Some(MoveGroups(m[0], m[1..1 + n], rest[0], rest[1..]))
  }

  /** Every text of that form matches, with its own four parts as the groups. */
  lemma MatchMoveOf(c1: char, a: string, c2: char, b: string)
    requires FileLetter(c1) && FileLetter(c2) && a != [] && AllDigits(a) && b != [] && AllDigits(b)
    ensures MatchMove([c1] + (a + ([c2] + b))) == Some(MoveGroups(c1, a, c2, b))
  {
    var rest := [c2] + b;
    var m := [c1] + (a + rest);
    assert m[1..] == a + rest;
    DigitRunOf(a, rest);
    assert m[1..1 + |a|] == a;
    assert m[1 + |a|..] == rest;
    assert rest[1..] == b;
  }

  /** The squares the groups name: file from 'a', rank 10 at the top; both must be on the board. */
  function ArrowOf(g: MoveGroups): (r: Option<Arrow>)
    requires AllDigits(g.rank1) && AllDigits(g.rank2)
    ensures r.Some? ==> OnGrid(r.value.from) && OnGrid(r.value.to)
  {
    var x1, y1 := g.file1 as int - 'a' as int, Ranks - ParseDigits(g.rank1);
    var x2, y2 := g.file2 as int - 'a' as int, Ranks - ParseDigits(g.rank2);
    if 0 <= x1 < Files && 0 <= x2 < Files && 0 <= y1 < Ranks && 0 <= y2 < Ranks
    then Some(Arrow(Point(x1, y1), Point(x2, y2)))
    else None
  }

  /** The arrow for the engine's best move (in either case), when it has that form and both squares are on the board. */
  function BestMoveArrow(bestmove: string): (r: Option<Arrow>)
    ensures r.Some? ==> OnGrid(r.value.from) && OnGrid(r.value.to)
  {
    var g := MatchMove(LowerStr(bestmove));
    if g.None? then None else ArrowOf(g.value)
  }

  /** The letter of file `x`. */
  function FileChar(x: nat): (c: char)
    requires x < Files
    ensures FileLetter(c)
  {
    ('a' as int + x) as char
  }

  /** How the engine names a square. */
  function SquareText(p: Point): (name: string)
    requires OnGrid(p)
  {
    [FileChar(p.x)] + NatStr(Ranks - p.y)
  }

  /** The groups of two square names give back the two squares. */
  lemma ArrowOfSquares(from: Point, to: Point)
    requires OnGrid(from) && OnGrid(to)
    ensures ArrowOf(MoveGroups(FileChar(from.x), NatStr(Ranks - from.y), FileChar(to.x), NatStr(Ranks - to.y)))
         == Some(Arrow(from, to))
  {
    ParseNatStr(Ranks - from.y);
    ParseNatStr(Ranks - to.y);
  }

  /** The arrow of a move written in the engine's notation joins the two squares it names. */
  lemma BestMoveRoundTrip(from: Point, to: Point)
    requires OnGrid(from) && OnGrid(to)
    ensures BestMoveArrow(SquareText(from) + SquareText(to)) == Some(Arrow(from, to))
  {
    var c1, c2 := FileChar(from.x), FileChar(to.x);
    var a, b := NatStr(Ranks - from.y), NatStr(Ranks - to.y);
    var m := [c1] + (a + ([c2] + b));
    assert SquareText(from) + SquareText(to) == m;
    MoveTextLower(c1, a, c2, b);
    MatchMoveOf(c1, a, c2, b);
    assert BestMoveArrow(m) == ArrowOf(MoveGroups(c1, a, c2, b));
    ArrowOfSquares(from, to);
  }

  /** A move text of file letters and digits is already in lower case. */
  lemma MoveTextLower(c1: char, a: string, c2: char, b: string)
    requires FileLetter(c1) && FileLetter(c2) && AllDigits(a) && AllDigits(b)
    ensures LowerStr([c1] + (a + ([c2] + b))) == [c1] + (a + ([c2] + b))
  {
    var m := [c1] + (a + ([c2] + b));
    forall i | 0 <= i < |m| ensures !IsUpper(m[i]) {
      if 1 <= i < 1 + |a| {
        assert m[i] == a[i - 1];
      } else if 1 + |a| < i {
        assert m[i] == b[i - 2 - |a|];
      }
    }
    LowerNoUpper(m);
  }

  lemma LowerNoUpper(s: string)
    requires forall i :: 0 <= i < |s| ==> !IsUpper(s[i])
    ensures LowerStr(s) == s
  {
  }

  lemma {:induction false} DigitRunOf(a: string, rest: string)
    requires AllDigits(a) && (rest == [] || !IsDigit(rest[0]))
    ensures DigitRun(a + rest) == |a|
    decreases |a|
  {
    if a == [] {
      assert a + rest == rest;
    } else {
      assert (a + rest)[1..] == a[1..] + rest;
      DigitRunOf(a[1..], rest);
    }
  }

  lemma BestMoveExamples()
    ensures BestMoveArrow("h2e2") == Some(Arrow(Point(7, 8), Point(4, 8)))
  {
    BestMoveRoundTrip(Point(7, 8), Point(4, 8));
    assert SquareText(Point(7, 8)) + SquareText(Point(4, 8)) == "h2e2";
  }

  /** Lower-casing a text twice is lower-casing it once. */
  lemma LowerTwice(s: string)
    ensures LowerStr(LowerStr(s)) == LowerStr(s)
  {
    LowerNoUpper(LowerStr(s));
  }

  /** The best move is read without regard to case: an upper-case text gives the arrow of its lower-case form. */
  lemma BestMoveAnyCase(s: string)
    ensures BestMoveArrow(s) == BestMoveArrow(LowerStr(s))
  {
    LowerTwice(s);
  }

  /** An upper-case best move with a two-digit rank: A10A9 is the top-left square to the one below it. */
  lemma BestMoveUpper()
    ensures BestMoveArrow("A10A9") == Some(Arrow(Point(0, 0), Point(0, 1)))
  {
    BestMoveAnyCase("A10A9");
    UpperMoveText();
    TopLeftText();
    BestMoveRoundTrip(Point(0, 0), Point(0, 1));
  }

  lemma UpperMoveText()
    ensures LowerStr("A10A9") == "a10a9"
  {
  }

  lemma TopLeftText()
    ensures SquareText(Point(0, 0)) + SquareText(Point(0, 1)) == "a10a9"
  {
    assert NatStr(10) == "10";
    assert SquareText(Point(0, 0)) == "a10";
    assert SquareText(Point(0, 1)) == "a9";
  }

  /** Rank 0 lies below the board, so no arrow is drawn. */
  lemma BestMoveRankZero()
    ensures BestMoveArrow("a0a1") == None
  {
    LowerNoUpper("a0a1");
    MatchMoveOf('a', "0", 'a', "1");
    assert ['a'] + ("0" + (['a'] + "1")) == "a0a1";
  }

  /** The file letter `j` lies right of the board, so no arrow is drawn. */
  lemma BestMoveFileJ()
    ensures BestMoveArrow("j1a1") == None
  {
    LowerNoUpper("j1a1");
  }

  // ---------------------------------------------------------------------
  // The board object

  class ChessBoard {
    var fen: string
    var board: seq<seq<Option<Piece>>>
    var turn: string
    var halfmove: nat
    var fullmove: nat

    ghost function State(): (state: Xq)
      reads this`board, this`turn, this`halfmove, this`fullmove
    {
      Xq(board, turn, halfmove, fullmove)
    }

    ghost predicate Valid()
      reads this`board, this`turn, this`halfmove, this`fullmove
    {
      XqOk(State())
    }

    /**
     * `__init__`: an empty board, 'w' to move, counters 0 and 1, then `fen`
     * read in. When the reader raises, the object holds the partly read state
     * (the callers then discard it).
     */
    constructor (text: string)
      ensures Valid()
      ensures fen == text
      ensures State() == ParseFen(Xq(Filled(Files, Ranks, None), "w", 0, 1), text).state
    {
      fen := text;
      board := Filled(Files, Ranks, None);
      turn := "w";
      halfmove := 0;
      fullmove := 1;
      new;
      var _ := ParseFenText(text);
    }

    /** The clearing loops of `parse_fen`: every square becomes empty. */
    method Clear()
      requires Shaped(board, Files, Ranks)
      modifies this`board
      ensures board == Filled(Files, Ranks, None)
    {
      for x := 0 to Files
        invariant Shaped(board, Files, Ranks)
        invariant forall i, j :: 0 <= i < x && 0 <= j < Ranks ==> board[i][j].None?
      {
        for y := 0 to Ranks
          invariant Shaped(board, Files, Ranks)
          invariant forall i, j :: 0 <= i < x && 0 <= j < Ranks ==> board[i][j].None?
          invariant forall j :: 0 <= j < y ==> board[x][j].None?
        {
          board := Write(board, x, y, None);
        }
      }
      GridExt(board, Filled(Files, Ranks, None), Files, Ranks);
    }

    /** One rank of `parse_fen`: digits advance the file, other characters are placed. */
    method PlaceRank(y: nat, row: string) returns (fault: Option<Fault>)
      requires Shaped(board, Files, Ranks)
      modifies this`board
      ensures Placing(board, fault) == PlaceRow(old(board), y, row, 0)
    {
      var x: nat := 0;
      var i := 0;
      assert row[0..] == row;
      while i < |row|
        invariant 0 <= i <= |row|
        invariant Shaped(board, Files, Ranks)
        invariant PlaceRow(board, y, row[i..], x) == PlaceRow(old(board), y, row, 0)
      {
        var c := row[i];
        assert row[i..][0] == c && row[i..][1..] == row[i + 1..];
        if IsDigit(c) {
          x := x + DigitVal(c);
        } else {
          if x >= Files || y >= Ranks {
            return Some(OffBoard(x, y));
          }
          board := Write(board, x, y, Some(PieceOf(c)));
          x := x + 1;
        }
        i := i + 1;
      }
      assert row[i..] == [];
      fault := None;
    }

    /** `parse_fen`, returning what it raises instead of raising. */
    method ParseFenText(text: string) returns (fault: Option<Fault>)
      requires Valid()
      modifies this`board, this`turn, this`halfmove, this`fullmove
      ensures Valid()
      ensures Parsed(State(), fault) == ParseFen(old(State()), text)
    {
      ParseFenOk(State(), text);
      var parts := Words(text);
      if |parts| == 0 {
        return Some(NoFields);
      }
      var rows := Split(parts[0], '/');
      Clear();
      var y := 0;
      assert rows[0..] == rows;
      while y < |rows|
        invariant 0 <= y <= |rows|
        invariant Shaped(board, Files, Ranks)
        modifies this`board
        invariant PlaceRows(board, rows[y..], y) == PlaceRows(Filled(Files, Ranks, None), rows, 0)
      {
        assert rows[y..][0] == rows[y] && rows[y..][1..] == rows[y + 1..];
        ghost var before := board;
        assert PlaceRows(before, rows[y..], y) == Then(PlaceRow(before, y, rows[y], 0), rows[y + 1..], y + 1);
        fault := PlaceRank(y, rows[y]);
        if fault.Some? {
          assert PlaceRows(Filled(Files, Ranks, None), rows, 0) == Placing(board, fault);
          return;
        }
        y := y + 1;
      }
      assert rows[y..] == [];
      if |parts| > 1 {
        turn := parts[1];
      }
      if |parts| > 4 && parts[4] != [] && AllDigits(parts[4]) {
        halfmove := ParseDigits(parts[4]);
      }
      if |parts| > 5 && parts[5] != [] && AllDigits(parts[5]) {
        fullmove := ParseDigits(parts[5]);
      }
      fault := None;
    }

    /** `move_piece`. */
    method MovePiece(from: Point, to: Point)
      requires Valid() && OnGrid(from) && OnGrid(to)
      modifies this`board, this`turn, this`halfmove, this`fullmove
      ensures Valid()
      ensures State() == MoveSpec(old(State()), from, to)
    {
      ghost var before := State();
      var target := board[to.x][to.y];
      board := Write(board, to.x, to.y, board[from.x][from.y]);
      board := Write(board, from.x, from.y, None);
      turn := if turn == "w" then "b" else "w";
      if target.Some? {
        halfmove := 0;
      } else {
        halfmove := halfmove + 1;
      }
      if turn == "w" {
        fullmove := fullmove + 1;
      }
      assert State() == MoveSpec(before, from, to);
      assert XqOk(before);
    }

    /** The text of rank `y`: pieces by their letters, each run of empty files by its length. */
    method RankText(y: nat) returns (row: string)
      requires Valid() && y < Ranks
      ensures row == EncodeFrom(RankCells(board, y), 0)
    {
      ghost var cells := RankCells(board, y);
      row := [];
      var empty: nat := 0;
      for x := 0 to Files
        invariant row + EncodeFrom(cells[x..], empty) == EncodeFrom(cells, 0)
      {
        assert cells[x..][0] == board[x][y] && cells[x..][1..] == cells[x + 1..];
        var piece := board[x][y];
        ghost var before, e := row, empty;
        if piece.Some? {
          if empty > 0 {
            row := row + NatStr(empty);
            empty := 0;
          }
          row := row + [FenChar(piece.value)];
          assert row == before + (RunLength.Flush(e) + [FenChar(piece.value)]);
          assert EncodeFrom(cells[x..], e) == (RunLength.Flush(e) + [FenChar(piece.value)]) + EncodeFrom(cells[x + 1..], 0);
        } else {
          empty := empty + 1;
        }
      }
      assert cells[Files..] == [];
      if empty > 0 {
        row := row + NatStr(empty);
      }
    }

    /** `get_fen`: one text per rank, then the other fields; reading it back restores the state. */
    method GetFen() returns (text: string)
      requires Valid()
      ensures text == FenText(State())
      ensures ParseFen(State(), text) == Parsed(State(), None)
    {
      var rows: seq<string> := [];
      for y := 0 to Ranks
        invariant |rows| == y && forall j :: 0 <= j < y ==> rows[j] == EncodeFrom(RankCells(board, j), 0)
      {
        var row := RankText(y);
        rows := rows + [row];
      }
      assert rows == RankTexts(board);
      text := Join(rows, '/') + " " + turn + " - - " + NatStr(halfmove) + " " + NatStr(fullmove);
      FenFields(Join(rows, '/'), turn, NatStr(halfmove), NatStr(fullmove));
      FenRoundTrip(State(), State());
    }
  }

  /** The six fields of a FEN, joined with single spaces. */
  lemma FenFields(b: string, t: string, h: string, f: string)
    ensures Join([b, t, "-", "-", h, f], ' ') == b + " " + t + " - - " + h + " " + f
  {
    var j4 := h + [' '] + f;
    assert Join([h, f], ' ') == j4;
    var j3 := "-" + [' '] + j4;
    assert Join(["-", h, f], ' ') == j3;
    var j2 := "-" + [' '] + j3;
    assert Join(["-", "-", h, f], ' ') == j2;
    var j1 := t + [' '] + j2;
    assert Join([t, "-", "-", h, f], ' ') == j1;
    assert Join([b, t, "-", "-", h, f], ' ') == b + [' '] + j1;
    assert " - - " == [' '] + "-" + [' '] + "-" + [' '];
  }
}
