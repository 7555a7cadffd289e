/**
 * The animal-chess position text shared by the three animal-chess programs:
 * nine '/'-separated rows of the 9x7 board, top row first, each row a mix of
 * piece letters and decimal counts of consecutive empty cells, optionally
 * followed by a space and the side to move ('w' or 'b').
 *
 * `EncodeBoard` and `ParseFen` are the specifications; `EncodeGrid` and
 * `ParseFenText` are the loops the programs run (`get_fen`, `apply_fen`), each
 * proved equal to its specification. The lemmas prove that parsing undoes
 * encoding and that every encoded row describes exactly seven cells.
 */
module RunLength {
  import opened Text
  import opened Grids

  const Rows: nat := 9
  const Cols: nat := 7

  /** The sixteen piece letters: lower case for one side, upper case for the other. */
  const PieceChars: string := "rcdwjtleRCDWJTLE"

  /** The marker of an empty cell. */
  const Empty: char := ' '

  predicate IsPiece(c: char) { c in PieceChars }

  predicate IsCell(c: char) { IsPiece(c) || c == Empty }

  /** A 9x7 board whose every cell is a piece letter or empty. */
  predicate WellFormed(g: seq<seq<char>>) {
    Shaped(g, Rows, Cols) && forall r, c :: 0 <= r < Rows && 0 <= c < Cols ==> IsCell(g[r][c])
  }

  function Spaces(n: nat): (s: seq<char>)
    ensures |s| == n && forall i :: 0 <= i < n ==> s[i] == Empty
  {
    seq(n, _ => Empty)
  }

  // ---------------------------------------------------------------------
  // Encoding

  /** The pending run of `e` empty cells, written out (nothing when there is none). */
  function Flush(e: nat): (digits: string) {
    if e > 0 then NatStr(e) else []
  }

  /** The text of `row`, when `e` empty cells precede it. */
  function EncodeFrom(row: seq<char>, e: nat): (text: string)
    decreases |row|
  {
    if row == [] then Flush(e)
    else if row[0] == Empty then EncodeFrom(row[1..], e + 1)
    else Flush(e) + [row[0]] + EncodeFrom(row[1..], 0)
  }

  function EncodeRow(row: seq<char>): (text: string) { EncodeFrom(row, 0) }

  function RowTexts(g: seq<seq<char>>): (ts: seq<string>)
    ensures |ts| == |g| && forall i :: 0 <= i < |g| ==> ts[i] == EncodeRow(g[i])
  {
    seq(|g|, i requires 0 <= i < |g| => EncodeRow(g[i]))
  }

  /** The board part of the position text. */
  function EncodeBoard(g: seq<seq<char>>): (text: string) { Join(RowTexts(g), '/') }

  /** The board part, a space and the side to move. */
  function EncodeFen(g: seq<seq<char>>, side: char): (fen: string) { EncodeBoard(g) + " " + [side] }

  // ---------------------------------------------------------------------
  // Decoding

  datatype FenError =
    | NoFields                // the text is blank
    | RowCount(n: nat)        // the board part does not have nine rows
    | BadPiece(c: char)       // a character that is neither a digit nor a piece letter
    | BadWidth(row: string)   // a row that does not describe seven cells
    | BadSide(token: string)  // a side token other than w or b (in either case)

  datatype Result<T> = Ok(value: T) | Err(error: FenError)

  datatype Position = Position(grid: seq<seq<char>>, side: char)

  /**
   * The cells described by `text` when a run of `acc` empty cells is pending.
   * Consecutive digits accumulate into one decimal count.
   */
  function DecodeFrom(text: string, acc: nat): (cells: Result<seq<char>>)
    decreases |text|
  {
    if text == [] then Ok(Spaces(acc))
    else if IsDigit(text[0]) then DecodeFrom(text[1..], acc * 10 + DigitVal(text[0]))
    else if !IsPiece(text[0]) then Err(BadPiece(text[0]))
    else match DecodeFrom(text[1..], 0)
      case Ok(rest) => Ok(Spaces(acc) + [text[0]] + rest)
      case Err(e) => Err(e)
  }

  function DecodeRow(text: string): (cells: Result<seq<char>>) {
    match DecodeFrom(text, 0)
    case Ok(cells) => if |cells| == Cols then Ok(cells) else Err(BadWidth(text))
    case Err(e) => Err(e)
  }

  /** The rows in order; the first row that fails decides the error. */
  function DecodeRows(texts: seq<string>): (grid: Result<seq<seq<char>>>) {
    if texts == [] then Ok([])
    else match DecodeRow(texts[0])
      case Err(e) => Err(e)
      case Ok(row) =>
        match DecodeRows(texts[1..])
        case Err(e) => Err(e)
        case Ok(rest) => Ok([row] + rest)
  }

  /** The side token: 'w' when absent, else w or b in either case. */
  function ParseSide(parts: seq<string>): (side: Result<char>) {
    if |parts| < 2 then Ok('w')
    else if LowerStr(parts[1]) == "w" then Ok('w')
    else if LowerStr(parts[1]) == "b" then Ok('b')
    else Err(BadSide(parts[1]))
  }

  /**
   * The position a text describes, or the first error `apply_fen` raises for
   * it: blank text, a row count other than nine, a bad row, a bad side token
   * (checked in that order). Fields after the second are ignored.
   */
  function ParseFen(s: string): (pos: Result<Position>) {
    var parts := Words(s);
    if |parts| < 1 then Err(NoFields)
    else
      var texts := Split(parts[0], '/');
      if |texts| != Rows then Err(RowCount(|texts|))
      else match DecodeRows(texts)
        case Err(e) => Err(e)
        case Ok(g) =>
          match ParseSide(parts)
          case Err(e) => Err(e)
          case Ok(side) => Ok(Position(g, side))
  }

  // ---------------------------------------------------------------------
  // Properties

  lemma DecodeRowsShape(texts: seq<string>)
    ensures DecodeRows(texts).Ok? ==>
      |DecodeRows(texts).value| == |texts| &&
      forall i :: 0 <= i < |texts| ==> DecodeRow(texts[i]) == Ok(DecodeRows(texts).value[i])
  {
    if texts != [] && DecodeRows(texts).Ok? {
      DecodeRowsShape(texts[1..]);
    }
  }

  /** Whatever `ParseFen` accepts is a well-formed board with side w or b. */
  lemma {:induction false} ParseFenWellFormed(s: string)
    requires ParseFen(s).Ok?
    ensures WellFormed(ParseFen(s).value.grid)
    ensures ParseFen(s).value.side in {'w', 'b'}
  {
    var texts := Split(Words(s)[0], '/');
    DecodeRowsShape(texts);
    var g := ParseFen(s).value.grid;
    forall r | 0 <= r < Rows ensures |g[r]| == Cols && forall c :: 0 <= c < Cols ==> IsCell(g[r][c]) {
      DecodeCells(texts[r], 0);
    }
  }

  /** Decoding yields only piece letters and empty cells. */
  lemma {:induction false} DecodeCells(text: string, acc: nat)
    ensures DecodeFrom(text, acc).Ok? ==>
      forall i :: 0 <= i < |DecodeFrom(text, acc).value| ==> IsCell(DecodeFrom(text, acc).value[i])
  {
    if text != [] {
      if IsDigit(text[0]) {
        DecodeCells(text[1..], acc * 10 + DigitVal(text[0]));
      } else if IsPiece(text[0]) {
        DecodeCells(text[1..], 0);
      }
    }
  }

  /** A decimal count followed by more text is read as one run of that many empty cells. */
  lemma {:induction false} DecodeCount(n: nat, rest: string)
    ensures DecodeFrom(NatStr(n) + rest, 0) == DecodeFrom(rest, n)
  {
    var d := DigitChar(n % 10);
    if n < 10 {
      assert NatStr(n) + rest == [d] + rest;
      assert ([d] + rest)[1..] == rest;
    } else {
      assert NatStr(n) + rest == NatStr(n / 10) + ([d] + rest);
      DecodeCount(n / 10, [d] + rest);
      assert ([d] + rest)[1..] == rest;
    }
  }

  lemma {:induction false} DecodeFlush(e: nat, rest: string)
    ensures DecodeFrom(Flush(e) + rest, 0) == DecodeFrom(rest, e)
  {
    if e > 0 {
      DecodeCount(e, rest);
    } else {
      assert Flush(e) + rest == rest;
    }
  }

  /** Decoding the text of a row (after `e` pending empties) gives those empties and the row. */
  lemma {:induction false} DecodeEncodeFrom(row: seq<char>, e: nat)
    requires forall i :: 0 <= i < |row| ==> IsCell(row[i])
    ensures DecodeFrom(EncodeFrom(row, e), 0) == Ok(Spaces(e) + row)
  {
    if row == [] {
      DecodeFlush(e, []);
      assert Flush(e) + [] == Flush(e);
      assert Spaces(e) + row == Spaces(e);
    } else if row[0] == Empty {
      DecodeEncodeFrom(row[1..], e + 1);
      assert Spaces(e + 1) + row[1..] == Spaces(e) + row;
    } else {
      var tail := EncodeFrom(row[1..], 0);
      assert EncodeFrom(row, e) == Flush(e) + ([row[0]] + tail);
      DecodeFlush(e, [row[0]] + tail);
      assert ([row[0]] + tail)[1..] == tail;
      DecodeEncodeFrom(row[1..], 0);
      assert Spaces(0) + row[1..] == row[1..];
      assert Spaces(e) + [row[0]] + row[1..] == Spaces(e) + row;
    }
  }

  /** A row's text holds only piece letters and digits. */
  lemma {:induction false} EncodeChars(row: seq<char>, e: nat)
    requires forall i :: 0 <= i < |row| ==> IsCell(row[i])
    ensures forall k :: 0 <= k < |EncodeFrom(row, e)| ==>
      IsPiece(EncodeFrom(row, e)[k]) || IsDigit(EncodeFrom(row, e)[k])
  {
    if row != [] {
      if row[0] == Empty {
        EncodeChars(row[1..], e + 1);
      } else {
        EncodeChars(row[1..], 0);
      }
    }
  }

  /** A row's text is never empty, since the row has at least one cell. */
  lemma {:induction false} EncodeNonEmpty(row: seq<char>, e: nat)
    requires |row| > 0 || e > 0
    ensures |EncodeFrom(row, e)| > 0
  {
    if row != [] && row[0] == Empty {
      EncodeNonEmpty(row[1..], e + 1);
    }
  }

  /** Row round trip: every row text of a well-formed board decodes to its seven cells. */
  lemma RowRoundTrip(row: seq<char>)
    requires |row| == Cols && forall i :: 0 <= i < |row| ==> IsCell(row[i])
    ensures DecodeRow(EncodeRow(row)) == Ok(row)
  {
    DecodeEncodeFrom(row, 0);
    assert Spaces(0) + row == row;
  }

  lemma {:induction false} RowsRoundTrip(g: seq<seq<char>>)
    requires forall r :: 0 <= r < |g| ==> |g[r]| == Cols && forall c :: 0 <= c < Cols ==> IsCell(g[r][c])
    ensures DecodeRows(RowTexts(g)) == Ok(g)
  {
    if g != [] {
      RowRoundTrip(g[0]);
      RowsRoundTrip(g[1..]);
      assert RowTexts(g)[1..] == RowTexts(g[1..]);
      assert [g[0]] + g[1..] == g;
    }
  }

  predicate BoardChar(ch: char) { IsPiece(ch) || IsDigit(ch) || ch == '/' }

  lemma RowTextChars(g: seq<seq<char>>, r: nat)
    requires WellFormed(g) && r < Rows
    ensures forall k :: 0 <= k < |RowTexts(g)[r]| ==> IsPiece(RowTexts(g)[r][k]) || IsDigit(RowTexts(g)[r][k])
  {
    EncodeChars(g[r], 0);
  }

  /** The board text splits back on '/' into its nine row texts. */
  lemma BoardSplit(g: seq<seq<char>>)
    requires WellFormed(g)
    ensures Split(EncodeBoard(g), '/') == RowTexts(g)
  {
    var ts := RowTexts(g);
    forall r | 0 <= r < |ts| ensures '/' !in ts[r] {
      RowTextChars(g, r);
    }
    SplitJoin(ts, '/');
  }

  /** The board text is a non-empty run of piece letters, digits and '/'. */
  lemma BoardChars(g: seq<seq<char>>)
    requires WellFormed(g)
    ensures EncodeBoard(g) != []
    ensures forall k :: 0 <= k < |EncodeBoard(g)| ==> BoardChar(EncodeBoard(g)[k])
  {
    var ts := RowTexts(g);
    forall r, k | 0 <= r < |ts| && 0 <= k < |ts[r]| ensures BoardChar(ts[r][k]) {
      RowTextChars(g, r);
    }
    JoinChars(ts, '/', BoardChar);
    EncodeNonEmpty(g[0], 0);
    assert Join(ts, '/') == ts[0] + [ '/' ] + Join(ts[1..], '/');
  }

  /**
   * The board text of a well-formed board has exactly nine '/'-separated rows,
   * each describing exactly that row's seven cells, and holds no whitespace.
   */
  lemma EncodeBoardShape(g: seq<seq<char>>)
    requires WellFormed(g)
    ensures |Split(EncodeBoard(g), '/')| == Rows
    ensures forall r :: 0 <= r < Rows ==> DecodeRow(Split(EncodeBoard(g), '/')[r]) == Ok(g[r])
    ensures EncodeBoard(g) != [] && NoSpace(EncodeBoard(g)) && '\n' !in EncodeBoard(g)
  {
    BoardSplit(g);
    forall r | 0 <= r < Rows ensures DecodeRow(RowTexts(g)[r]) == Ok(g[r]) {
      RowRoundTrip(g[r]);
    }
    BoardOneWord(g);
  }

  /** The board text is one non-empty word on one line. */
  lemma BoardOneWord(g: seq<seq<char>>)
    requires WellFormed(g)
    ensures EncodeBoard(g) != [] && NoSpace(EncodeBoard(g)) && '\n' !in EncodeBoard(g)
  {
    BoardChars(g);
    var s := EncodeBoard(g);
    forall k | 0 <= k < |s| ensures !IsSpace(s[k]) && s[k] != '\n' {
      BoardCharVisible(s[k]);
    }
  }

  lemma BoardCharVisible(ch: char)
    requires BoardChar(ch)
    ensures !IsSpace(ch) && ch != '\n'
  {
  }

  /** Parsing the text of a well-formed board and side restores both. */
  lemma FenRoundTrip(g: seq<seq<char>>, side: char)
    requires WellFormed(g) && side in {'w', 'b'}
    ensures ParseFen(EncodeFen(g, side)) == Ok(Position(g, side))
  {
    EncodeBoardShape(g);
    BoardSplit(g);
    WordsOfPair(EncodeBoard(g), [side]);
    RowsRoundTrip(g);
    assert LowerStr([side]) == [side];
  }

  /** "12" is twelve empty cells, not one and then two. */
  lemma DigitsAccumulate()
    ensures DecodeFrom("12", 0) == Ok(Spaces(12))
    ensures DecodeRow("12") == Err(BadWidth("12"))
  {
    DecodeCount(12, []);
    assert NatStr(12) == "12";
    assert "12" + [] == "12";
  }

  // ---------------------------------------------------------------------
  // The loops the programs run

  /** `get_fen` without the side token: one pass per row with an empty-cell counter. */
  method EncodeGrid(g: seq<seq<char>>) returns (s: string)
    ensures s == EncodeBoard(g)
  {
    var fen: seq<string> := [];
    var r := 0;
    while r < |g|
      invariant 0 <= r <= |g|
      invariant |fen| == r && forall i :: 0 <= i < r ==> fen[i] == EncodeRow(g[i])
    {
      var row := g[r];
      var fenRow: string := [];
      var empty: nat := 0;
      var c := 0;
      while c < |row|
        invariant 0 <= c <= |row|
        invariant fenRow + EncodeFrom(row[c..], empty) == EncodeRow(row)
      {
        assert row[c..][1..] == row[c + 1..];
        if row[c] == Empty {
          empty := empty + 1;
        } else {
          if empty > 0 {
            fenRow := fenRow + NatStr(empty);
            empty := 0;
          }
          fenRow := fenRow + [row[c]];
        }
        c := c + 1;
      }
      if empty > 0 {
        fenRow := fenRow + NatStr(empty);
      }
      assert row[c..] == [];
      fen := fen + [fenRow];
      r := r + 1;
    }
    assert fen == RowTexts(g);
    s := Join(fen, '/');
  }

  /** `cells` followed by whatever `r` holds, or `r`'s error. */
  function Prepend<T>(cells: seq<T>, r: Result<seq<T>>): (joined: Result<seq<T>>) {
    match r
    case Ok(rest) => Ok(cells + rest)
    case Err(e) => Err(e)
  }

  lemma PrependNil<T>(r: Result<seq<T>>)
    ensures Prepend([], r) == r
  {
    if r.Ok? {
      assert [] + r.value == r.value;
    }
  }

  lemma PrependPrepend<T>(a: seq<T>, b: seq<T>, r: Result<seq<T>>)
    ensures Prepend(a, Prepend(b, r)) == Prepend(a + b, r)
  {
    if r.Ok? {
      assert a + (b + r.value) == a + b + r.value;
    }
  }

  /** One row of `apply_fen`: digits accumulate a count, a piece letter flushes it. */
  method DecodeRowText(text: string) returns (res: Result<seq<char>>)
    ensures res == DecodeRow(text)
  {
    var fenRow: seq<char> := [];
    var empty: nat := 0;
    var i := 0;
    assert text[0..] == text;
    PrependNil(DecodeFrom(text, 0));
    while i < |text|
      invariant 0 <= i <= |text|
      invariant Prepend(fenRow, DecodeFrom(text[i..], empty)) == DecodeFrom(text, 0)
    {
      var ch := text[i];
      assert text[i..][0] == ch && text[i..][1..] == text[i + 1..];
      if IsDigit(ch) {
        assert DecodeFrom(text[i..], empty) == DecodeFrom(text[i + 1..], empty * 10 + DigitVal(ch));
        empty := empty * 10 + DigitVal(ch);
      } else {
        if !IsPiece(ch) {
          return Err(BadPiece(ch));
        }
        ghost var rest := DecodeFrom(text[i + 1..], 0);
        assert DecodeFrom(text[i..], empty) == Prepend(Spaces(empty) + [ch], rest);
        PrependPrepend(fenRow, Spaces(empty) + [ch], rest);
        ghost var next := fenRow + (Spaces(empty) + [ch]);
        assert next == fenRow + Spaces(empty) + [ch];
        if empty > 0 {
          fenRow := fenRow + Spaces(empty);
        } else {
          assert fenRow + Spaces(empty) == fenRow;
        }
        fenRow := fenRow + [ch];
        assert fenRow == next;
        empty := 0;
      }
      i := i + 1;
    }
    assert text[i..] == [];
    if empty > 0 {
      fenRow := fenRow + Spaces(empty);
    } else {
      assert fenRow + Spaces(empty) == fenRow;
    }
    if |fenRow| != Cols {
      return Err(BadWidth(text));
    }
    res := Ok(fenRow);
  }

  /** The parsing half of `apply_fen`, which builds the new board before touching any state. */
  method ParseFenText(fen: string) returns (res: Result<Position>)
    ensures res == ParseFen(fen)
  {
    var parts := Words(fen);
    if |parts| < 1 {
      return Err(NoFields);
    }
    var rows := Split(parts[0], '/');
    if |rows| != Rows {
      return Err(RowCount(|rows|));
    }
    var newBoard: seq<seq<char>> := [];
    var i := 0;
    assert rows[0..] == rows;
    PrependNil(DecodeRows(rows));
    while i < |rows|
      invariant 0 <= i <= |rows|
      invariant Prepend(newBoard, DecodeRows(rows[i..])) == DecodeRows(rows)
    {
      assert rows[i..][0] == rows[i] && rows[i..][1..] == rows[i + 1..];
      var row := DecodeRowText(rows[i]);
      if row.Err? {
        return Err(row.error);
      }
      PrependPrepend(newBoard, [row.value], DecodeRows(rows[i + 1..]));
      newBoard := newBoard + [row.value];
      i := i + 1;
    }
    assert rows[i..] == [];
    assert newBoard + [] == newBoard;
    var side := 'w';
    if |parts| >= 2 {
      var token := LowerStr(parts[1]);
      if token == "w" {
        side := 'w';
      } else if token == "b" {
        side := 'b';
      } else {
        return Err(BadSide(parts[1]));
      }
    }
    res := Ok(Position(newBoard, side));
  }

  /** Writing a piece or a space into a well-formed board keeps it well formed. */
  lemma WriteWellFormed(g: seq<seq<char>>, r: nat, c: nat, v: char)
    requires WellFormed(g) && r < Rows && c < Cols && IsCell(v)
    ensures WellFormed(Write(g, r, c, v))
  {
  }
}
