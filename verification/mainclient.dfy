/**
 * The older animal-chess client, `XiangQi` in main.py: the same 9x7 board and
 * position text as the newer client, a click handler that selects a piece of
 * the side to move and then moves it, and an analysis store that keeps only
 * the five candidates with the most visits.
 */
module MainClient {
  import opened Text
  import opened Grids
  import opened Ranking
  import opened RunLength
  import opened Maybe
  import opened Play

  // ---------------------------------------------------------------------
  // Engine move tokens

  /** What `handle_analysis_line` makes of a move token: nothing, a square, or an exception that escapes. */
  datatype Place = Skipped | Placed(col: int, row: int) | Raised

  /**
   * The square a move token names: the column is the letter's offset from A
   * (no letter is skipped) and the row is 9 minus the number. Tokens shorter
   * than two characters and "pass" are skipped; a suffix `int` does not accept
   * raises (`int` accepts underscores between digits, which the token may hold).
   */
  function PlaceOf(move: string): (p: Place)
    ensures p.Skipped? <==> |move| < 2 || move == "pass"
    ensures p.Raised? <==> |move| >= 2 && move != "pass" && !IntText(move[1..])
    ensures p.Placed? ==> p.row <= Rows && p.col == Upper(move[0]) as int - 'A' as int
  {
    if |move| < 2 || move == "pass" then Skipped
    else if !IntText(move[1..]) then Raised
    else Placed(Upper(move[0]) as int - 'A' as int, Rows - IntValue(move[1..]))
  }

  /** The client's own square names decode back to their squares. */
  lemma PlaceOfSquareName(s: Square)
    requires OnBoard(s)
    ensures PlaceOf(SquareName(s)) == Placed(s.col, s.row)
  {
    var name := SquareName(s);
    assert name[1..] == NatStr(Rows - s.row);
    ParseNatStr(Rows - s.row);
    DigitsIntText(name[1..]);
    assert name != "pass";
  }

  lemma PlaceOfExamples()
    ensures PlaceOf("A9") == Placed(0, 0)
    ensures PlaceOf("i5") == Placed(8, 4)
    ensures PlaceOf("pass") == Skipped
    ensures PlaceOf("A") == Skipped
    ensures PlaceOf("Ax") == Raised
  {
    assert "A9"[1..] == "9";
    DigitsIntText("9");
    assert "i5"[1..] == "5";
    DigitsIntText("5");
    assert "Ax"[1..] == "x";
    assert "A9" != "pass" && "i5" != "pass" && "Ax" != "pass";
  }

  /** A separator inside the rank is accepted as `int` accepts it; a doubled one raises. */
  lemma PlaceOfUnderscore()
    ensures PlaceOf("A1_0") == Placed(0, -1)
    ensures PlaceOf("A1__0") == Raised
  {
    var r := "1_0";
    assert "A1_0"[1..] == r;
    assert IntText(r) by {
      assert IsDigit(r[0]) && r[1] == '_' && IsDigit(r[2]);
    }
    assert DropUnderscores(r) == "10" by {
      assert r[1..] == "_0" && r[2..] == "0";
    }
    assert ParseDigits("10") == 10 by {
      assert "10"[..1] == "1";
    }
    assert "A1__0"[1..] == "1__0";
    assert "1__0"[1] == '_' && "1__0"[2] == '_';
  }

  // ---------------------------------------------------------------------
  // The analysis store

  /** One match of the analysis pattern: the move token, its visits and its win rate (scaled to an integer). */
  datatype Sample = Sample(move: string, visits: nat, winrate: int)

  /** A stored candidate. */
  datatype Entry = Entry(move: string, col: int, row: int, visits: nat, winrate: int)

  function EntryMove(e: Entry): (move: string) { e.move }

  /** The sort key: visits only, most first. */
  function ByVisits(e: Entry): (rank: Rank) { Rank(e.visits, 0) }

  /** How many candidates the store keeps. */
  const Keep: nat := 5

  /** The store invariant: at most five entries, most visits first, one entry per move. */
  predicate StoreOk(store: seq<Entry>) {
    |store| <= Keep && Sorted(store, ByVisits) && Distinct(store, EntryMove)
  }

  /** The index of the first entry for `move`, or -1. */
  function EntryIndex(store: seq<Entry>, move: string): (i: int)
    ensures -1 <= i < |store|
    ensures i >= 0 ==> store[i].move == move
    ensures forall j :: 0 <= j < |store| && (i < 0 || j < i) ==> store[j].move != move
    decreases |store|
  {
    if store == [] then -1
    else if store[0].move == move then 0
    else var k := EntryIndex(store[1..], move); if k < 0 then -1 else k + 1
  }

  /**
   * A sample entering the store: an entry for the same move gets the new
   * visits and win rate and keeps its square; otherwise a new entry is appended.
   */
  function Upsert(store: seq<Entry>, s: Sample, col: int, row: int): (r: seq<Entry>)
    ensures exists j :: 0 <= j < |r| && r[j].move == s.move && r[j].visits == s.visits && r[j].winrate == s.winrate
    ensures forall x :: x in r ==> x.move == s.move || x in store
    ensures forall j :: 0 <= j < |store| && store[j].move != s.move ==> j < |r| && r[j] == store[j]
    ensures var i := EntryIndex(store, s.move);
      i >= 0 ==> |r| == |store| && r[i].col == store[i].col && r[i].row == store[i].row
    ensures EntryIndex(store, s.move) < 0 ==> |r| == |store| + 1 && r[|store|] == Entry(s.move, col, row, s.visits, s.winrate)
    ensures Distinct(store, EntryMove) ==> Distinct(r, EntryMove)
  {
    var i := EntryIndex(store, s.move);
    if i >= 0 then
      var r := store[i := store[i].(visits := s.visits, winrate := s.winrate)];
      assert r[i].move == s.move;
      r
    else
      var r := store + [Entry(s.move, col, row, s.visits, s.winrate)];
      assert r[|store|].move == s.move;
      r
  }

  /** The store sorted by visits and cut to its first five entries. */
  function Top(store: seq<Entry>): (kept: seq<Entry>) {
    var s := StableSort(store, ByVisits);
    if |s| > Keep then s[..Keep] else s
  }

  /** The store after one analysis line, given the pattern's match if there was one. */
  function Absorb(store: seq<Entry>, m: Option<Sample>): (r: seq<Entry>)
    ensures m.None? || !PlaceOf(m.value.move).Placed? ==> r == store
  {
    if m.None? then store
    else match PlaceOf(m.value.move)
      case Placed(col, row) => Top(Upsert(store, m.value, col, row))
      case _ => store
  }

  /**
   * The cut keeps the best: the result is sorted, a prefix of the stable sort
   * of at most five entries, and every entry of the store is either kept or
   * ranks no higher than all five kept entries.
   */
  lemma TopKeepsBest(store: seq<Entry>)
    ensures Sorted(Top(store), ByVisits) && multiset(Top(store)) <= multiset(store)
    ensures |store| <= Keep ==> |Top(store)| == |store| && forall x :: x in store ==> x in Top(store)
    ensures |store| > Keep ==> |Top(store)| == Keep
    ensures forall x :: x in store ==> x in Top(store) || forall y :: y in Top(store) ==> y.visits >= x.visits
  {
    var s := StableSort(store, ByVisits);
    SortSorted(store, ByVisits);
    var t := Top(store);
    if |s| > Keep {
      assert s == t + s[Keep..];
      assert multiset(s) == multiset(t) + multiset(s[Keep..]);
      forall x | x in store && x !in t ensures forall y :: y in t ==> y.visits >= x.visits {
        assert x in multiset(s);
        var j :| 0 <= j < |s| && s[j] == x;
        forall y | y in t ensures y.visits >= x.visits {
          var i :| 0 <= i < |t| && t[i] == y;
          assert s[i] == y;
          assert Precedes(ByVisits(s[i]), ByVisits(s[j]));
        }
      }
    } else {
      forall x | x in store ensures x in t {
        assert x in multiset(s);
      }
    }
  }

  lemma TopDistinct(store: seq<Entry>)
    requires Distinct(store, EntryMove)
    ensures Distinct(Top(store), EntryMove)
  {
    SortDistinct(store, ByVisits, EntryMove);
  }

  /** Every analysis line keeps the store invariant. */
  lemma AbsorbOk(store: seq<Entry>, m: Option<Sample>)
    requires StoreOk(store)
    ensures StoreOk(Absorb(store, m))
  {
    if m.Some? && PlaceOf(m.value.move).Placed? {
      var p := PlaceOf(m.value.move);
      var u := Upsert(store, m.value, p.col, p.row);
      TopKeepsBest(u);
      TopDistinct(u);
    }
  }

  /**
   * A sample that names a square is in the store afterwards, with its visits
   * and win rate, unless five other entries have at least as many visits.
   */
  lemma AbsorbRecords(store: seq<Entry>, m: Option<Sample>)
    requires m.Some? && PlaceOf(m.value.move).Placed?
    ensures var r := Absorb(store, m);
      (exists x :: x in r && x.move == m.value.move && x.visits == m.value.visits && x.winrate == m.value.winrate)
      || (|r| == Keep && forall y :: y in r ==> y.visits >= m.value.visits)
  {
    var p := PlaceOf(m.value.move);
    var u := Upsert(store, m.value, p.col, p.row);
    var j :| 0 <= j < |u| && u[j].move == m.value.move && u[j].visits == m.value.visits && u[j].winrate == m.value.winrate;
    var x := u[j];
    assert x in u;
    assert Absorb(store, m) == Top(u);
    TopKeepsBest(u);
    if x in Top(u) {
    } else {
      assert |u| > Keep;
    }
  }

  /** `next(...)` over the store: the index of the first entry for `move`, or -1. */
  method FindEntry(store: seq<Entry>, move: string) returns (k: int)
    ensures k == EntryIndex(store, move)
  {
    k := 0;
    while k < |store| && store[k].move != move
      invariant 0 <= k <= |store|
      invariant forall j :: 0 <= j < k ==> store[j].move != move
    {
      k := k + 1;
    }
    if k == |store| {
      k := -1;
    }
  }

  // ---------------------------------------------------------------------
  // Clicks

  /** The size of a board tile in pixels. */
  const Tile: nat := 80

  /** The square under pixel (`x`, `y`), if the pixel is on the board. */
  function CellAt(x: nat, y: nat): (at: Option<Square>)
    ensures at.Some? <==> x < Cols * Tile && y < Rows * Tile
    ensures at.Some? ==> OnBoard(at.value)
    ensures at.Some? ==> at.value.col * Tile <= x < at.value.col * Tile + Tile
    ensures at.Some? ==> at.value.row * Tile <= y < at.value.row * Tile + Tile
  {
    var col, row := x / Tile, y / Tile;
    if row < Rows && col < Cols then Some(Square(row, col)) else None
  }

  class XiangQi {
    var board: seq<seq<char>>
    var selected: Option<Square>
    var currentPlayer: char
    var analyzing: bool
    var analysisResults: seq<Entry>
    /** Every line written to the engine's standard input so far, oldest first, without its line break. */
    ghost var sent: seq<string>

    /** The board is well formed, a selection holds a piece of the side to move, and the store keeps its invariant. */
    ghost predicate Valid()
      reads this`board, this`selected, this`currentPlayer, this`analysisResults
    {
      WellFormed(board) && (currentPlayer == 'w' || currentPlayer == 'b')
      && (selected.Some? ==> OnBoard(selected.value) && Owned(currentPlayer, board[selected.value.row][selected.value.col]))
      && StoreOk(analysisResults)
    }

    /** `__init__` without the window: the opening position, white to move, analysis off. */
    constructor ()
      ensures Valid()
      ensures board == InitialRows && selected.None? && currentPlayer == 'w'
      ensures !analyzing && analysisResults == [] && sent == []
    {
      board := InitialRows;
      selected := None;
      currentPlayer := 'w';
      analyzing := false;
      analysisResults := [];
      sent := [];
      new;
      InitialWellFormed();
    }

    /** `get_fen`: the board text, a space and the side to move, which parses back to both. */
    method GetFen() returns (fen: string)
      requires Valid()
      ensures fen == EncodeFen(board, currentPlayer)
      ensures ParseFen(fen) == Ok(Position(board, currentPlayer))
    {
      var text := EncodeGrid(board);
      fen := text + " " + [currentPlayer];
      FenRoundTrip(board, currentPlayer);
    }

    /** `handle_analysis_line` after the pattern match; it reports whether the token raised. */
    method HandleAnalysisLine(m: Option<Sample>) returns (raised: bool)
      requires Valid()
      modifies this`analysisResults
      ensures Valid()
      ensures raised <==> m.Some? && PlaceOf(m.value.move).Raised?
      ensures analysisResults == Absorb(old(analysisResults), m)
    {
      AbsorbOk(analysisResults, m);
      if m.None? {
        return false;
      }
      var s := m.value;
      var p := PlaceOf(s.move);
      if p.Raised? {
        return true;
      }
      if p.Skipped? {
        return false;
      }
      ghost var merged := Upsert(analysisResults, s, p.col, p.row);
      var k := FindEntry(analysisResults, s.move);
      if k >= 0 {
        analysisResults := analysisResults[k := analysisResults[k].(visits := s.visits, winrate := s.winrate)];
      } else {
        analysisResults := analysisResults + [Entry(s.move, p.col, p.row, s.visits, s.winrate)];
      }
      assert analysisResults == merged;
      analysisResults := StableSort(analysisResults, ByVisits);
      if |analysisResults| > Keep {
        analysisResults := analysisResults[..Keep];
      }
      raised := false;
    }

    /** The A key: analysis is switched on (dropping old candidates) or off, and the engine told. */
    method ToggleAnalysis()
      requires Valid()
      modifies this`analyzing, this`analysisResults, this`sent
      ensures Valid()
      ensures analyzing == !old(analyzing)
      ensures analyzing ==> analysisResults == [] && sent == old(sent) + ["kata-analyze interval 50"]
      ensures !analyzing ==> analysisResults == old(analysisResults) && sent == old(sent) + ["stop"]
    {
      analyzing := !analyzing;
      if analyzing {
        analysisResults := [];
        sent := sent + ["kata-analyze interval 50"];
      } else {
        sent := sent + ["stop"];
      }
    }

    /**
     * A mouse click at pixel (`x`, `y`). With nothing selected, a click on a
     * piece of the side to move selects it and plays its square to the engine.
     * With a piece selected, a click on another piece of that side drops the
     * selection, any other board square receives the piece (the engine is told
     * and the other side is to move), and a click off the board drops the selection.
     */
    method Click(x: nat, y: nat)
      requires Valid()
      modifies this`board, this`selected, this`currentPlayer, this`sent
      ensures Valid()
      ensures var at := CellAt(x, y);
        old(selected).None? ==>
          board == old(board) && currentPlayer == old(currentPlayer) &&
          if at.Some? && Owned(currentPlayer, board[at.value.row][at.value.col])
          then selected == at && sent == old(sent) + [PlayCommand(currentPlayer, at.value)]
          else selected.None? && sent == old(sent)
      ensures old(selected).Some? ==> selected.None?
      ensures var at := CellAt(x, y);
        old(selected).Some? && (at.None? || Owned(old(currentPlayer), old(board)[at.value.row][at.value.col])) ==>
          board == old(board) && currentPlayer == old(currentPlayer) && sent == old(sent)
      ensures var at := CellAt(x, y);
        old(selected).Some? && at.Some? && !Owned(old(currentPlayer), old(board)[at.value.row][at.value.col]) ==>
          old(selected).value != at.value &&
          board == MoveCells(old(board), old(selected).value, at.value) &&
          currentPlayer == Other(old(currentPlayer)) &&
          sent == old(sent) + [PlayCommand(old(currentPlayer), at.value)]
    {
      var at := CellAt(x, y);
      if selected.None? {
        if at.Some? {
          var piece := board[at.value.row][at.value.col];
          if piece != Empty {
            if Owned(currentPlayer, piece) {
              selected := at;
              sent := sent + [PlayCommand(currentPlayer, at.value)];
            }
          }
        }
      } else {
        if at.Some? {
          var to := at.value;
          var from := selected.value;
          var target := board[to.row][to.col];
          if Owned(currentPlayer, target) {
            selected := None;
            return;
          }
          board := Write(board, to.row, to.col, board[from.row][from.col]);
          board := Write(board, from.row, from.col, Empty);
          sent := sent + [PlayCommand(currentPlayer, to)];
          currentPlayer := if currentPlayer == 'w' then 'b' else 'w';
        }
        selected := None;
      }
    }
  }
}
