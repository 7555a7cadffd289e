/**
 * The newer animal-chess client, `Dandelion` in 2.8_Lite.py: the pure helpers
 * it calls (`get_opp`, `movestr_to_pos`, the game-rule toggles, the move-limit
 * clamp and the analysis-candidate store), the game state they act on, and
 * the value-level moves and undos that the class's methods are proved against.
 */
module Lite {
  import opened Text
  import opened Grids
  import opened Ranking
  import opened RunLength
  import opened Maybe
  import opened Play
  import opened Pipe

  // ---------------------------------------------------------------------
  // Sides

  /** The opponent of a side; anything other than w or b has none. */
  function GetOpp(p: char): (q: Option<char>)
    ensures q.Some? <==> (p == 'w' || p == 'b')
    ensures q.Some? ==> (q.value == 'w' || q.value == 'b') && q.value != p
  {
    if p == 'w' then Some('b') else if p == 'b' then Some('w') else None
  }

  /** `get_opp` is its own inverse on the two sides. */
  lemma GetOppInvolution(p: char)
    requires p == 'w' || p == 'b'
    ensures GetOpp(GetOpp(p).value) == Some(p)
    ensures Other(p) == GetOpp(p).value
  {
  }

  /**
   * The side `sync_board_assume_locked` leaves to move. A resync after an
   * "illegal" reply (`undoOnce`) hands the move back to the other side, unless
   * the rejected command was a piece selection.
   */
  function ResyncSide(p: char, undoOnce: bool, pieceSelected: bool): (q: char)
    requires p == 'w' || p == 'b'
    ensures q == 'w' || q == 'b'
    ensures q != p <==> undoOnce && !pieceSelected
  {
    if undoOnce && !pieceSelected then GetOpp(p).value else p
  }

  // ---------------------------------------------------------------------
  // Engine move tokens

  /** The outcome of `movestr_to_pos`: no square, a square, or an exception that escapes. */
  datatype Coord = NoCoord | At(col: int, row: int) | Fault

  /**
   * A Go Text Protocol vertex as the engine names a square: a column letter
   * (I is skipped) and a row number counted from the bottom, 9 being the top
   * row. Tokens of another length (such as "pass") name no square; the letter I
   * and a non-numeric suffix raise.
   */
  function MoveToPos(move: string): (v: Coord)
    ensures v.NoCoord? <==> |move| != 2 && |move| != 3
    ensures v.Fault? <==> (|move| == 2 || |move| == 3) && (Upper(move[0]) == 'I' || !AllDigits(move[1..]))
    ensures v.At? ==> v.row <= Rows
  {
    if |move| != 2 && |move| != 3 then NoCoord
    else
      var col := Upper(move[0]) as int - 'A' as int;
      if col == 'I' as int - 'A' as int then Fault
      else if !AllDigits(move[1..]) then Fault
      else At(if col > 'I' as int - 'A' as int then col - 1 else col, Rows - ParseDigits(move[1..]))
  }

  /** The column letter of the vertex convention: A to H, then J onwards. */
  function ColumnLetter(col: nat): (c: char)
    requires col < 25
    ensures IsUpper(c) && c != 'I'
  {
    if col < 8 then ('A' as int + col) as char else ('A' as int + col + 1) as char
  }

  /** The engine's name for column `col` and row `row`. */
  function GtpVertex(col: nat, row: int): (vertex: string)
    requires col < 25 && 0 <= Rows - row < 100
  {
    [ColumnLetter(col)] + NatStr(Rows - row)
  }

  lemma {:induction false} NatStrShort(n: nat)
    requires n < 100
    ensures 1 <= |NatStr(n)| <= 2
  {
  }

  /** Decoding an engine vertex recovers the column and row it names. */
  lemma VertexRoundTrip(col: nat, row: int)
    requires col < 25 && 0 <= Rows - row < 100
    ensures MoveToPos(GtpVertex(col, row)) == At(col, row)
  {
    var v := GtpVertex(col, row);
    NatStrShort(Rows - row);
    assert v[1..] == NatStr(Rows - row);
    ParseNatStr(Rows - row);
  }

  /** The letter's case does not matter. */
  lemma MoveToPosCase(c: char, rest: string)
    ensures MoveToPos([Lower(c)] + rest) == MoveToPos([Upper(c)] + rest)
  {
    assert ([Lower(c)] + rest)[1..] == rest == ([Upper(c)] + rest)[1..];
  }

  /** The clients' own square names are engine vertices of the same square. */
  lemma SquareNameIsVertex(s: Square)
    requires OnBoard(s)
    ensures SquareName(s) == GtpVertex(s.col, s.row)
    ensures MoveToPos(SquareName(s)) == At(s.col, s.row)
  {
    VertexRoundTrip(s.col, s.row);
  }

  lemma MoveToPosExamples()
    ensures MoveToPos("A9") == At(0, 0)
    ensures MoveToPos("J1") == At(8, 8)
    ensures MoveToPos("g10") == At(6, -1)
    ensures MoveToPos("I5") == Fault
    ensures MoveToPos("pass") == NoCoord
  {
    assert "A9"[1..] == "9";
    assert "J1"[1..] == "1";
    assert "g10"[1..] == "10";
    assert ParseDigits("10") == ParseDigits("1") * 10 + 0;
  }

  // ---------------------------------------------------------------------
  // Game rules: bit 1 lets the lion and tiger jump over their own rat, bit 0
  // lets a rat in the water and a rat on land capture each other.

  predicate LionJump(rule: int) { rule == 2 || rule == 3 }

  predicate RatEat(rule: int) { rule == 1 || rule == 3 }

  /** The settings-menu toggle of the lion-jump option. */
  function LionToggle(rule: int): (r: Option<int>)
    ensures r.Some? <==> 0 <= rule <= 3
  {
    if rule == 0 then Some(2) else if rule == 1 then Some(3)
    else if rule == 2 then Some(0) else if rule == 3 then Some(1) else None
  }

  /** The settings-menu toggle of the rat-capture option. */
  function RatToggle(rule: int): (r: Option<int>)
    ensures r.Some? <==> 0 <= rule <= 3
  {
    if rule == 0 then Some(1) else if rule == 1 then Some(0)
    else if rule == 2 then Some(3) else if rule == 3 then Some(2) else None
  }

  /** Each toggle flips its own option, keeps the other, and is an exclusive-or on the rule bits. */
  lemma ToggleBits(rule: int)
    requires 0 <= rule <= 3
    ensures rule == (if LionJump(rule) then 2 else 0) + (if RatEat(rule) then 1 else 0)
    ensures LionJump(LionToggle(rule).value) == !LionJump(rule)
    ensures RatEat(LionToggle(rule).value) == RatEat(rule)
    ensures RatEat(RatToggle(rule).value) == !RatEat(rule)
    ensures LionJump(RatToggle(rule).value) == LionJump(rule)
    ensures LionToggle(rule).value == ((rule as bv2) ^ 2) as int
    ensures RatToggle(rule).value == ((rule as bv2) ^ 1) as int
    ensures LionToggle(LionToggle(rule).value) == Some(rule)
    ensures RatToggle(RatToggle(rule).value) == Some(rule)
  {
    if rule == 0 {
    } else if rule == 1 {
    } else if rule == 2 {
    } else {
    }
  }

  // ---------------------------------------------------------------------
  // Move limit

  /**
   * `set_movelimit`'s clamp of the remaining moves `target - movenum`: more
   * than 999 wraps to 9, fewer than 1 becomes 1, anything between is kept.
   */
  function MoveLimit(target: int, movenum: int): (ml: int)
    ensures 1 <= ml <= 999
    ensures 1 <= target - movenum <= 999 ==> ml == target - movenum
    ensures target - movenum > 999 ==> ml == 9
    ensures target - movenum < 1 ==> ml == 1
  {
    var ml := target - movenum;
    var ml := if ml > 999 then 9 else ml;
    if ml < 1 then 1 else ml
  }

  // ---------------------------------------------------------------------
  // Analysis candidates

  /** One analysed move as the analysis line reports it; win rate is kept scaled to an integer. */
  datatype Report = Report(move: string, visits: nat, winrate: int, drawrate: int, lcb: int, order: nat, pv: string)

  /** A stored candidate: the report plus the square its move names. */
  datatype Candidate = Candidate(move: string, col: int, row: int, visits: nat, winrate: int,
                                 drawrate: int, lcb: int, order: nat, pv: string)

  function CandidateOf(m: Report, col: int, row: int): (c: Candidate)
    ensures c.move == m.move && c.col == col && c.row == row
  {
    Candidate(m.move, col, row, m.visits, m.winrate, m.drawrate, m.lcb, m.order, m.pv)
  }

  function MoveOf(c: Candidate): (move: string) { c.move }

  /** The sort key: more visits first, then the higher win rate. */
  function Strength(c: Candidate): (rank: Rank) { Rank(c.visits, c.winrate) }

  /** The index of the first candidate for `move`, or -1. */
  function FindMove(store: seq<Candidate>, move: string): (i: int)
    ensures -1 <= i < |store|
    ensures i >= 0 ==> store[i].move == move
    ensures forall j :: 0 <= j < |store| && (i < 0 || j < i) ==> store[j].move != move
    decreases |store|
  {
    if store == [] then -1
    else if store[0].move == move then 0
    else var k := FindMove(store[1..], move); if k < 0 then -1 else k + 1
  }

  /**
   * A candidate entering the store: it replaces the entry for the same move
   * in place (every field is overwritten), or is appended when there is none.
   */
  function Merge(store: seq<Candidate>, c: Candidate): (r: seq<Candidate>)
    ensures c in r
    ensures forall x :: x in r ==> x == c || x in store
    ensures forall x :: x in store && x.move != c.move ==> x in r
    ensures |r| == |store| + (if FindMove(store, c.move) < 0 then 1 else 0)
    ensures Distinct(store, MoveOf) ==> Distinct(r, MoveOf)
  {
    var i := FindMove(store, c.move);
    if i < 0 then store + [c]
    else
      var r := store[i := c];
      assert r[i] == c;
      assert forall x :: x in store && x.move != c.move ==> x in r by {
        forall x | x in store && x.move != c.move ensures x in r {
          var j :| 0 <= j < |store| && store[j] == x;
          assert r[j] == x;
        }
      }
      r
  }

  /** The store after a batch of reports, and whether the batch stopped on a token that raised. */
  datatype Batch = Batch(store: seq<Candidate>, faulted: bool)

  /** The reports folded into the store in order; tokens naming no square are skipped. */
  function Absorb(store: seq<Candidate>, reports: seq<Report>): (batch: Batch)
    decreases |reports|
  {
    if reports == [] then Batch(store, false)
    else match MoveToPos(reports[0].move)
      case NoCoord => Absorb(store, reports[1..])
      case Fault => Batch(store, true)
      case At(col, row) => Absorb(Merge(store, CandidateOf(reports[0], col, row)), reports[1..])
  }

  /** Only lines mentioning info, visits and winrate are analysed. */
  predicate AnalysisLine(line: string) {
    Contains(line, "info") && Contains(line, "visits") && Contains(line, "winrate")
  }

  /**
   * The store after one analysis line: emptied first when the refresh
   * interval has passed, then the reports folded in, then sorted, unless a
   * token raised, which leaves the partly updated store unsorted.
   */
  function Refresh(store: seq<Candidate>, line: string, reports: seq<Report>, refreshDue: bool): (refreshed: seq<Candidate>) {
    if !AnalysisLine(line) then store
    else
      var b := Absorb(if refreshDue then [] else store, reports);
      if b.faulted then b.store else StableSort(b.store, Strength)
  }

  /**
   * Whether handling the line raises: a move token in column I or with a
   * non-numeric rank makes `movestr_to_pos` raise outside the `try`, so the
   * exception leaves `handle_analysis_line` and `read_output`.
   */
  predicate Raises(store: seq<Candidate>, line: string, reports: seq<Report>, refreshDue: bool) {
    AnalysisLine(line) && Absorb(if refreshDue then [] else store, reports).faulted
  }

  /** A batch stops exactly when one of its tokens raises, whatever the store holds. */
  lemma {:induction false} AbsorbFaulted(store: seq<Candidate>, reports: seq<Report>)
    ensures Absorb(store, reports).faulted <==> exists i :: 0 <= i < |reports| && MoveToPos(reports[i].move).Fault?
    decreases |reports|
  {
    if reports != [] {
      match MoveToPos(reports[0].move)
      case NoCoord =>
        AbsorbFaulted(store, reports[1..]);
        assert forall i :: 1 <= i < |reports| ==> reports[i] == reports[1..][i - 1];
      case Fault =>
      case At(col, row) =>
        AbsorbFaulted(Merge(store, CandidateOf(reports[0], col, row)), reports[1..]);
        assert forall i :: 1 <= i < |reports| ==> reports[i] == reports[1..][i - 1];
    }
  }

  /** An analysis line raises exactly when one of its move tokens is in column I or has a non-numeric rank. */
  lemma RaisesIff(store: seq<Candidate>, line: string, reports: seq<Report>, refreshDue: bool)
    ensures Raises(store, line, reports, refreshDue) <==>
      AnalysisLine(line) && exists i :: 0 <= i < |reports| && MoveToPos(reports[i].move).Fault?
  {
    AbsorbFaulted(if refreshDue then [] else store, reports);
  }

  lemma {:induction false} AbsorbDistinct(store: seq<Candidate>, reports: seq<Report>)
    requires Distinct(store, MoveOf)
    ensures Distinct(Absorb(store, reports).store, MoveOf)
    decreases |reports|
  {
    if reports != [] {
      match MoveToPos(reports[0].move)
      case NoCoord => AbsorbDistinct(store, reports[1..]);
      case Fault =>
      case At(col, row) => AbsorbDistinct(Merge(store, CandidateOf(reports[0], col, row)), reports[1..]);
    }
  }

  /** Every report whose move names a square is in the store after an unfaulted batch, or was replaced by a later report for the same move. */
  lemma {:induction false} AbsorbCovers(store: seq<Candidate>, reports: seq<Report>)
    requires !Absorb(store, reports).faulted
    ensures forall i :: 0 <= i < |reports| && MoveToPos(reports[i].move).At? ==>
      exists x :: x in Absorb(store, reports).store && x.move == reports[i].move
    decreases |reports|
  {
    if reports != [] {
      var rest := reports[1..];
      match MoveToPos(reports[0].move)
      case NoCoord =>
        AbsorbCovers(store, rest);
        forall i | 0 < i < |reports| && MoveToPos(reports[i].move).At?
          ensures exists x :: x in Absorb(store, reports).store && x.move == reports[i].move
        {
          assert reports[i] == rest[i - 1];
        }
      case At(col, row) =>
        var c := CandidateOf(reports[0], col, row);
        var merged := Merge(store, c);
        AbsorbCovers(merged, rest);
        AbsorbKeeps(merged, rest, c.move);
        forall i | 0 <= i < |reports| && MoveToPos(reports[i].move).At?
          ensures exists x :: x in Absorb(store, reports).store && x.move == reports[i].move
        {
          if i > 0 {
            assert reports[i] == rest[i - 1];
          }
        }
    }
  }

  /** A move present in the store stays present through an unfaulted batch. */
  lemma {:induction false} AbsorbKeeps(store: seq<Candidate>, reports: seq<Report>, move: string)
    requires !Absorb(store, reports).faulted
    requires exists x :: x in store && x.move == move
    ensures exists x :: x in Absorb(store, reports).store && x.move == move
    decreases |reports|
  {
    if reports != [] {
      match MoveToPos(reports[0].move)
      case NoCoord => AbsorbKeeps(store, reports[1..], move);
      case At(col, row) =>
        var c := CandidateOf(reports[0], col, row);
        var x :| x in store && x.move == move;
        if c.move == move {
          assert c in Merge(store, c);
        } else {
          assert x in Merge(store, c);
        }
        AbsorbKeeps(Merge(store, c), reports[1..], move);
    }
  }

  /** After an analysis line the store never holds two entries for one move. */
  lemma RefreshDistinct(store: seq<Candidate>, line: string, reports: seq<Report>, refreshDue: bool)
    requires Distinct(store, MoveOf)
    ensures Distinct(Refresh(store, line, reports, refreshDue), MoveOf)
  {
    if AnalysisLine(line) {
      var start := if refreshDue then [] else store;
      AbsorbDistinct(start, reports);
      var b := Absorb(start, reports);
      if !b.faulted {
        SortDistinct(b.store, Strength, MoveOf);
      }
    }
  }

  /**
   * After an analysis line whose tokens all decode, the store is ordered by
   * visits and then win rate, both non-increasing, is a permutation of the
   * merged entries, and keeps the merge order among entries that tie.
   */
  lemma RefreshSorted(store: seq<Candidate>, line: string, reports: seq<Report>, refreshDue: bool)
    requires AnalysisLine(line)
    requires !Absorb(if refreshDue then [] else store, reports).faulted
    ensures var merged := Absorb(if refreshDue then [] else store, reports).store;
      var r := Refresh(store, line, reports, refreshDue);
      Sorted(r, Strength) && multiset(r) == multiset(merged)
      && forall k :: Having(r, Strength, k) == Having(merged, Strength, k)
  {
    var merged := Absorb(if refreshDue then [] else store, reports).store;
    SortSorted(merged, Strength);
    forall k ensures Having(StableSort(merged, Strength), Strength, k) == Having(merged, Strength, k) {
      SortStable(merged, Strength, k);
    }
  }

  // ---------------------------------------------------------------------
  // Game state, moves and undo

  /** One entry of `move_history`. */
  datatype Record = Record(start: Square, end: Square, piece: char, captured: Option<char>, player: char)

  predicate RecordOk(rec: Record) {
    OnBoard(rec.start) && OnBoard(rec.end) && IsCell(rec.piece)
    && (rec.captured.Some? ==> IsPiece(rec.captured.value))
    && (rec.player == 'w' || rec.player == 'b')
  }

  /** The board and bookkeeping that moves and undos act on. */
  datatype Game = Game(grid: seq<seq<char>>, player: char, selected: Option<Square>,
                       lastMove: Option<(Square, Square)>, history: seq<Record>, movenum: int)

  predicate GameOk(s: Game) {
    WellFormed(s.grid) && (s.player == 'w' || s.player == 'b')
    && (s.selected.Some? ==> OnBoard(s.selected.value))
    && forall i :: 0 <= i < |s.history| ==> RecordOk(s.history[i])
  }

  function CapturedOf(c: char): (r: Option<char>)
    ensures r.None? <==> c == Empty
    ensures r.Some? ==> r.value == c
  {
    if c != Empty then Some(c) else None
  }

  /** The selected piece moves to `to`; the move is recorded and the other side is to move. */
  function MoveGame(s: Game, to: Square): (t: Game)
    requires GameOk(s) && s.selected.Some? && OnBoard(to)
    ensures GameOk(t)
    ensures t.selected.None? && |t.history| == |s.history| + 1 && t.movenum == s.movenum + 1
    ensures t.player != s.player
  {
    var from := s.selected.value;
    var g := MoveCells(s.grid, from, to);
    Game(g, Other(s.player), None, Some((from, to)),
         s.history + [Record(from, to, g[to.row][to.col], CapturedOf(s.grid[to.row][to.col]), s.player)],
         s.movenum + 1)
  }

  /** The grid with a recorded move taken back: the piece returns and the captured piece reappears. */
  function UndoCells(g: seq<seq<char>>, rec: Record): (h: seq<seq<char>>)
    requires Shaped(g, Rows, Cols) && OnBoard(rec.start) && OnBoard(rec.end)
    ensures Shaped(h, Rows, Cols)
    ensures WellFormed(g) && RecordOk(rec) ==> WellFormed(h)
  {
    var captured := if rec.captured.Some? then rec.captured.value else Empty;
    Write(Write(g, rec.start.row, rec.start.col, rec.piece), rec.end.row, rec.end.col, captured)
  }

  /** `undo_move`: nothing happens while a piece is selected or when there is no move to take back. */
  function UndoGame(s: Game): (t: Game)
    requires GameOk(s)
    ensures GameOk(t)
    ensures s.selected.Some? || s.history == [] ==> t == s
    ensures s.selected.None? && s.history != [] ==>
      t.history == s.history[..|s.history| - 1] && t.movenum == s.movenum - 1
      && t.player == s.history[|s.history| - 1].player && t.selected.None? && t.lastMove.None?
  {
    if s.selected.Some? || s.history == [] then s
    else
      var rec := s.history[|s.history| - 1];
      Game(UndoCells(s.grid, rec), rec.player, None, None, s.history[..|s.history| - 1], s.movenum - 1)
  }

  /**
   * Undo is the inverse of a move: taking back a move of the selected piece to
   * another square restores the board, the side to move, the move count and
   * the history, leaving no selection and no last-move marker.
   */
  lemma UndoAfterMove(s: Game, to: Square)
    requires GameOk(s) && s.selected.Some? && OnBoard(to) && s.selected.value != to
    ensures UndoGame(MoveGame(s, to)) == s.(selected := None, lastMove := None)
  {
    var from := s.selected.value;
    var moved := MoveGame(s, to);
    var rec := moved.history[|moved.history| - 1];
    assert rec.piece == s.grid[from.row][from.col];
    var back := UndoCells(moved.grid, rec);
    forall r, c | 0 <= r < Rows && 0 <= c < Cols ensures back[r][c] == s.grid[r][c] {
      if Square(r, c) == to {
      } else if Square(r, c) == from {
      }
    }
    GridExt(back, s.grid, Rows, Cols);
    assert moved.history[..|moved.history| - 1] == s.history;
  }

  // ---------------------------------------------------------------------
  // The session

  /** The square a click on column `col`, row `row` of the drawn board lands on. */
  function Aim(flip: bool, col: int, row: int): (at: Option<Square>)
    ensures at.Some? ==> OnBoard(at.value)
    ensures at.Some? <==> (0 <= col < Cols && 0 <= row < Rows)
    ensures !flip && at.Some? ==> at.value == Square(row, col)
  {
    var c := if flip then Cols - 1 - col else col;
    var r := if flip then Rows - 1 - row else row;
    if 0 <= c < Cols && 0 <= r < Rows then Some(Square(r, c)) else None
  }

  /** The flipped view is the board turned half a turn. */
  lemma AimFlipped(col: int, row: int)
    ensures Aim(true, col, row) == Aim(false, Cols - 1 - col, Rows - 1 - row)
  {
  }

  /** What a board click does: nothing, select a piece, drop the selection, or move. */
  datatype Click = Ignore | Pick(at: Square) | Cancel | Go(to: Square)

  function ClickOf(s: Game, at: Option<Square>): (k: Click)
    requires GameOk(s) && (at.Some? ==> OnBoard(at.value))
    ensures k.Pick? ==> s.selected.None? && at == Some(k.at) && Owned(s.player, s.grid[k.at.row][k.at.col])
    ensures k.Go? ==> s.selected.Some? && at == Some(k.to) && !Owned(s.player, s.grid[k.to.row][k.to.col])
    ensures k.Cancel? ==> s.selected.Some? && at.Some? && Owned(s.player, s.grid[at.value.row][at.value.col])
    ensures k.Ignore? <==> at.None? || (s.selected.None? && !Owned(s.player, s.grid[at.value.row][at.value.col]))
  {
    if at.None? then Ignore
    else
      var cell := s.grid[at.value.row][at.value.col];
      if s.selected.None? then
        (if cell != Empty && Owned(s.player, cell) then Pick(at.value) else Ignore)
      else if Owned(s.player, cell) then Cancel
      else Go(at.value)
  }

  /** The engine line that resynchronises the engine to a board and side. */
  function SetfenLine(g: seq<seq<char>>, side: char): (line: string) { "setfen " + EncodeFen(g, side) }

  lemma SetfenOneLine(g: seq<seq<char>>, side: char)
    requires WellFormed(g) && (side == 'w' || side == 'b')
    ensures '\n' !in SetfenLine(g, side)
  {
    EncodeBoardShape(g);
    var b := EncodeBoard(g);
    var line := SetfenLine(g, side);
    assert line == "setfen " + b + " " + [side];
    forall i | 0 <= i < |line| ensures line[i] != '\n' {
      if 7 <= i < 7 + |b| {
        assert line[i] == b[i - 7];
      }
    }
  }

  /** The engine lines `set_aggressive_mode` sends for each mode. */
  function KomiLines(mode: int): (lines: seq<string>) {
    if mode == 0 then ["komi 0.0", "kata-set-param playoutDoublingAdvantage 0.0"]
    else if mode == 1 then ["komi 9.0", "kata-set-param playoutDoublingAdvantage -1.5"]
    else if mode == -1 then ["komi -9.0", "kata-set-param playoutDoublingAdvantage 1.5"]
    else []
  }

  lemma KomiOneLine(mode: int)
    ensures forall i :: 0 <= i < |KomiLines(mode)| ==> '\n' !in KomiLines(mode)[i]
  {
    if mode == 0 {
      assert '\n' !in "komi 0.0" && '\n' !in "kata-set-param playoutDoublingAdvantage 0.0";
    } else if mode == 1 {
      assert '\n' !in "komi 9.0" && '\n' !in "kata-set-param playoutDoublingAdvantage -1.5";
    } else if mode == -1 {
      assert '\n' !in "komi -9.0" && '\n' !in "kata-set-param playoutDoublingAdvantage 1.5";
    }
  }

  /**
   * `prefix` followed by the traffic of `set_movelimit(300)` and
   * `set_aggressive_mode(0)` on a game that has not moved yet.
   */
  function LimitLines(prefix: seq<string>, g: seq<seq<char>>, side: char, analyzing: bool): (lines: seq<string>) {
    prefix + [SetfenLine(g, side)] + ["mm " + NatStr(300)] + ["mc 0"] + AnalyzeIf(analyzing)
    + KomiLines(0) + AnalyzeIf(analyzing)
  }

  /** `prefix` followed by the traffic of `set_game_rule(0)` and `set_game_drawrule("WEIGHT")`. */
  function RuleLines(prefix: seq<string>, g: seq<seq<char>>, side: char, analyzing: bool): (lines: seq<string>) {
    prefix + [SetfenLine(g, side)] + ["kata-set-rule scoring " + NatStr(0)] + AnalyzeIf(analyzing)
    + [SetfenLine(g, side)] + ["kata-set-rule drawjudge " + "WEIGHT"] + AnalyzeIf(analyzing)
  }

  /**
   * The engine traffic of a new session on board `g` with `side` to move:
   * `start_katago`'s command, then the move limit of 300, aggressiveness 0,
   * scoring rule 0 and draw rule WEIGHT, each followed by an analysis request
   * while analysis is on.
   */
  function StartUpLines(g: seq<seq<char>>, side: char, analyzing: bool): (lines: seq<string>) {
    RuleLines(LimitLines(["showboard"] + AnalyzeIf(analyzing), g, side, analyzing), g, side, analyzing)
  }

  /** The settings a session keeps besides the game itself, and the error dialog. */
  datatype Settings = Settings(analyzing: bool, flipBoard: bool, gameRule: int, movenumLimit: int,
                               aggressiveMode: int, drawRule: string, error: Option<FenError>)

  /** The index of the first stored candidate for `move`, or -1: the generator search of the source. */
  method IndexOfMove(store: seq<Candidate>, move: string) returns (k: int)
    ensures k == FindMove(store, move)
  {
    k := 0;
    while k < |store| && store[k].move != move
      invariant 0 <= k <= |store|
      invariant forall j :: 0 <= j < k ==> store[j].move != move
    {
      k := k + 1;
    }
    if k == |store| {
      k := -1;
    }
  }

  /** The per-report loop of `handle_analysis_line`; a token that raises ends it early. */
  method AbsorbReports(store: seq<Candidate>, reports: seq<Report>) returns (b: Batch)
    ensures b == Absorb(store, reports)
  {
    var cur := store;
    var i := 0;
    while i < |reports|
      invariant 0 <= i <= |reports|
      invariant Absorb(store, reports) == Absorb(cur, reports[i..])
    {
      assert reports[i..][0] == reports[i] && reports[i..][1..] == reports[i + 1..];
      var report := reports[i];
      var pos := MoveToPos(report.move);
      if pos.Fault? {
        return Batch(cur, true);
      }
      if pos.At? {
        var k := IndexOfMove(cur, report.move);
        var c := CandidateOf(report, pos.col, pos.row);
        ghost var merged := Merge(cur, c);
        if k >= 0 {
          cur := cur[k := c];
        } else {
          cur := cur + [c];
        }
        assert cur == merged;
      }
      i := i + 1;
    }
    assert reports[i..] == [];
    return Batch(cur, false);
  }

  class Dandelion {
    var board: seq<seq<char>>
    var currentPlayer: char
    var selected: Option<Square>
    var lastMove: Option<(Square, Square)>
    var flipBoard: bool
    var history: seq<Record>
    var analyzing: bool
    var analysisResults: seq<Candidate>
    var currentMovenum: int
    var movenumLimit: int
    var gameRule: int
    var drawRule: string
    var aggressiveMode: int
    var error: Option<FenError>
    /** Whether the thread running `read_output` is still alive: an exception out of a line ends it for good. */
    var reading: bool
    /** Every line written to the engine's standard input so far, oldest first, without its line break. */
    ghost var sent: seq<string>

    ghost function State(): (game: Game)
      reads this`board, this`currentPlayer, this`selected, this`lastMove, this`history, this`currentMovenum
    {
      Game(board, currentPlayer, selected, lastMove, history, currentMovenum)
    }

    ghost function Config(): (settings: Settings)
      reads this`analyzing, this`flipBoard, this`gameRule, this`movenumLimit, this`aggressiveMode
      reads this`drawRule, this`error
    {
      Settings(analyzing, flipBoard, gameRule, movenumLimit, aggressiveMode, drawRule, error)
    }

    ghost predicate Valid()
      reads this`board, this`currentPlayer, this`selected, this`lastMove, this`history, this`currentMovenum
      reads this`gameRule, this`movenumLimit, this`analysisResults
    {
      GameOk(State())
      && 0 <= gameRule <= 3 && 1 <= movenumLimit <= 999
      && Distinct(analysisResults, MoveOf)
    }

    /** The selected square, if any, holds a piece of the side to move. */
    ghost predicate SelectionHeld()
      reads this`board, this`currentPlayer, this`selected, this`lastMove, this`history, this`currentMovenum
      reads this`gameRule, this`movenumLimit, this`analysisResults
      requires Valid()
    {
      selected.Some? ==> Owned(currentPlayer, board[selected.value.row][selected.value.col])
    }

    /** `__init__` without the window: the opening position and the engine start-up traffic. */
    constructor ()
      ensures Valid()
      ensures State() == Game(InitialRows, 'w', None, None, [], 0)
      ensures analyzing && !flipBoard && gameRule == 0 && movenumLimit == 300 && aggressiveMode == 0
      ensures drawRule == "WEIGHT" && error.None? && analysisResults == [] && reading
      ensures sent == StartUpLines(board, currentPlayer, analyzing)
    {
      board := InitialRows;
      currentPlayer := 'w';
      selected := None;
      lastMove := None;
      flipBoard := false;
      history := [];
      analyzing := true;
      analysisResults := [];
      currentMovenum := 0;
      movenumLimit := 300;
      gameRule := 0;
      drawRule := "";
      aggressiveMode := 0;
      error := None;
      reading := true;
      sent := [];
      new;
      InitialWellFormed();
      StartUp();
    }

    /** `start_katago`'s first command and the engine settings `__init__` applies after it. */
    method StartUp()
      requires Valid() && selected.None? && currentMovenum == 0 && sent == []
      modifies this`currentMovenum, this`currentPlayer, this`analysisResults, this`selected, this`sent
      modifies this`movenumLimit, this`aggressiveMode, this`gameRule, this`drawRule
      ensures Valid() && currentPlayer == old(currentPlayer) && selected.None? && currentMovenum == 0
      ensures analysisResults == []
      ensures movenumLimit == 300 && aggressiveMode == 0 && gameRule == 0 && drawRule == "WEIGHT"
      ensures sent == StartUpLines(board, currentPlayer, analyzing)
    {
      SendLine("showboard");
      ResumeAnalysis();
      assert sent == ["showboard"] + AnalyzeIf(analyzing);
      InitialSettings();
    }

    /** The four settings `__init__` applies once the engine has started. */
    method InitialSettings()
      requires Valid() && selected.None? && currentMovenum == 0
      modifies this`currentMovenum, this`currentPlayer, this`analysisResults, this`selected, this`sent
      modifies this`movenumLimit, this`aggressiveMode, this`gameRule, this`drawRule
      ensures Valid() && currentPlayer == old(currentPlayer) && selected.None? && currentMovenum == 0
      ensures analysisResults == []
      ensures movenumLimit == 300 && aggressiveMode == 0 && gameRule == 0 && drawRule == "WEIGHT"
      ensures sent == RuleLines(LimitLines(old(sent), board, currentPlayer, analyzing), board, currentPlayer, analyzing)
    {
      InitialLimits();
      InitialRules();
    }

    /** The move limit and aggressiveness `__init__` sets on a fresh opening position. */
    method InitialLimits()
      requires Valid() && selected.None? && currentMovenum == 0
      modifies this`currentMovenum, this`currentPlayer, this`analysisResults, this`selected, this`sent
      modifies this`movenumLimit, this`aggressiveMode
      ensures Valid() && currentPlayer == old(currentPlayer) && selected.None? && currentMovenum == 0
      ensures analysisResults == []
      ensures movenumLimit == 300 && aggressiveMode == 0
      ensures sent == LimitLines(old(sent), board, currentPlayer, analyzing)
    {
      SetMovelimit(300);
      SetAggressiveMode(0);
    }

    /** The scoring and draw rules `__init__` sets on a fresh opening position. */
    method InitialRules()
      requires Valid() && selected.None? && currentMovenum == 0
      modifies this`currentMovenum, this`currentPlayer, this`analysisResults, this`selected, this`sent
      modifies this`gameRule, this`drawRule
      ensures Valid() && currentPlayer == old(currentPlayer) && selected.None? && currentMovenum == 0
      ensures analysisResults == []
      ensures gameRule == 0 && drawRule == "WEIGHT"
      ensures sent == RuleLines(old(sent), board, currentPlayer, analyzing)
    {
      SetGameRule(0);
      SetGameDrawrule("WEIGHT");
    }

    /**
     * `try_send_command`: the text is cut at every line break and each piece is
     * written as a line of its own, so a trailing break yields an empty line.
     */
    method TrySendCommand(cmds: string)
      modifies this`sent
      ensures '\n' in cmds ==> sent == old(sent) + Split(cmds, '\n')
      ensures '\n' !in cmds ==> sent == old(sent) + [cmds]
    {
      var parts := Split(cmds, '\n');
      for i := 0 to |parts|
        invariant sent == old(sent) + parts[..i]
      {
        sent := sent + [parts[i]];
      }
      assert parts[..|parts|] == parts;
      if '\n' !in cmds {
        SingleLine(cmds);
      }
    }

    /** `try_send_command` for a command without a line break: exactly that line is written. */
    method SendLine(cmd: string)
      requires '\n' !in cmd
      modifies this`sent
      ensures sent == old(sent) + [cmd]
    {
      TrySendCommand(cmd);
    }

    /** The analysis request that follows most commands while analysis is on. */
    method ResumeAnalysis()
      modifies this`sent
      ensures sent == old(sent) + AnalyzeIf(analyzing)
    {
      AnalyzeOneLine();
      if analyzing {
        SendLine(Analyze);
      }
    }

    /** `get_fen`: the board text, followed by the side to move when `hasPla`. */
    method GetFen(hasPla: bool) returns (fen: string)
      ensures fen == if hasPla then EncodeFen(board, currentPlayer) else EncodeBoard(board)
    {
      fen := EncodeGrid(board);
      if hasPla {
        fen := fen + " " + [currentPlayer];
      }
    }

    /**
     * `sync_board_assume_locked`: the move count restarts, selection and
     * candidates are dropped, the side is settled and the engine is told the
     * position.
     */
    method SyncBoardAssumeLocked(undoOnce: bool)
      requires Valid()
      modifies this`currentMovenum, this`currentPlayer, this`analysisResults, this`selected, this`sent
      ensures Valid()
      ensures State() == old(State()).(player := ResyncSide(old(currentPlayer), undoOnce, old(selected).Some?),
                                       selected := None, movenum := 0)
      ensures analysisResults == []
      ensures sent == old(sent) + [SetfenLine(board, currentPlayer)]
    {
      currentMovenum := 0;
      var next := currentPlayer;
      if undoOnce {
        next := if selected.Some? then currentPlayer else GetOpp(currentPlayer).value;
      }
      analysisResults := [];
      selected := None;
      currentPlayer := next;
      var fen := GetFen(false);
      SetfenOneLine(board, next);
      assert "setfen " + (fen + " " + [next]) == SetfenLine(board, next);
      SendLine("setfen " + (fen + " " + [next]));
    }

    /** `swap_side`: the other side is to move, and the engine is resynchronised. */
    method SwapSide()
      requires Valid()
      modifies this`currentMovenum, this`currentPlayer, this`analysisResults, this`selected, this`sent
      ensures Valid()
      ensures State() == old(State()).(player := Other(old(currentPlayer)), selected := None, movenum := 0)
      ensures analysisResults == []
      ensures sent == old(sent) + [SetfenLine(board, currentPlayer)] + AnalyzeIf(analyzing)
    {
      currentPlayer := GetOpp(currentPlayer).value;
      SyncBoardAssumeLocked(false);
      ResumeAnalysis();
    }

    /** `set_aggressive_mode`: komi and playout advantage for the mode; the board is not resent. */
    method SetAggressiveMode(mode: int)
      modifies this`aggressiveMode, this`sent
      ensures aggressiveMode == mode
      ensures sent == old(sent) + KomiLines(mode) + AnalyzeIf(analyzing)
    {
      aggressiveMode := mode;
      if aggressiveMode == 0 || aggressiveMode == 1 || aggressiveMode == -1 {
        var lines := KomiLines(aggressiveMode);
        KomiOneLine(aggressiveMode);
        SendLine(lines[0]);
        SendLine(lines[1]);
      }
      ResumeAnalysis();
    }

    /**
     * `set_movelimit`: the limit is the clamped number of moves left, computed
     * before the resync zeroes the move count; the engine gets the position,
     * the limit and a zero move count.
     */
    method SetMovelimit(target: int)
      requires Valid()
      modifies this`currentMovenum, this`currentPlayer, this`analysisResults, this`selected, this`sent
      modifies this`movenumLimit
      ensures Valid()
      ensures movenumLimit == MoveLimit(target, old(currentMovenum))
      ensures State() == old(State()).(selected := None, movenum := 0)
      ensures analysisResults == []
      ensures sent == old(sent)
        + [SetfenLine(board, currentPlayer)] + ["mm " + NatStr(movenumLimit)] + ["mc 0"] + AnalyzeIf(analyzing)
    {
      var limit := target - currentMovenum;
      if limit > 999 {
        limit := 9;
      }
      if limit < 1 {
        limit := 1;
      }
      SyncBoardAssumeLocked(false);
      movenumLimit := limit;
      var digits := NatStr(limit);
      assert '\n' !in "mm " + digits by {
        assert forall i :: 3 <= i < 3 + |digits| ==> ("mm " + digits)[i] == digits[i - 3];
      }
      SendLine("mm " + digits);
      SendLine("mc 0");
      ResumeAnalysis();
    }

    /** `set_game_rule`, for the four rule numbers the client uses. */
    method SetGameRule(rule: int)
      requires Valid() && 0 <= rule <= 3
      modifies this`currentMovenum, this`currentPlayer, this`analysisResults, this`selected, this`sent
      modifies this`gameRule
      ensures Valid() && gameRule == rule
      ensures State() == old(State()).(selected := None, movenum := 0)
      ensures analysisResults == []
      ensures sent == old(sent)
        + [SetfenLine(board, currentPlayer)] + ["kata-set-rule scoring " + NatStr(rule)] + AnalyzeIf(analyzing)
    {
      SyncBoardAssumeLocked(false);
      gameRule := rule;
      var digits := NatStr(rule);
      assert '\n' !in "kata-set-rule scoring " + digits by {
        assert forall i :: 22 <= i < 22 + |digits| ==> ("kata-set-rule scoring " + digits)[i] == digits[i - 22];
      }
      SendLine("kata-set-rule scoring " + digits);
      ResumeAnalysis();
    }

    /** The settings-menu click on the lion-jump option: flips that option and keeps the rat option. */
    method ToggleLionJump()
      requires Valid()
      modifies this`currentMovenum, this`currentPlayer, this`analysisResults, this`selected, this`sent
      modifies this`gameRule
      ensures Valid()
      ensures gameRule == LionToggle(old(gameRule)).value
      ensures LionJump(gameRule) == !old(LionJump(gameRule)) && RatEat(gameRule) == old(RatEat(gameRule))
      ensures State() == old(State()).(selected := None, movenum := 0)
      ensures analysisResults == []
      ensures sent == old(sent)
        + [SetfenLine(board, currentPlayer)] + ["kata-set-rule scoring " + NatStr(gameRule)] + AnalyzeIf(analyzing)
    {
      ToggleBits(gameRule);
      SetGameRule(LionToggle(gameRule).value);
    }

    /** The settings-menu click on the rat-capture option: flips that option and keeps the lion option. */
    method ToggleRatEat()
      requires Valid()
      modifies this`currentMovenum, this`currentPlayer, this`analysisResults, this`selected, this`sent
      modifies this`gameRule
      ensures Valid()
      ensures gameRule == RatToggle(old(gameRule)).value
      ensures RatEat(gameRule) == !old(RatEat(gameRule)) && LionJump(gameRule) == old(LionJump(gameRule))
      ensures State() == old(State()).(selected := None, movenum := 0)
      ensures analysisResults == []
      ensures sent == old(sent)
        + [SetfenLine(board, currentPlayer)] + ["kata-set-rule scoring " + NatStr(gameRule)] + AnalyzeIf(analyzing)
    {
      ToggleBits(gameRule);
      SetGameRule(RatToggle(gameRule).value);
    }

    /** `set_game_drawrule`. */
    method SetGameDrawrule(rule: string)
      requires Valid()
      modifies this`currentMovenum, this`currentPlayer, this`analysisResults, this`selected, this`sent
      modifies this`drawRule
      ensures Valid() && drawRule == rule
      ensures State() == old(State()).(selected := None, movenum := 0)
      ensures analysisResults == []
      ensures '\n' !in rule ==>
        sent == old(sent) + [SetfenLine(board, currentPlayer)] + ["kata-set-rule drawjudge " + rule] + AnalyzeIf(analyzing)
      ensures '\n' in rule ==>
        sent == old(sent) + [SetfenLine(board, currentPlayer)] + Split("kata-set-rule drawjudge " + rule, '\n') + AnalyzeIf(analyzing)
    {
      SyncBoardAssumeLocked(false);
      drawRule := rule;
      if '\n' !in rule {
        assert '\n' !in "kata-set-rule drawjudge ";
        assert '\n' !in "kata-set-rule drawjudge " + rule;
      }
      TrySendCommand("kata-set-rule drawjudge " + rule);
      ResumeAnalysis();
    }

    /** The game half of `restart_game`: the opening position with no history. */
    method ClearGame()
      requires Valid()
      modifies this`board, this`selected, this`currentPlayer, this`lastMove, this`analysisResults
      modifies this`currentMovenum, this`history
      ensures Valid()
      ensures State() == Game(InitialRows, 'w', None, None, [], 0) && analysisResults == []
    {
      InitialWellFormed();
      board := InitialRows;
      selected := None;
      currentPlayer := 'w';
      lastMove := None;
      analysisResults := [];
      currentMovenum := 0;
      history := [];
    }

    /** `restart_game`: the opening position, empty history, and a move limit of 300. */
    method RestartGame()
      requires Valid()
      modifies this`board, this`selected, this`currentPlayer, this`lastMove, this`analysisResults
      modifies this`currentMovenum, this`history, this`sent, this`movenumLimit
      ensures Valid()
      ensures State() == Game(InitialRows, 'w', None, None, [], 0) && movenumLimit == 300
      ensures analysisResults == []
      ensures sent == old(sent)
        + ["clear_board"] + [SetfenLine(InitialRows, 'w')] + ["mm " + NatStr(300)] + ["mc 0"] + AnalyzeIf(analyzing)
    {
      ClearGame();
      SendLine("clear_board");
      SetMovelimit(300);
    }

    /** `unselect`: with a piece selected, the candidates are dropped and the selection is taken back from the engine. */
    method Unselect(sendCommand: bool)
      requires Valid()
      modifies this`analysisResults, this`sent
      ensures Valid()
      ensures old(selected).None? ==> analysisResults == old(analysisResults) && sent == old(sent)
      ensures old(selected).Some? ==>
        analysisResults == [] &&
        sent == old(sent) + (if sendCommand then ["undo"] + AnalyzeIf(analyzing) else [])
    {
      if selected.None? {
        return;
      }
      analysisResults := [];
      if sendCommand {
        SendLine("undo");
        ResumeAnalysis();
      }
    }

    /** The selection half of `mouse_click_loc`: the piece is selected and its square is played to the engine. */
    method PickPiece(at: Square)
      requires Valid() && selected.None? && OnBoard(at) && Owned(currentPlayer, board[at.row][at.col])
      modifies this`selected, this`analysisResults, this`sent
      ensures Valid() && SelectionHeld()
      ensures selected == Some(at) && analysisResults == []
      ensures sent == old(sent) + [PlayCommand(currentPlayer, at), ""] + AnalyzeIf(analyzing)
    {
      selected := Some(at);
      PlayCommandOneLine(currentPlayer, at);
      TrailingBreak(PlayCommand(currentPlayer, at));
      TrySendCommand(PlayCommand(currentPlayer, at) + "\n");
      analysisResults := [];
      ResumeAnalysis();
    }

    /** The board and history half of a move: the selected piece goes to `to` and the move is recorded. */
    method Relocate(to: Square)
      requires Valid() && selected.Some? && OnBoard(to)
      modifies this`board, this`lastMove, this`currentMovenum, this`history, this`currentPlayer
      ensures Valid()
      ensures State().(selected := None) == MoveGame(old(State()), to)
    {
      ghost var before := State();
      var from := selected.value;
      var target := board[to.row][to.col];
      var captured := if target != Empty then Some(target) else None;
      board := Write(board, to.row, to.col, board[from.row][from.col]);
      board := Write(board, from.row, from.col, Empty);
      lastMove := Some((from, to));
      currentMovenum := currentMovenum + 1;
      history := history + [Record(from, to, board[to.row][to.col], captured, currentPlayer)];
      currentPlayer := if currentPlayer == 'w' then 'b' else 'w';
      assert State().(selected := None) == MoveGame(before, to);
    }

    /** The move half of `mouse_click_loc`: the selected piece moves, the engine is told, and the candidates are dropped. */
    method MoveSelected(to: Square)
      requires Valid() && selected.Some? && OnBoard(to)
      modifies this`board, this`lastMove, this`currentMovenum, this`history, this`currentPlayer
      modifies this`analysisResults, this`sent
      ensures Valid()
      ensures State().(selected := None) == MoveGame(old(State()), to)
      ensures analysisResults == []
      ensures sent == old(sent) + [PlayCommand(old(currentPlayer), to)] + AnalyzeIf(analyzing)
    {
      PlayCommandOneLine(currentPlayer, to);
      SendLine(PlayCommand(currentPlayer, to));
      analysisResults := [];
      ResumeAnalysis();
      Relocate(to);
    }

    /**
     * `mouse_click_loc`: a click first selects a piece of the side to move,
     * then either drops the selection (a click on another piece of that side)
     * or moves the selected piece there, recording the move for undo.
     */
    method MouseClickLoc(col: int, row: int)
      requires Valid()
      modifies this`board, this`lastMove, this`currentMovenum, this`history, this`currentPlayer
      modifies this`analysisResults, this`sent, this`selected
      ensures Valid()
      ensures old(SelectionHeld()) ==> SelectionHeld()
      ensures ClickOf(old(State()), Aim(flipBoard, col, row)).Ignore? ==>
        State() == old(State()) && analysisResults == old(analysisResults) && sent == old(sent)
      ensures var k := ClickOf(old(State()), Aim(flipBoard, col, row));
        k.Pick? ==>
          State() == old(State()).(selected := Some(k.at)) && analysisResults == [] &&
          sent == old(sent) + [PlayCommand(old(currentPlayer), k.at), ""] + AnalyzeIf(analyzing)
      ensures ClickOf(old(State()), Aim(flipBoard, col, row)).Cancel? ==>
        State() == old(State()).(selected := None) && analysisResults == [] &&
        sent == old(sent) + ["undo"] + AnalyzeIf(analyzing)
      ensures var k := ClickOf(old(State()), Aim(flipBoard, col, row));
        k.Go? ==>
          State() == MoveGame(old(State()), k.to) && analysisResults == [] &&
          sent == old(sent) + [PlayCommand(old(currentPlayer), k.to)] + AnalyzeIf(analyzing)
      ensures var k := ClickOf(old(State()), Aim(flipBoard, col, row));
        old(SelectionHeld()) && k.Go? ==> old(selected).value != k.to
    {
      var aim := Aim(flipBoard, col, row);
      if aim.None? {
        return;
      }
      var at := aim.value;
      if selected.None? {
        var piece := board[at.row][at.col];
        if piece != Empty {
          if Owned(currentPlayer, piece) {
            PickPiece(at);
          }
        }
      } else {
        Release(at);
      }
    }

    /**
     * The second click of `mouse_click_loc`: a square holding a piece of the
     * side to move drops the selection, any other square receives the selected
     * piece; either way the selection and the candidates are cleared.
     */
    method Release(at: Square)
      requires Valid() && selected.Some? && OnBoard(at)
      modifies this`board, this`lastMove, this`currentMovenum, this`history, this`currentPlayer
      modifies this`analysisResults, this`sent, this`selected
      ensures Valid() && selected.None? && analysisResults == []
      ensures Owned(old(currentPlayer), old(board)[at.row][at.col]) ==>
        State() == old(State()).(selected := None) && sent == old(sent) + ["undo"] + AnalyzeIf(analyzing)
      ensures !Owned(old(currentPlayer), old(board)[at.row][at.col]) ==>
        State() == MoveGame(old(State()), at) && sent == old(sent) + [PlayCommand(old(currentPlayer), at)] + AnalyzeIf(analyzing)
    {
      var target := board[at.row][at.col];
      if Owned(currentPlayer, target) {
        Unselect(true);
      } else {
        MoveSelected(at);
      }
      analysisResults := [];
      selected := None;
    }

    /** The board half of `undo_move`: the last record is popped and its move taken back. */
    method TakeBack()
      requires Valid() && selected.None? && history != []
      modifies this`board, this`history, this`currentPlayer, this`selected, this`lastMove, this`currentMovenum
      ensures Valid() && State() == UndoGame(old(State()))
    {
      ghost var before := State();
      var last := history[|history| - 1];
      ghost var restored := UndoCells(board, last);
      history := history[..|history| - 1];
      board := Write(board, last.start.row, last.start.col, last.piece);
      if last.captured.Some? {
        board := Write(board, last.end.row, last.end.col, last.captured.value);
      } else {
        board := Write(board, last.end.row, last.end.col, Empty);
      }
      assert board == restored;
      currentPlayer := last.player;
      selected := None;
      lastMove := None;
      currentMovenum := currentMovenum - 1;
      assert State() == UndoGame(before);
    }

    /** `undo_move`: takes back the last recorded move unless a piece is selected or there is none. */
    method UndoMove()
      requires Valid()
      modifies this`board, this`history, this`currentPlayer, this`selected, this`lastMove, this`currentMovenum
      modifies this`sent, this`analysisResults
      ensures Valid() && State() == UndoGame(old(State()))
      ensures old(selected).Some? || old(history) == [] ==>
        analysisResults == old(analysisResults) && sent == old(sent)
      ensures old(selected).None? && old(history) != [] ==>
        analysisResults == [] && sent == old(sent) + ["undo"] + ["undo"] + AnalyzeIf(analyzing)
    {
      if selected.Some? {
        return;
      }
      if |history| == 0 {
        return;
      }
      TakeBack();
      SendLine("undo");
      SendLine("undo");
      analysisResults := [];
      ResumeAnalysis();
    }

    /** The state update of `apply_fen`: the parsed position with no selection, marker or history. */
    method Reposition(p: Position)
      requires Valid() && WellFormed(p.grid) && (p.side == 'w' || p.side == 'b')
      modifies this`board, this`currentPlayer, this`selected, this`lastMove, this`currentMovenum, this`history
      ensures Valid() && State() == Game(p.grid, p.side, None, None, [], 0)
    {
      board := p.grid;
      currentPlayer := p.side;
      selected := None;
      lastMove := None;
      currentMovenum := 0;
      history := [];
    }

    /**
     * The success path of `apply_fen`: the parsed position replaces the board (a
     * new grid), the side to move and all move bookkeeping, and is sent to the
     * engine, once by the resync and once more in full.
     */
    method LoadPosition(p: Position)
      requires Valid() && WellFormed(p.grid) && (p.side == 'w' || p.side == 'b')
      modifies this`board, this`currentPlayer, this`selected, this`lastMove, this`currentMovenum, this`history
      modifies this`analysisResults, this`sent
      ensures Valid() && State() == Game(p.grid, p.side, None, None, [], 0) && analysisResults == []
      ensures sent == old(sent) + [SetfenLine(p.grid, p.side)] + [SetfenLine(p.grid, p.side)] + AnalyzeIf(analyzing)
    {
      Reposition(p);
      SyncBoardAssumeLocked(false);
      var text := GetFen(true);
      SetfenOneLine(p.grid, p.side);
      SendLine("setfen " + text);
      ResumeAnalysis();
    }

    /**
     * `apply_fen`: a text that parses is loaded; one that does not shows the
     * error and changes nothing else.
     */
    method ApplyFen(fen: string)
      requires Valid()
      modifies this`board, this`currentPlayer, this`selected, this`lastMove, this`currentMovenum, this`history
      modifies this`analysisResults, this`sent, this`error
      ensures Valid()
      ensures ParseFen(fen).Err? ==>
        error == Some(ParseFen(fen).error) && State() == old(State())
        && analysisResults == old(analysisResults) && sent == old(sent)
      ensures ParseFen(fen).Ok? ==>
        var p := ParseFen(fen).value;
        error == old(error)
        && State() == Game(p.grid, p.side, None, None, [], 0) && analysisResults == []
        && sent == old(sent) + [SetfenLine(p.grid, p.side)] + [SetfenLine(p.grid, p.side)] + AnalyzeIf(analyzing)
    {
      var parsed := ParseFenText(fen);
      if parsed.Err? {
        error := Some(parsed.error);
        return;
      }
      ParseFenWellFormed(fen);
      LoadPosition(parsed.value);
    }

    /**
     * `read_output` for one engine line: analysis lines feed the store, an
     * "illegal" reply forces a resync. A line that raises ends the reader, so
     * no later line is handled at all.
     */
    method HandleEngineLine(line: string, reports: seq<Report>, refreshDue: bool)
      requires Valid()
      modifies this`currentMovenum, this`currentPlayer, this`analysisResults, this`selected, this`sent, this`reading
      ensures Valid()
      ensures !old(reading) ==>
        !reading && State() == old(State()) && analysisResults == old(analysisResults) && sent == old(sent)
      ensures old(reading) && StartsWith(Strip(line), "info") ==>
        State() == old(State()) && sent == old(sent) &&
        analysisResults == Refresh(old(analysisResults), Strip(line), reports, refreshDue) &&
        reading == !Raises(old(analysisResults), Strip(line), reports, refreshDue)
      ensures old(reading) && !StartsWith(Strip(line), "info") && Contains(Strip(line), "illegal") ==>
        reading &&
        State() == old(State()).(player := ResyncSide(old(currentPlayer), true, old(selected).Some?),
                                 selected := None, movenum := 0) &&
        analysisResults == [] &&
        sent == old(sent) + [SetfenLine(board, currentPlayer)] + AnalyzeIf(analyzing)
      ensures old(reading) && !StartsWith(Strip(line), "info") && !Contains(Strip(line), "illegal") ==>
        reading && State() == old(State()) && analysisResults == old(analysisResults) && sent == old(sent)
    {
      if !reading {
        return;
      }
      var t := Strip(line);
      if StartsWith(t, "info") {
        var raised := HandleAnalysisLine(t, reports, refreshDue);
        if raised {
          reading := false;
        }
      } else {
        HandleReply(t);
      }
    }

    /** A stripped engine line that is not analysis output: an "illegal" reply resynchronises the engine. */
    method HandleReply(t: string)
      requires Valid()
      modifies this`currentMovenum, this`currentPlayer, this`analysisResults, this`selected, this`sent
      ensures Valid()
      ensures Contains(t, "illegal") ==>
        State() == old(State()).(player := ResyncSide(old(currentPlayer), true, old(selected).Some?),
                                 selected := None, movenum := 0) &&
        analysisResults == [] &&
        sent == old(sent) + [SetfenLine(board, currentPlayer)] + AnalyzeIf(analyzing)
      ensures !Contains(t, "illegal") ==>
        State() == old(State()) && analysisResults == old(analysisResults) && sent == old(sent)
    {
      if Contains(t, "illegal") {
        SyncBoardAssumeLocked(true);
        ResumeAnalysis();
      }
    }

    /**
     * `handle_analysis_line` over the reports its pattern found in `line`;
     * `refreshDue` says whether the refresh interval has passed. It reports
     * whether a move token raised, which the source does by the exception.
     */
    method HandleAnalysisLine(line: string, reports: seq<Report>, refreshDue: bool) returns (raised: bool)
      requires Valid()
      modifies this`analysisResults
      ensures Valid()
      ensures analysisResults == Refresh(old(analysisResults), line, reports, refreshDue)
      ensures raised <==> Raises(old(analysisResults), line, reports, refreshDue)
    {
      RefreshDistinct(analysisResults, line, reports, refreshDue);
      if !(Contains(line, "info") && Contains(line, "visits") && Contains(line, "winrate")) {
        return false;
      }
      var store := analysisResults;
      if refreshDue {
        store := [];
      }
      var batch := AbsorbReports(store, reports);
      raised := batch.faulted;
      if batch.faulted {
        analysisResults := batch.store;
      } else {
        analysisResults := StableSort(batch.store, Strength);
      }
    }

    // The board editor's buttons.

    /** `clear_board`: every cell becomes empty, row by row; nothing else changes. */
    method ClearBoard()
      requires Valid()
      modifies this`board
      ensures Valid() && State() == old(State()).(grid := Filled(Rows, Cols, Empty))
    {
      for r := 0 to Rows
        invariant WellFormed(board)
        invariant forall i, j :: 0 <= i < r && 0 <= j < Cols ==> board[i][j] == Empty
      {
        for c := 0 to Cols
          invariant WellFormed(board)
          invariant forall i, j :: 0 <= i < r && 0 <= j < Cols ==> board[i][j] == Empty
          invariant forall j :: 0 <= j < c ==> board[r][j] == Empty
        {
          WriteWellFormed(board, r, c, Empty);
          board := Write(board, r, c, Empty);
        }
      }
      GridExt(board, Filled(Rows, Cols, Empty), Rows, Cols);
    }

    /** `reset_board`: a fresh copy of the opening position. */
    method ResetBoard()
      requires Valid()
      modifies this`board
      ensures Valid() && State() == old(State()).(grid := InitialRows)
    {
      InitialWellFormed();
      board := InitialRows;
    }

    /** `swap_player`: 'b' after 'w', 'w' after anything else. */
    method SwapPlayer()
      requires Valid()
      modifies this`currentPlayer
      ensures Valid() && State() == old(State()).(player := Other(old(currentPlayer)))
    {
      currentPlayer := if currentPlayer == 'w' then 'b' else 'w';
    }
  }
}
