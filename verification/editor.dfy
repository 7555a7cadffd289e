/**
 * The standalone animal-chess position editor (animal_board.py): a 9 x 7
 * board of piece letters and spaces that the user clears, resets to the
 * opening position, fills by dragging pieces from the sidebar and empties by
 * clicking, together with the side to move and the FEN of the whole.
 */
module Editor {
  import opened Text
  import opened Grids
  import opened Maybe
  import opened RunLength
  import opened Play

  /** The side of one board square in pixels. */
  const Tile: int := 100

  /**
   * The square under a pixel of the board area (origin at the board's top
   * left), when there is one: row and column by floor division, which is what
   * Dafny's division does for a positive divisor.
   */
  function Hit(x: int, y: int): (at: Option<Square>)
    ensures at.Some? <==> 0 <= x < Cols * Tile && 0 <= y < Rows * Tile
    ensures at.Some? ==> OnBoard(at.value)
    ensures at.Some? ==> at.value.col * Tile <= x < (at.value.col + 1) * Tile
    ensures at.Some? ==> at.value.row * Tile <= y < (at.value.row + 1) * Tile
  {
    var col, row := x / Tile, y / Tile;
    if 0 <= col < Cols && 0 <= row < Rows then Some(Square(row, col)) else None
  }

  /** Every pixel of a square's tile hits that square. */
  lemma HitTile(s: Square, dx: int, dy: int)
    requires OnBoard(s) && 0 <= dx < Tile && 0 <= dy < Tile
    ensures Hit(s.col * Tile + dx, s.row * Tile + dy) == Some(s)
  {
    assert (s.col * Tile + dx) / Tile == s.col;
    assert (s.row * Tile + dy) / Tile == s.row;
  }

  /** What a click on a board square writes there: the dragged piece, or a space when nothing is dragged. */
  function Dropped(dragging: bool, kind: Option<char>): (c: char)
    ensures dragging && kind.Some? ==> c == kind.value
    ensures !(dragging && kind.Some?) ==> c == Empty
  {
    if dragging && kind.Some? then kind.value else Empty
  }

  /** Swapping the side twice gives the side back. */
  lemma SwapTwice(p: char)
    requires p == 'w' || p == 'b'
    ensures Other(Other(p)) == p
    ensures Other(p) != p
  {
  }

  /** A run of `n` spaces after `e` pending ones is written as the one count `n + e`. */
  lemma {:induction false} EncodeSpaces(n: nat, e: nat)
    ensures EncodeFrom(Spaces(n), e) == Flush(n + e)
    decreases n
  {
    if n == 0 {
      assert Spaces(n) == [];
    } else {
      assert Spaces(n)[0] == Empty && Spaces(n)[1..] == Spaces(n - 1);
      EncodeSpaces(n - 1, e + 1);
    }
  }

  /** `k` rows that are all "7", joined by '/'. */
  function Sevens(k: nat): (text: string) {
    if k <= 1 then "7" else "7/" + Sevens(k - 1)
  }

  lemma {:induction false} JoinSevens(ts: seq<string>)
    requires |ts| >= 1 && forall i :: 0 <= i < |ts| ==> ts[i] == "7"
    ensures Join(ts, '/') == Sevens(|ts|)
    decreases |ts|
  {
    if |ts| > 1 {
      JoinSevens(ts[1..]);
    }
  }

  /** A cleared board reads as nine rows of seven empty cells each. */
  lemma ClearedFen(side: char)
    ensures EncodeFen(Filled(Rows, Cols, Empty), side) == "7/7/7/7/7/7/7/7/7 " + [side]
  {
    var g := Filled(Rows, Cols, Empty);
    EncodeSpaces(Cols, 0);
    forall r | 0 <= r < Rows ensures RowTexts(g)[r] == "7" {
      assert g[r] == Spaces(Cols);
    }
    JoinSevens(RowTexts(g));
    assert Sevens(3) == "7/7/7";
    assert Sevens(6) == "7/7/7/" + Sevens(3);
    assert Sevens(9) == "7/7/7/" + Sevens(6);
  }

  class BoardEditor {
    /** The opening position, kept for `reset_board`; no method changes it. */
    const initialBoard: seq<seq<char>>
    var board: seq<seq<char>>
    var currentPlayer: char
    var draggingPiece: bool
    var selectedPieceType: Option<char>

    ghost predicate Valid()
      reads this`board, this`currentPlayer, this`selectedPieceType
    {
      WellFormed(board) && initialBoard == InitialRows
      && (currentPlayer == 'w' || currentPlayer == 'b')
      && (selectedPieceType.Some? ==> IsPiece(selectedPieceType.value))
    }

    /** `__init__` without the window: the opening position, 'w' to move, nothing dragged. */
    constructor ()
      ensures Valid()
      ensures board == InitialRows && currentPlayer == 'w'
      ensures !draggingPiece && selectedPieceType.None?
    {
      initialBoard := InitialRows;
      board := InitialRows;
      currentPlayer := 'w';
      draggingPiece := false;
      selectedPieceType := None;
      InitialWellFormed();
    }

    /** `get_fen`: the run-length rows joined by '/', a space and the side; reading it back gives the position. */
    method GetFen() returns (fen: string)
      requires Valid()
      ensures fen == EncodeFen(board, currentPlayer)
      ensures ParseFen(fen) == Ok(Position(board, currentPlayer))
    {
      var rows := EncodeGrid(board);
      fen := rows + " " + [currentPlayer];
      FenRoundTrip(board, currentPlayer);
    }

    /** `clear_board`: every cell becomes a space, cell by cell; the side is kept. */
    method ClearBoard()
      requires Valid()
      modifies this`board
      ensures Valid()
      ensures board == Filled(Rows, Cols, Empty)
    {
      for row := 0 to Rows
        invariant WellFormed(board)
        invariant forall i, j :: 0 <= i < row && 0 <= j < Cols ==> board[i][j] == Empty
      {
        for col := 0 to Cols
          invariant WellFormed(board)
          invariant forall i, j :: 0 <= i < row && 0 <= j < Cols ==> board[i][j] == Empty
          invariant forall j :: 0 <= j < col ==> board[row][j] == Empty
        {
          WriteWellFormed(board, row, col, Empty);
          board := Write(board, row, col, Empty);
        }
      }
      GridExt(board, Filled(Rows, Cols, Empty), Rows, Cols);
    }

    /** `reset_board`: the board becomes the opening position, which itself stays as it was. */
    method ResetBoard()
      requires Valid()
      modifies this`board
      ensures Valid()
      ensures board == initialBoard == InitialRows
    {
      InitialWellFormed();
      board := initialBoard;
    }

    /** `swap_player`: 'b' after 'w', 'w' after anything else. */
    method SwapPlayer()
      requires Valid()
      modifies this`currentPlayer
      ensures Valid()
      ensures currentPlayer == Other(old(currentPlayer))
    {
      currentPlayer := if currentPlayer == 'w' then 'b' else 'w';
    }

    /**
     * `handle_board_click`: a click inside the board writes the dragged piece,
     * or a space when nothing is dragged, on the square under it and leaves
     * every other square alone; a click outside changes no square. Dragging
     * ends either way.
     */
    method HandleBoardClick(x: int, y: int)
      requires Valid()
      modifies this`board, this`draggingPiece
      ensures Valid()
      ensures !draggingPiece
      ensures Hit(x, y).None? ==> board == old(board)
      ensures Hit(x, y).Some? ==>
        board == Write(old(board), Hit(x, y).value.row, Hit(x, y).value.col, Dropped(old(draggingPiece), selectedPieceType))
    {
      var col, row := x / Tile, y / Tile;
      if 0 <= col < Cols && 0 <= row < Rows {
        var c := if draggingPiece && selectedPieceType.Some? then selectedPieceType.value else Empty;
        WriteWellFormed(board, row, col, c);
        board := Write(board, row, col, c);
      }
      draggingPiece := false;
    }
  }
}
