# Dandelion Chess clients, modelled in Dafny

Dandelion Chess is a set of pygame front ends for game engines that speak GTP,
the Go Text Protocol, over a child process's standard input and output. Four
programs are modelled:

- `Dandelion` in `2.8_Lite.py`, the newer animal-chess (Dou Shou Qi) client.
  Its 9 x 7 board is a grid of piece letters and spaces, upper case for `w`
  and lower case for `b`. Clicks select and move pieces and play them to the
  engine. It takes moves back, reads and writes the animal-chess FEN, changes
  the engine's rules and move limit, and keeps the engine's analysis
  candidates as a store without duplicate moves, sorted by visits and then
  by win rate.
- `XiangQi` in `main.py`, the older animal-chess client. It has the same
  board, a simpler click handler, and a store of the five best-visited
  candidates.
- `ChessBoard` in `xiangqi.py`, a Xiangqi board of 9 files by 10 ranks. It
  reads and writes Xiangqi FEN (board, side, halfmove and fullmove counters),
  moves pieces, and turns an engine's `bestmove` text such as `h2e2` into a
  pair of squares.
- `BoardEditor` in `animal_board.py`, a position editor for the animal-chess
  board. It can clear the board, reset it to the opening position, swap the
  side to move, drop pieces by clicking, and print the FEN.

The shared pieces are separate modules:

- `Text`: ASCII case mapping and digits, Python's `str.isspace` set,
  `int` on digit text with single underscores, and Python's `str.split()`, `str.split(sep)`, `str.join` and `str.strip()`.
- `Ranking`: a stable insertion sort by a (major, minor) descending key,
  which models `list.sort(key=(-visits, -winrate))`.
- `Grids`: rectangular `seq<seq<T>>` boards, with a write to one cell.
- `RunLength`: the animal-chess FEN. Runs of empty cells become one decimal
  count, rows are joined by `/`, and the side to move follows.
- `Play`: squares, ownership of a piece, the GTP `play` command, a move on
  the grid, and the opening position.
- `Pipe`: how a command text splits into lines on the engine's input.
- `Maybe`: `Option` and `Result`.

Each client is a `class` whose methods update its fields, as the Python
objects do. Every line written to the engine is appended to a ghost field
`sent`, without its line break. The value-level operations the classes are
proved against are ordinary functions: `Lite.MoveGame`, `Lite.UndoGame`,
`Lite.ClickOf`, `Lite.Refresh`, `MainClient.Absorb`, `XiangqiBoard.ParseFen`,
`XiangqiBoard.MoveSpec` and `RunLength.ParseFen`. Lemmas about those
functions carry the properties: round trips, inverses, invariants and
ordering.

## Model

| member | source | states |
|---|---|---|
| Ranking.SortSorted | 2.8_Lite.py:649 | after sorting, no candidate comes before one with more visits, or with as many visits and a higher win rate |
| Ranking.SortStable | 2.8_Lite.py:649 | sorting keeps, for every key, the candidates with that key in their original order (Python's sort is stable); with `StableSort`'s own ensures, the result is a permutation of the input |
| Ranking.SortDistinct | 2.8_Lite.py:649 | sorting a store with no repeated move yields a store with no repeated move |
| Ranking.InsertSorted | 2.8_Lite.py:649 | inserting one candidate into a sorted store keeps it sorted |
| RunLength.FenRoundTrip | 2.8_Lite.py:239-278 | reading back the FEN written for any well-formed 9 x 7 board and side gives that board and side |
| RunLength.RowRoundTrip | 2.8_Lite.py:254-271 | one row's run-length text decodes to exactly that row |
| RunLength.ParseFenWellFormed | 2.8_Lite.py:243-278 | every accepted FEN yields 9 rows of 7 cells, each a piece letter or a space, and a side of w or b |
| RunLength.DigitsAccumulate | 2.8_Lite.py:258-259 | consecutive digits accumulate into one count ("12" means twelve spaces), so a row "12" is rejected for its width |
| RunLength.EncodeGrid | 2.8_Lite.py:1272-1289 | the loop that writes each row's runs and the `/` separators produces the board part of the FEN |
| RunLength.DecodeRowText | 2.8_Lite.py:254-271 | the character loop over one row gives the row, or the same error as the row reader: a bad character or a wrong width |
| RunLength.ParseFenText | 2.8_Lite.py:241-278 | the field-by-field reader returns the same board and side, or the same error, as the FEN reader |
| Pipe.TrailingBreak | 2.8_Lite.py:207-210 | a one-line command that ends in a line break goes to the engine as that line followed by an empty line |
| Pipe.SingleLine | 2.8_Lite.py:207-210 | a command text without a line break goes to the engine as one line |
| Play.MoveCells | 2.8_Lite.py:171-172 | a move empties the source square, puts the moving piece on the target, leaves every other square alone and keeps the board well formed |
| Play.Other | 2.8_Lite.py:1494-1495 | the side after a swap is w or b, and differs from a side that was w or b |
| Play.SquareName | 2.8_Lite.py:149-151 | a square's GTP name is a capital column letter followed by one rank digit |
| Play.PlayCommandOneLine | 2.8_Lite.py:151 | a `play` command never contains a line break |
| Play.InitialWellFormed | 2.8_Lite.py:320-330 | the opening position is a well-formed 9 x 7 board |
| Lite.GetOpp | 2.8_Lite.py:37-42 | w and b have an opponent, which is the other side; every other character has none |
| Lite.GetOppInvolution | 2.8_Lite.py:37-42 | the opponent's opponent is the side itself, and it agrees with the swap used everywhere else |
| Lite.ResyncSide | 2.8_Lite.py:500-508 | a resync changes the side to move exactly when it was asked to undo once and no piece is selected |
| Lite.MoveToPos | 2.8_Lite.py:44-52 | moves of other than 2 or 3 characters have no coordinates; column I or a non-numeric rank raises; otherwise the row is at most 9 |
| Lite.VertexRoundTrip | 2.8_Lite.py:44-52 | reading back the GTP vertex of any column and row gives that column and row, skipping the letter I |
| Lite.MoveToPosCase | 2.8_Lite.py:47 | the column letter is read without regard to case |
| Lite.SquareNameIsVertex | 2.8_Lite.py:149-151 | the square name sent in `play` is read back by `movestr_to_pos` as the same square |
| Lite.MoveToPosExamples | 2.8_Lite.py:44-52 | A9 is (0, 0), J1 is (8, 8) past the skipped I, g10 gives row -1, I5 raises and pass has no coordinates |
| Lite.LionToggle | 2.8_Lite.py:1660-1668 | a rule between 0 and 3 has a lion-jump toggle; any other rule has none |
| Lite.RatToggle | 2.8_Lite.py:1677-1685 | a rule between 0 and 3 has a rat-capture toggle; any other rule has none |
| Lite.ToggleBits | 2.8_Lite.py:1658-1686 | the rule is two flags, lion jump worth 2 and rat capture worth 1; each toggle flips its own flag, keeps the other, is an exclusive or with its bit, and undoes itself |
| Lite.MoveLimit | 2.8_Lite.py:536-541 | the engine's move limit is the remaining move count when that is between 1 and 999, becomes 9 above 999 and 1 below 1, so it always lies in 1..999 |
| Lite.FindMove | 2.8_Lite.py:621 | gives the first stored candidate with the move, or -1 when there is none |
| Lite.Merge | 2.8_Lite.py:621-645 | after a merge the new candidate is stored, nothing else is added, every candidate for another move stays, the store grows only for a new move, and it keeps no duplicate moves |
| Lite.AbsorbFaulted | 2.8_Lite.py:610-620 | the per-match loop stops exactly when one of the batch's move tokens is in column I or has a non-numeric rank, whatever the store holds |
| Lite.RaisesIff | 2.8_Lite.py:593-620 | handling a line raises exactly when it is an analysis line and one of its move tokens is in column I or has a non-numeric rank |
| Lite.AbsorbDistinct | 2.8_Lite.py:610-647 | absorbing a batch of reports keeps the store free of duplicate moves |
| Lite.AbsorbCovers | 2.8_Lite.py:610-647 | when the batch does not raise, every report with board coordinates has a stored candidate for its move |
| Lite.AbsorbKeeps | 2.8_Lite.py:610-647 | absorbing a batch never loses a move already stored |
| Lite.RefreshDistinct | 2.8_Lite.py:593-649 | handling an analysis line keeps the store free of duplicate moves |
| Lite.RefreshSorted | 2.8_Lite.py:649 | after a batch that does not raise, the store is sorted by visits then win rate, is a permutation of the merged candidates, and keeps ties in merge order |
| Lite.IndexOfMove | 2.8_Lite.py:621 | the search loop finds what `FindMove` specifies |
| Lite.AbsorbReports | 2.8_Lite.py:610-647 | the per-match loop, which stops when a report raises, produces the batch `Absorb` specifies |
| Lite.CapturedOf | 2.8_Lite.py:168 | a space records no captured piece; any other cell records itself |
| Lite.MoveGame | 2.8_Lite.py:158-200 | a move leaves a well-formed game with no selection, one more history record, a move count one higher and the other side to move |
| Lite.UndoCells | 2.8_Lite.py:1318-1328 | taking back a recorded move keeps a well-formed board |
| Lite.UndoGame | 2.8_Lite.py:1304-1338 | undo does nothing with a piece selected or no history; otherwise it pops the last record, lowers the move count, gives the move back to the side that made it and clears the selection and last-move marker |
| Lite.UndoAfterMove | 2.8_Lite.py:1304-1338 | undo is the inverse of a move: taking back a move of the selected piece to another square restores the board, the side, the count and the history |
| Lite.Aim | 2.8_Lite.py:130-137 | a click lands on a square exactly when its column and row are on the board; unflipped, it is that square |
| Lite.AimFlipped | 2.8_Lite.py:132-134 | a click on the flipped board is the click on the mirrored column and row |
| Lite.ClickOf | 2.8_Lite.py:139-165 | a click picks a piece of the side to move when none is selected, cancels on another own piece, moves onto any other square, and is ignored off the board or on a square it cannot pick |
| Lite.SetfenOneLine | 2.8_Lite.py:510-512 | the `setfen` command for a well-formed board is one line |
| Lite.KomiOneLine | 2.8_Lite.py:521-532 | every command the aggressive-mode setting sends is one line |
| Lite.Dandelion.constructor | 2.8_Lite.py:298-359 | a new client holds the opening position with w to move, analysis on, rule 0, limit 300, draw rule WEIGHT, has its reader running, and has sent the start-up lines |
| Lite.Dandelion.StartUp | 2.8_Lite.py:482-484 | the engine start sends `showboard`, then the analysis command, then the initial limit and rule lines |
| Lite.Dandelion.InitialSettings | 2.8_Lite.py:356-359 | the start-up settings put the limit at 300, the mode at 0, the rule at 0 and the draw rule at WEIGHT, and send their lines |
| Lite.Dandelion.InitialLimits | 2.8_Lite.py:356-357 | the initial move limit and aggressive mode are set and their lines sent |
| Lite.Dandelion.InitialRules | 2.8_Lite.py:358-359 | the initial game rule and draw rule are set and their lines sent |
| Lite.Dandelion.TrySendCommand | 2.8_Lite.py:206-219 | a command text reaches the engine as its lines split at each line break, in order |
| Lite.Dandelion.SendLine | 2.8_Lite.py:206-216 | a one-line command adds exactly that line |
| Lite.Dandelion.ResumeAnalysis | 2.8_Lite.py:533-534 | the analysis command is sent again only when analysis is on |
| Lite.Dandelion.GetFen | 2.8_Lite.py:1272-1292 | the FEN is the board's run-length text, followed by a space and the side when asked for it |
| Lite.Dandelion.SyncBoardAssumeLocked | 2.8_Lite.py:500-512 | a resync zeroes the move count, drops the selection and the candidates, picks the side as `ResyncSide` says and sends the position with that side |
| Lite.Dandelion.SwapSide | 2.8_Lite.py:514-519 | swapping the side resyncs with the other side to move and resumes analysis |
| Lite.Dandelion.SetAggressiveMode | 2.8_Lite.py:521-534 | the mode is stored and, for modes 0, 1 and -1, its komi and playout-advantage lines are sent, with no resync |
| Lite.Dandelion.SetMovelimit | 2.8_Lite.py:536-548 | the stored limit is the clamped remaining count, computed before the resync zeroes the count; the position, `mm` with the limit and `mc 0` are sent |
| Lite.Dandelion.SetGameRule | 2.8_Lite.py:550-556 | the rule is stored after a resync and `kata-set-rule scoring` with the rule is sent |
| Lite.Dandelion.ToggleLionJump | 2.8_Lite.py:1658-1669 | the lion-jump flag flips and the rat flag is kept; the game is resynced, the candidates are cleared, and the position, `kata-set-rule scoring` with the new rule and the analysis command when analysis is on are sent |
| Lite.Dandelion.ToggleRatEat | 2.8_Lite.py:1675-1686 | the rat-capture flag flips and the lion flag is kept; the game is resynced, the candidates are cleared, and the position, `kata-set-rule scoring` with the new rule and the analysis command when analysis is on are sent |
| Lite.Dandelion.SetGameDrawrule | 2.8_Lite.py:558-564 | the draw rule is stored after a resync and its command lines are sent |
| Lite.Dandelion.ClearGame | 2.8_Lite.py:488-495 | the game returns to the opening position with w to move, no selection, marker or history, a zero move count and no candidates |
| Lite.Dandelion.RestartGame | 2.8_Lite.py:488-498 | restarting gives the opening position and a move limit of 300, and sends `clear_board`, the position, `mm 300`, `mc 0` and the analysis command when analysis is on |
| Lite.Dandelion.Unselect | 2.8_Lite.py:1294-1301 | dropping a selection clears the candidates and, when asked, sends `undo` and resumes analysis; with nothing selected nothing happens |
| Lite.Dandelion.PickPiece | 2.8_Lite.py:139-155 | selecting an own piece plays its square to the engine, followed by an empty line |
| Lite.Dandelion.Relocate | 2.8_Lite.py:166-200 | the board and history change as `MoveGame` specifies |
| Lite.Dandelion.MoveSelected | 2.8_Lite.py:166-204 | moving the selected piece changes the game as `MoveGame` specifies and plays the target square to the engine |
| Lite.Dandelion.MouseClickLoc | 2.8_Lite.py:130-204 | a click does what `ClickOf` decides: ignore, pick, cancel with `undo`, or move as `MoveGame` does; a selection always holds an own piece, so a move never targets its own square |
| Lite.Dandelion.Release | 2.8_Lite.py:156-204 | with a piece selected, a click on an own piece cancels and any other square receives the move; the selection and candidates are cleared either way |
| Lite.Dandelion.TakeBack | 2.8_Lite.py:1315-1338 | the board half of undo changes the game as `UndoGame` specifies |
| Lite.Dandelion.UndoMove | 2.8_Lite.py:1304-1349 | undo changes the game as `UndoGame` specifies and sends `undo` twice, one for the engine's reply and one for the user's move, only when something was taken back |
| Lite.Dandelion.Reposition | 2.8_Lite.py:281-287 | an accepted position replaces the board and side and clears selection, marker, history and count |
| Lite.Dandelion.LoadPosition | 2.8_Lite.py:280-293 | an accepted position is installed and sent to the engine twice, once by the resync and once by `setfen` |
| Lite.Dandelion.ApplyFen | 2.8_Lite.py:239-296 | a rejected FEN sets the error and changes nothing else; an accepted one installs its board and side and sends them |
| Lite.Dandelion.HandleEngineLine | 2.8_Lite.py:572-591 | an `info` line goes to the analysis store and ends the reader exactly when it raises; a reply mentioning `illegal` resyncs with an undo; any other reply changes nothing; once the reader has ended, no line changes anything |
| Lite.Dandelion.HandleReply | 2.8_Lite.py:582-587 | a reply mentioning `illegal` resyncs with an undo and resumes analysis; any other reply changes nothing |
| Lite.Dandelion.HandleAnalysisLine | 2.8_Lite.py:593-649 | the store becomes what `Refresh` specifies: no duplicate moves, and sorted after a batch that does not raise; the handler reports whether the line raised |
| Lite.Dandelion.ClearBoard | 2.8_Lite.py:1486-1489 | the board becomes all spaces and the rest of the game is kept |
| Lite.Dandelion.ResetBoard | 2.8_Lite.py:1491-1492 | the board becomes the opening position and the rest of the game is kept |
| Lite.Dandelion.SwapPlayer | 2.8_Lite.py:1494-1495 | only the side to move changes, to the other side |
| MainClient.PlaceOf | main.py:116-118 | moves shorter than 2 characters, or `pass`, are skipped; a rank that `int` does not accept raises, and digits with single underscores between them are accepted; otherwise the column is the letter's offset from A and the row is at most 9 |
| MainClient.PlaceOfSquareName | main.py:116-118 | a square name is read back as that square |
| MainClient.PlaceOfExamples | main.py:116-118 | A9 is (0, 0), i5 is (8, 4), `pass` and `A` are skipped and `Ax` raises |
| MainClient.PlaceOfUnderscore | main.py:116-118 | `A1_0` reads rank 10 and gives row -1, as `int` does; `A1__0` raises |
| Text.DigitsIntText | main.py:118 | a non-empty digit text is accepted by `int`, with its decimal value |
| MainClient.EntryIndex | main.py:122 | gives the first entry with the move, or -1 when there is none |
| MainClient.Upsert | main.py:122-129 | the sample's move is stored with its visits and win rate, other entries stay where they are, a new move is appended, and no move is duplicated |
| MainClient.Absorb | main.py:111-132 | a line without a sample, or one whose move is skipped or raises, leaves the store as it was |
| MainClient.TopKeepsBest | main.py:131-132 | the trimmed store is sorted by visits and drawn from the merged entries; it keeps all of them when there are at most five and exactly five otherwise, and an entry is dropped only when every kept entry has at least its visits |
| MainClient.TopDistinct | main.py:131-132 | trimming keeps the store free of duplicate moves |
| MainClient.AbsorbOk | main.py:105-132 | handling an analysis line keeps the store invariant: sorted by visits, at most five entries, no duplicate moves |
| MainClient.AbsorbRecords | main.py:120-132 | a placed sample is in the store afterwards with its visits and win rate, unless the store holds five entries each with at least its visits |
| MainClient.FindEntry | main.py:122 | the search loop finds what `EntryIndex` specifies |
| MainClient.CellAt | main.py:318-319 | a click lands on a square exactly when it is inside the 9 x 7 board of 80-pixel tiles, and the square's tile contains the pixel |
| MainClient.XiangQi.constructor | main.py:43-70 | a new client holds the opening position with w to move, nothing selected, analysis off and nothing sent |
| MainClient.XiangQi.GetFen | main.py:277-293 | the FEN is the board's run-length text, a space and the side, and it reads back as that position |
| MainClient.XiangQi.HandleAnalysisLine | main.py:105-132 | the store becomes what `Absorb` specifies, and the handler reports whether the move raised |
| MainClient.XiangQi.ToggleAnalysis | main.py:380-389 | the A key turns analysis on, clearing the store and sending the analysis command, or off, sending `stop` |
| MainClient.XiangQi.Click | main.py:318-377 | the first click selects an own piece and plays it; the second drops the selection on an own piece or off the board, and otherwise moves the piece, plays the square and passes the turn |
| XiangqiBoard.PieceOf | xiangqi.py:50-52 | a lower-case letter is a black piece and any other letter a red one, of the letter's upper-case kind |
| XiangqiBoard.PieceRoundTrip | xiangqi.py:88 | writing a piece's FEN letter and reading it back gives the piece; the letter is not a digit, slash or space |
| XiangqiBoard.PieceOfOk | xiangqi.py:50-52 | every character the reader turns into a piece gives a well-formed piece |
| XiangqiBoard.ParseFenOk | xiangqi.py:34-58 | reading any text into a well-formed board leaves a well-formed board |
| XiangqiBoard.PlaceEncoded | xiangqi.py:44-53 | reading one rank's written text places exactly that rank's pieces and raises nothing |
| XiangqiBoard.PlaceRanks | xiangqi.py:44-53 | reading all the ranks' written texts onto an emptied board rebuilds the board |
| XiangqiBoard.FenRoundTrip | xiangqi.py:34-58 | reading back the FEN written for any well-formed state gives that state, whatever the board held before |
| XiangqiBoard.MoveSpec | xiangqi.py:60-75 | a move empties its source, puts the piece on the target, leaves every other square, passes the turn, resets the halfmove clock on a capture and counts a full move after black |
| XiangqiBoard.FullMoveCount | xiangqi.py:68-75 | two moves from red's turn return the turn to red and add one full move |
| XiangqiBoard.MoveInPlace | xiangqi.py:63-72 | a move onto its own square deletes the piece and resets the halfmove clock |
| XiangqiBoard.MatchMove | xiangqi.py:296-298 | a match is a file letter a to i, a digit run, a file letter and a digit run, and the text is their concatenation |
| XiangqiBoard.MatchMoveOf | xiangqi.py:296-298 | every such concatenation matches with exactly those four groups |
| XiangqiBoard.ArrowOf | xiangqi.py:300-305 | converted squares are on the 9 x 10 grid |
| XiangqiBoard.ArrowOfSquares | xiangqi.py:300-305 | the groups written for two squares convert back to those squares |
| XiangqiBoard.BestMoveArrow | xiangqi.py:294-305 | a best move converts to squares on the grid, or to nothing |
| XiangqiBoard.BestMoveRoundTrip | xiangqi.py:294-305 | the move text of any two squares converts back to those squares |
| XiangqiBoard.BestMoveExamples | xiangqi.py:294-305 | h2e2 is file 7 to file 4 on rank row 8 |
| XiangqiBoard.BestMoveRankZero | xiangqi.py:294-305 | rank 0 is off the grid, so a0a1 gives nothing |
| XiangqiBoard.BestMoveFileJ | xiangqi.py:294-305 | file j does not match, so j1a1 gives nothing |
| XiangqiBoard.BestMoveAnyCase | xiangqi.py:295 | a best move gives the same squares whatever the case of its letters |
| XiangqiBoard.BestMoveUpper | xiangqi.py:294-305 | `A10A9` goes from the top-left square to the one below it |
| XiangqiBoard.MoveTextLower | xiangqi.py:295 | lower-casing leaves a move text of file letters and digits unchanged |
| XiangqiBoard.FenFields | xiangqi.py:95 | the six FEN fields are joined by single spaces, with `-` for castling and en passant |
| XiangqiBoard.ChessBoard.constructor | xiangqi.py:26-32 | a new board keeps the text and holds what reading it onto an empty board with w, 0 and 1 gives |
| XiangqiBoard.ChessBoard.Clear | xiangqi.py:38-41 | every square becomes empty |
| XiangqiBoard.ChessBoard.PlaceRank | xiangqi.py:45-53 | the character loop over one rank places pieces as `PlaceRow` specifies, or reports its fault |
| XiangqiBoard.ChessBoard.ParseFenText | xiangqi.py:34-58 | reading a FEN changes the state as `ParseFen` specifies and keeps it well formed |
| XiangqiBoard.ChessBoard.MovePiece | xiangqi.py:60-75 | a move changes the state as `MoveSpec` specifies |
| XiangqiBoard.ChessBoard.RankText | xiangqi.py:80-93 | the loop over one rank writes its run-length text |
| XiangqiBoard.ChessBoard.GetFen | xiangqi.py:77-95 | the FEN written reads back as the board's own state |
| Editor.Hit | animal_board.py:267-270 | a click lands on a square exactly when it is inside the 9 x 7 board of 100-pixel tiles, and that square's tile contains the pixel |
| Editor.HitTile | animal_board.py:267-270 | every pixel of a square's tile lands on that square |
| Editor.Dropped | animal_board.py:271-275 | a click writes the dragged piece when one is dragged and chosen, and a space otherwise |
| Editor.SwapTwice | animal_board.py:213-214 | swapping twice gives the side back, and one swap changes it |
| Editor.ClearedFen | animal_board.py:177-193 | a cleared board's FEN is nine rows of `7` |
| Editor.BoardEditor.constructor | animal_board.py:48-66 | a new editor holds the opening position with w to move and nothing dragged or chosen |
| Editor.BoardEditor.GetFen | animal_board.py:177-193 | the FEN is the board's run-length text, a space and the side, and it reads back as that position |
| Editor.BoardEditor.ClearBoard | animal_board.py:205-208 | the cell-by-cell loop leaves every cell a space |
| Editor.BoardEditor.ResetBoard | animal_board.py:210-211 | the board becomes the opening position, which itself is left unchanged |
| Editor.BoardEditor.SwapPlayer | animal_board.py:213-214 | the side becomes b after w and w after anything else |
| Editor.BoardEditor.HandleBoardClick | animal_board.py:267-276 | a click on the board writes the dropped cell on the square under it and nowhere else; a click off the board changes no square; dragging ends either way |

## Left out

- The pygame user interface is not modelled. That covers drawing, fonts, images, the sidebar and buttons of the editor, the menus, the event loops (`run`, `main()` in `xiangqi.py`), `handle_click`'s routing into the board, `copy_fen` and the clipboard, and `prompt_for_fen`'s text box.
- Starting the engine process, the reader threads and the analysis lock are not modelled. Methods run one at a time, and the engine's lines and reports are parameters.
- Writes to the engine are never modelled as failing. A write failure, which sets the error dialog in `try_send_command`, is left out.
- The GTP log (`gtp_log`) and its 100-entry trim are not modelled. They are a diagnostic only.
- The analysis regular expression is not modelled. An analysis line arrives with its reports already matched, each with a move, a visit count and an integer win rate. Float parsing and the draw rate, LCB, order and PV fields are left out.
- The time-based refresh in `handle_analysis_line` is a boolean parameter, `refreshDue`, because the clock is outside the model.
- Case mapping and digit tests are ASCII only; whitespace is Python's full `str.isspace` set. Python's Unicode case mapping in `upper` and `lower`, and the non-ASCII digits that `isdigit` and `int` accept, are not modelled.
- Boards are `seq` values, so the list aliasing between `initial_board` and a board copy is not modelled. The copies in the source prevent any aliasing anyway.
- Printing the FEN to the console is left out.
- Lite.Dandelion.SetGameRule requires a rule from 0 to 3. The keyboard shortcuts 5 and 6 only ever pass such a rule. The toggles take their new rule from `LionToggle` and `RatToggle`, whose `None` case for other rules is stated but cannot arise under the class invariant.
- XiangqiBoard.ChessBoard.MovePiece requires both points on the 9 x 10 grid, which every click of the Xiangqi program supplies.
- XiangqiBoard.ChessBoard.constructor: when reading the text raises, Python abandons the object. The model keeps the partly read state, which every caller then discards.
- The principal-variation extraction and the engine handler of `xiangqi.py` are not modelled. They are text parsing for display and process I/O.
- MainClient.XiangQi.HandleAnalysisLine returns whether the move raised instead of ending the reader thread, which is what the uncaught exception does in `main.py`.
- Lite.Dandelion.HandleAnalysisLine returns whether a move token raised instead of raising. `HandleEngineLine` then clears `reading`, and every later line is ignored, because the ended `read_output` thread never reads it. The engine process itself keeps running.
- Several behaviours are modelled as written:
  - `set_aggressive_mode` does not resync the board;
  - selecting a piece sends an extra empty line;
  - `apply_fen` sends the position twice;
  - a remaining move count above 999 becomes 9;
  - a Xiangqi rank text `12` skips three files;
  - a Xiangqi move onto its own square deletes the piece.
