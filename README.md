# jeff board core: coordinates, bitboards and the FEN decoder

This project models the board core of `jeff`, a chess library in Rust, in
Dafny, and proves properties of the model. The modelled core has three parts:

- **Coordinate algebra.** `Rank` and `File` are eight-valued enums. `Square`
  is a 64-valued enum on the little-endian rank-file index, with A1 = 0 and
  H8 = 63. The model has their numeric and character conversions,
  composition and decomposition, and the checked and wrapping steps.
- **Bitboards.** A `BitBoard` is a set of squares. `BitBoards` holds twelve
  of them, one plane per (player, piece) pair, at index `player * 6 + piece`.
  `piece_at` and `player_at` scan all twelve planes, so the last plane that
  holds the square decides.
- **Forsyth–Edwards Notation decoder** (`parse_fen`, after section 16.1 of
  the PGN Standard). It is one left-to-right pass over the input bytes,
  driven by six fields in order: placement, side to move, castling,
  en passant, half-move clock and full-move number. A cursor square starts
  at A8. The result is a `BoardUnchecked` or a `FromFenError`.

Module layout follows the source files:

- `coord.dfy` is `src/board/coord.rs`.
- `bits.dfy` is `src/board/bits.rs`.
- `fen.dfy` is `src/board/fen.rs`.
- `fen_properties.dfy` holds the properties of the decoder, field by field.
- `fen_decoding.dfy` describes a well-formed record by its fields (ranks,
  side, castling letters, en-passant field, clocks) and proves what the
  decoder gives for it: the pieces each rank names, and the other fields'
  values. It ends with the starting position and the source's own test
  position.
- `board.dfy`, `castling.dfy` and `pseudo.dfy` hold the supporting types from
  `src/board.rs`, `src/board/castling.rs` and `src/board/pseudo.rs`.
- `wrappers.dfy` holds `Option` and `Result`.

The coordinate code is pure, so it is modelled as functions and lemmas.
`BitBoard::with` and `BitBoards::with` return updated copies, so they are
functions too. `piece_at` and `player_at` are loops that overwrite a local,
so they are methods with loop invariants. Each is proved equal to a
last-match function (`PieceOn`, `PlayerOn`).

`parse_fen` is modelled twice:

- **As the loop itself.** `Fen.ParseFen` has the same variables as the
  source, and its arms for each field are the methods `PiecesByte` …
  `FullMovesByte`. The loop's `continue`, `break` and `return` become a
  `Flow` value.
- **As a specification.** `Fen.Step` is one iteration, `Fen.Run` iterates
  it, and `Fen.Parse` runs it from the initial variables. `ParseFen` is
  proved to return `Parse(fen)`. The properties in `FenProperties` are
  stated about `Parse` and `Run`.

The model reproduces the decoder's behaviour as written, including these
points:

- '-' in the castling field is rejected.
- Only ranks '3' and '6' are accepted for an en-passant target.
- A space in the full-move field ends decoding, whatever follows it.
- The full-move counter is read but never stored.
- The cursor wraps within its rank: a piece on the h-file moves the cursor
  to the a-file of the same rank.
- Of the seven error kinds, only `Unexpected` and `EnPassantTooShort` are
  ever produced.
- Counters are `u8`, and `*= 10` and `+=` on them wrap modulo 256.

## Model

| member | source | states |
|---|---|---|
| Board.Player.Ordinal | src/board.rs:33-38 | A player's discriminant is below `PLAYERS` (2) |
| Board.Piece.Ordinal | src/board.rs:40-48 | A piece kind's discriminant is below `PIECES` (6) |
| CastlingRights.Castling.Bits | src/board/castling.rs:4-12 | The rights are stored in the low four bits of a byte |
| CastlingRights.Empty | src/board/castling.rs:4 | No rights: the byte is 0 and no flag is held |
| CastlingRights.Union | src/board/castling.rs:4-12 | The union holds both arguments, and each flag is held iff either argument holds it (bitwise OR) |
| CastlingRights.FlagBits | src/board/castling.rs:6-12 | The four flags are 0b0001, 0b0010, 0b0100 and 0b1000 |
| CastlingRights.BitsInjective | src/board/castling.rs:4-12 | Two sets of rights with the same byte are equal |
| CastlingRights.UnionLaws | src/board/castling.rs:4-12 | Union is commutative, associative and idempotent, with the empty rights as unit |
| CastlingRights.AllRights | src/board/castling.rs:6-12 | The union of all four flags is the byte 0b1111 |
| Coord.Rank.Num | src/board/coord.rs:33-44 | A rank's number is below 8 |
| Coord.Rank.FromNum | src/board/coord.rs:54-66 | Some exactly for numbers below 8, and the rank has that number |
| Coord.File.Num | src/board/coord.rs:99-110 | A file's number is below 8 |
| Coord.File.IntoChar | src/board/coord.rs:113-124 | The file's lower-case letter, 'a' plus its number |
| Coord.File.RightBy | src/board/coord.rs:126-128 | Some iff number + amount <= 7, with number + amount; the saturating add never wraps back into range |
| Coord.File.FromNum | src/board/coord.rs:138-150 | Some exactly for numbers below 8, and the file has that number |
| Coord.File.FromChar | src/board/coord.rs:153-165 | Some exactly for 'a'..'h' and 'A'..'H', naming the file with that letter's offset |
| Coord.Square.FromLeIndex | src/board/coord.rs:179-184 | Some exactly for indices below 64, and the square has that index |
| Coord.Square.IntoLeIndex | src/board/coord.rs:188-192 | A square's index is below 64 |
| Coord.Square.FromRankFile | src/board/coord.rs:210-218 | The square's index is rank * 8 + file |
| Coord.Square.Rank | src/board/coord.rs:221-229 | The rank's number is the index divided by 8 |
| Coord.Square.File | src/board/coord.rs:232-240 | The file's number is the index modulo 8 |
| Coord.RankNumRoundTrip | src/board/coord.rs:33-66 | `from_num(num(r)) == Some(r)` for every rank |
| Coord.RankNumInjective | src/board/coord.rs:33-44 | Ranks with the same number are equal |
| Coord.FileNumRoundTrip | src/board/coord.rs:99-150 | `from_num(num(f)) == Some(f)` for every file |
| Coord.FileNumInjective | src/board/coord.rs:99-110 | Files with the same number are equal |
| Coord.WrappingDownByNum | src/board/coord.rs:46-51 | `Rank.WrappingDownBy(n)` has number (r - n) mod 8, through the u8 wrap |
| Coord.WrappingRightByNum | src/board/coord.rs:130-135 | `File.WrappingRightBy(n)` has number (f + n) mod 8, through the u8 wrap |
| Coord.WrappingRightByPeriodic | src/board/coord.rs:130-135 | The file's wrapping step is periodic in the amount with period 8 |
| Coord.WrappingDownByPeriodic | src/board/coord.rs:46-51 | The rank's wrapping step is periodic in the amount with period 8 |
| Coord.FileCharRoundTrip | src/board/coord.rs:113-165 | `from_char` inverts `into_char`, in lower and upper case |
| Coord.LeIndexRoundTrip | src/board/coord.rs:179-192 | `from_le_index(into_le_index(s)) == Some(s)`; `from_le_index(n)` is None iff n > 63 |
| Coord.RankFileRoundTrip | src/board/coord.rs:210-282 | For all 64 (rank, file) pairs, the square built from them has that rank and that file |
| Coord.SquareDecomposes | src/board/coord.rs:197-240 | Index = rank * 8 + file, and rebuilding a square from its rank and file gives it back |
| Coord.WithRankWithFile | src/board/coord.rs:243-250 | `Square.WithRank` replaces the rank and keeps the file; `Square.WithFile` replaces the file and keeps the rank |
| Coord.SquareWrappingRightByComposes | src/board/coord.rs:263-265 | `Square.WrappingRightBy` is the square on its own rank at the file's wrapping step, as the source composes it |
| Coord.SquareWrappingRightBy | src/board/coord.rs:263-265 | `Square.WrappingRightBy(n)` keeps the rank and moves the file to (f + n) mod 8 |
| Coord.SquareWrappingDownBy | src/board/coord.rs:252-254 | `Square.WrappingDownBy(n)` keeps the file and moves the rank to (r - n) mod 8 |
| Coord.SquareRightBy | src/board/coord.rs:256-261 | `Square.RightBy(n)` is Some iff file + n <= 7, and then keeps the rank at file + n |
| Coord.WrappingRightExamples | src/board/coord.rs:286-287 | A1 steps right to B1; H1 steps right to A1 |
| Coord.WrappingDownExamples | src/board/coord.rs:289-290 | A2 steps down to A1; A1 steps down to A8 |
| Bits.BitBoard.Empty | src/board/bits.rs:82-84 | The empty bitboard holds no square |
| Bits.BitBoard.With | src/board/bits.rs:92-95 | The square is set afterwards, and every other square reads as before |
| Bits.PlaneIndex | src/board/bits.rs:19-22 | The plane `player * 6 + piece` is one of the twelve |
| Bits.IndexToPiece | src/board/bits.rs:53-63 | The piece kind is the plane index modulo 6 |
| Bits.IndexToPlayer | src/board/bits.rs:65-71 | White for planes below six, Black from six on |
| Bits.LastPlaneAt | src/board/bits.rs:28-50 | None iff no plane holds the square; otherwise a plane that holds it, with no later plane holding it |
| Bits.BitBoards.Empty | src/board/bits.rs:13-17 | Twelve planes, none holding any square |
| Bits.BitBoards.With | src/board/bits.rs:19-26 | The (player, piece) plane gains the square; the other eleven planes are unchanged |
| Bits.BitBoards.PieceOn | src/board/bits.rs:28-38 | None iff no plane holds the square |
| Bits.BitBoards.PlayerOn | src/board/bits.rs:40-50 | None iff no plane holds the square |
| Bits.BitBoards.PieceAt | src/board/bits.rs:28-38 | The loop over the planes returns the piece kind of the last plane holding the square, or None |
| Bits.BitBoards.PlayerAt | src/board/bits.rs:40-50 | The loop over the planes returns the owner of the last plane holding the square, or None |
| Bits.WithIdempotent | src/board/bits.rs:92-95 | Setting a square twice is setting it once |
| Bits.WithOnlyChangesSquare | src/board/bits.rs:86-95 | `BitBoard.At(t)` after `With(s)` holds iff t == s or `At(t)` held before |
| Bits.BitBoardExample | src/board/bits.rs:117-124 | Setting A1 and H8 gives a board with A1 and H8 set and A2 not |
| Bits.PlaneIndexRoundTrip | src/board/bits.rs:19-71 | The plane index is a bijection: each (player, piece) pair is recovered from its plane, and each plane names the pair whose index it is |
| Board.PieceOrdinalInjective | src/board.rs:40-48 | Piece kinds with the same discriminant are equal |
| Board.PlayerOrdinalInjective | src/board.rs:33-38 | Players with the same discriminant are equal |
| Bits.BitBoardsWithIdempotent | src/board/bits.rs:19-26 | Placing the same piece twice is placing it once |
| Bits.LastPlaneAtSole | src/board/bits.rs:28-50 | When only plane k holds the square, the scan finds plane k |
| Bits.EmptyWithReports | src/board/bits.rs:13-50 | A piece placed on the empty board is reported on its square, with its owner |
| Bits.OverlapHigherPlaneWins | src/board/bits.rs:19-50 | With two pieces on one square, placed in either order, the piece and player of the higher plane are reported |
| Bits.OverlapLastPlane | src/board/bits.rs:28-50 | With two pieces on one square, placed in either order, the scan finds the higher plane |
| Bits.BitBoardsExample | src/board/bits.rs:104-115 | A White knight placed on A1, or on H8, is found there |
| Fen.State.Ordinal | src/board/fen.rs:21-29 | The six fields are numbered 0..5 in the order they are read |
| Fen.EnPassantStep | src/board/fen.rs:99-125 | An en-passant byte that goes on reads at most the one following byte |
| Fen.Step | src/board/fen.rs:43-149 | An iteration that goes on advances the index, and never past the input's end |
| Fen.Run | src/board/fen.rs:43-157 | The loop ends with a position, with `EnPassantTooShort`, or with `Unexpected` of a byte still to be read |
| Fen.RunClose | src/board/fen.rs:43-149 | An iteration ending in `continue` or in the cursor step leaves the loop's result unchanged; `break` gives the gathered position; `return` gives its result |
| Fen.PiecesByte | src/board/fen.rs:49-80 | The placement arm is `Fen.PiecesStep`; it fails only with `Unexpected` of its byte |
| Fen.SideToMoveByte | src/board/fen.rs:81-88 | The side-to-move arm is `Fen.SideToMoveStep`; it fails only with `Unexpected` of its byte |
| Fen.CastlingByte | src/board/fen.rs:89-98 | The castling arm is `Fen.CastlingStep`; it fails only with `Unexpected` of its byte |
| Fen.EnPassantByte | src/board/fen.rs:99-125 | The en-passant arm, including its extra index step, is `Fen.EnPassantStep`; it never breaks |
| Fen.HalfMovesByte | src/board/fen.rs:126-135 | The half-move arm is `Fen.HalfMovesStep`; it fails only with `Unexpected` of its byte |
| Fen.FullMovesByte | src/board/fen.rs:136-145 | The full-move arm is `Fen.FullMovesStep`; a space breaks, any other failure is `Unexpected` |
| Fen.ParseFen | src/board/fen.rs:21-158 | The decoding loop returns what the step-by-step specification `Fen.Parse` gives |
| FenProperties.ParseEmpty | src/board/fen.rs:31-157 | The empty input decodes to empty planes, White to move, no castling, no en-passant target and half-move clock 0 |
| FenProperties.ParseErrors | src/board/fen.rs:10-158 | Only `EnPassantTooShort` and `Unexpected` of an input byte are ever returned |
| FenProperties.UnacceptedByte | src/board/fen.rs:79-144 | A byte the current field does not accept ends decoding with `Unexpected` of that byte |
| FenProperties.StepStops | src/board/fen.rs:43-149 | An iteration stops iff its byte is not accepted, or it is the full-move field's closing space, or an en-passant letter lacking a following '3' or '6' |
| FenProperties.RejectedBytes | src/board/fen.rs:59-97 | '-' in the castling field, and '0' or '9' in the placement field, end decoding with `Unexpected` |
| FenProperties.EnPassantSquare | src/board/fen.rs:103-122 | A file letter at the end is `EnPassantTooShort`; a rank other than '3'/'6' is `Unexpected` of it; '3'/'6' sets the target to that square and consumes both bytes |
| FenProperties.StepStateOrder | src/board/fen.rs:48-145 | The field only moves forward, by exactly one at each space |
| FenProperties.SpaceEndsDecoding | src/board/fen.rs:137 | A space in the full-move field ends decoding with the gathered position, whatever follows |
| FenProperties.StepAppend | src/board/fen.rs:43-149 | An iteration reads nothing past its own byte and the next one |
| FenProperties.RunAppend | src/board/fen.rs:43-149 | Once decoding stops inside an input, appending bytes does not change its result |
| FenProperties.PiecesSimilar | src/board/fen.rs:49-80 | The placement iteration does not read the full-move counter |
| FenProperties.SideToMoveSimilar | src/board/fen.rs:81-88 | The side-to-move iteration reads neither the full-move counter nor the cursor |
| FenProperties.CastlingSimilar | src/board/fen.rs:89-98 | The castling iteration reads neither the full-move counter nor the cursor |
| FenProperties.EnPassantSimilar | src/board/fen.rs:99-125 | The en-passant iteration reads neither the full-move counter nor the cursor |
| FenProperties.HalfMovesSimilar | src/board/fen.rs:126-135 | The half-move iteration reads neither the full-move counter nor the cursor |
| FenProperties.FullMovesSimilar | src/board/fen.rs:136-145 | The full-move iteration's result does not depend on the full-move counter or the cursor |
| FenProperties.StepSimilar | src/board/fen.rs:43-149 | No iteration reads the full-move counter, nor the cursor past the placement field |
| FenProperties.RunSimilar | src/board/fen.rs:43-157 | Decoding from parsers that differ only in those variables gives the same result |
| FenProperties.RunIgnoresFullMoves | src/board/fen.rs:136-157 | The full-move counter never reaches the result |
| FenProperties.RunIgnoresCursor | src/board/fen.rs:81-157 | Past the placement field the cursor no longer affects the result |
| FenProperties.PlacementRankEnd | src/board/fen.rs:52-57 | '/' moves the cursor to file a one rank down, wrapping from the first rank to the eighth, and leaves the planes alone |
| FenProperties.PlacementSkip | src/board/fen.rs:59-63 | A digit d moves the cursor d files right within its rank, wrapping, and leaves the planes alone |
| FenProperties.PlacementPiece | src/board/fen.rs:65-148 | A piece letter sets its plane at the cursor and moves the cursor one file right within the rank; any other byte is `Unexpected` |
| FenProperties.PieceLetters | src/board/fen.rs:65-77 | Exactly "PNBRQKpnbrqk" name pieces; upper case is White, lower case Black |
| FenProperties.FoldDigitsSnoc | src/board/fen.rs:129-132 | Pushing digits one at a time and then one more is pushing that one last |
| FenProperties.PushDigitValue | src/board/fen.rs:130-131 | `Fen.PushDigit` of digit d onto a counter holding x mod 256 gives (10x + d) mod 256 |
| FenProperties.FoldDigitsDecimal | src/board/fen.rs:129-132 | After digits s, a `u8` counter holds (counter * 10^len + value of s) mod 256 |
| FenProperties.CounterValue | src/board/fen.rs:129-132 | From zero, the counter holds the decimal value of its digits mod 256, and exactly that value when it is at most 255 |
| FenProperties.RunNext | src/board/fen.rs:43-149 | An iteration that goes on leaves the loop's result unchanged |
| FenProperties.HalfMovesDigitStep | src/board/fen.rs:129-132 | A half-move digit is pushed onto the counter |
| FenProperties.HalfMovesSpaceStep | src/board/fen.rs:127 | A space ends the half-move field |
| FenProperties.RunAdvance | src/board/fen.rs:43-149 | Past the placement field, an iteration ending in the cursor step leaves the result as if the cursor stayed |
| FenProperties.HalfMovesDigit | src/board/fen.rs:129-132 | At the loop level, a half-move digit is pushed onto the counter |
| FenProperties.HalfMovesSpace | src/board/fen.rs:127 | At the loop level, a space moves on to the full-move field |
| FenProperties.FoldDigitsFirst | src/board/fen.rs:129-132 | Pushing a run of digits is pushing the first and then the rest |
| FenProperties.HalfMovesFieldDigit | src/board/fen.rs:126-135 | One more digit in front of the half-move field is pushed first and then the rest are read |
| FenProperties.HalfMovesField | src/board/fen.rs:126-135 | A half-move field of k digits and its space sets the counter to those digits pushed onto it and moves to the full-move field |
| FenProperties.NextState | src/board/fen.rs:48-145 | A space moves to the field numbered one higher |
| FenProperties.StepScan | src/board/fen.rs:43-149 | Each iteration moves the index and field as a byte-class scanner does, and fails with the same error |
| FenProperties.RunVerdict | src/board/fen.rs:43-157 | The decoder succeeds iff the scanner accepts, and otherwise fails with the scanner's error |
| FenProperties.ParseVerdict | src/board/fen.rs:21-158 | Whether an input is accepted, and with which error it is refused, depends only on the byte classes the scanner checks |
| FenProperties.FullMovesStepKeeps | src/board/fen.rs:136-145 | A full-move iteration stays in the full-move field and changes nothing the result holds; when it breaks, the result is the gathered position |
| FenProperties.RunFullMovesKeeps | src/board/fen.rs:136-157 | Once in the full-move field, decoding can only succeed with the position gathered so far |
| FenProperties.HalfMovesResult | src/board/fen.rs:126-157 | From a zero counter, a half-move field of digits closed by a space gives a result whose `halfMoves` is their decimal value mod 256 |
| FenDecoding.Skip | src/board/fen.rs:59-77 | A rank byte moves the cursor between one and eight files |
| FenDecoding.FileAt | src/board/fen.rs:60 | The file numbered n mod 8, as the wrapping step counts |
| FenDecoding.StepPieces | src/board/fen.rs:49-80 | In the placement field an iteration is `Fen.PiecesStep` of its byte |
| FenDecoding.StepSideToMove | src/board/fen.rs:81-88 | In the side-to-move field an iteration is `Fen.SideToMoveStep` of its byte |
| FenDecoding.StepCastling | src/board/fen.rs:89-98 | In the castling field an iteration is `Fen.CastlingStep` of its byte |
| FenDecoding.StepEnPassant | src/board/fen.rs:99-125 | In the en-passant field an iteration is `Fen.EnPassantStep` of its byte |
| FenDecoding.StepFullMoves | src/board/fen.rs:136-145 | In the full-move field an iteration is `Fen.FullMovesStep` of its byte |
| FenDecoding.CursorAt | src/board/fen.rs:53-60 | A square is the one on its rank at its file number |
| FenDecoding.CursorMoved | src/board/fen.rs:60 | Moving the cursor d files right within the rank lands on file (file + d) mod 8 |
| FenDecoding.PlaceLetterBits | src/board/fen.rs:65-77 | A piece letter adds its (player, piece) at the cursor |
| FenDecoding.PlaceLetter | src/board/fen.rs:65-148 | A piece letter sets its plane at the cursor, then the cursor moves one file right |
| FenDecoding.DigitPlacesNothing | src/board/fen.rs:59-63 | A digit places no piece |
| FenDecoding.PlaceDigit | src/board/fen.rs:59-63 | A digit d moves the cursor d files right and places nothing |
| FenDecoding.PiecesNextRun | src/board/fen.rs:49-149 | A placement iteration that goes on leaves the result unchanged |
| FenDecoding.LetterRun | src/board/fen.rs:65-148 | At the loop level, a piece letter places its piece and moves on one file |
| FenDecoding.DigitRun | src/board/fen.rs:59-63 | At the loop level, a digit moves on that many files |
| FenDecoding.RankByteRun | src/board/fen.rs:59-148 | At the loop level, any rank byte places what it names and moves on the files it covers |
| FenDecoding.AfterRankFirst | src/board/fen.rs:59-148 | Reading a rank is reading its first byte and then the rest from the next file |
| FenDecoding.RankRun | src/board/fen.rs:59-148 | A whole rank's bytes place their pieces with `RankBits`, from the cursor's file, and leave the cursor past them |
| FenDecoding.SlashCursor | src/board/fen.rs:52-57 | '/' moves the cursor to file a of the rank below and changes nothing else |
| FenDecoding.SlashRun | src/board/fen.rs:52-57 | '/' moves the cursor to file a of the rank below |
| FenDecoding.PlacementSpace | src/board/fen.rs:50 | A space closes the placement field |
| FenDecoding.SliceJoin | src/board/fen.rs:49-57 | A placement field is its first rank, then '/' and the rest |
| FenDecoding.LastRankRun | src/board/fen.rs:49-80 | The last rank and the closing space give the planes `FieldBits` places, in the side-to-move field |
| FenDecoding.MoreRanks | src/board/fen.rs:49-80 | A field of several ranks is its first rank, a '/', and the field of the rest one rank lower |
| FenDecoding.PlacementRun | src/board/fen.rs:49-80 | A placement field of ranks separated by '/' places exactly the pieces `FieldBits` names, from the eighth rank down |
| FenDecoding.SideRun | src/board/fen.rs:81-88 | 'w' or 'b' and the closing space set the side to move |
| FenDecoding.RightsFirst | src/board/fen.rs:92-95 | The rights a castling field names are its first flag joined with the rest's |
| FenDecoding.CastlingFlagRun | src/board/fen.rs:92-95 | A castling letter joins its flag to the rights |
| FenDecoding.CastlingRun | src/board/fen.rs:89-98 | A castling field of flag letters and its space add exactly the rights it names |
| FenDecoding.EnPassantRun | src/board/fen.rs:99-125 | '-' leaves the target unset; a file letter and '3' or '6' set it to that square |
| FenDecoding.FullMovesRun | src/board/fen.rs:136-157 | A full-move field of digits, ended by a space or the input's end, ends decoding with the gathered position |
| FenDecoding.StartCursor | src/board/fen.rs:34 | The cursor starts at a8, the eighth rank's file a |
| FenDecoding.RecordLayout | src/board/fen.rs:49-145 | A record is its fields in order, each closed by one space |
| FenDecoding.StartRights | src/board/fen.rs:38 | Rights gathered from none are the rights named |
| FenDecoding.HeadRun | src/board/fen.rs:49-88 | The placement and side-to-move fields of a record give `FieldBits` and the named side |
| FenDecoding.TailRun | src/board/fen.rs:89-157 | The castling, en-passant, half-move and full-move fields end decoding with the gathered position |
| FenDecoding.RecordFields | src/board/fen.rs:43-145 | The placement, side, castling, en-passant and half-move fields of a record each sit where the decoder reaches them, closed by a space |
| FenDecoding.RecordFullMoves | src/board/fen.rs:125-145 | The full-move field of a record sits where the decoder reaches it after the half-move digits and their space, and is followed by the end of input or a space |
| FenDecoding.RecordOutput | src/board/fen.rs:151-157 | The gathered position is the record's pieces, side, rights, target and half-move count |
| FenDecoding.ParseRecord | src/board/fen.rs:21-158 | A well-formed record decodes to its pieces (`FieldBits`), side, named rights, en-passant target and half-move clock mod 256 |
| FenDecoding.SameAtReports | src/board/bits.rs:28-50 | Boards that agree on every plane at a square report the same piece and player there |
| FenDecoding.WithElsewhere | src/board/bits.rs:19-26 | Placing a piece leaves every other square as it was |
| FenDecoding.WithBoth | src/board/bits.rs:19-26 | Placing the same piece on two boards that agree at a square keeps them agreeing there |
| FenDecoding.PlaceElsewhere | src/board/fen.rs:59-77 | A rank byte read at another square leaves a square as it was |
| FenDecoding.RankBitsFrame | src/board/fen.rs:59-148 | A rank's bytes leave every square off their rank, or off the files they cover, as it was |
| FenDecoding.DownOne | src/board/fen.rs:53 | Above the first rank, one rank down is the rank numbered one less |
| FenDecoding.BelowNum | src/board/fen.rs:52-57 | n slashes down from a rank numbered at least n reach the rank numbered n less |
| FenDecoding.FieldBitsAppend | src/board/fen.rs:49-80 | Placing two runs of ranks is placing the first, then the second from where it left off |
| FenDecoding.FieldBitsFrame | src/board/fen.rs:49-80 | Ranks leave every square on a rank they do not cover as it was |
| FenDecoding.RankBitsFirst | src/board/fen.rs:59-148 | A rank's pieces at a square are those the rest of the rank leaves there, after its first byte is placed and the file has moved on |
| FenDecoding.RankAround | src/board/fen.rs:59-148 | A rank made of rank bytes around a piece letter is itself made of rank bytes, and its first byte and rest are those of the part before the letter |
| FenDecoding.FirstElsewhere | src/board/fen.rs:59-148 | A byte placed before the file of a square leaves that square's pieces alone, and the width of the bytes splits at that byte |
| FenDecoding.LetterDecides | src/board/fen.rs:65-148 | A piece letter sets its own square, and the bytes after it leave that square alone |
| FenDecoding.RankDecides | src/board/fen.rs:59-148 | Within a rank that fits on the board, only a piece letter decides its own square |
| FenDecoding.RankFieldDecides | src/board/fen.rs:49-80 | The rank holding a piece letter decides its square, and the ranks below leave it |
| FenDecoding.FieldAbove | src/board/fen.rs:49-80 | The ranks above a square's rank leave it alone and lead down to its rank |
| FenDecoding.SplitField | src/board/fen.rs:49-80 | Placing a field is placing the ranks above one rank, then that rank and the ones below from where they left off |
| FenDecoding.FieldDecides | src/board/fen.rs:49-80 | In a field that fits on the board, a piece letter's square holds what that letter alone puts on an empty board |
| FenDecoding.PlacedPiece | src/board/fen.rs:49-80 | In a field that fits on the board, `piece_at` and `player_at` report a piece letter's piece and player on its square |
| FenDecoding.LettersWidth | src/board/fen.rs:65-148 | A run of piece letters covers one file each |
| FenDecoding.StartRanksBytes | src/board/fen.rs:164 | Every rank of the starting position is made of rank bytes |
| FenDecoding.TestRanksBytes | src/board/fen.rs:165-166 | Every rank of the test position is made of rank bytes |
| FenDecoding.PositionRights | src/board/fen.rs:89-125 | "KQkq" names all four rights, and '-' names no target |
| FenDecoding.PositionClocks | src/board/fen.rs:126-135 | The half-move fields "0" and "1" read as 0 and 1 |
| FenDecoding.WhiteBackRank | src/board/fen.rs:164 | White's back rank starts with a rook and covers files a to h |
| FenDecoding.BlackBackRank | src/board/fen.rs:164 | Black's back rank ends with a rook and covers files a to h |
| FenDecoding.StartBoard | src/board/fen.rs:164 | The starting position decodes to White to move, all four rights, no target and clock 0 |
| FenDecoding.TestBoard | src/board/fen.rs:165-166 | The test position decodes to Black to move, all four rights, no target and clock 1 |
| FenDecoding.StartRookA1 | src/board/fen.rs:164 | The starting position has a White rook on a1 |
| FenDecoding.StartRookH8 | src/board/fen.rs:164 | The starting position has a Black rook on h8 |
| FenDecoding.TestKnight | src/board/fen.rs:165-166 | The test position has a White knight on f3 |
| FenDecoding.StartPosition | src/board/fen.rs:164 | The starting position decodes with White to move, all four castling rights, no en-passant target, half-move clock 0, a White rook on a1 and a Black rook on h8 |
| FenDecoding.TestFenDecodes | src/board/fen.rs:162-170 | The source's test position decodes with Black to move, all four castling rights, no en-passant target, half-move clock 1 and a White knight on f3 |
| Bits.LastPlaneAtAgree | src/board/bits.rs:28-50 | Plane lists that agree at a square have the same last plane holding it |

## Left out

- `src/board/display.rs` is not part of this model. It renders a board through `fmt::Formatter` and is read-only output.
- Bitboard planes are sets of squares, not `u64` words. `at` and `with` are set membership and insertion, which is what the shifts and ORs compute on the index.
- Castling rights are four booleans, not the `bitflags` type over `u8`. `Bits` gives the byte they make, and `Union` is OR taken bit by bit. The macro's other generated operations are not modelled.
- Counters follow release builds: `u8` arithmetic wraps modulo 256. A debug build panics on the same overflow, and that panic is not modelled.
- The input is any sequence of bytes, with each byte read as the `char` of the same code, as the source's `ch as char` does. That the input came from a valid UTF-8 `&str` is not modelled.
- The `unreachable!()` arms of `Square::file` and `index_to_piece`, and the dead `None` arm of the en-passant file lookup, are proved unreachable rather than modelled as panics. The `None => Rank::First` fallback of `Square::rank` is kept as written.
- Coord.Square.WrappingRightBy: computed directly on the index rather than through `File::wrapping_right_by` and `from_rank_file`. `SquareWrappingRightByComposes` proves the two are equal for every square and amount.
- The `Board` struct (`src/board.rs:13-24`) has no operations and is not modelled. Nor are the derived `Debug`, `Hash`, `Eq` and `Clone` traits.
- FenDecoding.PlacedPiece: states where a piece lands only for placement fields that fit on the board (at most eight ranks, each covering at most eight files). For other fields, `ParseRecord` still gives the planes as `FieldBits`, which wraps the cursor as the decoder does.
