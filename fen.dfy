/**
 * Decoding of Forsyth-Edwards Notation (section 16.1 of the PGN Standard)
 * into an unchecked position.
 *
 * The decoder is one left-to-right pass over the input bytes driven by a
 * six-state machine, Pieces -> SideToMove -> Castling -> EnPassant ->
 * HalfMoves -> FullMoves, that moves one state forward at each space. A
 * cursor square starts on A8 and tracks where the next piece goes.
 *
 * `Step` is one iteration of the decoding loop and `Run` iterates it; `Parse`
 * is what the decoder returns, and the method `ParseFen` computes it with
 * the loop itself.
 */
module Fen {
  import opened Wrappers
  import opened Coord
  import opened Board
  import opened Bits
  import opened Pseudo
  import CastlingRights

  /** A byte of the input, represented by the char of the same code (which is what `byte as char` gives). */
  type Byte = c: char | c as int < 256 witness ' '

  /** The decoder's errors. Only `EnPassantTooShort` and `Unexpected` are ever produced (see `Run`). */
  datatype FromFenError =
    | NoPieces
    | NoSideToMove
    | NoCastling
    | NoEnPassant
    | EnPassantTooShort
    | NoHalfmoves
    | Unexpected(ch: char)

  /** The field being read. */
  datatype State = Pieces | SideToMove | Castling | EnPassant | HalfMoves | FullMoves {

    /** The field's position among the six. */
    function Ordinal(): (n: nat)
      ensures n < 6
    {
      match this
      case Pieces => 0
      case SideToMove => 1
      case Castling => 2
      case EnPassant => 3
      case HalfMoves => 4
      case FullMoves => 5
    }
  }

  /** Everything the decoding loop updates. */
  datatype Parser = Parser(
    i: nat,
    at: Square,
    state: State,
    bits: BitBoards,
    player: Player,
    castling: CastlingRights.Castling,
    enPassant: Option<Square>,
    halfMoves: U8,
    fullMoves: U8)

  /** The loop's starting point: cursor on A8, empty planes, White to move, no rights, no target, zero counters. */
  const Start: Parser :=
    Parser(0, A8, Pieces, BitBoards.Empty(), White, CastlingRights.Empty(), None, 0, 0)

  /** The position a parser has gathered; the full-move counter is dropped. */
  function Output(p: Parser): BoardUnchecked
  {
    BoardUnchecked(p.bits, p.player, p.castling, p.enPassant, p.halfMoves)
  }

  /** The outcome of one loop iteration: go on with a new parser, or leave with a result. */
  datatype Outcome = Next(next: Parser) | Stop(result: Result<BoardUnchecked, FromFenError>)

  /** The player and piece kind a placement letter stands for: upper case White, lower case Black. */
  function PieceOfLetter(ch: Byte): Option<(Player, Piece)>
  {
    match ch
    case 'P' => Some((White, Pawn))
    case 'N' => Some((White, Horse))
    case 'B' => Some((White, Bishop))
    case 'R' => Some((White, Rook))
    case 'Q' => Some((White, Queen))
    case 'K' => Some((White, King))
    case 'p' => Some((Black, Pawn))
    case 'n' => Some((Black, Horse))
    case 'b' => Some((Black, Bishop))
    case 'r' => Some((Black, Rook))
    case 'q' => Some((Black, Queen))
    case 'k' => Some((Black, King))
    case _ => None
  }

  /** The castling flag a castling-field letter grants. */
  function CastlingFlag(ch: Byte): Option<CastlingRights.Castling>
  {
    match ch
    case 'K' => Some(CastlingRights.WHITE_KING_SIDE)
    case 'Q' => Some(CastlingRights.WHITE_QUEEN_SIDE)
    case 'k' => Some(CastlingRights.BLACK_KING_SIDE)
    case 'q' => Some(CastlingRights.BLACK_QUEEN_SIDE)
    case _ => None
  }

  /** `u8` arithmetic wraps modulo 256. */
  function WrapU8(n: int): U8
  {
    n % 256
  }

  /**
   * A decimal counter after one more digit: `counter *= 10; counter += digit`,
   * each wrapping (the lemma `FenProperties.PushDigitValue`).
   */
  function PushDigit(counter: U8, digit: Byte): U8
    requires '0' <= digit <= '9'
  {
    WrapU8(WrapU8(counter * 10) + (digit as int - '0' as int))
  }

  /** The end of a loop iteration that neither `continue`s nor leaves: the cursor moves one file right, wrapping. */
  function Advance(p: Parser): Outcome
  {
    Next(p.(at := p.at.WrappingRightBy(1)))
  }

  /**
   * A byte of the piece-placement field (the lemmas `FenProperties.PlacementRankEnd`,
   * `PlacementSkip` and `PlacementPiece`).
   */
  function PiecesStep(ch: Byte, q: Parser): Outcome
  {
    if ch == ' ' then Advance(q.(state := SideToMove))
    else if ch == '/' then Next(q.(at := q.at.WrappingDownBy(1).WithFile(File.A)))
    else if '1' <= ch <= '8' then Next(q.(at := q.at.WrappingRightBy(ch as int - '0' as int)))
    else
      match PieceOfLetter(ch)
      case Some((player, piece)) => Advance(q.(bits := q.bits.With(player, piece, q.at)))
      case None => Stop(Err(Unexpected(ch)))
  }

  /** A byte of the side-to-move field. */
  function SideToMoveStep(ch: Byte, q: Parser): Outcome
  {
    if ch == ' ' then Advance(q.(state := Castling))
    else if ch == 'w' then Advance(q.(player := White))
    else if ch == 'b' then Advance(q.(player := Black))
    else Stop(Err(Unexpected(ch)))
  }

  /** A byte of the castling field; note that '-' is not among the accepted bytes. */
  function CastlingStep(ch: Byte, q: Parser): Outcome
  {
    if ch == ' ' then Advance(q.(state := EnPassant))
    else
      match CastlingFlag(ch)
      case Some(flag) => Advance(q.(castling := CastlingRights.Union(q.castling, flag)))
      case None => Stop(Err(Unexpected(ch)))
  }

  /**
   * A byte of the en-passant field, read at `q.i - 1`. A file letter reads
   * the following byte too, which must be the rank '3' or '6'.
   */
  function EnPassantStep(fen: seq<Byte>, ch: Byte, q: Parser): (o: Outcome)
    requires 0 < q.i <= |fen|
    ensures o.Next? ==> q.i <= o.next.i <= |fen|
  {
    if ch == '-' then Next(q)
    else if ch == ' ' then Advance(q.(state := HalfMoves))
    else if 'a' <= ch <= 'h' then
      match File.FromChar(ch)
      case None => assert false; Next(q)
      case Some(file) =>
        if q.i >= |fen| then Stop(Err(EnPassantTooShort))
        else if fen[q.i] == '3' then
          Advance(q.(i := q.i + 1, enPassant := Some(Square.FromRankFile(Third, file))))
        else if fen[q.i] == '6' then
          Advance(q.(i := q.i + 1, enPassant := Some(Square.FromRankFile(Sixth, file))))
        else Stop(Err(Unexpected(fen[q.i])))
    else Stop(Err(Unexpected(ch)))
  }

  /** A byte of the half-move field. */
  function HalfMovesStep(ch: Byte, q: Parser): Outcome
  {
    if ch == ' ' then Advance(q.(state := FullMoves))
    else if '0' <= ch <= '9' then Advance(q.(halfMoves := PushDigit(q.halfMoves, ch)))
    else Stop(Err(Unexpected(ch)))
  }

  /** A byte of the full-move field; a space ends decoding. */
  function FullMovesStep(ch: Byte, q: Parser): Outcome
  {
    if ch == ' ' then Stop(Ok(Output(q)))
    else if '0' <= ch <= '9' then Advance(q.(fullMoves := PushDigit(q.fullMoves, ch)))
    else Stop(Err(Unexpected(ch)))
  }

  /** One iteration of the decoding loop, on the byte at `p.i`. */
  function Step(fen: seq<Byte>, p: Parser): (o: Outcome)
    requires p.i < |fen|
    ensures o.Next? ==> p.i < o.next.i <= |fen|
  {
    var ch := fen[p.i];
    var q := p.(i := p.i + 1);
    match p.state
    case Pieces => PiecesStep(ch, q)
    case SideToMove => SideToMoveStep(ch, q)
    case Castling => CastlingStep(ch, q)
    case EnPassant => EnPassantStep(fen, ch, q)
    case HalfMoves => HalfMovesStep(ch, q)
    case FullMoves => FullMovesStep(ch, q)
  }

  /**
   * The decoding loop from parser `p` to its end. Its result is a position,
   * or one of only two errors: `EnPassantTooShort`, or `Unexpected` carrying
   * a byte of the input that was still to be read.
   */
  function Run(fen: seq<Byte>, p: Parser): (r: Result<BoardUnchecked, FromFenError>)
    requires p.i <= |fen|
    ensures r.Err? ==> r.error.EnPassantTooShort? || (r.error.Unexpected? && r.error.ch in fen[p.i..])
    decreases |fen| - p.i
  {
    if p.i == |fen| then Ok(Output(p))
    else
      match Step(fen, p)
      case Next(q) => Run(fen, q)
      case Stop(r) => r
  }

  /**
   * What decoding `fen` returns: what `ParseFen` computes, and for a well-formed
   * record of fields the position of the lemma `FenDecoding.ParseRecord`.
   */
  function Parse(fen: seq<Byte>): Result<BoardUnchecked, FromFenError>
  {
    Run(fen, Start)
  }

  /**
   * How a loop iteration ends: `continue` (the cursor stays), falling through
   * to the cursor's step right, `break` (decoding ends with the position), or
   * `return` with a result.
   */
  datatype Flow = Continue | Proceed | Break | Return(result: Result<BoardUnchecked, FromFenError>)

  /** The iteration's outcome, once the arm for the current field has ended with `flow` and left the loop variables as in `q`. */
  function Close(flow: Flow, q: Parser): Outcome
  {
    match flow
    case Continue => Next(q)
    case Proceed => Advance(q)
    case Break => Stop(Ok(Output(q)))
    case Return(r) => Stop(r)
  }

  /**
   * The loop's result after an iteration that ends with `flow` and leaves the
   * variables as in `q`: an iteration that goes on leaves it unchanged, one
   * that leaves gives the loop's result.
   */
  lemma RunClose(fen: seq<Byte>, p: Parser, flow: Flow, q: Parser)
    requires p.i < |fen| && q.i <= |fen| && Step(fen, p) == Close(flow, q)
    ensures flow.Continue? ==> Run(fen, p) == Run(fen, q)
    ensures flow.Proceed? ==> Run(fen, p) == Run(fen, q.(at := q.at.WrappingRightBy(1)))
    ensures flow.Break? ==> Run(fen, p) == Ok(Output(q))
    ensures flow.Return? ==> Run(fen, p) == flow.result
  {
  }

  /** The loop's arm for the piece-placement field, on the variables it reads and writes. */
  method PiecesByte(fen: seq<Byte>, ghost p: Parser, ch: Byte, at: Square, bits: BitBoards)
    returns (flow: Flow, newState: State, newAt: Square, newBits: BitBoards)
    requires p.i < |fen| && fen[p.i] == ch && p.state == Pieces && p.at == at && p.bits == bits
    ensures Step(fen, p) == Close(flow, p.(i := p.i + 1, state := newState, at := newAt, bits := newBits))
    ensures flow.Proceed? || flow.Continue? || (flow.Return? && flow.result == Err(Unexpected(ch)))
  {
    newState, newAt, newBits := Pieces, at, bits;
    if ch == ' ' {
      newState := SideToMove;
    } else if ch == '/' {
      newAt := at.WrappingDownBy(1);
      newAt := newAt.WithFile(File.A);
      return Continue, newState, newAt, newBits;
    } else if '1' <= ch <= '8' {
      newAt := at.WrappingRightBy(ch as int - '0' as int);
      return Continue, newState, newAt, newBits;
    } else {
      match PieceOfLetter(ch) {
        case Some((player, piece)) =>
          newBits := bits.With(player, piece, at);
        case None =>
          return Return(Err(Unexpected(ch))), newState, newAt, newBits;
      }
    }
    flow := Proceed;
  }

  /** The loop's arm for the side-to-move field. */
  method SideToMoveByte(fen: seq<Byte>, ghost p: Parser, ch: Byte, player: Player)
    returns (flow: Flow, newState: State, newPlayer: Player)
    requires p.i < |fen| && fen[p.i] == ch && p.state == SideToMove && p.player == player
    ensures Step(fen, p) == Close(flow, p.(i := p.i + 1, state := newState, player := newPlayer))
    ensures flow.Proceed? || (flow.Return? && flow.result == Err(Unexpected(ch)))
  {
    newState, newPlayer := SideToMove, player;
    if ch == ' ' {
      newState := Castling;
    } else if ch == 'w' {
      newPlayer := White;
    } else if ch == 'b' {
      newPlayer := Black;
    } else {
      return Return(Err(Unexpected(ch))), newState, newPlayer;
    }
    flow := Proceed;
  }

  /** The loop's arm for the castling field. */
  method CastlingByte(fen: seq<Byte>, ghost p: Parser, ch: Byte, castling: CastlingRights.Castling)
    returns (flow: Flow, newState: State, newCastling: CastlingRights.Castling)
    requires p.i < |fen| && fen[p.i] == ch && p.state == Castling && p.castling == castling
    ensures Step(fen, p) == Close(flow, p.(i := p.i + 1, state := newState, castling := newCastling))
    ensures flow.Proceed? || (flow.Return? && flow.result == Err(Unexpected(ch)))
  {
    newState, newCastling := Castling, castling;
    if ch == ' ' {
      newState := EnPassant;
    } else {
      match CastlingFlag(ch) {
        case Some(flag) =>
          newCastling := CastlingRights.Union(castling, flag);
        case None =>
          return Return(Err(Unexpected(ch))), newState, newCastling;
      }
    }
    flow := Proceed;
  }

  /** The loop's arm for the en-passant field; a file letter also consumes the rank byte at `i`. */
  method EnPassantByte(fen: seq<Byte>, ghost p: Parser, ch: Byte, i: nat, enPassant: Option<Square>)
    returns (flow: Flow, newState: State, newI: nat, newEnPassant: Option<Square>)
    requires p.i < |fen| && fen[p.i] == ch && p.state == EnPassant && p.i + 1 == i && p.enPassant == enPassant
    ensures Step(fen, p) == Close(flow, p.(state := newState, i := newI, enPassant := newEnPassant))
    ensures i <= newI <= |fen|
    ensures flow.Proceed? || flow.Continue? || flow.Return?
  {
    newState, newI, newEnPassant := EnPassant, i, enPassant;
    if ch == '-' {
      return Continue, newState, newI, newEnPassant;
    } else if ch == ' ' {
      newState := HalfMoves;
    } else if 'a' <= ch <= 'h' {
      var file;
      match File.FromChar(ch) {
        case Some(f) =>
          file := f;
        case None =>
          assert false;
          return Continue, newState, newI, newEnPassant;
      }
      if i >= |fen| {
        return Return(Err(EnPassantTooShort)), newState, newI, newEnPassant;
      }
      var rank;
      if fen[i] == '3' {
        rank := Third;
      } else if fen[i] == '6' {
        rank := Sixth;
      } else {
        return Return(Err(Unexpected(fen[i]))), newState, newI, newEnPassant;
      }
      newI := i + 1;
      newEnPassant := Some(Square.FromRankFile(rank, file));
    } else {
      return Return(Err(Unexpected(ch))), newState, newI, newEnPassant;
    }
    flow := Proceed;
  }

  /** The loop's arm for the half-move field: `half_moves *= 10; half_moves += digit`, each wrapping. */
  method HalfMovesByte(fen: seq<Byte>, ghost p: Parser, ch: Byte, halfMoves: U8)
    returns (flow: Flow, newState: State, newHalfMoves: U8)
    requires p.i < |fen| && fen[p.i] == ch && p.state == HalfMoves && p.halfMoves == halfMoves
    ensures Step(fen, p) == Close(flow, p.(i := p.i + 1, state := newState, halfMoves := newHalfMoves))
    ensures flow.Proceed? || (flow.Return? && flow.result == Err(Unexpected(ch)))
  {
    newState, newHalfMoves := HalfMoves, halfMoves;
    if ch == ' ' {
      newState := FullMoves;
    } else if '0' <= ch <= '9' {
      newHalfMoves := WrapU8(halfMoves * 10);
      newHalfMoves := WrapU8(newHalfMoves + (ch as int - '0' as int));
    } else {
      return Return(Err(Unexpected(ch))), newState, newHalfMoves;
    }
    flow := Proceed;
  }

  /** The loop's arm for the full-move field; a space leaves the loop. */
  method FullMovesByte(fen: seq<Byte>, ghost p: Parser, ch: Byte, fullMoves: U8)
    returns (flow: Flow, newFullMoves: U8)
    requires p.i < |fen| && fen[p.i] == ch && p.state == FullMoves && p.fullMoves == fullMoves
    ensures Step(fen, p) == Close(flow, p.(i := p.i + 1, fullMoves := newFullMoves))
    ensures flow.Proceed? || flow.Break? || (flow.Return? && flow.result == Err(Unexpected(ch)))
  {
    newFullMoves := fullMoves;
    if ch == ' ' {
      return Break, newFullMoves;
    } else if '0' <= ch <= '9' {
      newFullMoves := WrapU8(fullMoves * 10);
      newFullMoves := WrapU8(newFullMoves + (ch as int - '0' as int));
    } else {
      return Return(Err(Unexpected(ch))), newFullMoves;
    }
    flow := Proceed;
  }

  /** Decodes `fen` in one pass over its bytes. */
  method ParseFen(fen: seq<Byte>) returns (r: Result<BoardUnchecked, FromFenError>)
    ensures r == Parse(fen)
  {
    var i := 0;
    var at := A8;
    var state := Pieces;
    var bits := BitBoards.Empty();
    var player := White;
    var castling := CastlingRights.Empty();
    var enPassant: Option<Square> := None;
    var halfMoves: U8 := 0;
    var fullMoves: U8 := 0;

    while i < |fen|
      invariant i <= |fen|
      invariant Run(fen, Parser(i, at, state, bits, player, castling, enPassant, halfMoves, fullMoves)) == Parse(fen)
      decreases |fen| - i
    {
      ghost var p := Parser(i, at, state, bits, player, castling, enPassant, halfMoves, fullMoves);
      var ch := fen[i];
      i := i + 1;

      var flow;
      match state {
        case Pieces =>
          flow, state, at, bits := PiecesByte(fen, p, ch, at, bits);
        case SideToMove =>
          flow, state, player := SideToMoveByte(fen, p, ch, player);
        case Castling =>
          flow, state, castling := CastlingByte(fen, p, ch, castling);
        case EnPassant =>
          flow, state, i, enPassant := EnPassantByte(fen, p, ch, i, enPassant);
        case HalfMoves =>
          flow, state, halfMoves := HalfMovesByte(fen, p, ch, halfMoves);
        case FullMoves =>
          flow, fullMoves := FullMovesByte(fen, p, ch, fullMoves);
      }
      ghost var q := Parser(i, at, state, bits, player, castling, enPassant, halfMoves, fullMoves);
      RunClose(fen, p, flow, q);

      match flow {
        case Return(result) =>
          return result;
        case Break =>
          break;
        case Continue =>
          continue;
        case Proceed =>
      }

      at := at.WrappingRightBy(1);
    }

    r := Ok(BoardUnchecked(bits, player, castling, enPassant, halfMoves));
  }
}
