/**
 * Properties of the FEN decoder: which bytes each field accepts, how the
 * en-passant field reads its square, how the state machine moves forward,
 * where the cursor goes, what the counters hold, and what the decoder never
 * looks at.
 */
module FenProperties {
  import opened Wrappers
  import opened Coord
  import opened Board
  import opened Bits
  import opened Pseudo
  import opened Fen
  import CastlingRights

  // ---------------------------------------------------------------------
  // The empty input and the error kinds
  // ---------------------------------------------------------------------

  /**
   * An empty input is accepted: empty planes, White to move, no castling
   * rights, no en-passant target and a zero half-move counter.
   */
  lemma ParseEmpty()
    ensures Parse([]) == Ok(BoardUnchecked(BitBoards.Empty(), White, CastlingRights.Empty(), None, 0))
  {
  }

  /**
   * Only two of the seven error kinds are ever produced, and an `Unexpected`
   * error carries a byte of the input.
   */
  lemma ParseErrors(fen: seq<Byte>)
    ensures Parse(fen).Err? ==>
      Parse(fen).error == EnPassantTooShort || (Parse(fen).error.Unexpected? && Parse(fen).error.ch in fen)
  {
    assert fen[0..] == fen;
  }

  // ---------------------------------------------------------------------
  // The bytes each field accepts
  // ---------------------------------------------------------------------

  /** The bytes a field accepts, independently of what they do. */
  predicate Accepts(state: State, ch: Byte)
  {
    match state
    case Pieces => ch == ' ' || ch == '/' || '1' <= ch <= '8' || PieceOfLetter(ch).Some?
    case SideToMove => ch == ' ' || ch == 'w' || ch == 'b'
    case Castling => ch == ' ' || CastlingFlag(ch).Some?
    case EnPassant => ch == ' ' || ch == '-' || 'a' <= ch <= 'h'
    case HalfMoves => ch == ' ' || '0' <= ch <= '9'
    case FullMoves => ch == ' ' || '0' <= ch <= '9'
  }

  /** A byte the current field does not accept ends decoding with `Unexpected` of that byte. */
  lemma UnacceptedByte(fen: seq<Byte>, p: Parser)
    requires p.i < |fen| && !Accepts(p.state, fen[p.i])
    ensures Step(fen, p) == Stop(Err(Unexpected(fen[p.i])))
    ensures Run(fen, p) == Err(Unexpected(fen[p.i]))
  {
  }

  /**
   * An iteration stops decoding exactly when its byte is not accepted, when
   * it is the space that closes the full-move field, or when it is an
   * en-passant file letter that is not followed by '3' or '6'.
   */
  lemma StepStops(fen: seq<Byte>, p: Parser)
    requires p.i < |fen|
    ensures Step(fen, p).Stop? <==>
      !Accepts(p.state, fen[p.i])
      || (p.state == FullMoves && fen[p.i] == ' ')
      || (p.state == EnPassant && 'a' <= fen[p.i] <= 'h' &&
          (p.i + 1 == |fen| || (fen[p.i + 1] != '3' && fen[p.i + 1] != '6')))
  {
  }

  /**
   * The castling field has no '-' (a position without castling rights is
   * written with an empty field), and the placement field has no '0' or '9'.
   */
  lemma {:induction false} RejectedBytes(fen: seq<Byte>, p: Parser)
    requires p.i < |fen|
    ensures p.state == Castling && fen[p.i] == '-' ==> Run(fen, p) == Err(Unexpected('-'))
    ensures p.state == Pieces && fen[p.i] in "09" ==> Run(fen, p) == Err(Unexpected(fen[p.i]))
  {
    if (p.state == Castling && fen[p.i] == '-') || (p.state == Pieces && fen[p.i] in "09") {
      UnacceptedByte(fen, p);
    }
  }

  // ---------------------------------------------------------------------
  // The en-passant field
  // ---------------------------------------------------------------------

  /**
   * A file letter in the en-passant field needs a following rank byte: at
   * the end of the input it is `EnPassantTooShort`, a rank byte other than
   * '3' or '6' is `Unexpected` of that byte, and '3' or '6' sets the target
   * to that file on the third or sixth rank and consumes both bytes.
   */
  lemma {:induction false} EnPassantSquare(fen: seq<Byte>, p: Parser)
    requires p.i < |fen| && p.state == EnPassant && 'a' <= fen[p.i] <= 'h'
    ensures p.i + 1 == |fen| ==> Run(fen, p) == Err(EnPassantTooShort)
    ensures p.i + 1 < |fen| && fen[p.i + 1] != '3' && fen[p.i + 1] != '6' ==>
      Run(fen, p) == Err(Unexpected(fen[p.i + 1]))
    ensures p.i + 1 < |fen| && (fen[p.i + 1] == '3' || fen[p.i + 1] == '6') ==>
      Step(fen, p).Next? &&
      var q := Step(fen, p).next;
      q.i == p.i + 2 && q.state == EnPassant && q.enPassant.Some? &&
      q.enPassant.value.File().IntoChar() == fen[p.i] &&
      q.enPassant.value.Rank() == (if fen[p.i + 1] == '3' then Third else Sixth) &&
      Run(fen, p) == Run(fen, q)
  {
    if p.i + 1 < |fen| && (fen[p.i + 1] == '3' || fen[p.i + 1] == '6') {
      var file := File.FromChar(fen[p.i]).value;
      var rank := if fen[p.i + 1] == '3' then Third else Sixth;
      RankFileRoundTrip(rank, file);
    }
  }

  // ---------------------------------------------------------------------
  // The state machine
  // ---------------------------------------------------------------------

  /** The field only moves forward, and by exactly one at each space. */
  lemma StepStateOrder(fen: seq<Byte>, p: Parser)
    requires p.i < |fen| && Step(fen, p).Next?
    ensures Step(fen, p).next.state.Ordinal() == p.state.Ordinal() + (if fen[p.i] == ' ' then 1 else 0)
  {
  }

  /**
   * A space in the full-move field ends decoding with the gathered position,
   * whatever follows it.
   */
  lemma SpaceEndsDecoding(fen: seq<Byte>, rest: seq<Byte>, p: Parser)
    requires p.i < |fen| && p.state == FullMoves && fen[p.i] == ' '
    ensures Run(fen + rest, p) == Ok(Output(p))
  {
    assert (fen + rest)[p.i] == ' ';
  }

  /**
   * Decoding from `p` stops inside `fen`, and not for want of an
   * en-passant rank byte.
   */
  predicate StopsWithin(fen: seq<Byte>, p: Parser)
    requires p.i <= |fen|
    decreases |fen| - p.i
  {
    p.i < |fen| &&
    match Step(fen, p)
    case Next(q) => StopsWithin(fen, q)
    case Stop(r) => r != Err(EnPassantTooShort)
  }

  /** An iteration reads no byte past the one after it, and that one only when it exists. */
  lemma StepAppend(fen: seq<Byte>, rest: seq<Byte>, p: Parser)
    requires p.i < |fen| && Step(fen, p) != Stop(Err(EnPassantTooShort))
    ensures Step(fen + rest, p) == Step(fen, p)
  {
    assert (fen + rest)[p.i] == fen[p.i];
    if p.i + 1 < |fen| {
      assert (fen + rest)[p.i + 1] == fen[p.i + 1];
    }
  }

  /** Once decoding stops inside `fen`, the bytes after it are never read. */
  lemma {:induction false} RunAppend(fen: seq<Byte>, rest: seq<Byte>, p: Parser)
    requires p.i <= |fen| && StopsWithin(fen, p)
    ensures Run(fen + rest, p) == Run(fen, p)
    decreases |fen| - p.i
  {
    StepAppend(fen, rest, p);
    match Step(fen, p)
    case Next(q) => RunAppend(fen, rest, q);
    case Stop(r) =>
  }

  // ---------------------------------------------------------------------
  // What the result does not depend on
  // ---------------------------------------------------------------------

  /**
   * Two parsers that differ at most in the full-move counter and, once past
   * the placement field, in the cursor.
   */
  predicate Similar(p: Parser, p': Parser)
  {
    p.i == p'.i && p.state == p'.state && p.bits == p'.bits && p.player == p'.player
    && p.castling == p'.castling && p.enPassant == p'.enPassant && p.halfMoves == p'.halfMoves
    && (p.state == Pieces ==> p.at == p'.at)
  }

  /** Two iteration outcomes that are the same result, or similar parsers to go on with. */
  predicate SimilarOutcome(o: Outcome, o': Outcome)
  {
    match o
    case Stop(r) => o' == Stop(r)
    case Next(q) => o'.Next? && Similar(q, o'.next)
  }

  /** The placement field's iteration treats similar parsers alike. */
  lemma PiecesSimilar(fen: seq<Byte>, p: Parser, p': Parser)
    requires p.i < |fen| && Similar(p, p') && p.state == Pieces
    ensures SimilarOutcome(Step(fen, p), Step(fen, p'))
  {
  }

  /** The side-to-move field's iteration treats similar parsers alike. */
  lemma SideToMoveSimilar(fen: seq<Byte>, p: Parser, p': Parser)
    requires p.i < |fen| && Similar(p, p') && p.state == SideToMove
    ensures SimilarOutcome(Step(fen, p), Step(fen, p'))
  {
  }

  /** The castling field's iteration treats similar parsers alike. */
  lemma CastlingSimilar(fen: seq<Byte>, p: Parser, p': Parser)
    requires p.i < |fen| && Similar(p, p') && p.state == Castling
    ensures SimilarOutcome(Step(fen, p), Step(fen, p'))
  {
  }

  /** The en-passant field's iteration treats similar parsers alike. */
  lemma EnPassantSimilar(fen: seq<Byte>, p: Parser, p': Parser)
    requires p.i < |fen| && Similar(p, p') && p.state == EnPassant
    ensures SimilarOutcome(Step(fen, p), Step(fen, p'))
  {
  }

  /** The half-move field's iteration treats similar parsers alike. */
  lemma HalfMovesSimilar(fen: seq<Byte>, p: Parser, p': Parser)
    requires p.i < |fen| && Similar(p, p') && p.state == HalfMoves
    ensures SimilarOutcome(Step(fen, p), Step(fen, p'))
  {
  }

  /**
   * The full-move field's iteration treats similar parsers alike: the space
   * that ends decoding gives the same position from both.
   */
  lemma FullMovesSimilar(fen: seq<Byte>, p: Parser, p': Parser)
    requires p.i < |fen| && Similar(p, p') && p.state == FullMoves
    ensures SimilarOutcome(Step(fen, p), Step(fen, p'))
  {
  }

  /** Every iteration treats similar parsers alike. */
  lemma {:induction false} StepSimilar(fen: seq<Byte>, p: Parser, p': Parser)
    requires p.i < |fen| && Similar(p, p')
    ensures SimilarOutcome(Step(fen, p), Step(fen, p'))
  {
    match p.state
    case Pieces => PiecesSimilar(fen, p, p');
    case SideToMove => SideToMoveSimilar(fen, p, p');
    case Castling => CastlingSimilar(fen, p, p');
    case EnPassant => EnPassantSimilar(fen, p, p');
    case HalfMoves => HalfMovesSimilar(fen, p, p');
    case FullMoves => FullMovesSimilar(fen, p, p');
  }

  /** Decoding from similar parsers gives the same result. */
  lemma {:induction false} RunSimilar(fen: seq<Byte>, p: Parser, p': Parser)
    requires p.i <= |fen| && Similar(p, p')
    ensures Run(fen, p) == Run(fen, p')
    decreases |fen| - p.i
  {
    if p.i < |fen| {
      StepSimilar(fen, p, p');
      match Step(fen, p)
      case Next(q) => RunSimilar(fen, q, Step(fen, p').next);
      case Stop(r) =>
    }
  }

  /** The full-move counter never reaches the result. */
  lemma {:induction false} RunIgnoresFullMoves(fen: seq<Byte>, p: Parser, n: U8)
    requires p.i <= |fen|
    ensures Run(fen, p.(fullMoves := n)) == Run(fen, p)
    decreases |fen| - p.i
  {
    RunSimilar(fen, p, p.(fullMoves := n));
  }

  /** Past the placement field the cursor no longer affects the result. */
  lemma {:induction false} RunIgnoresCursor(fen: seq<Byte>, p: Parser, s: Square)
    requires p.i <= |fen| && p.state != Pieces
    ensures Run(fen, p.(at := s)) == Run(fen, p)
  {
    RunSimilar(fen, p, p.(at := s));
  }

  // ---------------------------------------------------------------------
  // The placement field
  // ---------------------------------------------------------------------

  /**
   * In the placement field '/' moves the cursor to file a one rank down
   * (from the first rank to the eighth) and changes nothing else.
   */
  lemma {:induction false} PlacementRankEnd(q: Parser)
    ensures PiecesStep('/', q).Next?
    ensures var n := PiecesStep('/', q).next;
      n.at.File() == File.A && n.at.Rank().Num() == (q.at.Rank().Num() - 1) % 8 && n == q.(at := n.at)
  {
    SquareWrappingDownBy(q.at, 1);
    WithRankWithFile(q.at.WrappingDownBy(1), q.at.Rank(), File.A);
  }

  /**
   * In the placement field a digit d moves the cursor d files right within
   * its rank, wrapping, and changes nothing else.
   */
  lemma {:induction false} PlacementSkip(ch: Byte, q: Parser)
    requires '1' <= ch <= '8'
    ensures PiecesStep(ch, q).Next?
    ensures var n := PiecesStep(ch, q).next;
      n.at.Rank() == q.at.Rank() && n.at.File().Num() == (q.at.File().Num() + (ch as int - '0' as int)) % 8
      && n == q.(at := n.at)
  {
    SquareWrappingRightBy(q.at, ch as int - '0' as int);
  }

  /**
   * In the placement field a piece letter sets that piece's plane at the
   * cursor and moves the cursor one file right within its rank, wrapping,
   * and changes nothing else; any other byte but a space, '/' or a digit is rejected.
   */
  lemma {:induction false} PlacementPiece(ch: Byte, q: Parser)
    requires ch != ' ' && ch != '/' && !('1' <= ch <= '8')
    ensures PiecesStep(ch, q).Next? <==> PieceOfLetter(ch).Some?
    ensures PieceOfLetter(ch).None? ==> PiecesStep(ch, q) == Stop(Err(Unexpected(ch)))
    ensures PieceOfLetter(ch).Some? ==> var n := PiecesStep(ch, q).next;
      n.at.Rank() == q.at.Rank() && n.at.File().Num() == (q.at.File().Num() + 1) % 8
      && n == q.(at := n.at, bits := q.bits.With(PieceOfLetter(ch).value.0, PieceOfLetter(ch).value.1, q.at))
  {
    SquareWrappingRightBy(q.at, 1);
  }

  /** A letter places the piece it names: upper case White, lower case Black. */
  lemma PieceLetters()
    ensures PieceOfLetter('N') == Some((White, Horse)) && PieceOfLetter('n') == Some((Black, Horse))
    ensures forall ch: Byte :: PieceOfLetter(ch).Some? <==> ch in "PNBRQKpnbrqk"
    ensures forall ch: Byte :: PieceOfLetter(ch).Some? ==>
      (PieceOfLetter(ch).value.0 == White <==> 'A' <= ch <= 'Z')
  {
  }

  // ---------------------------------------------------------------------
  // Counters
  // ---------------------------------------------------------------------

  /** Every byte of `s` is a decimal digit. */
  predicate AllDigits(s: seq<Byte>)
  {
    forall k :: 0 <= k < |s| ==> '0' <= s[k] <= '9'
  }

  /** The number the digits `s` write in decimal, most significant first. */
  function Decimal(s: seq<Byte>): nat
    requires AllDigits(s)
    decreases |s|
  {
    if s == [] then 0 else Decimal(s[..|s| - 1]) * 10 + (s[|s| - 1] as int - '0' as int)
  }

  /** Ten to the power `n`. */
  function Pow10(n: nat): nat
  {
    if n == 0 then 1 else 10 * Pow10(n - 1)
  }

  /** A counter after the digits `s`, pushed in one at a time as the decoding loop does. */
  function FoldDigits(counter: U8, s: seq<Byte>): U8
    requires AllDigits(s)
    decreases |s|
  {
    if s == [] then counter else FoldDigits(PushDigit(counter, s[0]), s[1..])
  }

  /** Pushing the digits of `s` and then `d` is pushing `d` last. */
  lemma {:induction false} FoldDigitsSnoc(counter: U8, s: seq<Byte>, d: Byte)
    requires AllDigits(s) && '0' <= d <= '9'
    ensures AllDigits(s + [d])
    ensures FoldDigits(counter, s + [d]) == PushDigit(FoldDigits(counter, s), d)
    decreases |s|
  {
    if s == [] {
      assert [d][1..] == [];
    } else {
      assert (s + [d])[1..] == s[1..] + [d];
      FoldDigitsSnoc(PushDigit(counter, s[0]), s[1..], d);
    }
  }

  /** Reducing modulo 256 before adding changes nothing modulo 256. */
  lemma {:induction false} AddMod(a: int, b: int)
    ensures (a % 256 + b) % 256 == (a + b) % 256
  {
    var k := a / 256;
    assert a + b == 256 * k + (a % 256 + b);
  }

  /** Reducing modulo 256 before `x * 10 + d` changes nothing modulo 256. */
  lemma {:induction false} PushDigitMod(x: int, d: int)
    ensures ((x % 256) * 10 + d) % 256 == (x * 10 + d) % 256
  {
    var k := x / 256;
    assert x == 256 * k + x % 256;
    assert x * 10 + d == 256 * (10 * k) + ((x % 256) * 10 + d);
  }

  /** Pushing a digit onto a counter that holds `x` modulo 256 gives `x * 10 + digit` modulo 256. */
  lemma {:induction false} PushDigitValue(counter: U8, x: int, d: Byte)
    requires '0' <= d <= '9' && counter as int == x % 256
    ensures PushDigit(counter, d) as int == (x * 10 + (d as int - '0' as int)) % 256
  {
    var dv := d as int - '0' as int;
    AddMod(counter as int * 10, dv);
    PushDigitMod(x, dv);
  }

  /** The last digit of a number adds to ten times the number the others write. */
  lemma {:induction false} DecimalSnoc(s: seq<Byte>)
    requires AllDigits(s) && s != []
    ensures AllDigits(s[..|s| - 1])
    ensures Decimal(s) == Decimal(s[..|s| - 1]) * 10 + (s[|s| - 1] as int - '0' as int)
    ensures Pow10(|s|) == Pow10(|s| - 1) * 10
  {
  }

  /** Appending a digit multiplies what came before by ten. */
  lemma ShiftDigit(c: int, pow: int, dec: int, dv: int)
    ensures (c * pow + dec) * 10 + dv == c * (pow * 10) + (dec * 10 + dv)
  {
  }

  /**
   * A counter that starts at `counter` and reads the digits `s` holds
   * `counter * 10^|s| + Decimal(s)` modulo 256: the `u8` counter wraps.
   */
  lemma {:induction false} FoldDigitsDecimal(counter: U8, s: seq<Byte>)
    requires AllDigits(s)
    ensures FoldDigits(counter, s) as int == (counter as int * Pow10(|s|) + Decimal(s)) % 256
    decreases |s|
  {
    if s == [] {
    } else {
      var init := s[..|s| - 1];
      var d := s[|s| - 1];
      DecimalSnoc(s);
      assert s == init + [d];
      FoldDigitsSnoc(counter, init, d);
      FoldDigitsDecimal(counter, init);
      var pow := Pow10(|init|);
      var x := counter as int * pow + Decimal(init);
      PushDigitValue(FoldDigits(counter, init), x, d);
      ShiftDigit(counter as int, pow, Decimal(init), d as int - '0' as int);
    }
  }

  /** From zero, the counter holds the decimal value of its digits whenever that value fits in a byte. */
  lemma {:induction false} CounterValue(s: seq<Byte>)
    requires AllDigits(s)
    ensures FoldDigits(0, s) == Decimal(s) % 256
    ensures Decimal(s) < 256 ==> FoldDigits(0, s) == Decimal(s)
  {
    FoldDigitsDecimal(0, s);
  }

  /** A decoding step that goes on leaves the loop's result unchanged. */
  lemma RunNext(fen: seq<Byte>, p: Parser)
    requires p.i < |fen| && Step(fen, p).Next?
    ensures Run(fen, p) == Run(fen, Step(fen, p).next)
  {
  }

  /** A digit of the half-move field is pushed onto the half-move counter. */
  lemma HalfMovesDigitStep(fen: seq<Byte>, p: Parser)
    requires p.i < |fen| && p.state == HalfMoves && '0' <= fen[p.i] <= '9'
    ensures Step(fen, p) == Advance(p.(i := p.i + 1, halfMoves := PushDigit(p.halfMoves, fen[p.i])))
  {
  }

  /** A space ends the half-move field. */
  lemma HalfMovesSpaceStep(fen: seq<Byte>, p: Parser)
    requires p.i < |fen| && p.state == HalfMoves && fen[p.i] == ' '
    ensures Step(fen, p) == Advance(p.(i := p.i + 1, state := FullMoves))
  {
  }

  /**
   * Past the placement field, an iteration that ends by stepping the cursor
   * leaves the loop's result as if the cursor had stayed.
   */
  lemma {:induction false} RunAdvance(fen: seq<Byte>, p: Parser, q: Parser)
    requires p.i < |fen| && q.i <= |fen| && q.state != Pieces && Step(fen, p) == Advance(q)
    ensures Run(fen, p) == Run(fen, q)
  {
    var q' := q.(at := q.at.WrappingRightBy(1));
    RunNext(fen, p);
    RunIgnoresCursor(fen, q', q.at);
    assert q'.(at := q.at) == q;
  }

  /** A digit of the half-move field is pushed onto the half-move counter; the cursor it moves no longer matters. */
  lemma {:induction false} HalfMovesDigit(fen: seq<Byte>, p: Parser)
    requires p.i < |fen| && p.state == HalfMoves && '0' <= fen[p.i] <= '9'
    ensures Run(fen, p) == Run(fen, p.(i := p.i + 1, halfMoves := PushDigit(p.halfMoves, fen[p.i])))
  {
    HalfMovesDigitStep(fen, p);
    RunAdvance(fen, p, p.(i := p.i + 1, halfMoves := PushDigit(p.halfMoves, fen[p.i])));
  }

  /** A space ends the half-move field; the cursor it moves no longer matters. */
  lemma {:induction false} HalfMovesSpace(fen: seq<Byte>, p: Parser)
    requires p.i < |fen| && p.state == HalfMoves && fen[p.i] == ' '
    ensures Run(fen, p) == Run(fen, p.(i := p.i + 1, state := FullMoves))
  {
    HalfMovesSpaceStep(fen, p);
    RunAdvance(fen, p, p.(i := p.i + 1, state := FullMoves));
  }

  /** Pushing a run of digits is pushing the first and then the rest. */
  lemma {:induction false} FoldDigitsFirst(counter: U8, s: seq<Byte>)
    requires AllDigits(s) && s != []
    ensures AllDigits(s[1..])
    ensures FoldDigits(counter, s) == FoldDigits(PushDigit(counter, s[0]), s[1..])
  {
    assert forall j :: 0 <= j < |s| - 1 ==> s[1..][j] == s[j + 1];
  }

  /** The parser once the half-move field's `k` digits and its closing space have been read. */
  function AfterHalfMoves(fen: seq<Byte>, p: Parser, k: nat): Parser
    requires p.i + k < |fen| && AllDigits(fen[p.i..p.i + k])
  {
    p.(i := p.i + k + 1, state := FullMoves, halfMoves := FoldDigits(p.halfMoves, fen[p.i..p.i + k]))
  }

  /** One more digit in front of a half-move field already read from the next byte on. */
  lemma {:induction false} HalfMovesFieldDigit(fen: seq<Byte>, p: Parser, k: nat)
    requires p.state == HalfMoves && 0 < k && p.i + k < |fen|
    requires AllDigits(fen[p.i..p.i + k])
    ensures AllDigits(fen[p.i + 1..p.i + k])
    ensures var q := p.(i := p.i + 1, halfMoves := PushDigit(p.halfMoves, fen[p.i]));
      Run(fen, p) == Run(fen, q) && AfterHalfMoves(fen, q, k - 1) == AfterHalfMoves(fen, p, k)
  {
    var digits := fen[p.i..p.i + k];
    assert digits[0] == fen[p.i];
    FoldDigitsFirst(p.halfMoves, digits);
    assert fen[p.i + 1..p.i + k] == digits[1..];
    HalfMovesDigit(fen, p);
  }

  /**
   * The half-move field: `k` digits and then a space set the half-move
   * counter to those digits pushed onto it and move to the full-move field.
   */
  lemma {:induction false} HalfMovesField(fen: seq<Byte>, p: Parser, k: nat)
    requires p.state == HalfMoves && p.i + k < |fen|
    requires AllDigits(fen[p.i..p.i + k]) && fen[p.i + k] == ' '
    ensures Run(fen, p) == Run(fen, AfterHalfMoves(fen, p, k))
    decreases k
  {
    if k == 0 {
      assert fen[p.i..p.i] == [];
      HalfMovesSpace(fen, p);
    } else {
      HalfMovesFieldDigit(fen, p, k);
      HalfMovesField(fen, p.(i := p.i + 1, halfMoves := PushDigit(p.halfMoves, fen[p.i])), k - 1);
    }
  }

  /** A full-move iteration changes nothing the position holds, and a space there leaves with that position. */
  lemma FullMovesStepKeeps(fen: seq<Byte>, p: Parser)
    requires p.i < |fen| && p.state == FullMoves
    ensures Step(fen, p).Next? ==> Step(fen, p).next.state == FullMoves && Output(Step(fen, p).next) == Output(p)
    ensures Step(fen, p).Stop? && Step(fen, p).result.Ok? ==> Step(fen, p).result.value == Output(p)
  {
  }

  /** Once in the full-move field, decoding can only succeed with the position gathered so far. */
  lemma {:induction false} RunFullMovesKeeps(fen: seq<Byte>, p: Parser)
    requires p.i <= |fen| && p.state == FullMoves
    ensures Run(fen, p).Ok? ==> Run(fen, p).value == Output(p)
    decreases |fen| - p.i
  {
    if p.i < |fen| {
      FullMovesStepKeeps(fen, p);
      match Step(fen, p)
      case Next(q) => RunFullMovesKeeps(fen, q);
      case Stop(r) =>
    }
  }

  /**
   * A half-move field of `k` digits, read from a zero counter, leaves the
   * decoded position with the digits' decimal value modulo 256.
   */
  lemma {:induction false} HalfMovesResult(fen: seq<Byte>, p: Parser, k: nat)
    requires p.state == HalfMoves && p.halfMoves == 0 && p.i + k < |fen|
    requires AllDigits(fen[p.i..p.i + k]) && fen[p.i + k] == ' '
    ensures Run(fen, p).Ok? ==> Run(fen, p).value.halfMoves as int == Decimal(fen[p.i..p.i + k]) % 256
  {
    HalfMovesField(fen, p, k);
    RunFullMovesKeeps(fen, AfterHalfMoves(fen, p, k));
    CounterValue(fen[p.i..p.i + k]);
  }

  // ---------------------------------------------------------------------
  // Which inputs are accepted
  // ---------------------------------------------------------------------

  /** The field after the one a space closes. */
  function NextState(state: State): (s: State)
    requires state != FullMoves
    ensures s.Ordinal() == state.Ordinal() + 1
  {
    match state
    case Pieces => SideToMove
    case SideToMove => Castling
    case Castling => EnPassant
    case EnPassant => HalfMoves
    case HalfMoves => FullMoves
  }

  /** What a scan that tracks only the position and the field does with one byte. */
  datatype Scan = Go(i: nat, state: State) | Done(error: Option<FromFenError>)

  /**
   * One byte of the scan: a byte the field does not accept is an error, a
   * space closes the field (the full-move one ends the scan), an en-passant
   * file letter needs a following '3' or '6', and any other byte is skipped.
   */
  function ScanStep(fen: seq<Byte>, i: nat, state: State): Scan
    requires i < |fen|
  {
    var ch := fen[i];
    if !Accepts(state, ch) then Done(Some(Unexpected(ch)))
    else if ch == ' ' then (if state == FullMoves then Done(None) else Go(i + 1, NextState(state)))
    else if state == EnPassant && 'a' <= ch <= 'h' then
      if i + 1 == |fen| then Done(Some(EnPassantTooShort))
      else if fen[i + 1] == '3' || fen[i + 1] == '6' then Go(i + 2, state)
      else Done(Some(Unexpected(fen[i + 1])))
    else Go(i + 1, state)
  }

  /** The error the scan from byte `i` in field `state` ends with, or None when it accepts. */
  function Verdict(fen: seq<Byte>, i: nat, state: State): Option<FromFenError>
    requires i <= |fen|
    decreases |fen| - i
  {
    if i == |fen| then None
    else
      match ScanStep(fen, i, state)
      case Go(j, s) => if j <= |fen| then Verdict(fen, j, s) else None
      case Done(e) => e
  }

  /** An iteration of the decoder does what the scan does with the position and the field. */
  lemma StepScan(fen: seq<Byte>, p: Parser)
    requires p.i < |fen|
    ensures match ScanStep(fen, p.i, p.state)
      case Go(j, s) => Step(fen, p).Next? && Step(fen, p).next.i == j && Step(fen, p).next.state == s
      case Done(None) => Step(fen, p).Stop? && Step(fen, p).result.Ok?
      case Done(Some(e)) => Step(fen, p) == Stop(Err(e))
  {
  }

  /**
   * Whether an input is accepted, and with which error it is refused,
   * depends only on its bytes: the decoder fails exactly when the scan does,
   * with the same error.
   */
  lemma {:induction false} RunVerdict(fen: seq<Byte>, p: Parser)
    requires p.i <= |fen|
    ensures Run(fen, p).Ok? <==> Verdict(fen, p.i, p.state).None?
    ensures Run(fen, p).Err? ==> Run(fen, p).error == Verdict(fen, p.i, p.state).value
    decreases |fen| - p.i
  {
    if p.i < |fen| {
      StepScan(fen, p);
      match Step(fen, p)
      case Next(q) => RunVerdict(fen, q);
      case Stop(r) =>
    }
  }

  /**
   * An input is accepted exactly when the scan from its first byte in the
   * placement field accepts it, and otherwise refused with the scan's error.
   */
  lemma {:induction false} ParseVerdict(fen: seq<Byte>)
    ensures Parse(fen).Ok? <==> Verdict(fen, 0, Pieces).None?
    ensures Parse(fen).Err? ==> Parse(fen).error == Verdict(fen, 0, Pieces).value
  {
    RunVerdict(fen, Start);
  }
}
