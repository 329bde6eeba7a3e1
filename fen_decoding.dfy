/**
 * What a well-formed FEN record decodes to. Each field is given its meaning
 * independently of the decoding loop: the ranks of the placement field put
 * their pieces file by file, from the eighth rank down; the side-to-move
 * letter names the player; each castling letter grants its right; the
 * en-passant field names a square or none; the half-move field is a decimal
 * number, kept modulo 256. `ParseRecord` proves that the decoder returns
 * exactly that position.
 */
module FenDecoding {
  import opened Wrappers
  import opened Coord
  import opened Board
  import opened Bits
  import opened Pseudo
  import opened Fen
  import opened FenProperties
  import CastlingRights

  // ---------------------------------------------------------------------
  // The meaning of each field
  // ---------------------------------------------------------------------

  /** A byte of one rank of the placement field: a piece letter, or a digit '1'..'8' that skips that many files. */
  predicate RankByte(ch: Byte)
  {
    PieceOfLetter(ch).Some? || '1' <= ch <= '8'
  }

  /** Every byte of `s` is a rank byte. */
  predicate RankBytes(s: seq<Byte>)
  {
    forall k :: 0 <= k < |s| ==> RankByte(s[k])
  }

  /** Every string of `ranks` is made of rank bytes. */
  predicate AllRanks(ranks: seq<seq<Byte>>)
  {
    forall k :: 0 <= k < |ranks| ==> RankBytes(ranks[k])
  }

  /** The number of files a rank byte moves the cursor on: one for a piece letter, d for a digit d. */
  function Skip(ch: Byte): (n: nat)
    requires RankByte(ch)
    ensures 1 <= n <= 8
  {
    if PieceOfLetter(ch).Some? then 1 else ch as int - '0' as int
  }

  /** The planes after the rank byte `ch` is read at file number `file` of `rank`: a piece letter puts its piece there. */
  function PlaceByte(ch: Byte, rank: Rank, file: nat, bits: BitBoards): BitBoards
  {
    match PieceOfLetter(ch)
    case Some((player, piece)) => bits.With(player, piece, Square.FromRankFile(rank, FileAt(file)))
    case None => bits
  }

  /** The number of files a rank's bytes cover. */
  function Width(s: seq<Byte>): nat
    requires RankBytes(s)
    decreases |s|
  {
    if s == [] then 0 else Skip(s[0]) + Width(s[1..])
  }

  /** The file with number `n`, counting past h back to a. */
  function FileAt(n: nat): (f: File)
    ensures f.Num() == n % 8
  {
    File.FromNum(n % 8).value
  }

  /**
   * The planes after the bytes `s` of one rank are placed on `rank`, starting
   * at file number `file`: each byte is placed, then the next is read as many
   * files on as it skips.
   */
  function RankBits(s: seq<Byte>, rank: Rank, file: nat, bits: BitBoards): BitBoards
    requires RankBytes(s)
    decreases |s|
  {
    if s == [] then bits
    else RankBits(s[1..], rank, file + Skip(s[0]), PlaceByte(s[0], rank, file, bits))
  }

  /** The placement field's ranks, separated by '/'. */
  function Join(ranks: seq<seq<Byte>>): seq<Byte>
    requires |ranks| > 0
    decreases |ranks|
  {
    if |ranks| == 1 then ranks[0] else ranks[0] + ['/'] + Join(ranks[1..])
  }

  /** The planes after the ranks are placed, the first on `rank` and each next one a rank lower, from file a. */
  function FieldBits(ranks: seq<seq<Byte>>, rank: Rank, bits: BitBoards): BitBoards
    requires AllRanks(ranks)
    decreases |ranks|
  {
    if ranks == [] then bits
    else FieldBits(ranks[1..], rank.WrappingDownBy(1), RankBits(ranks[0], rank, 0, bits))
  }

  /** The player a side-to-move letter names. */
  function SideOf(ch: Byte): Player
  {
    if ch == 'w' then White else Black
  }

  /** The rights a castling field names: each right whose letter appears. */
  function RightsOf(c: seq<Byte>): CastlingRights.Castling
  {
    CastlingRights.Castling('K' in c, 'Q' in c, 'k' in c, 'q' in c)
  }

  /** An en-passant field: '-', or a file letter and the rank '3' or '6'. */
  predicate EnPassantField(ep: seq<Byte>)
  {
    ep == ['-'] || (|ep| == 2 && 'a' <= ep[0] <= 'h' && (ep[1] == '3' || ep[1] == '6'))
  }

  /** The en-passant target a field names: none for '-', otherwise the square of its file letter and rank digit. */
  function TargetOf(ep: seq<Byte>): Option<Square>
    requires EnPassantField(ep)
  {
    if ep == ['-'] then None
    else Some(Square.FromRankFile(Rank.FromNum(ep[1] as int - '1' as int).value, File.FromChar(ep[0]).value))
  }

  /** A record assembled from its fields, each followed by one space, then the full-move field and `rest`. */
  function Record(ranks: seq<seq<Byte>>, side: Byte, castling: seq<Byte>, ep: seq<Byte>,
                  half: seq<Byte>, full: seq<Byte>, rest: seq<Byte>): seq<Byte>
    requires |ranks| > 0
  {
    Join(ranks) + [' ', side, ' '] + castling + [' '] + ep + [' '] + half + [' '] + full + rest
  }

  // ---------------------------------------------------------------------
  // One iteration, by field
  // ---------------------------------------------------------------------

  /** An iteration in the placement field. */
  lemma StepPieces(fen: seq<Byte>, p: Parser)
    requires p.i < |fen| && p.state == Pieces
    ensures Step(fen, p) == PiecesStep(fen[p.i], p.(i := p.i + 1))
  {
  }

  /** An iteration in the side-to-move field. */
  lemma StepSideToMove(fen: seq<Byte>, p: Parser)
    requires p.i < |fen| && p.state == SideToMove
    ensures Step(fen, p) == SideToMoveStep(fen[p.i], p.(i := p.i + 1))
  {
  }

  /** An iteration in the castling field. */
  lemma StepCastling(fen: seq<Byte>, p: Parser)
    requires p.i < |fen| && p.state == Castling
    ensures Step(fen, p) == CastlingStep(fen[p.i], p.(i := p.i + 1))
  {
  }

  /** An iteration in the en-passant field. */
  lemma StepEnPassant(fen: seq<Byte>, p: Parser)
    requires p.i < |fen| && p.state == EnPassant
    ensures Step(fen, p) == EnPassantStep(fen, fen[p.i], p.(i := p.i + 1))
  {
  }

  /** An iteration in the full-move field. */
  lemma StepFullMoves(fen: seq<Byte>, p: Parser)
    requires p.i < |fen| && p.state == FullMoves
    ensures Step(fen, p) == FullMovesStep(fen[p.i], p.(i := p.i + 1))
  {
  }

  // ---------------------------------------------------------------------
  // The placement field
  // ---------------------------------------------------------------------

  /** A square is the one on its rank at any file number its own file number is congruent to. */
  lemma {:induction false} CursorAt(s: Square, rank: Rank, n: nat)
    requires s.Rank() == rank && s.File().Num() == n % 8
    ensures s == Square.FromRankFile(rank, FileAt(n))
  {
    SquareDecomposes(s);
    FileNumInjective(s.File(), FileAt(n));
  }

  /** Reducing a file number modulo 8 before moving on `d` files changes nothing modulo 8. */
  lemma {:induction false} FileMod(a: int, d: int)
    ensures (a % 8 + d) % 8 == (a + d) % 8
  {
    var k := a / 8;
    assert a + d == 8 * k + (a % 8 + d);
  }

  /** A square on `rank` whose file is `d` files past file number `file`, wrapping, is the one at file number `file + d`. */
  lemma {:induction false} CursorMoved(s: Square, rank: Rank, file: nat, d: nat)
    requires s.Rank() == rank && s.File().Num() == (FileAt(file).Num() + d) % 8
    ensures s == Square.FromRankFile(rank, FileAt(file + d))
  {
    FileMod(file, d);
    CursorAt(s, rank, file + d);
  }

  /** A piece letter places its piece at file number `file` of `rank`. */
  lemma PlaceLetterBits(ch: Byte, rank: Rank, file: nat, bits: BitBoards)
    requires PieceOfLetter(ch).Some?
    ensures PlaceByte(ch, rank, file, bits) == bits.With(PieceOfLetter(ch).value.0, PieceOfLetter(ch).value.1, Square.FromRankFile(rank, FileAt(file)))
  {
  }

  /** A piece letter read at file number `file` of `rank` puts its piece there and moves the cursor one file on. */
  lemma {:induction false} PlaceLetter(ch: Byte, q: Parser, rank: Rank, file: nat)
    requires PieceOfLetter(ch).Some? && q.at == Square.FromRankFile(rank, FileAt(file))
    ensures PiecesStep(ch, q) == Next(q.(at := Square.FromRankFile(rank, FileAt(file + 1)),
                                         bits := PlaceByte(ch, rank, file, q.bits)))
  {
    PlacementPiece(ch, q);
    var n := PiecesStep(ch, q).next;
    RankFileRoundTrip(rank, FileAt(file));
    assert n.at.Rank() == rank;
    assert n.at.File().Num() == (FileAt(file).Num() + 1) % 8;
    CursorMoved(n.at, rank, file, 1);
    PlaceLetterBits(ch, rank, file, q.bits);
    assert n.bits == PlaceByte(ch, rank, file, q.bits);
  }

  /** A digit names no piece, so reading it places nothing. */
  lemma DigitPlacesNothing(ch: Byte, rank: Rank, file: nat, bits: BitBoards)
    requires '1' <= ch <= '8'
    ensures PlaceByte(ch, rank, file, bits) == bits
  {
    assert PieceOfLetter(ch).None?;
  }

  /** A digit d read at file number `file` of `rank` moves the cursor d files on. */
  lemma {:induction false} PlaceDigit(ch: Byte, q: Parser, rank: Rank, file: nat)
    requires '1' <= ch <= '8' && q.at == Square.FromRankFile(rank, FileAt(file))
    ensures PiecesStep(ch, q) == Next(q.(at := Square.FromRankFile(rank, FileAt(file + Skip(ch))),
                                         bits := PlaceByte(ch, rank, file, q.bits)))
  {
    PlacementSkip(ch, q);
    var n := PiecesStep(ch, q).next;
    RankFileRoundTrip(rank, FileAt(file));
    assert n.at.Rank() == rank;
    assert n.at.File().Num() == (FileAt(file).Num() + Skip(ch)) % 8;
    CursorMoved(n.at, rank, file, Skip(ch));
    DigitPlacesNothing(ch, rank, file, q.bits);
    assert n.bits == PlaceByte(ch, rank, file, q.bits);
  }

  /** Reading a placement byte that moves on to `n` leaves the loop's result that of `n`. */
  lemma PiecesNextRun(fen: seq<Byte>, p: Parser, n: Parser)
    requires p.state == Pieces && p.i < |fen| && PiecesStep(fen[p.i], p.(i := p.i + 1)) == Next(n)
    ensures Run(fen, p) == Run(fen, n)
  {
    StepPieces(fen, p);
    RunNext(fen, p);
  }

  /** A piece letter read at file number `file` of `rank` leaves the loop's result that of the parser it moves on to. */
  lemma LetterRun(fen: seq<Byte>, p: Parser, n: Parser, rank: Rank, file: nat)
    requires p.state == Pieces && p.i < |fen| && PieceOfLetter(fen[p.i]).Some?
    requires p.at == Square.FromRankFile(rank, FileAt(file))
    requires n == p.(i := p.i + 1, at := Square.FromRankFile(rank, FileAt(file + Skip(fen[p.i]))),
                bits := PlaceByte(fen[p.i], rank, file, p.bits))
    ensures Run(fen, p) == Run(fen, n)
  {
    PlaceLetter(fen[p.i], p.(i := p.i + 1), rank, file);
    PiecesNextRun(fen, p, n);
  }

  /** A digit read at file number `file` of `rank` leaves the loop's result that of the parser it moves on to. */
  lemma DigitRun(fen: seq<Byte>, p: Parser, n: Parser, rank: Rank, file: nat)
    requires p.state == Pieces && p.i < |fen| && '1' <= fen[p.i] <= '8'
    requires p.at == Square.FromRankFile(rank, FileAt(file))
    requires n == p.(i := p.i + 1, at := Square.FromRankFile(rank, FileAt(file + Skip(fen[p.i]))),
                bits := PlaceByte(fen[p.i], rank, file, p.bits))
    ensures Run(fen, p) == Run(fen, n)
  {
    PlaceDigit(fen[p.i], p.(i := p.i + 1), rank, file);
    PiecesNextRun(fen, p, n);
  }

  /** One rank byte read at file number `file` of `rank` is placed, and the cursor moves on as many files as it skips. */
  lemma {:induction false} RankByteRun(fen: seq<Byte>, p: Parser, n: Parser, rank: Rank, file: nat)
    requires p.state == Pieces && p.i < |fen| && RankByte(fen[p.i])
    requires p.at == Square.FromRankFile(rank, FileAt(file))
    requires n == p.(i := p.i + 1, at := Square.FromRankFile(rank, FileAt(file + Skip(fen[p.i]))),
                     bits := PlaceByte(fen[p.i], rank, file, p.bits))
    ensures Run(fen, p) == Run(fen, n)
  {
    if PieceOfLetter(fen[p.i]).Some? {
      LetterRun(fen, p, n, rank, file);
    } else {
      DigitRun(fen, p, n, rank, file);
    }
  }

  /** A slice that starts with `s` starts with its first byte and goes on with the rest. */
  lemma SliceFirst(fen: seq<Byte>, i: nat, s: seq<Byte>)
    requires s != [] && i + |s| <= |fen| && fen[i..i + |s|] == s
    ensures fen[i] == s[0] && fen[i + 1..i + 1 + |s[1..]|] == s[1..]
  {
    assert fen[i..i + |s|][0] == s[0];
  }

  /** The parser after a rank's bytes: `Width` files further on, with the pieces `RankBits` places. */
  function AfterRank(p: Parser, s: seq<Byte>, rank: Rank, file: nat): Parser
    requires RankBytes(s)
  {
    p.(i := p.i + |s|, at := Square.FromRankFile(rank, FileAt(file + Width(s))), bits := RankBits(s, rank, file, p.bits))
  }

  /** Reading a rank's first byte, then the rest, ends where reading the whole rank does. */
  lemma {:induction false} AfterRankFirst(p: Parser, s: seq<Byte>, rank: Rank, file: nat, n: Parser)
    requires s != [] && RankBytes(s)
    requires n == p.(i := p.i + 1, at := Square.FromRankFile(rank, FileAt(file + Skip(s[0]))),
                     bits := PlaceByte(s[0], rank, file, p.bits))
    ensures RankBytes(s[1..])
    ensures AfterRank(p, s, rank, file) == AfterRank(n, s[1..], rank, file + Skip(s[0]))
  {
    assert RankBytes(s[1..]);
  }

  /**
   * A rank's bytes place their pieces as `RankBits` says and leave the
   * cursor on the same rank, `Width` files further on.
   */
  lemma {:induction false} RankRun(fen: seq<Byte>, p: Parser, s: seq<Byte>, rank: Rank, file: nat)
    requires p.state == Pieces && p.i + |s| <= |fen| && fen[p.i..p.i + |s|] == s && RankBytes(s)
    requires p.at == Square.FromRankFile(rank, FileAt(file))
    ensures Run(fen, p) == Run(fen, AfterRank(p, s, rank, file))
    decreases |s|
  {
    if s == [] {
      assert AfterRank(p, s, rank, file) == p;
    } else {
      SliceFirst(fen, p.i, s);
      var n := p.(i := p.i + 1, at := Square.FromRankFile(rank, FileAt(file + Skip(s[0]))),
                  bits := PlaceByte(s[0], rank, file, p.bits));
      AfterRankFirst(p, s, rank, file, n);
      assert n == p.(i := p.i + 1, at := Square.FromRankFile(rank, FileAt(file + Skip(fen[p.i]))),
                     bits := PlaceByte(fen[p.i], rank, file, p.bits));
      RankRun(fen, n, s[1..], rank, file + Skip(s[0]));
      RankByteRun(fen, p, n, rank, file);
    }
  }

  /** '/' moves the cursor to file a of the rank below, and changes nothing else. */
  lemma {:induction false} SlashCursor(q: Parser, rank: Rank)
    requires q.at.Rank() == rank
    ensures PiecesStep('/', q) == Next(q.(at := Square.FromRankFile(rank.WrappingDownBy(1), FileAt(0))))
  {
    PlacementRankEnd(q);
    var n := PiecesStep('/', q).next;
    WrappingDownByNum(rank, 1);
    RankNumInjective(n.at.Rank(), rank.WrappingDownBy(1));
    CursorAt(n.at, rank.WrappingDownBy(1), 0);
  }

  /** '/' moves the cursor to file a of the next rank down. */
  lemma {:induction false} SlashRun(fen: seq<Byte>, p: Parser, rank: Rank)
    requires p.i < |fen| && p.state == Pieces && fen[p.i] == '/' && p.at.Rank() == rank
    ensures Run(fen, p) == Run(fen, p.(i := p.i + 1, at := Square.FromRankFile(rank.WrappingDownBy(1), FileAt(0))))
  {
    SlashCursor(p.(i := p.i + 1), rank);
    PiecesNextRun(fen, p, p.(i := p.i + 1, at := Square.FromRankFile(rank.WrappingDownBy(1), FileAt(0))));
  }

  /** A space ends the placement field. */
  lemma {:induction false} PlacementSpace(fen: seq<Byte>, p: Parser)
    requires p.i < |fen| && p.state == Pieces && fen[p.i] == ' '
    ensures Run(fen, p) == Run(fen, p.(i := p.i + 1, state := SideToMove))
  {
    StepPieces(fen, p);
    RunAdvance(fen, p, p.(i := p.i + 1, state := SideToMove));
  }

  /** A slice that holds joined ranks holds the first rank, then '/' and the rest when there is more than one. */
  lemma {:induction false} SliceJoin(fen: seq<Byte>, i: nat, ranks: seq<seq<Byte>>)
    requires |ranks| > 0 && i + |Join(ranks)| <= |fen| && fen[i..i + |Join(ranks)|] == Join(ranks)
    ensures i + |ranks[0]| <= |fen| && fen[i..i + |ranks[0]|] == ranks[0]
    ensures |ranks| == 1 ==> |Join(ranks)| == |ranks[0]|
    ensures |ranks| > 1 ==>
              |Join(ranks)| == |ranks[0]| + 1 + |Join(ranks[1..])| && fen[i + |ranks[0]|] == '/'
              && fen[i + |ranks[0]| + 1..i + |ranks[0]| + 1 + |Join(ranks[1..])|] == Join(ranks[1..])
  {
    var r := ranks[0];
    var j := Join(ranks);
    if |ranks| > 1 {
      assert j == r + ['/'] + Join(ranks[1..]);
      assert fen[i..i + |r|] == j[..|r|];
      assert fen[i + |r|] == j[|r|];
      assert fen[i + |r| + 1..i + |j|] == j[|r| + 1..];
    }
  }

  /** The parser after the placement field and its closing space: the pieces `FieldBits` places, in the side-to-move field. */
  function AfterField(p: Parser, ranks: seq<seq<Byte>>, rank: Rank): Parser
    requires |ranks| > 0 && AllRanks(ranks)
  {
    p.(i := p.i + |Join(ranks)| + 1, state := SideToMove, bits := FieldBits(ranks, rank, p.bits))
  }

  /** The last rank of the placement field and its closing space. */
  lemma {:induction false} LastRankRun(fen: seq<Byte>, p: Parser, ranks: seq<seq<Byte>>, rank: Rank)
    requires p.state == Pieces && |ranks| == 1 && AllRanks(ranks)
    requires p.i + |Join(ranks)| < |fen| && fen[p.i..p.i + |Join(ranks)|] == Join(ranks) && fen[p.i + |Join(ranks)|] == ' '
    requires p.at == Square.FromRankFile(rank, FileAt(0))
    ensures Run(fen, p) == Run(fen, AfterField(p, ranks, rank))
  {
    var r := ranks[0];
    assert RankBytes(r);
    assert Join(ranks) == r;
    var p1 := AfterRank(p, r, rank, 0);
    var done := p1.(i := p1.i + 1, state := SideToMove);
    assert ranks[1..] == [];
    assert FieldBits(ranks, rank, p.bits) == RankBits(r, rank, 0, p.bits);
    assert done.(at := p.at) == AfterField(p, ranks, rank);
    assert fen[p1.i] == ' ';
    RankRun(fen, p, r, rank, 0);
    PlacementSpace(fen, p1);
    RunIgnoresCursor(fen, done, p.at);
  }

  /**
   * With more than one rank, the first rank, '/' and the remaining ranks
   * follow one another, and placing the rest from the next rank down ends
   * where placing them all does.
   */
  lemma {:induction false} MoreRanks(fen: seq<Byte>, p: Parser, ranks: seq<seq<Byte>>, rank: Rank)
    requires p.state == Pieces && |ranks| > 1 && AllRanks(ranks)
    requires p.i + |Join(ranks)| < |fen| && fen[p.i..p.i + |Join(ranks)|] == Join(ranks) && fen[p.i + |Join(ranks)|] == ' '
    ensures RankBytes(ranks[0]) && AllRanks(ranks[1..])
    ensures p.i + |ranks[0]| <= |fen| && fen[p.i..p.i + |ranks[0]|] == ranks[0]
    ensures var p1 := AfterRank(p, ranks[0], rank, 0);
      var p2 := p1.(i := p1.i + 1, at := Square.FromRankFile(rank.WrappingDownBy(1), FileAt(0)));
      p1.i < |fen| && fen[p1.i] == '/' && p1.at.Rank() == rank
      && p2.i + |Join(ranks[1..])| < |fen| && fen[p2.i..p2.i + |Join(ranks[1..])|] == Join(ranks[1..])
      && fen[p2.i + |Join(ranks[1..])|] == ' '
      && AfterField(p2, ranks[1..], rank.WrappingDownBy(1)).(at := p.at) == AfterField(p, ranks, rank)
  {
    var r := ranks[0];
    assert RankBytes(r) && AllRanks(ranks[1..]);
    SliceJoin(fen, p.i, ranks);
    RankFileRoundTrip(rank, FileAt(Width(r)));
  }

  /**
   * The placement field: ranks joined by '/' and a closing space, read with
   * the cursor on file a of `rank`, place their pieces as `FieldBits` says.
   */
  lemma {:induction false} PlacementRun(fen: seq<Byte>, p: Parser, ranks: seq<seq<Byte>>, rank: Rank)
    requires p.state == Pieces && |ranks| > 0 && AllRanks(ranks)
    requires p.i + |Join(ranks)| < |fen| && fen[p.i..p.i + |Join(ranks)|] == Join(ranks) && fen[p.i + |Join(ranks)|] == ' '
    requires p.at == Square.FromRankFile(rank, FileAt(0))
    ensures Run(fen, p) == Run(fen, AfterField(p, ranks, rank))
    decreases |ranks|
  {
    if |ranks| == 1 {
      LastRankRun(fen, p, ranks, rank);
    } else {
      var r := ranks[0];
      var rest := ranks[1..];
      MoreRanks(fen, p, ranks, rank);
      var p1 := AfterRank(p, r, rank, 0);
      var p2 := p1.(i := p1.i + 1, at := Square.FromRankFile(rank.WrappingDownBy(1), FileAt(0)));
      var done := AfterField(p2, rest, rank.WrappingDownBy(1));
      PlacementRun(fen, p2, rest, rank.WrappingDownBy(1));
      RankRun(fen, p, r, rank, 0);
      SlashRun(fen, p1, rank);
      RunSimilar(fen, done, AfterField(p, ranks, rank));
    }
  }

  // ---------------------------------------------------------------------
  // The other fields
  // ---------------------------------------------------------------------

  /** The parser after the side-to-move field and its closing space: the player it names, in the castling field. */
  function AfterSide(p: Parser, side: Byte): Parser
  {
    p.(i := p.i + 2, state := Castling, player := SideOf(side))
  }

  /** A side-to-move letter and its closing space set the player. */
  lemma {:induction false} SideRun(fen: seq<Byte>, p: Parser, side: Byte)
    requires p.i + 1 < |fen| && p.state == SideToMove && fen[p.i] == side && (side == 'w' || side == 'b') && fen[p.i + 1] == ' '
    ensures Run(fen, p) == Run(fen, AfterSide(p, side))
  {
    var p1 := p.(i := p.i + 1, player := SideOf(side));
    assert AfterSide(p, side) == p1.(i := p.i + 2, state := Castling);
    StepSideToMove(fen, p);
    RunAdvance(fen, p, p1);
    StepSideToMove(fen, p1);
    RunAdvance(fen, p1, p1.(i := p.i + 2, state := Castling));
  }

  /** The rights a castling field names are those of its first letter and those of the rest. */
  lemma {:induction false} RightsFirst(c: seq<Byte>)
    requires c != [] && CastlingFlag(c[0]).Some?
    ensures RightsOf(c) == CastlingRights.Union(CastlingFlag(c[0]).value, RightsOf(c[1..]))
  {
    assert c == [c[0]] + c[1..];
    assert forall x :: x in c <==> x == c[0] || x in c[1..];
  }

  /** The parser after the castling field and its closing space: the rights it names added, in the en-passant field. */
  function AfterCastling(p: Parser, c: seq<Byte>): Parser
  {
    p.(i := p.i + |c| + 1, state := EnPassant, castling := CastlingRights.Union(p.castling, RightsOf(c)))
  }

  /** A castling letter adds the right it names. */
  lemma {:induction false} CastlingFlagRun(fen: seq<Byte>, p: Parser)
    requires p.state == Castling && p.i + 1 < |fen| && CastlingFlag(fen[p.i]).Some?
    ensures Run(fen, p) == Run(fen, p.(i := p.i + 1, castling := CastlingRights.Union(p.castling, CastlingFlag(fen[p.i]).value)))
  {
    StepCastling(fen, p);
    RunAdvance(fen, p, p.(i := p.i + 1, castling := CastlingRights.Union(p.castling, CastlingFlag(fen[p.i]).value)));
  }

  /** The castling field's letters and its closing space add the rights they name. */
  lemma {:induction false} CastlingRun(fen: seq<Byte>, p: Parser, c: seq<Byte>)
    requires p.state == Castling && p.i + |c| < |fen| && fen[p.i..p.i + |c|] == c && fen[p.i + |c|] == ' '
    requires forall k :: 0 <= k < |c| ==> CastlingFlag(c[k]).Some?
    ensures Run(fen, p) == Run(fen, AfterCastling(p, c))
    decreases |c|
  {
    if c == [] {
      assert RightsOf(c) == CastlingRights.Empty();
      CastlingRights.UnionLaws(p.castling, p.castling, p.castling);
      assert AfterCastling(p, c) == p.(i := p.i + 1, state := EnPassant);
      StepCastling(fen, p);
      RunAdvance(fen, p, p.(i := p.i + 1, state := EnPassant));
    } else {
      SliceFirst(fen, p.i, c);
      var flag := CastlingFlag(fen[p.i]).value;
      var p1 := p.(i := p.i + 1, castling := CastlingRights.Union(p.castling, flag));
      assert forall k :: 0 <= k < |c[1..]| ==> CastlingFlag(c[1..][k]).Some?;
      RightsFirst(c);
      CastlingRights.UnionLaws(p.castling, flag, RightsOf(c[1..]));
      assert AfterCastling(p1, c[1..]) == AfterCastling(p, c);
      CastlingRun(fen, p1, c[1..]);
      CastlingFlagRun(fen, p);
    }
  }

  /** The parser after the en-passant field and its closing space: the target it names, in the half-move field. */
  function AfterEnPassant(p: Parser, ep: seq<Byte>): Parser
    requires EnPassantField(ep)
  {
    p.(i := p.i + |ep| + 1, state := HalfMoves, enPassant := if ep == ['-'] then p.enPassant else TargetOf(ep))
  }

  /** The en-passant field and its closing space set the target it names; '-' leaves it as it was. */
  lemma {:induction false} EnPassantRun(fen: seq<Byte>, p: Parser, ep: seq<Byte>)
    requires p.state == EnPassant && EnPassantField(ep)
    requires p.i + |ep| < |fen| && fen[p.i..p.i + |ep|] == ep && fen[p.i + |ep|] == ' '
    ensures Run(fen, p) == Run(fen, AfterEnPassant(p, ep))
  {
    assert fen[p.i] == ep[0];
    var p1: Parser;
    if ep == ['-'] {
      p1 := p.(i := p.i + 1);
      assert AfterEnPassant(p, ep) == p1.(i := p1.i + 1, state := HalfMoves);
      StepEnPassant(fen, p);
      RunNext(fen, p);
    } else {
      assert fen[p.i + 1] == ep[1];
      p1 := p.(i := p.i + 2, enPassant := TargetOf(ep));
      assert AfterEnPassant(p, ep) == p1.(i := p1.i + 1, state := HalfMoves);
      StepEnPassant(fen, p);
      RunAdvance(fen, p, p1);
    }
    StepEnPassant(fen, p1);
    RunAdvance(fen, p1, p1.(i := p1.i + 1, state := HalfMoves));
  }

  /** The full-move field's digits, ended by a space or by the end of the input, give the position gathered so far. */
  lemma {:induction false} FullMovesRun(fen: seq<Byte>, p: Parser, k: nat)
    requires p.state == FullMoves && p.i + k <= |fen| && AllDigits(fen[p.i..p.i + k])
    requires p.i + k == |fen| || fen[p.i + k] == ' '
    ensures Run(fen, p) == Ok(Output(p))
    decreases k
  {
    if p.i < |fen| {
      StepFullMoves(fen, p);
      if k > 0 {
        assert '0' <= fen[p.i] <= '9';
        var n := p.(i := p.i + 1, fullMoves := PushDigit(p.fullMoves, fen[p.i]));
        assert fen[n.i..n.i + (k - 1)] == fen[p.i..p.i + k][1..];
        FullMovesRun(fen, n, k - 1);
        RunAdvance(fen, p, n);
      }
    }
  }

  // ---------------------------------------------------------------------
  // Whole records
  // ---------------------------------------------------------------------

  /** The cursor's starting square is file a of the eighth rank. */
  lemma StartCursor()
    ensures Start.at == Square.FromRankFile(Eighth, FileAt(0))
  {
  }

  /** Where each field of a record starts and ends. */
  lemma {:induction false} RecordLayout(ranks: seq<seq<Byte>>, side: Byte, castling: seq<Byte>, ep: seq<Byte>,
                                        half: seq<Byte>, full: seq<Byte>, rest: seq<Byte>)
    requires |ranks| > 0
    ensures var fen := Record(ranks, side, castling, ep, half, full, rest);
      var j := |Join(ranks)|;
      var c0 := j + 3;
      var e0 := c0 + |castling| + 1;
      var h0 := e0 + |ep| + 1;
      var f0 := h0 + |half| + 1;
      |fen| == f0 + |full| + |rest|
      && fen[0..j] == Join(ranks) && fen[j] == ' ' && fen[j + 1] == side && fen[j + 2] == ' '
      && fen[c0..c0 + |castling|] == castling && fen[c0 + |castling|] == ' '
      && fen[e0..e0 + |ep|] == ep && fen[e0 + |ep|] == ' '
      && fen[h0..h0 + |half|] == half && fen[h0 + |half|] == ' '
      && fen[f0..f0 + |full|] == full && fen[f0 + |full|..] == rest
  {
    var fen := Record(ranks, side, castling, ep, half, full, rest);
    var j := |Join(ranks)|;
    var c0 := j + 3;
    var e0 := c0 + |castling| + 1;
    var h0 := e0 + |ep| + 1;
    var f0 := h0 + |half| + 1;
    var tail := full + rest;
    var fromHalf := half + [' '] + tail;
    var fromEp := ep + [' '] + fromHalf;
    var fromCastling := castling + [' '] + fromEp;
    assert fen == Join(ranks) + [' ', side, ' '] + fromCastling;
    assert fen[c0..] == fromCastling;
    assert fen[e0..] == fromEp;
    assert fen[h0..] == fromHalf;
    assert fen[f0..] == tail;
  }

  /** The decoder's starting rights with a castling field's rights added are that field's rights. */
  lemma StartRights(c: seq<Byte>)
    ensures CastlingRights.Union(Start.castling, RightsOf(c)) == RightsOf(c)
  {
    CastlingRights.UnionLaws(CastlingRights.Empty(), RightsOf(c), RightsOf(c));
    CastlingRights.UnionLaws(RightsOf(c), CastlingRights.Empty(), RightsOf(c));
  }

  /** The placement and side-to-move fields, each in place, read from the start. */
  lemma {:induction false} HeadRun(fen: seq<Byte>, ranks: seq<seq<Byte>>, side: Byte)
    requires |ranks| > 0 && AllRanks(ranks) && (side == 'w' || side == 'b')
    requires |Join(ranks)| < |fen| && fen[0..|Join(ranks)|] == Join(ranks) && fen[|Join(ranks)|] == ' '
    requires var p1 := AfterField(Start, ranks, Eighth); p1.i + 1 < |fen| && fen[p1.i] == side && fen[p1.i + 1] == ' '
    ensures Run(fen, Start) == Run(fen, AfterSide(AfterField(Start, ranks, Eighth), side))
  {
    StartCursor();
    SideRun(fen, AfterField(Start, ranks, Eighth), side);
    PlacementRun(fen, Start, ranks, Eighth);
  }

  /** The fields from castling on, each in place, give the position gathered by the end of the half-move field. */
  lemma {:induction false} TailRun(fen: seq<Byte>, p: Parser, castling: seq<Byte>, ep: seq<Byte>, half: seq<Byte>, full: seq<Byte>)
    requires p.state == Castling && forall k :: 0 <= k < |castling| ==> CastlingFlag(castling[k]).Some?
    requires EnPassantField(ep) && AllDigits(half) && AllDigits(full)
    requires p.i + |castling| < |fen| && fen[p.i..p.i + |castling|] == castling && fen[p.i + |castling|] == ' '
    requires var p3 := AfterCastling(p, castling);
      p3.i + |ep| < |fen| && fen[p3.i..p3.i + |ep|] == ep && fen[p3.i + |ep|] == ' '
    requires var p4 := AfterEnPassant(AfterCastling(p, castling), ep);
      p4.i + |half| < |fen| && fen[p4.i..p4.i + |half|] == half && fen[p4.i + |half|] == ' '
    requires var p5 := AfterHalfMoves(fen, AfterEnPassant(AfterCastling(p, castling), ep), |half|);
      p5.i + |full| <= |fen| && fen[p5.i..p5.i + |full|] == full && (p5.i + |full| == |fen| || fen[p5.i + |full|] == ' ')
    ensures Run(fen, p) == Ok(Output(AfterHalfMoves(fen, AfterEnPassant(AfterCastling(p, castling), ep), |half|)))
  {
    var p3 := AfterCastling(p, castling);
    var p4 := AfterEnPassant(p3, ep);
    var p5 := AfterHalfMoves(fen, p4, |half|);
    FullMovesRun(fen, p5, |full|);
    HalfMovesField(fen, p4, |half|);
    EnPassantRun(fen, p3, ep);
    CastlingRun(fen, p, castling);
  }

  /** The decoder meets each field of a record where that field starts. */
  lemma {:induction false} RecordFields(ranks: seq<seq<Byte>>, side: Byte, castling: seq<Byte>, ep: seq<Byte>,
                                        half: seq<Byte>, full: seq<Byte>, rest: seq<Byte>)
    requires |ranks| > 0 && AllRanks(ranks) && EnPassantField(ep) && AllDigits(half)
    requires rest == [] || rest[0] == ' '
    ensures var fen := Record(ranks, side, castling, ep, half, full, rest);
      var p1 := AfterField(Start, ranks, Eighth);
      var p2 := AfterSide(p1, side);
      var p3 := AfterCastling(p2, castling);
      var p4 := AfterEnPassant(p3, ep);
      |Join(ranks)| < |fen| && fen[0..|Join(ranks)|] == Join(ranks) && fen[|Join(ranks)|] == ' '
      && p1.i + 1 < |fen| && fen[p1.i] == side && fen[p1.i + 1] == ' '
      && p2.i + |castling| < |fen| && fen[p2.i..p2.i + |castling|] == castling && fen[p2.i + |castling|] == ' '
      && p3.i + |ep| < |fen| && fen[p3.i..p3.i + |ep|] == ep && fen[p3.i + |ep|] == ' '
      && p4.i + |half| < |fen| && fen[p4.i..p4.i + |half|] == half && fen[p4.i + |half|] == ' '
  {
    RecordLayout(ranks, side, castling, ep, half, full, rest);
    var j := |Join(ranks)|;
    var p1 := AfterField(Start, ranks, Eighth);
    var p2 := AfterSide(p1, side);
    var p3 := AfterCastling(p2, castling);
    var p4 := AfterEnPassant(p3, ep);
    assert p1.i == j + 1 && p2.i == j + 3 && p3.i == p2.i + |castling| + 1 && p4.i == p3.i + |ep| + 1;
  }

  /** The decoder meets a record's full-move field after its half-move field and the space after that. */
  lemma {:induction false} RecordFullMoves(ranks: seq<seq<Byte>>, side: Byte, castling: seq<Byte>, ep: seq<Byte>,
                                           half: seq<Byte>, full: seq<Byte>, rest: seq<Byte>)
    requires |ranks| > 0 && AllRanks(ranks) && EnPassantField(ep) && AllDigits(half)
    requires rest == [] || rest[0] == ' '
    ensures var fen := Record(ranks, side, castling, ep, half, full, rest);
      var p4 := AfterEnPassant(AfterCastling(AfterSide(AfterField(Start, ranks, Eighth), side), castling), ep);
      p4.i + |half| < |fen| && fen[p4.i..p4.i + |half|] == half
      && var p5 := AfterHalfMoves(fen, p4, |half|);
      p5.i + |full| <= |fen| && fen[p5.i..p5.i + |full|] == full && (p5.i + |full| == |fen| || fen[p5.i + |full|] == ' ')
  {
    var fen := Record(ranks, side, castling, ep, half, full, rest);
    RecordFields(ranks, side, castling, ep, half, full, rest);
    RecordLayout(ranks, side, castling, ep, half, full, rest);
    var p4 := AfterEnPassant(AfterCastling(AfterSide(AfterField(Start, ranks, Eighth), side), castling), ep);
    var p5 := AfterHalfMoves(fen, p4, |half|);
    assert p5.i == p4.i + |half| + 1 && p4.i + |half| + 1 == |Join(ranks)| + 3 + |castling| + 1 + |ep| + 1 + |half| + 1;
  }

  /** The parser after a record's half-move field outputs the position the record's fields name. */
  lemma {:induction false} RecordOutput(fen: seq<Byte>, ranks: seq<seq<Byte>>, side: Byte, castling: seq<Byte>,
                                        ep: seq<Byte>, half: seq<Byte>)
    requires |ranks| > 0 && AllRanks(ranks) && EnPassantField(ep) && AllDigits(half)
    requires var p4 := AfterEnPassant(AfterCastling(AfterSide(AfterField(Start, ranks, Eighth), side), castling), ep);
      p4.i + |half| < |fen| && fen[p4.i..p4.i + |half|] == half
    ensures Output(AfterHalfMoves(fen, AfterEnPassant(AfterCastling(AfterSide(AfterField(Start, ranks, Eighth), side), castling), ep), |half|))
      == BoardUnchecked(FieldBits(ranks, Eighth, BitBoards.Empty()), SideOf(side), RightsOf(castling), TargetOf(ep), Decimal(half) % 256)
  {
    CounterValue(half);
    StartRights(castling);
  }

  /**
   * A well-formed record decodes to the position its fields name: the
   * pieces of its ranks, the player of its side letter, the rights of its
   * castling letters, the target of its en-passant field and the half-move
   * field's decimal value modulo 256. The full-move field is read and
   * dropped, and whatever follows a space after it is never read.
   */
  lemma {:induction false} ParseRecord(ranks: seq<seq<Byte>>, side: Byte, castling: seq<Byte>, ep: seq<Byte>,
                                       half: seq<Byte>, full: seq<Byte>, rest: seq<Byte>)
    requires |ranks| > 0 && AllRanks(ranks)
    requires side == 'w' || side == 'b'
    requires forall k :: 0 <= k < |castling| ==> CastlingFlag(castling[k]).Some?
    requires EnPassantField(ep) && AllDigits(half) && AllDigits(full)
    requires rest == [] || rest[0] == ' '
    ensures Parse(Record(ranks, side, castling, ep, half, full, rest)) ==
      Ok(BoardUnchecked(FieldBits(ranks, Eighth, BitBoards.Empty()), SideOf(side), RightsOf(castling),
                        TargetOf(ep), Decimal(half) % 256))
  {
    var fen := Record(ranks, side, castling, ep, half, full, rest);
    RecordFields(ranks, side, castling, ep, half, full, rest);
    RecordFullMoves(ranks, side, castling, ep, half, full, rest);
    RecordOutput(fen, ranks, side, castling, ep, half);
    TailRun(fen, AfterSide(AfterField(Start, ranks, Eighth), side), castling, ep, half, full);
    HeadRun(fen, ranks, side);
  }

  // ---------------------------------------------------------------------
  // Which placement byte decides a square
  // ---------------------------------------------------------------------

  /** The two sets of planes hold the same pieces on `sq`. */
  predicate SameAt(a: BitBoards, b: BitBoards, sq: Square)
  {
    forall i :: 0 <= i < PLANES ==> (a.pieces[i].At(sq) <==> b.pieces[i].At(sq))
  }

  /** Planes that hold the same pieces on a square report the same piece and player there. */
  lemma SameAtReports(a: BitBoards, b: BitBoards, sq: Square)
    requires SameAt(a, b, sq)
    ensures a.PieceOn(sq) == b.PieceOn(sq) && a.PlayerOn(sq) == b.PlayerOn(sq)
  {
    LastPlaneAtAgree(a.pieces, b.pieces, sq);
  }

  /** Placing a piece on another square leaves what `sq` holds. */
  lemma WithElsewhere(bits: BitBoards, player: Player, piece: Piece, at: Square, sq: Square)
    requires at != sq
    ensures SameAt(bits.With(player, piece, at), bits, sq)
  {
  }

  /** Placing the same piece on the same square keeps two sets of planes agreeing on `sq`. */
  lemma WithBoth(a: BitBoards, b: BitBoards, player: Player, piece: Piece, at: Square, sq: Square)
    requires SameAt(a, b, sq)
    ensures SameAt(a.With(player, piece, at), b.With(player, piece, at), sq)
  {
  }

  /** Agreement on a square is transitive. */
  lemma SameAtTrans(a: BitBoards, b: BitBoards, c: BitBoards, sq: Square)
    requires SameAt(a, b, sq) && SameAt(b, c, sq)
    ensures SameAt(a, c, sq)
  {
  }

  /** A rank byte read at another square than `sq` leaves what `sq` holds. */
  lemma {:induction false} PlaceElsewhere(ch: Byte, rank: Rank, file: nat, bits: BitBoards, sq: Square)
    requires sq.Rank() != rank || (file < 8 && sq.File().Num() != file)
    ensures SameAt(PlaceByte(ch, rank, file, bits), bits, sq)
  {
    if PieceOfLetter(ch).Some? {
      var at := Square.FromRankFile(rank, FileAt(file));
      RankFileRoundTrip(rank, FileAt(file));
      assert at != sq by {
        if sq.Rank() == rank {
          assert file % 8 == file;
        }
      }
      WithElsewhere(bits, PieceOfLetter(ch).value.0, PieceOfLetter(ch).value.1, at, sq);
    }
  }

  /**
   * The bytes of a rank leave a square alone when it is on another rank, or
   * on a file left of where they start or right of where they end, and they
   * do not run past file h.
   */
  lemma {:induction false} RankBitsFrame(s: seq<Byte>, rank: Rank, file: nat, bits: BitBoards, sq: Square)
    requires RankBytes(s)
    requires sq.Rank() != rank
          || (file + Width(s) <= 8 && (sq.File().Num() < file || sq.File().Num() >= file + Width(s)))
    ensures SameAt(RankBits(s, rank, file, bits), bits, sq)
    decreases |s|
  {
    if s != [] {
      assert RankBytes(s[1..]);
      var next := PlaceByte(s[0], rank, file, bits);
      RankBitsFrame(s[1..], rank, file + Skip(s[0]), next, sq);
      PlaceElsewhere(s[0], rank, file, bits, sq);
      SameAtTrans(RankBits(s, rank, file, bits), next, bits, sq);
    }
  }

  /** The rank `n` ranks below `rank`, wrapping from the first rank to the eighth. */
  function Below(rank: Rank, n: nat): Rank
    decreases n
  {
    if n == 0 then rank else Below(rank.WrappingDownBy(1), n - 1)
  }

  /** Above the first rank, one rank down is the rank numbered one less. */
  lemma DownOne(rank: Rank)
    requires rank.Num() >= 1
    ensures rank.WrappingDownBy(1).Num() == rank.Num() - 1
  {
    var x := rank.Num() - 1;
    assert x % 256 == x;
    assert x % 8 == x;
  }

  /** Without wrapping, the rank `n` ranks below `rank` has the number `rank`'s has, less `n`. */
  lemma {:induction false} BelowNum(rank: Rank, n: nat)
    requires n <= rank.Num()
    ensures Below(rank, n).Num() == rank.Num() - n
    decreases n
  {
    if n > 0 {
      var down := rank.WrappingDownBy(1);
      DownOne(rank);
      BelowNum(down, n - 1);
      assert Below(rank, n) == Below(down, n - 1);
    }
  }

  /** Placing ranks `a` then ranks `b` is placing `a`, then `b` from `|a|` ranks further down. */
  lemma {:induction false} FieldBitsAppend(a: seq<seq<Byte>>, b: seq<seq<Byte>>, rank: Rank, bits: BitBoards)
    requires AllRanks(a) && AllRanks(b)
    ensures AllRanks(a + b)
    ensures FieldBits(a + b, rank, bits) == FieldBits(b, Below(rank, |a|), FieldBits(a, rank, bits))
    decreases |a|
  {
    assert AllRanks(a + b);
    if a == [] {
      assert a + b == b;
    } else {
      var down := rank.WrappingDownBy(1);
      var next := RankBits(a[0], rank, 0, bits);
      assert (a + b)[0] == a[0] && (a + b)[1..] == a[1..] + b;
      assert AllRanks(a[1..]);
      FieldBitsAppend(a[1..], b, down, next);
      assert FieldBits(a + b, rank, bits) == FieldBits(a[1..] + b, down, next);
      assert Below(rank, |a|) == Below(down, |a[1..]|);
    }
  }

  /**
   * Ranks placed from `rank` down leave a square alone when it lies below
   * all of them or above `rank`.
   */
  lemma {:induction false} FieldBitsFrame(ranks: seq<seq<Byte>>, rank: Rank, bits: BitBoards, sq: Square)
    requires AllRanks(ranks) && |ranks| <= rank.Num() + 1
    requires sq.Rank().Num() + |ranks| <= rank.Num() || sq.Rank().Num() > rank.Num()
    ensures SameAt(FieldBits(ranks, rank, bits), bits, sq)
    decreases |ranks|
  {
    if ranks != [] {
      assert RankBytes(ranks[0]) && AllRanks(ranks[1..]);
      var next := RankBits(ranks[0], rank, 0, bits);
      assert sq.Rank() != rank;
      RankBitsFrame(ranks[0], rank, 0, bits, sq);
      var down := rank.WrappingDownBy(1);
      if |ranks| > 1 {
        DownOne(rank);
      }
      assert FieldBits(ranks, rank, bits) == FieldBits(ranks[1..], down, next);
      FieldBitsFrame(ranks[1..], down, next, sq);
      SameAtTrans(FieldBits(ranks, rank, bits), next, bits, sq);
    }
  }

  /** A rank's bits are its first byte's, then the rest's from the next file on. */
  lemma {:induction false} RankBitsFirst(s: seq<Byte>, rank: Rank, file: nat, bits: BitBoards,
                                         t: seq<Byte>, next: BitBoards, placed: BitBoards, sq: Square)
    requires RankBytes(s) && RankBytes(t) && s != [] && t == s[1..] && next == PlaceByte(s[0], rank, file, bits)
    requires SameAt(RankBits(t, rank, file + Skip(s[0]), next), placed, sq)
    ensures SameAt(RankBits(s, rank, file, bits), placed, sq)
  {
    assert RankBits(s, rank, file, bits) == RankBits(t, rank, file + Skip(s[0]), next);
  }

  /** A piece letter sets its own square and the bytes after it leave that square alone. */
  lemma {:induction false} LetterDecides(ch: Byte, after: seq<Byte>, rank: Rank, file: nat,
                                         a: BitBoards, e: BitBoards, sq: Square)
    requires RankBytes(after) && PieceOfLetter(ch).Some? && file + 1 + Width(after) <= 8
    requires sq.Rank() == rank && sq.File().Num() == file && SameAt(a, e, sq)
    ensures RankBytes([ch] + after)
    ensures SameAt(RankBits([ch] + after, rank, file, a),
                   e.With(PieceOfLetter(ch).value.0, PieceOfLetter(ch).value.1, sq), sq)
  {
    var player := PieceOfLetter(ch).value.0;
    var piece := PieceOfLetter(ch).value.1;
    var r := [ch] + after;
    assert RankBytes(r) && r[0] == ch && r[1..] == after;
    assert file % 8 == file;
    CursorAt(sq, rank, file);
    var placed := a.With(player, piece, sq);
    WithBoth(a, e, player, piece, sq, sq);
    RankBitsFrame(after, rank, file + 1, placed, sq);
    SameAtTrans(RankBits(after, rank, file + 1, placed), placed, e.With(player, piece, sq), sq);
    RankBitsFirst(r, rank, file, a, after, placed, e.With(player, piece, sq), sq);
  }

  /** A rank with a piece letter in it, seen from its first byte. */
  lemma {:induction false} RankAround(before: seq<Byte>, ch: Byte, after: seq<Byte>, r: seq<Byte>)
    requires RankBytes(before) && RankBytes(after) && PieceOfLetter(ch).Some? && r == before + [ch] + after
    ensures RankBytes(r)
    ensures before == [] ==> r == [ch] + after
    ensures before != [] ==> r[0] == before[0] && r[1..] == before[1..] + [ch] + after
  {
    assert RankByte(ch);
    if before != [] {
      assert r[1..] == before[1..] + [ch] + after;
    }
  }

  /** A rank byte before the one that reaches `sq` leaves `sq` alone. */
  lemma {:induction false} FirstElsewhere(before: seq<Byte>, rank: Rank, file: nat, a: BitBoards, e: BitBoards, sq: Square)
    requires before != [] && RankBytes(before) && file + Width(before) < 8
    requires sq.Rank() == rank && sq.File().Num() == file + Width(before) && SameAt(a, e, sq)
    ensures RankBytes(before[1..]) && Width(before) == Skip(before[0]) + Width(before[1..])
    ensures SameAt(PlaceByte(before[0], rank, file, a), e, sq)
  {
    assert RankBytes(before[1..]);
    PlaceElsewhere(before[0], rank, file, a, sq);
    SameAtTrans(PlaceByte(before[0], rank, file, a), a, e, sq);
  }

  /**
   * Within a rank that fits on the board, the bytes before a piece letter
   * leave its square alone, the letter sets it and the bytes after leave it.
   */
  lemma {:induction false} RankDecides(before: seq<Byte>, ch: Byte, after: seq<Byte>, rank: Rank, file: nat,
                                       a: BitBoards, e: BitBoards, sq: Square)
    requires RankBytes(before) && RankBytes(after) && PieceOfLetter(ch).Some?
    requires file + Width(before) + 1 + Width(after) <= 8
    requires sq.Rank() == rank && sq.File().Num() == file + Width(before) && SameAt(a, e, sq)
    ensures RankBytes(before + [ch] + after)
    ensures SameAt(RankBits(before + [ch] + after, rank, file, a),
                   e.With(PieceOfLetter(ch).value.0, PieceOfLetter(ch).value.1, sq), sq)
    decreases |before|
  {
    var r := before + [ch] + after;
    RankAround(before, ch, after, r);
    if before == [] {
      LetterDecides(ch, after, rank, file, a, e, sq);
    } else {
      var next := PlaceByte(before[0], rank, file, a);
      FirstElsewhere(before, rank, file, a, e, sq);
      RankDecides(before[1..], ch, after, rank, file + Skip(before[0]), next, e, sq);
      RankBitsFirst(r, rank, file, a, before[1..] + [ch] + after, next,
                    e.With(PieceOfLetter(ch).value.0, PieceOfLetter(ch).value.1, sq), sq);
    }
  }

  /**
   * The rank holding a piece letter decides its square, and the ranks below
   * it leave that square alone.
   */
  lemma {:induction false} RankFieldDecides(before: seq<Byte>, ch: Byte, after: seq<Byte>, below: seq<seq<Byte>>,
                                            rank: Rank, a: BitBoards, e: BitBoards, sq: Square)
    requires RankBytes(before) && RankBytes(after) && AllRanks(below) && PieceOfLetter(ch).Some?
    requires Width(before) + 1 + Width(after) <= 8 && |below| <= rank.Num()
    requires sq.Rank() == rank && sq.File().Num() == Width(before) && SameAt(a, e, sq)
    ensures AllRanks([before + [ch] + after] + below)
    ensures SameAt(FieldBits([before + [ch] + after] + below, rank, a),
                   e.With(PieceOfLetter(ch).value.0, PieceOfLetter(ch).value.1, sq), sq)
  {
    var placed := e.With(PieceOfLetter(ch).value.0, PieceOfLetter(ch).value.1, sq);
    var r := before + [ch] + after;
    RankDecides(before, ch, after, rank, 0, a, e, sq);
    var rb := RankBits(r, rank, 0, a);
    var down := rank.WrappingDownBy(1);
    if |below| > 0 {
      DownOne(rank);
    }
    FieldBitsFrame(below, down, rb, sq);
    SameAtTrans(FieldBits(below, down, rb), rb, placed, sq);
    var rows := [r] + below;
    assert AllRanks(rows) && rows[0] == r && rows[1..] == below;
    assert FieldBits(rows, rank, a) == FieldBits(below, down, rb);
  }

  /**
   * The ranks above the one of `sq` leave it alone, and they bring the
   * rank they reach down to that of `sq`.
   */
  lemma FieldAbove(above: seq<seq<Byte>>, below: nat, bits: BitBoards, sq: Square)
    requires AllRanks(above) && |above| + 1 + below <= 8 && sq.Rank().Num() == 7 - |above|
    ensures Below(Eighth, |above|) == sq.Rank() && below <= sq.Rank().Num()
    ensures SameAt(FieldBits(above, Eighth, bits), bits, sq)
  {
    BelowNum(Eighth, |above|);
    RankNumInjective(Below(Eighth, |above|), sq.Rank());
    FieldBitsFrame(above, Eighth, bits, sq);
  }

  /** A placement field is the ranks above one rank, then that rank and the ones below it. */
  lemma SplitField(ranks: seq<seq<Byte>>, above: seq<seq<Byte>>, r: seq<Byte>, below: seq<seq<Byte>>, bits: BitBoards)
    requires ranks == above + [r] + below && AllRanks(above) && RankBytes(r) && AllRanks(below)
    ensures AllRanks(ranks) && AllRanks([r] + below)
    ensures FieldBits(ranks, Eighth, bits) == FieldBits([r] + below, Below(Eighth, |above|), FieldBits(above, Eighth, bits))
  {
    assert AllRanks([r] + below);
    assert ranks == above + ([r] + below);
    FieldBitsAppend(above, [r] + below, Eighth, bits);
  }

  /**
   * In a placement field whose ranks fit on the board, the square of a piece
   * letter ends up as that letter alone would leave an empty board.
   */
  lemma {:induction false} FieldDecides(ranks: seq<seq<Byte>>, above: seq<seq<Byte>>, before: seq<Byte>, ch: Byte,
                                        after: seq<Byte>, below: seq<seq<Byte>>, sq: Square)
    requires ranks == above + [before + [ch] + after] + below
    requires AllRanks(above) && AllRanks(below) && RankBytes(before) && RankBytes(after) && PieceOfLetter(ch).Some?
    requires |above| + 1 + |below| <= 8 && Width(before) + 1 + Width(after) <= 8
    requires sq.Rank().Num() == 7 - |above| && sq.File().Num() == Width(before)
    ensures AllRanks(ranks)
    ensures SameAt(FieldBits(ranks, Eighth, BitBoards.Empty()),
                   BitBoards.Empty().With(PieceOfLetter(ch).value.0, PieceOfLetter(ch).value.1, sq), sq)
  {
    var e := BitBoards.Empty();
    var r := before + [ch] + after;
    FieldAbove(above, |below|, e, sq);
    RankFieldDecides(before, ch, after, below, sq.Rank(), FieldBits(above, Eighth, e), e, sq);
    SplitField(ranks, above, r, below, e);
  }


  /**
   * In a placement field whose ranks fit on the board, the square of a
   * piece letter holds that piece, of that letter's player, and nothing
   * else: the letter of rank `|above|` below the eighth, at the file its
   * preceding bytes reach.
   */
  lemma PlacedPiece(ranks: seq<seq<Byte>>, above: seq<seq<Byte>>, before: seq<Byte>, ch: Byte,
                    after: seq<Byte>, below: seq<seq<Byte>>, sq: Square)
    requires ranks == above + [before + [ch] + after] + below
    requires AllRanks(above) && AllRanks(below) && RankBytes(before) && RankBytes(after) && PieceOfLetter(ch).Some?
    requires |above| + 1 + |below| <= 8 && Width(before) + 1 + Width(after) <= 8
    requires sq.Rank().Num() == 7 - |above| && sq.File().Num() == Width(before)
    ensures AllRanks(ranks)
    ensures var bits := FieldBits(ranks, Eighth, BitBoards.Empty());
      bits.PieceOn(sq) == Some(PieceOfLetter(ch).value.1) && bits.PlayerOn(sq) == Some(PieceOfLetter(ch).value.0)
  {
    var player := PieceOfLetter(ch).value.0;
    var piece := PieceOfLetter(ch).value.1;
    FieldDecides(ranks, above, before, ch, after, below, sq);
    SameAtReports(FieldBits(ranks, Eighth, BitBoards.Empty()), BitBoards.Empty().With(player, piece, sq), sq);
    EmptyWithReports(player, piece, sq);
  }

  // ---------------------------------------------------------------------
  // Two positions
  // ---------------------------------------------------------------------

  /** The ranks of the starting position, eighth first. */
  function StartRanks(): seq<seq<Byte>>
  {
    ["rnbqkbnr", "pppppppp", "8", "8", "8", "8", "PPPPPPPP", "RNBQKBNR"]
  }

  /** The ranks of the position after 1. e4 c5 2. Nf3, eighth first. */
  function TestRanks(): seq<seq<Byte>>
  {
    ["rnbqkbnr", "pp1ppppp", "8", "2p5", "4P3", "5N2", "PPPP1PPP", "RNBQKB1R"]
  }

  /** The castling field of both positions: every right. */
  function EveryRight(): seq<Byte>
  {
    "KQkq"
  }

  /** The starting position, "rnbqkbnr/pppppppp/8/8/8/8/PPPPPPPP/RNBQKBNR w KQkq - 0 1". */
  function StartFen(): seq<Byte>
  {
    Record(StartRanks(), 'w', EveryRight(), "-", "0", "1", [])
  }

  /**
   * The repository's own test position, "rnbqkbnr/pp1ppppp/8/2p5/4P3/5N2/PPPP1PPP/RNBQKB1R b KQkq - 1 2 ":
   * Black to move after 1. e4 c5 2. Nf3, with a trailing space.
   */
  function TestFen(): seq<Byte>
  {
    Record(TestRanks(), 'b', EveryRight(), "-", "1", "2", " ")
  }

  /** Each rank of the starting position is made of rank bytes. */
  lemma StartRanksBytes()
    ensures AllRanks(StartRanks())
  {
    var r := StartRanks();
    assert RankBytes(r[0]) && RankBytes(r[1]) && RankBytes(r[2]);
    assert RankBytes(r[6]) && RankBytes(r[7]);
  }

  /** Each rank of the test position is made of rank bytes. */
  lemma TestRanksBytes()
    ensures AllRanks(TestRanks())
  {
    var r := TestRanks();
    assert RankBytes(r[0]) && RankBytes(r[1]) && RankBytes(r[2]) && RankBytes(r[3]);
    assert RankBytes(r[4]) && RankBytes(r[5]) && RankBytes(r[6]) && RankBytes(r[7]);
  }

  /** Both positions name every castling right and no en-passant target. */
  lemma PositionRights()
    ensures forall k :: 0 <= k < |EveryRight()| ==> CastlingFlag(EveryRight()[k]).Some?
    ensures RightsOf(EveryRight()) == CastlingRights.Castling(true, true, true, true)
    ensures EnPassantField("-") && TargetOf("-") == None
  {
    var c := EveryRight();
    assert c[0] == 'K' && c[1] == 'Q' && c[2] == 'k' && c[3] == 'q';
  }

  /** The two positions' clocks. */
  lemma PositionClocks()
    ensures AllDigits("0") && AllDigits("1") && AllDigits("2")
    ensures Decimal("0") % 256 == 0 && Decimal("1") % 256 == 1
  {
    assert "0"[..0] == [] && "1"[..0] == [];
  }

  /** A list of ranks is the ones above rank `k`, rank `k` and the ones below. */
  lemma SplitAt(r: seq<seq<Byte>>, k: nat)
    requires k < |r|
    ensures r == r[..k] + [r[k]] + r[k + 1..]
  {
  }

  /** The starting position decodes to its ranks' pieces, White to move, every right, no target and clock 0. */
  lemma StartBoard()
    ensures AllRanks(StartRanks())
    ensures Parse(StartFen()) == Ok(BoardUnchecked(FieldBits(StartRanks(), Eighth, BitBoards.Empty()), White,
                                                   CastlingRights.Castling(true, true, true, true), None, 0))
  {
    StartRanksBytes();
    PositionRights();
    PositionClocks();
    ParseRecord(StartRanks(), 'w', EveryRight(), "-", "0", "1", []);
  }

  /** The test position decodes to its ranks' pieces, Black to move, every right, no target and clock 1. */
  lemma TestBoard()
    ensures AllRanks(TestRanks())
    ensures Parse(TestFen()) == Ok(BoardUnchecked(FieldBits(TestRanks(), Eighth, BitBoards.Empty()), Black,
                                                  CastlingRights.Castling(true, true, true, true), None, 1))
  {
    TestRanksBytes();
    PositionRights();
    PositionClocks();
    ParseRecord(TestRanks(), 'b', EveryRight(), "-", "1", "2", " ");
  }

  /** A run of piece letters covers one file per letter. */
  lemma {:induction false} LettersWidth(s: seq<Byte>)
    requires forall k :: 0 <= k < |s| ==> PieceOfLetter(s[k]).Some?
    ensures RankBytes(s) && Width(s) == |s|
    decreases |s|
  {
    if s != [] {
      LettersWidth(s[1..]);
    }
  }

  /** White's back rank in the starting position, split at its rook on a1. */
  lemma WhiteBackRank()
    ensures RankBytes("NBQKBNR") && Width("NBQKBNR") == 7 && StartRanks()[7] == [] + ['R'] + "NBQKBNR"
    ensures PieceOfLetter('R') == Some((White, Rook))
  {
    LettersWidth("NBQKBNR");
  }

  /** Black's back rank in the starting position, split at its rook on h8. */
  lemma BlackBackRank()
    ensures RankBytes("rnbqkbn") && Width("rnbqkbn") == 7 && StartRanks()[0] == "rnbqkbn" + ['r'] + []
    ensures PieceOfLetter('r') == Some((Black, Rook))
  {
    LettersWidth("rnbqkbn");
  }

  /** The starting position's White rook on a1. */
  lemma StartRookA1()
    ensures AllRanks(StartRanks())
    ensures var bits := FieldBits(StartRanks(), Eighth, BitBoards.Empty());
      bits.PieceOn(A1) == Some(Rook) && bits.PlayerOn(A1) == Some(White)
  {
    var r := StartRanks();
    StartRanksBytes();
    WhiteBackRank();
    SplitAt(r, 7);
    PlacedPiece(r, r[..7], [], 'R', "NBQKBNR", r[8..], A1);
  }

  /** The starting position's Black rook on h8. */
  lemma StartRookH8()
    ensures AllRanks(StartRanks())
    ensures var bits := FieldBits(StartRanks(), Eighth, BitBoards.Empty());
      bits.PieceOn(H8) == Some(Rook) && bits.PlayerOn(H8) == Some(Black)
  {
    var r := StartRanks();
    StartRanksBytes();
    BlackBackRank();
    SplitAt(r, 0);
    PlacedPiece(r, r[..0], "rnbqkbn", 'r', [], r[1..], H8);
  }

  /** The test position's White knight on f3. */
  lemma TestKnight()
    ensures AllRanks(TestRanks())
    ensures var bits := FieldBits(TestRanks(), Eighth, BitBoards.Empty());
      bits.PieceOn(F3) == Some(Horse) && bits.PlayerOn(F3) == Some(White)
  {
    var r := TestRanks();
    TestRanksBytes();
    assert Width("5") == 5 && Width("2") == 2;
    assert r[5] == "5" + ['N'] + "2";
    assert PieceOfLetter('N') == Some((White, Horse));
    SplitAt(r, 5);
    PlacedPiece(r, r[..5], "5", 'N', "2", r[6..], F3);
  }

  /**
   * The starting position decodes to White to move with every castling
   * right, no en-passant target, a half-move clock of 0, a White rook on a1
   * and a Black rook on h8.
   */
  lemma StartPosition()
    ensures Parse(StartFen()).Ok?
    ensures var b := Parse(StartFen()).value;
      && b.player == White && b.castling == CastlingRights.Castling(true, true, true, true)
      && b.enPassant == None && b.halfMoves == 0
      && b.bits.PieceOn(A1) == Some(Rook) && b.bits.PlayerOn(A1) == Some(White)
      && b.bits.PieceOn(H8) == Some(Rook) && b.bits.PlayerOn(H8) == Some(Black)
  {
    StartBoard();
    StartRookA1();
    StartRookH8();
  }

  /**
   * The record of the source's own test decodes to Black to move with every
   * castling right, no en-passant target, a half-move clock of 1 and a White
   * knight on f3.
   */
  lemma TestFenDecodes()
    ensures Parse(TestFen()).Ok?
    ensures var b := Parse(TestFen()).value;
      && b.player == Black && b.castling == CastlingRights.Castling(true, true, true, true)
      && b.enPassant == None && b.halfMoves == 1
      && b.bits.PieceOn(F3) == Some(Horse) && b.bits.PlayerOn(F3) == Some(White)
  {
    TestBoard();
    TestKnight();
  }
}
