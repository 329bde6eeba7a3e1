/**
 * Bitboards. A `BitBoard` is a set of squares (in the source, a `u64` whose
 * bit i stands for the square with index i); `BitBoards` holds twelve of
 * them, one plane per (player, piece) pair, plane `player * 6 + piece`.
 */
module Bits {
  import opened Wrappers
  import opened Coord
  import opened Board

  /** A set of squares. */
  datatype BitBoard = BitBoard(squares: set<Square>) {

    /** The board with no square set. */
    static function Empty(): (b: BitBoard)
      ensures forall s: Square :: !b.At(s)
    {
      BitBoard({})
    }

    /** Whether `square` is set (how `With` changes it: the lemma `WithOnlyChangesSquare`). */
    predicate At(square: Square)
    {
      square in squares
    }

    /** A copy with `square` set and every other square as it was. */
    function With(square: Square): (b: BitBoard)
      ensures b.At(square)
      ensures forall t: Square :: t != square ==> (b.At(t) <==> At(t))
    {
      BitBoard(squares + {square})
    }
  }

  /** The number of planes, one per (player, piece) pair. */
  const PLANES: nat := PIECES * PLAYERS

  /** Twelve planes. */
  type Planes = p: seq<BitBoard> | |p| == PLANES witness seq(PLANES, _ => BitBoard.Empty())

  /** The plane of `player`'s pieces of kind `piece`. */
  function PlaneIndex(player: Player, piece: Piece): (i: nat)
    ensures i < PLANES
  {
    player.Ordinal() * 6 + piece.Ordinal()
  }

  /** The piece kind a plane holds: its index modulo six. */
  function IndexToPiece(idx: nat): (pc: Piece)
    ensures pc.Ordinal() == idx % 6
  {
    match idx % 6
    case 0 => Pawn
    case 1 => Horse
    case 2 => Bishop
    case 3 => Rook
    case 4 => Queen
    case 5 => King
    case _ => assert false; Pawn
  }

  /** The player a plane belongs to: White below six, Black from six on. */
  function IndexToPlayer(idx: nat): (pl: Player)
    ensures pl.Ordinal() == if idx < 6 then 0 else 1
  {
    if idx < 6 then White else Black
  }

  /**
   * The highest-numbered plane of `planes` that has `at` set, or None when
   * no plane has it.
   */
  function LastPlaneAt(planes: seq<BitBoard>, at: Square): (r: Option<nat>)
    ensures r.None? <==> forall i :: 0 <= i < |planes| ==> !planes[i].At(at)
    ensures r.Some? ==> r.value < |planes| && planes[r.value].At(at)
    ensures r.Some? ==> forall j :: r.value < j < |planes| ==> !planes[j].At(at)
    decreases |planes|
  {
    if planes == [] then None
    else if planes[|planes| - 1].At(at) then Some(|planes| - 1)
    else LastPlaneAt(planes[..|planes| - 1], at)
  }

  /** The twelve planes of a position's pieces. */
  datatype BitBoards = BitBoards(pieces: Planes) {

    /** Twelve empty planes. */
    static function Empty(): (b: BitBoards)
      ensures forall i, s: Square :: 0 <= i < PLANES ==> !b.pieces[i].At(s)
    {
      BitBoards(seq(PLANES, _ => BitBoard.Empty()))
    }

    /** A copy with `at` set in the plane of (`player`, `piece`) and the other eleven planes untouched. */
    function With(player: Player, piece: Piece, at: Square): (b: BitBoards)
      ensures b.pieces[PlaneIndex(player, piece)] == pieces[PlaneIndex(player, piece)].With(at)
      ensures forall i :: 0 <= i < PLANES && i != PlaneIndex(player, piece) ==> b.pieces[i] == pieces[i]
    {
      var index := PlaneIndex(player, piece);
      BitBoards(pieces[index := pieces[index].With(at)])
    }

    /**
     * The piece kind `PieceAt` reports: that of the highest-numbered plane
     * holding `at`. None exactly when no plane holds it.
     */
    function PieceOn(at: Square): (r: Option<Piece>)
      ensures r.None? <==> forall i :: 0 <= i < PLANES ==> !pieces[i].At(at)
    {
      match LastPlaneAt(pieces, at)
      case Some(i) => Some(IndexToPiece(i))
      case None => None
    }

    /**
     * The player `PlayerAt` reports: the owner of the highest-numbered plane
     * holding `at`. None exactly when no plane holds it.
     */
    function PlayerOn(at: Square): (r: Option<Player>)
      ensures r.None? <==> forall i :: 0 <= i < PLANES ==> !pieces[i].At(at)
    {
      match LastPlaneAt(pieces, at)
      case Some(i) => Some(IndexToPlayer(i))
      case None => None
    }

    /** Scans the twelve planes in order; a later plane holding `at` overrides an earlier one. */
    method PieceAt(at: Square) returns (piece: Option<Piece>)
      ensures piece == PieceOn(at)
    {
      piece := None;
      for i := 0 to |pieces|
        invariant piece == match LastPlaneAt(pieces[..i], at)
                           case Some(k) => Some(IndexToPiece(k))
                           case None => None
      {
        assert pieces[..i + 1][..i] == pieces[..i];
        if pieces[i].At(at) {
          piece := Some(IndexToPiece(i));
        }
      }
      assert pieces[..|pieces|] == pieces;
    }

    /** Scans the twelve planes in order; a later plane holding `at` overrides an earlier one. */
    method PlayerAt(at: Square) returns (player: Option<Player>)
      ensures player == PlayerOn(at)
    {
      player := None;
      for i := 0 to |pieces|
        invariant player == match LastPlaneAt(pieces[..i], at)
                            case Some(k) => Some(IndexToPlayer(k))
                            case None => None
      {
        assert pieces[..i + 1][..i] == pieces[..i];
        if pieces[i].At(at) {
          player := Some(IndexToPlayer(i));
        }
      }
      assert pieces[..|pieces|] == pieces;
    }
  }

  // ---------------------------------------------------------------------
  // Properties
  // ---------------------------------------------------------------------

  /** Setting a square twice is the same as setting it once. */
  lemma WithIdempotent(b: BitBoard, s: Square)
    ensures b.With(s).With(s) == b.With(s)
  {
  }

  /** Setting a square changes exactly that square: the other squares read as before. */
  lemma WithOnlyChangesSquare(b: BitBoard, s: Square, t: Square)
    ensures b.With(s).At(t) <==> t == s || b.At(t)
  {
  }

  /** The source's bitboard test: A1 and H8 set, A2 not. */
  lemma BitBoardExample()
    ensures BitBoard.Empty().With(A1).With(H8).At(A1)
    ensures BitBoard.Empty().With(A1).With(H8).At(H8)
    ensures !BitBoard.Empty().With(A1).With(H8).At(A2)
  {
  }

  /**
   * Plane numbering is a bijection between (player, piece) pairs and the
   * indices 0..11: each pair is recovered from its index, and each index is
   * the index of the pair it names.
   */
  lemma {:induction false} PlaneIndexRoundTrip(player: Player, piece: Piece, idx: nat)
    ensures IndexToPiece(PlaneIndex(player, piece)) == piece
    ensures IndexToPlayer(PlaneIndex(player, piece)) == player
    ensures idx < PLANES ==> PlaneIndex(IndexToPlayer(idx), IndexToPiece(idx)) == idx
  {
    var i := PlaneIndex(player, piece);
    assert i % 6 == piece.Ordinal();
    PieceOrdinalInjective(IndexToPiece(i), piece);
    PlayerOrdinalInjective(IndexToPlayer(i), player);
  }

  /** Setting a piece twice is the same as setting it once. */
  lemma {:induction false} BitBoardsWithIdempotent(b: BitBoards, player: Player, piece: Piece, s: Square)
    ensures b.With(player, piece, s).With(player, piece, s) == b.With(player, piece, s)
  {
    var i := PlaneIndex(player, piece);
    WithIdempotent(b.pieces[i], s);
    assert b.With(player, piece, s).With(player, piece, s).pieces == b.With(player, piece, s).pieces;
  }

  /**
   * On planes where only plane `k` holds `at`, the last-match scan finds
   * plane `k`.
   */
  lemma {:induction false} LastPlaneAtSole(planes: seq<BitBoard>, at: Square, k: nat)
    requires k < |planes| && planes[k].At(at)
    requires forall i :: 0 <= i < |planes| && i != k ==> !planes[i].At(at)
    ensures LastPlaneAt(planes, at) == Some(k)
  {
  }

  /** The last-match scan depends only on which planes hold `at`: planes that agree there give the same answer. */
  lemma {:induction false} LastPlaneAtAgree(a: seq<BitBoard>, b: seq<BitBoard>, at: Square)
    requires |a| == |b| && forall i :: 0 <= i < |a| ==> (a[i].At(at) <==> b[i].At(at))
    ensures LastPlaneAt(a, at) == LastPlaneAt(b, at)
    decreases |a|
  {
    if a != [] {
      var n := |a| - 1;
      assert a[n].At(at) <==> b[n].At(at);
      if !a[n].At(at) {
        LastPlaneAtAgree(a[..n], b[..n], at);
      }
    }
  }

  /**
   * A piece placed on an empty board is reported on its square, with its
   * owner.
   */
  lemma {:induction false} EmptyWithReports(player: Player, piece: Piece, s: Square)
    ensures BitBoards.Empty().With(player, piece, s).PieceOn(s) == Some(piece)
    ensures BitBoards.Empty().With(player, piece, s).PlayerOn(s) == Some(player)
  {
    var b := BitBoards.Empty().With(player, piece, s);
    LastPlaneAtSole(b.pieces, s, PlaneIndex(player, piece));
    PlaneIndexRoundTrip(player, piece, 0);
  }

  /**
   * Overlapping planes are not rejected: whichever order two pieces are
   * placed on one square of an empty board, the scan reports the one in the
   * higher plane.
   */
  lemma {:induction false} OverlapHigherPlaneWins(low: Player, lowPiece: Piece,
                                                  high: Player, highPiece: Piece, s: Square)
    requires PlaneIndex(low, lowPiece) < PlaneIndex(high, highPiece)
    ensures BitBoards.Empty().With(low, lowPiece, s).With(high, highPiece, s).PieceOn(s) == Some(highPiece)
    ensures BitBoards.Empty().With(high, highPiece, s).With(low, lowPiece, s).PieceOn(s) == Some(highPiece)
    ensures BitBoards.Empty().With(low, lowPiece, s).With(high, highPiece, s).PlayerOn(s) == Some(high)
    ensures BitBoards.Empty().With(high, highPiece, s).With(low, lowPiece, s).PlayerOn(s) == Some(high)
  {
    OverlapLastPlane(low, lowPiece, high, highPiece, s);
    PlaneIndexRoundTrip(high, highPiece, 0);
  }

  /** On two pieces placed on one square, in either order, the last-match scan finds the higher plane. */
  lemma {:induction false} OverlapLastPlane(low: Player, lowPiece: Piece, high: Player, highPiece: Piece, s: Square)
    requires PlaneIndex(low, lowPiece) < PlaneIndex(high, highPiece)
    ensures LastPlaneAt(BitBoards.Empty().With(low, lowPiece, s).With(high, highPiece, s).pieces, s)
         == Some(PlaneIndex(high, highPiece))
    ensures LastPlaneAt(BitBoards.Empty().With(high, highPiece, s).With(low, lowPiece, s).pieces, s)
         == Some(PlaneIndex(high, highPiece))
  {
    var h := PlaneIndex(high, highPiece);
    var lowFirst := BitBoards.Empty().With(low, lowPiece, s).With(high, highPiece, s);
    var highFirst := BitBoards.Empty().With(high, highPiece, s).With(low, lowPiece, s);
    assert lowFirst.pieces == highFirst.pieces;
    assert lowFirst.pieces[h].At(s);
  }

  /** The source's test: a White knight on A1, and one on H8, are found there. */
  lemma BitBoardsExample()
    ensures BitBoards.Empty().With(White, Horse, A1).PieceOn(A1) == Some(Horse)
    ensures BitBoards.Empty().With(White, Horse, A1).PlayerOn(A1) == Some(White)
    ensures BitBoards.Empty().With(White, Horse, H8).PieceOn(H8) == Some(Horse)
    ensures BitBoards.Empty().With(White, Horse, H8).PlayerOn(H8) == Some(White)
  {
    EmptyWithReports(White, Horse, A1);
    EmptyWithReports(White, Horse, H8);
  }
}
