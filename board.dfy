/** The two players and six piece kinds, with the counts that size the bitboard planes. */
module Board {

  /** The number of piece kinds. */
  const PIECES: nat := 6

  /** The number of players. */
  const PLAYERS: nat := 2

  datatype Player = White | Black {

    /** The player's ordinal (`player as usize`): White 0, Black 1. */
    function Ordinal(): (n: nat)
      ensures n < PLAYERS
    {
      match this
      case White => 0
      case Black => 1
    }
  }

  /** The six piece kinds; the knight is called Horse, as in the source. */
  datatype Piece = Pawn | Horse | Bishop | Rook | Queen | King {

    /** The piece's ordinal (`piece as usize`): Pawn 0 up to King 5. */
    function Ordinal(): (n: nat)
      ensures n < PIECES
    {
      match this
      case Pawn => 0
      case Horse => 1
      case Bishop => 2
      case Rook => 3
      case Queen => 4
      case King => 5
    }
  }

  /** Two players with the same ordinal are the same player. */
  lemma PlayerOrdinalInjective(p: Player, q: Player)
    requires p.Ordinal() == q.Ordinal()
    ensures p == q
  {
  }

  /** Two piece kinds with the same ordinal are the same kind. */
  lemma PieceOrdinalInjective(p: Piece, q: Piece)
    requires p.Ordinal() == q.Ordinal()
    ensures p == q
  {
  }
}
