/**
 * Castling rights: four independent one-bit flags in one `u8`. The value is
 * kept as its four bits, and `Bits` gives the byte they make; the union of
 * two sets of rights is their bitwise OR, bit by bit.
 */
module CastlingRights {

  /** A set of castling rights, one bit per right. */
  datatype Castling = Castling(whiteKingSide: bool, whiteQueenSide: bool, blackKingSide: bool, blackQueenSide: bool) {

    /** The byte these rights are stored as: bit 0 White king side, bit 1 White queen side, bit 2 Black king side, bit 3 Black queen side. */
    function Bits(): (n: nat)
      ensures n < 16
    {
      (if whiteKingSide then 1 else 0) + (if whiteQueenSide then 2 else 0)
      + (if blackKingSide then 4 else 0) + (if blackQueenSide then 8 else 0)
    }
  }

  const WHITE_KING_SIDE: Castling := Castling(true, false, false, false)
  const WHITE_QUEEN_SIDE: Castling := Castling(false, true, false, false)
  const BLACK_KING_SIDE: Castling := Castling(false, false, true, false)
  const BLACK_QUEEN_SIDE: Castling := Castling(false, false, false, true)

  /** The four single-right flags. */
  const FLAGS: set<Castling> := {WHITE_KING_SIDE, WHITE_QUEEN_SIDE, BLACK_KING_SIDE, BLACK_QUEEN_SIDE}

  /** No castling rights. */
  function Empty(): (r: Castling)
    ensures r.Bits() == 0
    ensures forall flag :: flag in FLAGS ==> !Contains(r, flag)
  {
    Castling(false, false, false, false)
  }

  /** Whether `rights` holds every right of `flags` (`rights & flags == flags`). */
  predicate Contains(rights: Castling, flags: Castling)
  {
    (flags.whiteKingSide ==> rights.whiteKingSide) && (flags.whiteQueenSide ==> rights.whiteQueenSide)
    && (flags.blackKingSide ==> rights.blackKingSide) && (flags.blackQueenSide ==> rights.blackQueenSide)
  }

  /** The rights held by either argument: the bitwise OR of the two bytes. */
  function Union(rights: Castling, other: Castling): (r: Castling)
    ensures Contains(r, rights) && Contains(r, other)
    ensures forall flag :: flag in FLAGS ==> (Contains(r, flag) <==> Contains(rights, flag) || Contains(other, flag))
  {
    Castling(rights.whiteKingSide || other.whiteKingSide, rights.whiteQueenSide || other.whiteQueenSide,
             rights.blackKingSide || other.blackKingSide, rights.blackQueenSide || other.blackQueenSide)
  }

  // ---------------------------------------------------------------------
  // Properties
  // ---------------------------------------------------------------------

  /** The four flags are the bytes 0b0001, 0b0010, 0b0100 and 0b1000. */
  lemma FlagBits()
    ensures WHITE_KING_SIDE.Bits() == 1 && WHITE_QUEEN_SIDE.Bits() == 2
    ensures BLACK_KING_SIDE.Bits() == 4 && BLACK_QUEEN_SIDE.Bits() == 8
  {
  }

  /** The byte determines the rights: two sets of rights with the same byte are the same. */
  lemma {:induction false} BitsInjective(a: Castling, b: Castling)
    requires a.Bits() == b.Bits()
    ensures a == b
  {
    var n := a.Bits();
    assert a.blackQueenSide == (n >= 8) == b.blackQueenSide;
    assert a.blackKingSide == (n % 8 >= 4) == b.blackKingSide;
    assert a.whiteQueenSide == (n % 4 >= 2) == b.whiteQueenSide;
  }

  /** Union is commutative, associative and idempotent, with `Empty` as its unit. */
  lemma UnionLaws(a: Castling, b: Castling, c: Castling)
    ensures Union(a, b) == Union(b, a)
    ensures Union(Union(a, b), c) == Union(a, Union(b, c))
    ensures Union(a, a) == a
    ensures Union(a, Empty()) == a
  {
  }

  /** Adding rights one at a time builds exactly the rights held: all four flags make the byte 0b1111. */
  lemma AllRights()
    ensures Union(Union(Union(Union(Empty(), WHITE_KING_SIDE), WHITE_QUEEN_SIDE), BLACK_KING_SIDE), BLACK_QUEEN_SIDE).Bits() == 15
  {
  }
}
