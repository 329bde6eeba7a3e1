/** The decoder's output: a position that has not been checked for legality. */
module Pseudo {
  import opened Wrappers
  import opened Coord
  import opened Board
  import opened Bits
  import CastlingRights

  /**
   * Piece placement, side to move, castling rights, en-passant target and
   * half-move clock. There is no full-move number.
   */
  datatype BoardUnchecked = BoardUnchecked(
    bits: BitBoards,
    player: Player,
    castling: CastlingRights.Castling,
    enPassant: Option<Square>,
    halfMoves: U8)
}
