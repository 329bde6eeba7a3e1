/**
 * Chess coordinates: ranks, files and the 64 squares, numbered by the
 * little-endian rank-file index in which A1 = 0, B1 = 1, ..., H1 = 7,
 * A2 = 8, ..., H8 = 63.
 *
 * Every operation is total. The step operations take a Rust `u8` and come
 * in a checked flavour (`RightBy`, which may fail) and wrapping flavours
 * (`WrappingRightBy`, `WrappingDownBy`, which stay on the board by
 * reducing modulo 8).
 */
module Coord {
  import opened Wrappers

  /** Rust's `u8`. */
  type U8 = n: int | 0 <= n < 256

  /** A horizontal row of the board, from the first (White's back rank) up to the eighth. */
  datatype Rank = First | Second | Third | Fourth | Fifth | Sixth | Seventh | Eighth {

    /** The rank's ordinal: 0 for the first rank up to 7 for the eighth. */
    function Num(): (n: U8)
      ensures n < 8
    {
      match this
      case First => 0
      case Second => 1
      case Third => 2
      case Fourth => 3
      case Fifth => 4
      case Sixth => 5
      case Seventh => 6
      case Eighth => 7
    }

    /** The rank whose ordinal is `val`; None past the eighth rank. */
    static function FromNum(val: U8): (r: Option<Rank>)
      ensures r.Some? <==> val < 8
      ensures r.Some? ==> r.value.Num() == val
    {
      match val
      case 0 => Some(First)
      case 1 => Some(Second)
      case 2 => Some(Third)
      case 3 => Some(Fourth)
      case 4 => Some(Fifth)
      case 5 => Some(Sixth)
      case 6 => Some(Seventh)
      case 7 => Some(Eighth)
      case _ => None
    }

    /**
     * Steps `amount` ranks towards the first rank, wrapping from the first rank
     * round to the eighth. The subtraction is the `u8` wrapping subtraction;
     * since 256 is a multiple of 8 the result is the rank numbered
     * `(Num() - amount) mod 8` (the `ensures` of the lemma `WrappingDownByNum`).
     */
    function WrappingDownBy(amount: U8): (r: Rank)
    {
      match FromNum(((Num() - amount) % 256) % 8)
      case Some(rank) => rank
      case None => First
    }
  }

  /** A vertical column of the board, from file a (left, from White's side) to file h. */
  datatype File = A | B | C | D | E | F | G | H {

    /** The file's ordinal: 0 for file a up to 7 for file h. */
    function Num(): (n: U8)
      ensures n < 8
    {
      match this
      case A => 0
      case B => 1
      case C => 2
      case D => 3
      case E => 4
      case F => 5
      case G => 6
      case H => 7
    }

    /** The file's lower-case letter. */
    function IntoChar(): (c: char)
      ensures 'a' <= c <= 'h'
      ensures c as int == 'a' as int + Num()
    {
      match this
      case A => 'a'
      case B => 'b'
      case C => 'c'
      case D => 'd'
      case E => 'e'
      case F => 'f'
      case G => 'g'
      case H => 'h'
    }

    /**
     * Steps `amount` files to the right. The addition saturates at 255, so a
     * large `amount` yields None rather than wrapping back onto the board.
     */
    function RightBy(amount: U8): (r: Option<File>)
      ensures r.Some? <==> Num() + amount <= 7
      ensures r.Some? ==> r.value.Num() == Num() + amount
    {
      FromNum(if Num() + amount < 256 then Num() + amount else 255)
    }

    /**
     * Steps `amount` files to the right, wrapping from file h round to file a.
     * The addition is the `u8` wrapping addition; the result is the file
     * numbered `(Num() + amount) mod 8` (the lemma `WrappingRightByNum`).
     */
    function WrappingRightBy(amount: U8): (r: File)
    {
      match FromNum(((Num() + amount) % 256) % 8)
      case Some(file) => file
      case None => A
    }

    /** The file whose ordinal is `num`; None past file h. */
    static function FromNum(num: U8): (r: Option<File>)
      ensures r.Some? <==> num < 8
      ensures r.Some? ==> r.value.Num() == num
    {
      match num
      case 0 => Some(A)
      case 1 => Some(B)
      case 2 => Some(C)
      case 3 => Some(D)
      case 4 => Some(E)
      case 5 => Some(F)
      case 6 => Some(G)
      case 7 => Some(H)
      case _ => None
    }

    /** The file named by a letter 'a' to 'h', in either case; None for any other char. */
    static function FromChar(ch: char): (r: Option<File>)
      ensures r.Some? <==> ('a' <= ch <= 'h' || 'A' <= ch <= 'H')
      ensures r.Some? && 'a' <= ch ==> r.value.Num() == ch as int - 'a' as int
      ensures r.Some? && ch <= 'H' ==> r.value.Num() == ch as int - 'A' as int
    {
      match ch
      case 'a' | 'A' => Some(A)
      case 'b' | 'B' => Some(B)
      case 'c' | 'C' => Some(C)
      case 'd' | 'D' => Some(D)
      case 'e' | 'E' => Some(E)
      case 'f' | 'F' => Some(F)
      case 'g' | 'G' => Some(G)
      case 'h' | 'H' => Some(H)
      case _ => None
    }
  }

  /** Other names for Rank and File, for use inside Square, whose accessors `Rank()` and `File()` hide them. */
  type RankType = Rank
  type FileType = File

  /** A square of the board, identified with its little-endian rank-file index. */
  newtype Square = index: int | 0 <= index < 64 {

    /** The square with index `index`; None for an index past 63. */
    static function FromLeIndex(index: U8): (r: Option<Square>)
      ensures r.Some? <==> index < 64
      ensures r.Some? ==> r.value.IntoLeIndex() == index
    {
      if index < 64 then Some(index as Square) else None
    }

    /** The square's little-endian rank-file index. */
    function IntoLeIndex(): (n: U8)
      ensures n < 64
    {
      this as int
    }

    /** The square on `rank` and `file`: its index is eight per rank plus the file. */
    static function FromRankFile(rank: Rank, file: File): (s: Square)
      ensures s.IntoLeIndex() == rank.Num() * 8 + file.Num()
    {
      match FromLeIndex(rank.Num() * 8 + file.Num())
      case Some(square) => square
      case None => A1
    }

    /** The square's rank: its index divided by eight. */
    function Rank(): (r: Rank)
      ensures r.Num() == IntoLeIndex() / 8
    {
      match RankType.FromNum(IntoLeIndex() / 8)
      case Some(rank) => rank
      case None => RankType.First
    }

    /** The square's file: its index modulo eight. */
    function File(): (f: File)
      ensures f.Num() == IntoLeIndex() % 8
    {
      match FileType.FromNum(IntoLeIndex() % 8)
      case Some(file) => file
      case None => assert false; FileType.A
    }

    /** The square on `rank` in this square's file (the lemma `WithRankWithFile`). */
    function WithRank(rank: Rank): Square
    {
      FromRankFile(rank, File())
    }

    /** The square on `file` in this square's rank (the lemma `WithRankWithFile`). */
    function WithFile(file: File): Square
    {
      FromRankFile(Rank(), file)
    }

    /**
     * Steps `amount` ranks down in the same file, wrapping from the first
     * rank to the eighth (the lemma `SquareWrappingDownBy`).
     */
    function WrappingDownBy(amount: U8): Square
    {
      FromRankFile(Rank().WrappingDownBy(amount), File())
    }

    /** Steps `amount` files right in the same rank; None when that leaves the board (the lemma `SquareRightBy`). */
    function RightBy(amount: U8): Option<Square>
    {
      match File().RightBy(amount)
      case Some(file) => Some(FromRankFile(Rank(), file))
      case None => None
    }

    /**
     * Steps `amount` files right, wrapping from file h to file a of the SAME
     * rank: the index keeps its rank part and its file part moves modulo 8.
     * This is the square of this rank and of the file stepped with
     * `File.WrappingRightBy` (the lemma `SquareWrappingRightByComposes`).
     */
    function WrappingRightBy(amount: U8): Square
    {
      ((this as int / 8) * 8 + (this as int % 8 + amount) % 8) as Square
    }
  }

  const A1: Square := 0
  const B1: Square := 1
  const H1: Square := 7
  const A2: Square := 8
  const F3: Square := 21
  const A8: Square := 56
  const H8: Square := 63

  // ---------------------------------------------------------------------
  // Ranks and files
  // ---------------------------------------------------------------------

  /** A rank is recovered from its ordinal, so ordinals identify ranks. */
  lemma RankNumRoundTrip(r: Rank)
    ensures Rank.FromNum(r.Num()) == Some(r)
  {
  }

  /** Two ranks with the same ordinal are the same rank. */
  lemma RankNumInjective(r: Rank, q: Rank)
    requires r.Num() == q.Num()
    ensures r == q
  {
    RankNumRoundTrip(r);
    RankNumRoundTrip(q);
  }

  /** A file is recovered from its ordinal, so ordinals identify files. */
  lemma FileNumRoundTrip(f: File)
    ensures File.FromNum(f.Num()) == Some(f)
  {
  }

  /** Two files with the same ordinal are the same file. */
  lemma FileNumInjective(f: File, g: File)
    requires f.Num() == g.Num()
    ensures f == g
  {
    FileNumRoundTrip(f);
    FileNumRoundTrip(g);
  }

  /** Stepping down wraps modulo 8: the first rank stepped down by one is the eighth. */
  lemma WrappingDownByNum(r: Rank, amount: U8)
    ensures r.WrappingDownBy(amount).Num() == (r.Num() - amount) % 8
  {
    var n := r.Num() - amount;
    if n < 0 {
      assert n % 256 == n + 256;
      assert (n + 256) % 8 == n % 8;
    }
  }

  /** Stepping right with wrap-around reduces modulo 8. */
  lemma WrappingRightByNum(f: File, amount: U8)
    ensures f.WrappingRightBy(amount).Num() == (f.Num() + amount) % 8
  {
    var n := f.Num() + amount;
    assert (n % 256) % 8 == n % 8 by {
      assert n < 256 || n % 256 == n - 256;
    }
  }

  /** The wrapping file step has period 8 in its step count. */
  lemma {:induction false} WrappingRightByPeriodic(f: File, amount: U8)
    requires amount + 8 < 256
    ensures f.WrappingRightBy(amount + 8) == f.WrappingRightBy(amount)
  {
    WrappingRightByNum(f, amount);
    WrappingRightByNum(f, amount + 8);
    FileNumInjective(f.WrappingRightBy(amount + 8), f.WrappingRightBy(amount));
  }

  /** The wrapping rank step has period 8 in its step count. */
  lemma {:induction false} WrappingDownByPeriodic(r: Rank, amount: U8)
    requires amount + 8 < 256
    ensures r.WrappingDownBy(amount + 8) == r.WrappingDownBy(amount)
  {
    WrappingDownByNum(r, amount);
    WrappingDownByNum(r, amount + 8);
    RankNumInjective(r.WrappingDownBy(amount + 8), r.WrappingDownBy(amount));
  }

  /** A file's letter reads back as that file, and upper case reads the same as lower case. */
  lemma FileCharRoundTrip(f: File)
    ensures File.FromChar(f.IntoChar()) == Some(f)
    ensures File.FromChar(f.IntoChar() - 'a' + 'A') == Some(f)
  {
  }

  // ---------------------------------------------------------------------
  // Squares
  // ---------------------------------------------------------------------

  /**
   * Index round trip: every square reads back from its index, and an index
   * names no square exactly when it is past 63.
   */
  lemma LeIndexRoundTrip(s: Square, n: U8)
    ensures Square.FromLeIndex(s.IntoLeIndex()) == Some(s)
    ensures Square.FromLeIndex(n).None? <==> n > 63
  {
  }

  /** Composing a square from a rank and a file and decomposing it gives them back. */
  lemma {:induction false} RankFileRoundTrip(rank: Rank, file: File)
    ensures Square.FromRankFile(rank, file).Rank() == rank
    ensures Square.FromRankFile(rank, file).File() == file
  {
    var s := Square.FromRankFile(rank, file);
    var i := rank.Num() * 8 + file.Num();
    assert i / 8 == rank.Num() && i % 8 == file.Num();
    RankNumInjective(s.Rank(), rank);
    FileNumInjective(s.File(), file);
  }

  /**
   * Every square is eight times its rank plus its file, and is the square
   * composed from its own rank and file.
   */
  lemma {:induction false} SquareDecomposes(s: Square)
    ensures s.IntoLeIndex() == s.Rank().Num() * 8 + s.File().Num()
    ensures Square.FromRankFile(s.Rank(), s.File()) == s
  {
    var i := s.IntoLeIndex();
    assert i == (i / 8) * 8 + i % 8;
  }

  /** Replacing the rank keeps the file, and replacing the file keeps the rank. */
  lemma {:induction false} WithRankWithFile(s: Square, rank: Rank, file: File)
    ensures s.WithRank(rank).Rank() == rank && s.WithRank(rank).File() == s.File()
    ensures s.WithFile(file).File() == file && s.WithFile(file).Rank() == s.Rank()
  {
    RankFileRoundTrip(rank, s.File());
    RankFileRoundTrip(s.Rank(), file);
  }

  /**
   * The wrapping square step is the square on the same rank and on the file
   * that `File.WrappingRightBy` steps to.
   */
  lemma {:induction false} SquareWrappingRightByComposes(s: Square, amount: U8)
    ensures s.WrappingRightBy(amount) == Square.FromRankFile(s.Rank(), s.File().WrappingRightBy(amount))
  {
    WrappingRightByNum(s.File(), amount);
  }

  /**
   * The wrapping square step to the right keeps the rank, so H1 steps to A1
   * rather than to A2; its file moves by `amount` modulo 8.
   */
  lemma {:induction false} SquareWrappingRightBy(s: Square, amount: U8)
    ensures s.WrappingRightBy(amount).Rank() == s.Rank()
    ensures s.WrappingRightBy(amount).File().Num() == (s.File().Num() + amount) % 8
  {
    RankFileRoundTrip(s.Rank(), s.File().WrappingRightBy(amount));
    WrappingRightByNum(s.File(), amount);
  }

  /**
   * The wrapping square step down keeps the file, so A1 steps to A8; its
   * rank moves down by `amount` modulo 8.
   */
  lemma {:induction false} SquareWrappingDownBy(s: Square, amount: U8)
    ensures s.WrappingDownBy(amount).File() == s.File()
    ensures s.WrappingDownBy(amount).Rank().Num() == (s.Rank().Num() - amount) % 8
  {
    RankFileRoundTrip(s.Rank().WrappingDownBy(amount), s.File());
    WrappingDownByNum(s.Rank(), amount);
  }

  /**
   * The checked square step to the right succeeds exactly when the target
   * file exists, and then lands `amount` files right in the same rank.
   */
  lemma {:induction false} SquareRightBy(s: Square, amount: U8)
    ensures s.RightBy(amount).Some? <==> s.File().Num() + amount <= 7
    ensures s.RightBy(amount).Some? ==>
      s.RightBy(amount).value.Rank() == s.Rank() &&
      s.RightBy(amount).value.File().Num() == s.File().Num() + amount
  {
    var f := s.File().RightBy(amount);
    if f.Some? {
      RankFileRoundTrip(s.Rank(), f.value);
    }
  }

  /** The right-step cases exercised by the source's own tests: A1 to B1, and H1 back to A1. */
  lemma WrappingRightExamples()
    ensures A1.WrappingRightBy(1) == B1
    ensures H1.WrappingRightBy(1) == A1
  {
    assert A1 as int == 0 && H1 as int == 7;
  }

  /** The down-step cases exercised by the source's own tests: A2 to A1, and A1 round to A8. */
  lemma {:induction false} WrappingDownExamples()
    ensures A2.WrappingDownBy(1) == A1
    ensures A1.WrappingDownBy(1) == A8
  {
    assert A2.Rank() == Second && A2.File() == File.A;
    assert Second.WrappingDownBy(1) == First;
    assert A1.Rank() == First && A1.File() == File.A;
    assert First.WrappingDownBy(1) == Eighth;
  }

}
