/**
 * The directory block of a McIDAS AREA file: 64 words, validated against
 * the format's version number and, when it was written on a machine of the
 * other byte order, byte-swapped in place word range by word range; then the
 * image times and the band list are read out of it.
 *
 * Words are kept as 32-bit bit-vectors (`Word`), the bits of a Java `int`;
 * `Signed` gives the `int` a getter returns.
 */
module McidasArea {
  import opened Wrappers
  import opened JavaInt

  type Word = bv32

  // Word indices of the directory (the AreaFile.AD_* constants of the McIDAS
  // AREA format, counted from 0).
  const DirSize: nat := 64
  const VersionWord: nat := 1
  const ImageDateWord: nat := 3
  const ImageTimeWord: nat := 4
  const LinesWord: nat := 8
  const ElementsWord: nat := 9
  const BandCountWord: nat := 13
  const BandMapWord: nat := 18
  const StartDateWord: nat := 45
  const StartTimeWord: nat := 46

  /** The format version an AREA directory carries in its version word. */
  const VersionNumber: Word := 4

  datatype AreaError =
    | WrongSize            // "Directory is not the right size"
    | InvalidVersion       // "Invalid version number - probably not an AREA file"
    | NegativeBandCount(count: int)       // `new int[numbands]` with numbands < 0
    | TooManyBands         // more band-map bits set than numbands: `bands[j]` out of bounds
    | InvalidPointer(pointer: int)        // "Invalid pointer"
    | PointerOutOfBounds(pointer: int)    // `dir[pointer]` out of bounds

  /** The `int` whose two's-complement bits are w. */
  function Signed(w: Word): int {
    if w < 0x8000_0000 then w as int else w as int - 0x1_0000_0000
  }

  // ---------------------------------------------------------------------
  // Byte flipping.

  /** Byte k of w, counting from the least significant. */
  function Byte(w: Word, k: nat): Word
    requires k < 4
  {
    if k == 0 then w & 0xff
    else if k == 1 then (w >> 8) & 0xff
    else if k == 2 then (w >> 16) & 0xff
    else w >> 24
  }

  /** A word with its four bytes in the reverse order (McIDASUtil.flip on one word). */
  function Flip(w: Word): Word {
    (w << 24) | ((w & 0xff00) << 8) | ((w >> 8) & 0xff00) | (w >> 24)
  }

  /** Flip reverses the order of the bytes. */
  lemma FlipReversesBytes(w: Word)
    ensures Byte(Flip(w), 0) == Byte(w, 3) && Byte(Flip(w), 1) == Byte(w, 2)
    ensures Byte(Flip(w), 2) == Byte(w, 1) && Byte(Flip(w), 3) == Byte(w, 0)
  {
  }

  /** Flipping twice gives the word back. */
  lemma FlipFlip(w: Word)
    ensures Flip(Flip(w)) == w
  {
  }

  /** The version number written in the other byte order is a different word. */
  lemma VersionNotPalindrome()
    ensures Flip(VersionNumber) != VersionNumber
  {
  }

  /** The words of s with those at positions lo..hi (inclusive) flipped. */
  function FlipWords(s: seq<Word>, lo: nat, hi: nat): (r: seq<Word>)
    requires lo <= hi < |s|
    ensures |r| == |s|
    ensures forall k :: 0 <= k < |s| ==> r[k] == if lo <= k <= hi then Flip(s[k]) else s[k]
  {
    seq(|s|, k requires 0 <= k < |s| => if lo <= k <= hi then Flip(s[k]) else s[k])
  }

  /**
   * The words the constructor flips once the version word reads right:
   * word 20 when its low half is zero (it may hold characters), and the
   * numeric ranges 21-23, 32-50, 53-55 and 57-63.
   */
  function FlipNumeric(s: seq<Word>): (r: seq<Word>)
    requires |s| == DirSize
    ensures |r| == DirSize
  {
    var s20 := if s[20] & 0xffff == 0 then FlipWords(s, 20, 20) else s;
    FlipWords(FlipWords(FlipWords(FlipWords(s20, 21, 23), 32, 50), 53, 55), 57, 63)
  }

  /** The version word reads right either as it is or flipped. */
  predicate Accepted(s: seq<Word>)
    requires |s| == DirSize
  {
    s[VersionWord] == VersionNumber || Flip(s[VersionWord]) == VersionNumber
  }

  /**
   * The block as the constructor leaves it, whether it succeeds or not: a
   * block whose version word reads right is untouched; otherwise words 0-19
   * are flipped and, if the version word then reads right, the rest of the
   * numeric words too.
   */
  function Normalize(s: seq<Word>): (r: seq<Word>)
    requires |s| == DirSize
    ensures |r| == DirSize
  {
    if s[VersionWord] == VersionNumber then s
    else
      var s1 := FlipWords(s, 0, 19);
      if s1[VersionWord] != VersionNumber then s1 else FlipNumeric(s1)
  }

  /** The positions the constructor flips in a block that needs it; w20 is word 20 as read. */
  predicate NumericWord(k: int, w20: Word) {
    0 <= k <= 19 || (k == 20 && w20 & 0xffff == 0) || 21 <= k <= 23
    || 32 <= k <= 50 || 53 <= k <= 55 || 57 <= k <= 63
  }

  /** Words 24-31 (memo), 51-52 (calibration) and 56 (source type) hold characters. */
  predicate CharacterWord(k: int) {
    24 <= k <= 31 || k == 51 || k == 52 || k == 56
  }

  /** The words past 19 that FlipNumeric flips. */
  predicate NumericTail(k: int, w20: Word) {
    (k == 20 && w20 & 0xffff == 0) || 21 <= k <= 23 || 32 <= k <= 50 || 53 <= k <= 55 || 57 <= k <= 63
  }

  lemma FlipNumericWords(s: seq<Word>)
    requires |s| == DirSize
    ensures forall k :: 0 <= k < DirSize ==>
      FlipNumeric(s)[k] == if NumericTail(k, s[20]) then Flip(s[k]) else s[k]
  {
    var s20 := if s[20] & 0xffff == 0 then FlipWords(s, 20, 20) else s;
    var t1 := FlipWords(s20, 21, 23);
    var t2 := FlipWords(t1, 32, 50);
    var t3 := FlipWords(t2, 53, 55);
    var t4 := FlipWords(t3, 57, 63);
    assert t4 == FlipNumeric(s);
    forall k | 0 <= k < DirSize
      ensures t4[k] == if NumericTail(k, s[20]) then Flip(s[k]) else s[k]
    {
      assert s20[k] == if k == 20 && s[20] & 0xffff == 0 then Flip(s[k]) else s[k];
    }
  }

  /** A block in the other byte order has exactly its numeric words flipped. */
  lemma NormalizeWords(s: seq<Word>)
    requires |s| == DirSize
    requires s[VersionWord] != VersionNumber && Flip(s[VersionWord]) == VersionNumber
    ensures forall k :: 0 <= k < DirSize ==>
      Normalize(s)[k] == if NumericWord(k, s[20]) then Flip(s[k]) else s[k]
  {
    var s1 := FlipWords(s, 0, 19);
    assert s1[VersionWord] == VersionNumber;
    assert Normalize(s) == FlipNumeric(s1);
    FlipNumericWords(s1);
    assert s1[20] == s[20];
    forall k | 0 <= k < DirSize
      ensures Normalize(s)[k] == if NumericWord(k, s[20]) then Flip(s[k]) else s[k]
    {
      assert NumericWord(k, s[20]) <==> 0 <= k <= 19 || NumericTail(k, s1[20]);
    }
  }

  /** The character words are never flipped, whatever the block holds. */
  lemma CharacterWordsKept(s: seq<Word>, k: nat)
    requires |s| == DirSize && k < DirSize && CharacterWord(k)
    ensures Normalize(s)[k] == s[k]
  {
    if s[VersionWord] != VersionNumber && Flip(s[VersionWord]) == VersionNumber {
      NormalizeWords(s);
    }
  }

  /** An accepted block comes out with its version word right. */
  lemma NormalizedVersion(s: seq<Word>)
    requires |s| == DirSize && Accepted(s)
    ensures Normalize(s)[VersionWord] == VersionNumber
  {
    if s[VersionWord] != VersionNumber {
      NormalizeWords(s);
    }
  }

  /**
   * Normalizing is idempotent on accepted blocks: a block the constructor
   * has already flipped in place is accepted again and left as it is.
   */
  lemma NormalizeIdempotent(s: seq<Word>)
    requires |s| == DirSize && Accepted(s)
    ensures Accepted(Normalize(s))
    ensures Normalize(Normalize(s)) == Normalize(s)
  {
    NormalizedVersion(s);
  }

  /** Word 20 holds a small number (its high half is zero) rather than characters. */
  predicate SmallNumber(w: Word) {
    w < 0x1_0000
  }

  /**
   * A native block as a machine of the other byte order writes it: every
   * numeric word with its bytes reversed, word 20 only when it is a small
   * number, the character words as they are.
   */
  function ForeignOrder(b: seq<Word>): (r: seq<Word>)
    requires |b| == DirSize
    ensures |r| == DirSize
  {
    seq(DirSize, k requires 0 <= k < DirSize =>
      if NumericWord(k, 0) && (k != 20 || SmallNumber(b[20])) then Flip(b[k]) else b[k])
  }

  lemma SmallNumberFlipped(w: Word)
    requires SmallNumber(w)
    ensures Flip(w) & 0xffff == 0
  {
  }

  /**
   * Reading a native block written in the other byte order gives the native
   * block back, unless word 20 holds characters whose low half is zero (the
   * constructor cannot tell those from a flipped small number).
   */
  lemma ReadsForeignOrder(b: seq<Word>)
    requires |b| == DirSize && b[VersionWord] == VersionNumber
    requires SmallNumber(b[20]) || b[20] & 0xffff != 0
    ensures Normalize(ForeignOrder(b)) == b
  {
    var f := ForeignOrder(b);
    ForeignHeader(b);
    NormalizeWords(f);
    forall k | 0 <= k < DirSize
      ensures Normalize(f)[k] == b[k]
    {
      if NumericWord(k, f[20]) {
        assert f[k] == Flip(b[k]);
        FlipFlip(b[k]);
      } else {
        assert f[k] == b[k];
      }
    }
    assert |Normalize(f)| == |b|;
  }

  /** The version word and word 20 of a block in the other byte order read as the constructor expects. */
  lemma ForeignHeader(b: seq<Word>)
    requires |b| == DirSize && b[VersionWord] == VersionNumber
    requires SmallNumber(b[20]) || b[20] & 0xffff != 0
    ensures ForeignOrder(b)[VersionWord] != VersionNumber
    ensures Flip(ForeignOrder(b)[VersionWord]) == VersionNumber
    ensures forall k :: 0 <= k < DirSize ==>
      (NumericWord(k, ForeignOrder(b)[20]) <==> NumericWord(k, 0) && (k != 20 || SmallNumber(b[20])))
  {
    var f := ForeignOrder(b);
    VersionNotPalindrome();
    FlipFlip(VersionNumber);
    assert f[VersionWord] == Flip(VersionNumber);
    if SmallNumber(b[20]) {
      SmallNumberFlipped(b[20]);
      assert f[20] & 0xffff == 0;
    } else {
      assert f[20] == b[20];
    }
  }

  // ---------------------------------------------------------------------
  // Band list.

  /** The band-mask test of the constructor: `((1 << i) & mask) == (1 << i)`. */
  predicate BitSet(mask: Word, i: nat)
    requires i < 32
  {
    ((1 as Word) << i) & mask == (1 as Word) << i
  }

  /** The set bits among bits 0..i-1 of mask, ascending, each as its position plus offset. */
  function SetBits(mask: Word, i: nat, offset: int): seq<int>
    requires i <= 32
  {
    if i == 0 then [] else SetBits(mask, i - 1, offset) + (if BitSet(mask, i - 1) then [i - 1 + offset] else [])
  }

  function Zeros(n: nat): (r: seq<int>)
    ensures |r| == n && forall k :: 0 <= k < n ==> r[k] == 0
  {
    seq(n, _ => 0)
  }

  /**
   * The `bands` array the constructor builds from a normalized block: its
   * length is the band-count word; it lists the 1-based positions of the set
   * bits of the band map, then (only with more than 32 bands) 33-64 from the
   * next word, and is 0 in the slots left over.
   */
  function BandList(s: seq<Word>): Result<seq<int>, AreaError>
    requires |s| == DirSize
  {
    var n := Signed(s[BandCountWord]);
    if n < 0 then Err(NegativeBandCount(n))
    else BandSlots(s[BandMapWord], s[BandMapWord + 1], n)
  }

  /** The bands the two maps name for a count of n: the first map, then the second one past 32 bands. */
  function FoundBands(map0: Word, map1: Word, n: int): seq<int> {
    SetBits(map0, 32, 1) + (if n > 32 then SetBits(map1, 32, 33) else [])
  }

  /** n slots holding the bands found, then zeros; an error when they do not fit. */
  function BandSlots(map0: Word, map1: Word, n: nat): Result<seq<int>, AreaError> {
    var found := FoundBands(map0, map1, n);
    if |found| > n then Err(TooManyBands) else Ok(found + Zeros(n - |found|))
  }

  lemma {:induction false} SetBitsMembers(mask: Word, i: nat, offset: int)
    requires i <= 32
    ensures forall x :: x in SetBits(mask, i, offset) <==> offset <= x < offset + i && BitSet(mask, x - offset)
  {
    if i > 0 {
      SetBitsMembers(mask, i - 1, offset);
    }
  }

  lemma {:induction false} SetBitsAscending(mask: Word, i: nat, offset: int)
    requires i <= 32
    ensures forall a, b :: 0 <= a < b < |SetBits(mask, i, offset)| ==>
      SetBits(mask, i, offset)[a] < SetBits(mask, i, offset)[b]
    ensures forall a :: 0 <= a < |SetBits(mask, i, offset)| ==>
      offset <= SetBits(mask, i, offset)[a] < offset + i
  {
    if i > 0 {
      SetBitsAscending(mask, i - 1, offset);
    }
  }

  lemma {:induction false} SetBitsGrow(mask: Word, i: nat, k: nat, offset: int)
    requires i <= k <= 32
    ensures |SetBits(mask, i, offset)| <= |SetBits(mask, k, offset)|
    decreases k
  {
    if i < k {
      SetBitsGrow(mask, i, k - 1, offset);
    }
  }

  lemma FoundBandsMembers(map0: Word, map1: Word, n: int)
    ensures forall band :: 1 <= band <= 32 ==> (band in FoundBands(map0, map1, n) <==> BitSet(map0, band - 1))
    ensures forall band :: 33 <= band <= 64 ==>
      (band in FoundBands(map0, map1, n) <==> n > 32 && BitSet(map1, band - 33))
    ensures forall band :: band in FoundBands(map0, map1, n) ==> 1 <= band <= 64
  {
    SetBitsMembers(map0, 32, 1);
    SetBitsMembers(map1, 32, 33);
  }

  /** The band list has as many slots as the band-count word says. */
  lemma BandListLength(s: seq<Word>)
    requires |s| == DirSize && BandList(s).Ok?
    ensures |BandList(s).value| == Signed(s[BandCountWord])
  {
  }

  /**
   * A band appears in the list exactly when its bit is set in the band map
   * (bands 1-32) or, for a directory of more than 32 bands, in the next word
   * (bands 33-64); every other slot is zero.
   */
  lemma BandListMembers(s: seq<Word>)
    requires |s| == DirSize && BandList(s).Ok?
    ensures forall band :: 1 <= band <= 32 ==>
      (band in BandList(s).value <==> BitSet(s[BandMapWord], band - 1))
    ensures forall band :: 33 <= band <= 64 ==>
      (band in BandList(s).value <==> Signed(s[BandCountWord]) > 32 && BitSet(s[BandMapWord + 1], band - 33))
    ensures forall band :: band in BandList(s).value ==> band == 0 || 1 <= band <= 64
  {
    forall band | 1 <= band <= 32 {
      BandListLow(s, band);
    }
    forall band | 33 <= band <= 64 {
      BandListHigh(s, band);
    }
    forall band | band in BandList(s).value && band != 0 {
      BandListRange(s, band);
    }
  }

  /** A band of 1-32 is listed exactly when its bit is set in the first band-map word. */
  lemma BandListLow(s: seq<Word>, band: int)
    requires |s| == DirSize && BandList(s).Ok? && 1 <= band <= 32
    ensures band in BandList(s).value <==> BitSet(s[BandMapWord], band - 1)
  {
    var n := Signed(s[BandCountWord]);
    var found := FoundBands(s[BandMapWord], s[BandMapWord + 1], n);
    assert BandList(s).value == found + Zeros(n - |found|);
    PaddedMember(found, n - |found|, band);
    FoundBand(s[BandMapWord], s[BandMapWord + 1], n, band);
  }

  /** A band of 33-64 is listed exactly when there are more than 32 bands and its bit is set in the second word. */
  lemma BandListHigh(s: seq<Word>, band: int)
    requires |s| == DirSize && BandList(s).Ok? && 33 <= band <= 64
    ensures band in BandList(s).value <==> Signed(s[BandCountWord]) > 32 && BitSet(s[BandMapWord + 1], band - 33)
  {
    var n := Signed(s[BandCountWord]);
    var found := FoundBands(s[BandMapWord], s[BandMapWord + 1], n);
    assert BandList(s).value == found + Zeros(n - |found|);
    PaddedMember(found, n - |found|, band);
    FoundBand(s[BandMapWord], s[BandMapWord + 1], n, band);
  }

  lemma BandListRange(s: seq<Word>, band: int)
    requires |s| == DirSize && BandList(s).Ok? && band in BandList(s).value && band != 0
    ensures 1 <= band <= 64
  {
    var n := Signed(s[BandCountWord]);
    var found := FoundBands(s[BandMapWord], s[BandMapWord + 1], n);
    assert BandList(s).value == found + Zeros(n - |found|);
    PaddedMember(found, n - |found|, band);
    FoundBandsMembers(s[BandMapWord], s[BandMapWord + 1], n);
  }

  /** One band number against the two band-map words. */
  lemma FoundBand(map0: Word, map1: Word, n: int, band: int)
    requires 1 <= band <= 64
    ensures band <= 32 ==> (band in FoundBands(map0, map1, n) <==> BitSet(map0, band - 1))
    ensures band > 32 ==> (band in FoundBands(map0, map1, n) <==> n > 32 && BitSet(map1, band - 33))
  {
    FoundBandsMembers(map0, map1, n);
  }

  lemma PaddedMember(found: seq<int>, pad: nat, x: int)
    requires x != 0
    ensures x in found + Zeros(pad) <==> x in found
  {
    assert x !in Zeros(pad);
  }

  lemma FoundBandsAscending(map0: Word, map1: Word, n: int)
    ensures forall a, b :: 0 <= a < b < |FoundBands(map0, map1, n)| ==>
      0 < FoundBands(map0, map1, n)[a] < FoundBands(map0, map1, n)[b]
  {
    var low := SetBits(map0, 32, 1);
    var high := if n > 32 then SetBits(map1, 32, 33) else [];
    SetBitsAscending(map0, 32, 1);
    SetBitsAscending(map1, 32, 33);
    var found := low + high;
    assert FoundBands(map0, map1, n) == found;
    forall a, b | 0 <= a < b < |found|
      ensures 0 < found[a] < found[b]
    {
      if b < |low| {
      } else if a < |low| {
        assert found[a] == low[a] && found[b] == high[b - |low|];
      } else {
        assert found[a] == high[a - |low|] && found[b] == high[b - |low|];
      }
    }
  }

  /** The set bits, ascending, then zeros: a band list is sorted up to its padding. */
  lemma BandListAscending(s: seq<Word>)
    requires |s| == DirSize && BandList(s).Ok?
    ensures forall a, b :: 0 <= a < b < |BandList(s).value| && BandList(s).value[b] != 0 ==>
      0 < BandList(s).value[a] < BandList(s).value[b]
  {
    var n := Signed(s[BandCountWord]);
    var found := FoundBands(s[BandMapWord], s[BandMapWord + 1], n);
    var bs := found + Zeros(n - |found|);
    assert BandList(s).value == bs;
    FoundBandsAscending(s[BandMapWord], s[BandMapWord + 1], n);
    forall a, b | 0 <= a < b < |bs| && bs[b] != 0
      ensures 0 < bs[a] < bs[b]
    {
      assert b < |found|;
      assert bs[a] == found[a] && bs[b] == found[b];
    }
  }

  /** Bits at positions i..k-1 that are all clear add nothing to the list. */
  lemma {:induction false} ClearBitsAbove(mask: Word, i: nat, k: nat, offset: int)
    requires i <= k <= 32
    requires forall b :: i <= b < k ==> !BitSet(mask, b)
    ensures SetBits(mask, k, offset) == SetBits(mask, i, offset)
    decreases k
  {
    if i < k {
      ClearBitsAbove(mask, i, k - 1, offset);
    }
  }

  lemma BandsOfEleven()
    ensures SetBits(0xb, 32, 1) == [1, 2, 4]
  {
    var m: Word := 0xb;
    assert BitSet(m, 0) && BitSet(m, 1) && !BitSet(m, 2) && BitSet(m, 3);
    assert SetBits(m, 4, 1) == [1, 2, 4];
    forall b | 4 <= b < 32
      ensures !BitSet(m, b)
    {
      assert (1 as Word) << b >= 16;
    }
    ClearBitsAbove(m, 4, 32, 1);
  }

  /** A directory of three bands whose map has bits 0, 1 and 3 set lists bands 1, 2 and 4. */
  lemma ThreeBands(s: seq<Word>)
    requires |s| == DirSize && s[BandCountWord] == 3 && s[BandMapWord] == 0xb
    ensures BandList(s) == Ok([1, 2, 4])
  {
    BandsOfEleven();
    assert Signed(s[BandCountWord]) == 3;
    assert SetBits(s[BandMapWord], 32, 1) + [] + Zeros(0) == [1, 2, 4];
  }

  /** The same map with a band count of two overflows the band array. */
  lemma TwoBandsOverflow(s: seq<Word>)
    requires |s| == DirSize && s[BandCountWord] == 2 && s[BandMapWord] == 0xb
    ensures BandList(s) == Err(TooManyBands)
  {
    BandsOfEleven();
    assert Signed(s[BandCountWord]) == 2;
  }

  // ---------------------------------------------------------------------
  // Times.

  /**
   * A McIDAS day (yyddd) and time (hhmmss) pair; the constructor turns it
   * into a Date through McIDASUtil.mcDayTimeToSecs, which is not part of
   * this model.
   */
  datatype DayTime = DayTime(day: int, time: int)

  function NominalTime(s: seq<Word>): DayTime
    requires |s| == DirSize
  {
    DayTime(Signed(s[ImageDateWord]), Signed(s[ImageTimeWord]))
  }

  /** The start time: the nominal time when the start-date and start-time words are both zero. */
  function StartTime(s: seq<Word>): (t: DayTime)
    requires |s| == DirSize
    ensures s[StartDateWord] == 0 && s[StartTimeWord] == 0 ==> t == NominalTime(s)
    ensures s[StartDateWord] != 0 || s[StartTimeWord] != 0 ==>
      t == DayTime(Signed(s[StartDateWord]), Signed(s[StartTimeWord]))
  {
    if s[StartDateWord] == 0 && s[StartTimeWord] == 0 then NominalTime(s)
    else DayTime(Signed(s[StartDateWord]), Signed(s[StartTimeWord]))
  }

  // ---------------------------------------------------------------------
  // The in-place steps of the constructor.

  /** McIDASUtil.flip(a, lo, hi): reverses the bytes of a[lo..hi], in place. */
  method FlipRange(a: array<Word>, lo: nat, hi: nat)
    requires lo <= hi < a.Length
    modifies a
    ensures a[..] == FlipWords(old(a[..]), lo, hi)
  {
    var k := lo;
    while k <= hi
      invariant lo <= k <= hi + 1
      invariant forall m :: 0 <= m < a.Length ==> a[m] == if lo <= m < k then Flip(old(a[m])) else old(a[m])
    {
      a[k] := Flip(a[k]);
      k := k + 1;
    }
  }

  /** Storing x just after the bands placed so far appends it to them. */
  lemma PlaceBand(whole: seq<int>, j0: nat, placed: seq<int>, j: nat, x: int)
    requires j0 <= j < |whole| && j == j0 + |placed|
    ensures (whole[..j0] + placed + whole[j..])[j := x] == whole[..j0] + (placed + [x]) + whole[j + 1..]
  {
  }

  /**
   * One band-mask loop of the constructor: for i = 0..31, when bit i of mask
   * is set, `bands[j] = i + offset; j++`. It fails (the Java array store
   * throws) exactly when the set bits do not fit after position j0.
   */
  method FillBands(bands: array<int>, mask: Word, offset: int, j0: nat) returns (j: nat, overflow: bool)
    requires j0 <= bands.Length
    modifies bands
    ensures overflow <==> j0 + |SetBits(mask, 32, offset)| > bands.Length
    ensures !overflow ==> j == j0 + |SetBits(mask, 32, offset)|
    ensures !overflow ==> bands[..] == old(bands[..j0]) + SetBits(mask, 32, offset) + old(bands[j..])
  {
    ghost var initial := bands[..];
    j := j0;
    var i := 0;
    while i < 32
      invariant 0 <= i <= 32
      invariant j == j0 + |SetBits(mask, i, offset)| <= bands.Length
      invariant bands[..] == initial[..j0] + SetBits(mask, i, offset) + initial[j..]
    {
      var hit := BitSet(mask, i);
      assert SetBits(mask, i + 1, offset) == SetBits(mask, i, offset) + (if hit then [i + offset] else []);
      if hit {
        if j == bands.Length {
          SetBitsGrow(mask, i + 1, 32, offset);
          return j, true;
        }
        PlaceBand(initial, j0, SetBits(mask, i, offset), j, i + offset);
        ghost var before := bands[..];
        bands[j] := i + offset;
        assert bands[..] == before[j := i + offset];
        j := j + 1;
      }
      if j > bands.Length {
        break;
      }
      i := i + 1;
    }
    overflow := false;
  }

  /**
   * The flipping half of the constructor: leaves the block as Normalize says
   * and reports whether the version word then reads right.
   */
  method NormalizeInPlace(block: array<Word>) returns (accepted: bool)
    requires block.Length == DirSize
    modifies block
    ensures accepted <==> Accepted(old(block[..]))
    ensures block[..] == Normalize(old(block[..]))
  {
    if block[VersionWord] == VersionNumber {
      return true;
    }
    FlipRange(block, 0, 19);
    if block[VersionWord] != VersionNumber {
      return false;
    }
    ghost var s1 := block[..];
    if block[20] & 0xffff == 0 {
      FlipRange(block, 20, 20);
    }
    assert block[..] == if s1[20] & 0xffff == 0 then FlipWords(s1, 20, 20) else s1;
    FlipRange(block, 21, 23);
    FlipRange(block, 32, 50);
    FlipRange(block, 53, 55);
    FlipRange(block, 57, 63);
    accepted := true;
  }

  /**
   * The two band-mask loops of the constructor, on a fresh zeroed array:
   * they fill it as BandSlots says, or overflow it.
   */
  method FillAllBands(bands: array<int>, map0: Word, map1: Word) returns (overflow: bool)
    requires bands[..] == Zeros(bands.Length)
    modifies bands
    ensures overflow <==> BandSlots(map0, map1, bands.Length).Err?
    ensures !overflow ==> bands[..] == BandSlots(map0, map1, bands.Length).value
  {
    var n := bands.Length;
    ghost var low := SetBits(map0, 32, 1);
    var j;
    j, overflow := FillBands(bands, map0, 1, 0);
    if overflow {
      return;
    }
    assert bands[..] == low + Zeros(n - j);
    if n > 32 {
      j, overflow := FillBands(bands, map1, 33, j);
      if overflow {
        return;
      }
      assert bands[..] == low + SetBits(map1, 32, 33) + Zeros(n - j);
    } else {
      assert bands[..] == low + [] + Zeros(n - j);
    }
  }

  /**
   * The band half of the constructor: a fresh array of the band-count
   * length, filled from the band map (and the next word when there are more
   * than 32 bands), or the error the Java code runs into.
   */
  method DecodeBands(block: array<Word>) returns (r: Result<array<int>, AreaError>)
    requires block.Length == DirSize
    ensures match BandList(block[..])
      case Err(e) => r == Err(e)
      case Ok(bs) => r.Ok? && fresh(r.value) && r.value[..] == bs
  {
    var numbands := Signed(block[BandCountWord]);
    if numbands < 0 {
      return Err(NegativeBandCount(numbands));
    }
    var bands := new int[numbands](_ => 0);
    assert bands[..] == Zeros(numbands);
    var overflow := FillAllBands(bands, block[BandMapWord], block[BandMapWord + 1]);
    if overflow {
      return Err(TooManyBands);
    }
    r := Ok(bands);
  }

  // ---------------------------------------------------------------------
  // The directory object.

  class AreaDirectory {
    /** The directory words: the very array the object was built from. */
    const dir: array<Word>
    const bands: array<int>
    const nominalTime: DayTime
    const startTime: DayTime

    /** What the constructor establishes; it holds as long as nobody writes to the shared block. */
    ghost predicate Valid()
      reads this, dir, bands
    {
      dir.Length == DirSize && dir[VersionWord] == VersionNumber
      && BandList(dir[..]) == Ok(bands[..])
      && nominalTime == NominalTime(dir[..]) && startTime == StartTime(dir[..])
    }

    constructor Assemble(dir: array<Word>, bands: array<int>, nominalTime: DayTime, startTime: DayTime)
      ensures this.dir == dir && this.bands == bands
      ensures this.nominalTime == nominalTime && this.startTime == startTime
    {
      this.dir := dir;
      this.bands := bands;
      this.nominalTime := nominalTime;
      this.startTime := startTime;
    }

    /**
     * `new AreaDirectory(int[] dirblock)`: checks the size, byte-flips the
     * caller's block in place when its version word reads wrong (leaving it
     * flipped even when the version check then fails), and builds the object
     * around that same array.
     */
    static method FromBlock(block: array<Word>) returns (r: Result<AreaDirectory, AreaError>)
      modifies block
      ensures block.Length != DirSize ==> r == Err(WrongSize) && unchanged(block)
      ensures block.Length == DirSize ==> block[..] == Normalize(old(block[..]))
      ensures block.Length == DirSize && !Accepted(old(block[..])) ==> r == Err(InvalidVersion)
      ensures block.Length == DirSize && Accepted(old(block[..])) ==>
        match BandList(block[..])
        case Err(e) => r == Err(e)
        case Ok(_) => r.Ok? && r.value.dir == block && r.value.Valid() && fresh(r.value) && fresh(r.value.bands)
    {
      if block.Length != DirSize {
        return Err(WrongSize);
      }
      var accepted := NormalizeInPlace(block);
      if !accepted {
        return Err(InvalidVersion);
      }
      NormalizedVersion(old(block[..]));
      var nominal := DayTime(Signed(block[ImageDateWord]), Signed(block[ImageTimeWord]));
      var start := if block[StartDateWord] == 0 && block[StartTimeWord] == 0 then nominal
        else DayTime(Signed(block[StartDateWord]), Signed(block[StartTimeWord]));
      var decoded := DecodeBands(block);
      if decoded.Err? {
        return Err(decoded.error);
      }
      var d := new AreaDirectory.Assemble(block, decoded.value, nominal, start);
      r := Ok(d);
    }

    /**
     * `new AreaDirectory(AreaDirectory directory)`: runs the block constructor
     * on the other object's own block, with all of that constructor's
     * outcomes. A valid directory's block is already normalized, so it is
     * accepted again, left as it is, and the copy shares it and agrees with
     * the original.
     */
    static method Copy(directory: AreaDirectory) returns (r: Result<AreaDirectory, AreaError>)
      modifies directory.dir
      ensures directory.dir.Length != DirSize ==> r == Err(WrongSize) && unchanged(directory.dir)
      ensures directory.dir.Length == DirSize ==> directory.dir[..] == Normalize(old(directory.dir[..]))
      ensures directory.dir.Length == DirSize && !Accepted(old(directory.dir[..])) ==> r == Err(InvalidVersion)
      ensures directory.dir.Length == DirSize && Accepted(old(directory.dir[..])) ==>
        match BandList(directory.dir[..])
        case Err(e) => r == Err(e)
        case Ok(_) =>
          r.Ok? && r.value.dir == directory.dir && r.value.Valid() && fresh(r.value) && fresh(r.value.bands)
      ensures old(directory.Valid()) ==> directory.dir[..] == old(directory.dir[..])
      ensures old(directory.Valid()) ==> r.Ok? && r.value.dir == directory.dir && r.value.Valid()
      ensures old(directory.Valid()) ==> r.value.bands[..] == directory.bands[..]
      ensures old(directory.Valid()) ==>
        r.value.nominalTime == directory.nominalTime && r.value.startTime == directory.startTime
    {
      ghost var valid := directory.Valid();
      ghost var before := directory.dir[..];
      if valid {
        assert Accepted(before);
        NormalizeIdempotent(before);
        assert Normalize(before) == before;
      }
      var block := directory.DirectoryBlock();
      r := FromBlock(block);
      if valid {
        assert block[..] == before;
      }
    }

    /** getDirectoryBlock: the directory array itself, not a copy. */
    function DirectoryBlock(): (a: array<Word>)
      reads this
      ensures a == dir
    {
      dir
    }

    /**
     * getValue, with the bound the method evidently intends: the word at
     * pointer, or an "Invalid pointer" error for a pointer outside the
     * directory.
     */
    function Value(pointer: int): (r: Result<int, AreaError>)
      reads this, dir
      requires dir.Length == DirSize
      ensures 0 <= pointer < DirSize ==> r == Ok(Signed(dir[pointer]))
      ensures pointer < 0 || pointer >= DirSize ==> r == Err(InvalidPointer(pointer))
    {
      if pointer < 0 || pointer >= DirSize then Err(InvalidPointer(pointer)) else Ok(Signed(dir[pointer]))
    }

    /**
     * getValue as written: its guard rejects only pointer > AD_DIRSIZE, so
     * pointer == AD_DIRSIZE reaches the array access, which fails.
     */
    function ValueAsWritten(pointer: int): (r: Result<int, AreaError>)
      reads this, dir
      requires dir.Length == DirSize
      ensures r == Err(InvalidPointer(pointer)) <==> pointer < 0 || pointer > DirSize
      ensures 0 <= pointer < DirSize ==> r == Ok(Signed(dir[pointer]))
      ensures pointer == DirSize ==> r == Err(PointerOutOfBounds(DirSize))
      ensures r.Ok? ==> 0 <= pointer < DirSize && r.value == Signed(dir[pointer])
    {
      if pointer < 0 || pointer > DirSize then Err(InvalidPointer(pointer))
      else if pointer >= dir.Length then Err(PointerOutOfBounds(pointer))
      else Ok(Signed(dir[pointer]))
    }

    /** getNumberOfBands: the band-count word, which is also the length of the band list. */
    function NumberOfBands(): (n: int)
      reads this, dir, bands
      requires Valid()
      ensures n == Signed(dir[BandCountWord]) && n == bands.Length
    {
      BandListLength(dir[..]);
      Signed(dir[BandCountWord])
    }

    /** getLines: the number-of-lines word. */
    function Lines(): (n: int)
      reads this, dir
      requires dir.Length == DirSize
      ensures n == Signed(dir[LinesWord])
    {
      Signed(dir[LinesWord])
    }

    /** getElements: the number-of-elements word. */
    function Elements(): (n: int)
      reads this, dir
      requires dir.Length == DirSize
      ensures n == Signed(dir[ElementsWord])
    {
      Signed(dir[ElementsWord])
    }

    /** getNominalTime: the image date and time words. */
    function GetNominalTime(): (t: DayTime)
      reads this, dir, bands
      requires Valid()
      ensures t == DayTime(Signed(dir[ImageDateWord]), Signed(dir[ImageTimeWord]))
    {
      nominalTime
    }

    /** getStartTime: the start date and time words, or the nominal time when both are zero. */
    function GetStartTime(): (t: DayTime)
      reads this, dir, bands
      requires Valid()
      ensures dir[StartDateWord] == 0 && dir[StartTimeWord] == 0 ==> t == GetNominalTime()
      ensures dir[StartDateWord] != 0 || dir[StartTimeWord] != 0 ==>
        t == DayTime(Signed(dir[StartDateWord]), Signed(dir[StartTimeWord]))
    {
      startTime
    }

    /** getBands: the band array itself. */
    function GetBands(): (a: array<int>)
      reads this, dir, bands
      requires Valid()
      ensures a == bands && BandList(dir[..]) == Ok(a[..])
    {
      bands
    }
  }

  /** The guard as written lets the pointer one past the last word through, and the read then fails. */
  lemma DirSizePassesGuard(d: AreaDirectory)
    requires d.dir.Length == DirSize
    ensures d.ValueAsWritten(DirSize) == Err(PointerOutOfBounds(DirSize))
    ensures d.Value(DirSize) == Err(InvalidPointer(DirSize))
  {
  }
}
