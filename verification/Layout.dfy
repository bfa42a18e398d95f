/** The memory layout of a legacy virtqueue: src/virtio/virtq.c:39-80 and 146-170, section 2.7.2 of VIRTIO 1.2. */
module Layout {
  import opened Words
  import opened Wire

  // ----- Bit masks on machine words, as arithmetic -----

  /** The number of values of a `w`-bit word. */
  function TwoTo(w: nat): nat {
    if w == 0 then 1 else 2 * TwoTo(w - 1)
  }

  /** Bitwise and. */
  function And(x: nat, y: nat): nat {
    if x == 0 || y == 0 then 0
    else 2 * And(x / 2, y / 2) + (if x % 2 == 1 && y % 2 == 1 then 1 else 0)
  }

  const BITS: nat := 64
  const SIZE_T: nat := 0x1_0000_0000_0000_0000

  /** Complement of a size_t. */
  function Not(x: nat): nat
    requires x < SIZE_T
  {
    SIZE_T - 1 - x
  }

  /** The ALIGN macro on size_t: `(size + (a - 1)) & ~(a - 1)`, wrapping as C does. */
  function Align(size: nat, a: nat): nat {
    And((size + (a + SIZE_T - 1)) % SIZE_T, Not((a + SIZE_T - 1) % SIZE_T))
  }

  /** And with all ones. */
  lemma {:induction false} AndOnes(x: nat, w: nat)
    requires x < TwoTo(w)
    ensures And(x, TwoTo(w) - 1) == x
  {
    if x != 0 {
      AndOnes(x / 2, w - 1);
      assert TwoTo(w) - 1 == 2 * (TwoTo(w - 1) - 1) + 1;
    }
  }

  lemma AndZero(x: nat, y: nat)
    ensures x == 0 || y == 0 ==> And(x, y) == 0
  {
  }

  lemma AndEven(x: nat, y: nat)
    ensures And(x, 2 * y) == 2 * And(x / 2, y)
  {
    assert 2 * y / 2 == y && 2 * y % 2 == 0;
    AndZero(x / 2, y);
  }

  /** Masking with `~(a - 1)` drops the remainder by `a` exactly because `a` is a power of two. */
  lemma {:induction false} AndMask(x: nat, a: nat, w: nat)
    requires x < TwoTo(w) && IsPow2(a) && a <= TwoTo(w)
    ensures And(x, TwoTo(w) - a) == x - x % a
    decreases a
  {
    if a == 1 {
      AndOnes(x, w);
    } else {
      var b, y := a / 2, TwoTo(w - 1) - a / 2;
      assert a == 2 * b && TwoTo(w) - a == 2 * y;
      AndMask(x / 2, b, w - 1);
      AndEven(x, y);
      HalvesRemainder(x, b);
    }
  }

  lemma HalvesRemainder(x: nat, b: nat)
    requires b > 0
    ensures x % (2 * b) == 2 * (x / 2 % b) + x % 2
  {
    var q, r := x / 2 / b, x / 2 % b;
    assert x / 2 == b * q + r;
    MulAssoc(2, b, q);
    DivModUnique(x, 2 * b, q, 2 * r + x % 2);
  }

  lemma SizeTBits()
    ensures TwoTo(BITS) == SIZE_T
  {
    DoubleTwoTo(32);
    DoubleTwoTo(16);
    DoubleTwoTo(8);
    assert TwoTo(8) == 256;
  }

  lemma {:induction false} AddTwoTo(a: nat, b: nat)
    ensures TwoTo(a + b) == TwoTo(a) * TwoTo(b)
  {
    if a > 0 {
      AddTwoTo(a - 1, b);
      MulAssoc(2, TwoTo(a - 1), TwoTo(b));
    }
  }

  lemma DoubleTwoTo(w: nat)
    ensures TwoTo(2 * w) == TwoTo(w) * TwoTo(w)
  {
    AddTwoTo(w, w);
  }

  lemma AlignValue(size: nat, a: nat)
    requires IsPow2(a) && size + a <= SIZE_T
    ensures Align(size, a) == size + a - 1 - (size + a - 1) % a
  {
    hide And;
    SizeTBits();
    AndMask(size + a - 1, a, BITS);
    WrapsOnce(size + a - 1);
    WrapsOnce(a - 1);
  }

  lemma WrapsOnce(x: nat)
    requires x < SIZE_T
    ensures (x + SIZE_T) % SIZE_T == x
  {
  }

  /** Dropping the remainder of `size + a - 1` rounds `size` up. */
  lemma RoundsUp(size: nat, a: nat, m: nat)
    requires a > 0
    ensures var r := size + a - 1 - (size + a - 1) % a;
            size <= r < size + a && r % a == 0 && (m >= size && m % a == 0 ==> m >= r)
  {
    var q, k := (size + a - 1) / a, m / a;
    assert size + a - 1 == a * q + (size + a - 1) % a;
    MulMod(a, q);
    if m >= size && m % a == 0 && k < q {
      assert m == a * k;
      MulGap(a, k, q);
    } else if m % a == 0 && k > q {
      assert m == a * k;
      MulGap(a, q, k);
    }
  }

  /** ALIGN is the least multiple of a power-of-two alignment that is not below its argument. */
  lemma AlignIsLeastMultiple(size: nat, a: nat)
    requires IsPow2(a) && size + a <= SIZE_T
    ensures size <= Align(size, a) < size + a && Align(size, a) % a == 0
    ensures forall m: nat :: m >= size && m % a == 0 ==> m >= Align(size, a)
  {
    hide Align;
    AlignValue(size, a);
    forall m: nat | m >= size && m % a == 0 ensures m >= Align(size, a) {
      RoundsUp(size, a, m);
    }
    RoundsUp(size, a, 0);
  }

  // ----- The three areas -----

  const DESC_SIZE: nat := 16
  const USED_ELEM_SIZE: nat := 8

  function DescMemSize(num: nat): nat {
    DESC_SIZE * num
  }

  /** flags, idx, the ring, used_event. */
  function AvailMemSize(num: nat): nat {
    4 + 2 * num + 2
  }

  /** flags, idx, the ring, avail_event. */
  function UsedMemSize(num: nat): nat {
    4 + USED_ELEM_SIZE * num + 2
  }

  /** The number of bytes mapped. The alignment parameter is a uint16_t, so the page size is cut to 16 bits. */
  function LegacyMemSize(num: nat, page: nat): nat {
    var a := page % WORD;
    Align(DescMemSize(num) + AvailMemSize(num), a) + Align(AvailMemSize(num), a)
  }

  /** Offsets from the start of the mapping. */
  datatype Areas = Areas(avail: nat, used: nat, mapped: nat)

  /** Where virtq_create_legacy places the areas. */
  function LegacyAreas(num: nat, page: nat): Areas {
    Areas(DescMemSize(num), Align(DescMemSize(num) + AvailMemSize(num), page), LegacyMemSize(num, page))
  }

  /** getpagesize() is a positive int and a power of two. */
  predicate PageOk(page: nat) {
    IsPow2(page) && page <= 0x4000_0000
  }

  /** The descriptor table, the available ring and the used ring do not overlap, and the used ring starts on
      the first page boundary after the available ring, as the standard asks. */
  lemma AreasDisjoint(num: nat, page: nat)
    requires num < WORD && PageOk(page)
    ensures var l := LegacyAreas(num, page);
            && 16 * num <= l.avail && l.avail % 16 == 0
            && l.avail + 2 * num + 6 <= l.used
            && l.used % page == 0
            && l.used < l.avail + 2 * num + 6 + page
    ensures var l := LegacyAreas(num, page);
            && (forall table: seq<RawDesc> :: |table| == num ==> |TableBytes(table)| <= l.avail)
            && (forall flags, idx, ring, event :: |ring| == num ==>
                  l.avail + |AvailBytes(flags, idx, ring, event)| <= l.used)
  {
    hide Align;
    var end := DescMemSize(num) + AvailMemSize(num);
    AlignIsLeastMultiple(end, page);
    MulMod(DESC_SIZE, num);
  }

  /** The sizes the code computes are those of the bytes the device expects. */
  lemma SizesOfAreas(table: seq<RawDesc>, ring: seq<u16>, used: seq<RawUsed>, flags: u16, idx: u16, event: u16)
    ensures DescMemSize(|table|) == |TableBytes(table)|
    ensures AvailMemSize(|ring|) == |AvailBytes(flags, idx, ring, event)|
    ensures UsedMemSize(|used|) == |UsedBytes(flags, idx, used, event)|
  {
  }

  /** The used ring lies within what was mapped. */
  predicate UsedFits(num: nat, page: nat) {
    LegacyAreas(num, page).used + UsedMemSize(num) <= LegacyAreas(num, page).mapped
  }

  lemma WholePage(page: nat)
    requires PageOk(page) && page >= WORD
    ensures page % WORD == 0
  {
    WordIsPow2();
    Pow2Divides(WORD, page);
  }

  /** Alignment 0, which is what a page size of 65536 or more becomes, makes every area 0 bytes long. */
  lemma AlignByZero(size: nat)
    ensures Align(size, 0) == 0
  {
    AndZero((size + SIZE_T - 1) % SIZE_T, 0);
  }

  /** The mapping sizes its tail from the available ring. The used ring fits exactly when that happens to be
      enough. With pages that do not fit the 16-bit alignment parameter the mapping asked for has no bytes at all. */
  lemma UsedFitsExact(num: nat, page: nat)
    requires num < WORD && PageOk(page)
    ensures UsedFits(num, page) <==> page < WORD && 8 * num + 6 <= Align(2 * num + 6, page)
    ensures LegacyAreas(num, page).mapped > 0 <==> page < WORD
  {
    hide Align;
    if page >= WORD {
      WholePage(page);
      AlignByZero(DescMemSize(num) + AvailMemSize(num));
      AlignByZero(AvailMemSize(num));
    } else {
      AlignIsLeastMultiple(AvailMemSize(num), page);
    }
  }

  lemma PageIsPow2()
    ensures PageOk(4096)
  {
    assert IsPow2(64);
    assert 4096 / 2 / 2 / 2 / 2 / 2 / 2 == 64;
    assert IsPow2(512);
    assert IsPow2(4096);
  }

  /** With 4096-byte pages the used ring fits exactly up to 511 entries, so among powers of two up to 256. */
  lemma UsedFitsAt4096(num: nat)
    requires num < WORD
    ensures UsedFits(num, 4096) <==> num <= 511
    ensures IsPow2(num) ==> (UsedFits(num, 4096) <==> num <= 256)
  {
    hide Align, UsedFits;
    PageIsPow2();
    UsedFitsExact(num, 4096);
    AlignIsLeastMultiple(2 * num + 6, 4096);
    if IsPow2(num) && 256 < num {
      NoPow2Between(num);
    }
  }

  lemma NoPow2Between(num: nat)
    requires IsPow2(num) && num > 256
    ensures num >= 512
  {
    assert IsPow2(num / 2);
    assert IsPow2(256) by { assert IsPow2(32); assert IsPow2(64); }
    if num < 512 {
      Pow2Divides(256, num);
    }
  }
}
