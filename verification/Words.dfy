/** Machine words, error codes, and the arithmetic of 16-bit free-running ring indices. */
module Words {

  datatype Option<+T> = None | Some(value: T)

  /** What the modelled functions return: an error code, or the bare -1 of a system call that is passed on as it is. */
  datatype Errno = EOK | EIO | ENOENT | ENOMEM | EINVAL | ENODEV | ETIMEDOUT | MinusOne | OsError(code: nat)

  const WORD: nat := 0x1_0000

  type u8 = x: nat | x < 0x100
  type u16 = x: nat | x < 0x1_0000

  /** `x++` on a uint16_t. */
  function Inc16(x: nat): u16 {
    (x + 1) % WORD
  }

  /** How far a 16-bit index `to` is ahead of `from`, on the circle of 16-bit words. */
  function Distance16(from: nat, to: nat): u16 {
    (to - from) % WORD
  }

  predicate IsPow2(n: nat) {
    n == 1 || (n > 1 && n % 2 == 0 && IsPow2(n / 2))
  }

  // ----- Division facts, kept apart so that no other proof meets a product of two variables -----

  lemma {:induction false} MulGap(n: nat, a: nat, b: nat)
    requires a < b
    ensures n * a + n <= n * b
    decreases b
  {
    MulNext(n, b - 1);
    if a < b - 1 {
      MulGap(n, a, b - 1);
    }
  }

  lemma MulNext(n: nat, b: nat)
    ensures n * (b + 1) == n * b + n
  {
  }

  lemma MulAdd(n: nat, a: nat, b: nat)
    ensures n * a + n * b == n * (a + b)
  {
  }

  lemma MulAssoc(a: nat, b: nat, c: nat)
    ensures (a * b) * c == a * (b * c)
  {
  }

  lemma DivMod(x: nat, n: nat)
    requires n > 0
    ensures x == n * (x / n) + x % n
  {
  }

  /** Two decompositions of a number by `n` are the same. */
  lemma SameParts(n: nat, q: nat, r: nat, q': nat, r': nat)
    requires n * q + r == n * q' + r' && r < n && r' < n
    ensures q == q' && r == r'
  {
    if q' < q {
      MulGap(n, q', q);
    } else if q < q' {
      MulGap(n, q, q');
    }
  }

  lemma DivModUnique(x: nat, n: nat, q: nat, r: nat)
    requires n > 0 && x == n * q + r && r < n
    ensures x / n == q && x % n == r
  {
    DivMod(x, n);
    SameParts(n, q, r, x / n, x % n);
  }

  lemma MulMod(n: nat, q: nat)
    requires n > 0
    ensures (n * q) % n == 0 && (n * q) / n == q
  {
    DivModUnique(n * q, n, q, 0);
  }

  /** Numbers less than `n` apart have different remainders by `n`. */
  lemma PartsDiffer(n: nat, qa: nat, ra: nat, qb: nat, rb: nat)
    requires n * qa + ra < n * qb + rb < n * qa + ra + n
    ensures ra != rb
  {
    if qa < qb {
      MulGap(n, qa, qb);
    } else if qb < qa {
      MulGap(n, qb, qa);
    }
  }

  /** Two counts less than `num` apart never share a slot. */
  lemma SlotsDiffer(a: nat, b: nat, num: nat)
    requires a < b < a + num
    ensures a % num != b % num
  {
    DivMod(a, num);
    DivMod(b, num);
    PartsDiffer(num, a / num, a % num, b / num, b % num);
  }

  lemma DoubleDivides(n: nat, m: nat)
    requires n > 0 && m % n == 0
    ensures (2 * m) % (2 * n) == 0
  {
    DivMod(m, n);
    MulAssoc(2, n, m / n);
    MulMod(2 * n, m / n);
  }

  lemma {:induction false} Pow2Divides(n: nat, m: nat)
    requires IsPow2(n) && IsPow2(m) && n <= m
    ensures m % n == 0
  {
    if n > 1 {
      Pow2Divides(n / 2, m / 2);
      DoubleDivides(n / 2, m / 2);
    }
  }

  lemma OddTimesOdd(a: nat, b: nat)
    ensures (2 * a + 1) * (2 * b + 1) == 2 * (2 * (a * b) + a + b) + 1
  {
    assert (2 * a + 1) * (2 * b + 1) == (2 * a) * (2 * b) + 2 * a + 2 * b + 1;
    assert (2 * a) * (2 * b) == 4 * (a * b);
  }

  /** Half of an even multiple of `n`: a multiple of half of `n` if that is even, else of `n` itself. */
  lemma HalfMultiple(n: nat, q: nat)
    requires n > 0 && n * q % 2 == 0
    ensures n % 2 == 0 ==> n * q == 2 * (n / 2 * q)
    ensures n % 2 == 1 ==> q % 2 == 0 && n * q == 2 * (n * (q / 2))
  {
    if n % 2 == 0 {
      MulAssoc(2, n / 2, q);
    } else {
      if q % 2 == 1 { OddTimesOdd(n / 2, q / 2); }
      MulAssoc(2, q / 2, n);
    }
  }

  lemma {:induction false} DivisorOfPow2(n: nat, q: nat)
    requires n > 0 && IsPow2(n * q)
    ensures IsPow2(n)
    decreases n * q
  {
    if n > 1 {
      assert n * q > 1 by {
        if q > 0 { MulGap(n, 0, q); }
      }
      HalfMultiple(n, q);
      if n % 2 == 0 {
        DivisorOfPow2(n / 2, q);
      } else {
        DivisorOfPow2(n, q / 2);
      }
    }
  }

  lemma WordIsPow2()
    ensures IsPow2(WORD)
  {
    assert IsPow2(1) && IsPow2(2) && IsPow2(4) && IsPow2(8) && IsPow2(16) && IsPow2(32) && IsPow2(64);
    assert IsPow2(128) && IsPow2(256) && IsPow2(512) && IsPow2(1024) && IsPow2(2048) && IsPow2(4096);
    assert IsPow2(8192) && IsPow2(16384) && IsPow2(32768);
  }

  /** Reducing first modulo a multiple of `num` does not change the slot. */
  lemma ModOfMod(c: nat, m: nat, num: nat)
    requires num > 0 && m > 0 && m % num == 0
    ensures (c % m) % num == c % num
  {
    var d, q, r := m / num, c / m, c % m;
    var s, t := r / num, r % num;
    DivMod(m, num);
    DivMod(c, m);
    DivMod(r, num);
    MulAssoc(num, d, q);
    MulAdd(num, d * q, s);
    DivModUnique(c, num, d * q + s, t);
  }

  /** The slot computed from the 16-bit index is the slot of the unbounded count. */
  lemma SlotOfWrapped(c: nat, num: nat)
    requires IsPow2(num) && num <= WORD
    ensures (c % WORD) % num == c % num
  {
    WordIsPow2();
    Pow2Divides(num, WORD);
    ModOfMod(c, WORD, num);
  }

  /** Only a power of two can survive the wrap from 65535 to 0. */
  lemma WrapNeedsPow2(num: nat)
    requires num > 0 && WORD % num == 0
    ensures IsPow2(num)
  {
    WordIsPow2();
    DivMod(WORD, num);
    DivisorOfPow2(num, WORD / num);
  }

  lemma ZeroMod(num: nat)
    requires num > 0
    ensures (WORD % WORD) % num == 0
  {
  }

  /** The 16-bit wrap is harmless to `idx % num` on every count exactly for power-of-two sizes. */
  lemma SlotArithmeticExact(num: nat)
    requires 0 < num <= WORD
    ensures (forall c: nat :: (c % WORD) % num == c % num) <==> IsPow2(num)
  {
    hide IsPow2;
    if IsPow2(num) {
      forall c: nat ensures (c % WORD) % num == c % num {
        SlotOfWrapped(c, num);
      }
    } else if forall c: nat :: (c % WORD) % num == c % num {
      ZeroMod(num);
      WrapNeedsPow2(num);
    }
  }

  /** The index counts up and wraps from 65535 to 0; 65536 increments are the least that lead back. */
  lemma IncWraps(x: u16, k: nat)
    ensures Inc16(x) == if x == 0xffff then 0 else x + 1
    ensures 0 < k < 0x1_0000 ==> (x + k) % WORD != x
    ensures (x + 0x1_0000) % WORD == x
  {
  }

  lemma IncWrapped(c: nat)
    ensures Inc16(c % WORD) == (c + 1) % WORD
  {
  }

  lemma AddWrapped(c: nat, j: nat)
    ensures (c % WORD + j) % WORD == (c + j) % WORD
  {
  }

  /** Within one lap of the 16-bit circle, equality of wrapped indices is equality of counts. */
  lemma WrappedEquality(a: nat, b: nat)
    requires a <= b < a + WORD
    ensures a % WORD == b % WORD <==> a == b
    ensures Distance16(a % WORD, b % WORD) == b - a
  {
  }
}
