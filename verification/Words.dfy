/** Fixed-width sequence numbers (include/cppcoro/sequence_traits.hpp) and ring-slot arithmetic.
    A sequence number is stored in an unsigned word; `m` is the number of values of that word
    (2^64 for the default std::size_t).  Code compares words with a signed difference and finds
    ring slots with a bit mask; the lemmas say exactly when both agree with unbounded integers. */
module Words {

  function Pow2(k: nat): (p: nat)
    ensures p >= 1
  {
    if k == 0 then 1 else 2 * Pow2(k - 1)
  }

  /** Bitwise conjunction of two unsigned numbers. */
  function And(a: nat, b: nat): nat {
    if a == 0 || b == 0 then 0 else 2 * And(a / 2, b / 2) + (a % 2) * (b % 2)
  }

  /** The word that stores the (possibly negative) number x. */
  function Wrap(m: nat, x: int): (w: nat)
    requires m > 0
    ensures w < m
  {
    x % m
  }

  /** sequence_traits::difference: subtract in the word, then read the word as signed. */
  function Difference(m: nat, a: int, b: int): int
    requires m > 0
  {
    var d := Wrap(m, a - b);
    if d < m - m / 2 then d else d - m
  }

  /** sequence_traits::precedes */
  predicate Precedes(m: nat, a: int, b: int)
    requires m > 0
  {
    Difference(m, a, b) < 0
  }

  // ---- arithmetic of remainders ----

  lemma ModUnique(x: int, n: int, q: int, r: int)
    requires 0 <= r < n && x == n * q + r
    ensures x % n == r && x / n == q
  {
    var k := x / n - q;
    assert x == n * (x / n) + x % n;
    assert n * k == r - x % n by { assert n * k == n * (x / n) - n * q; }
    if k >= 1 { MulGe(n, k); }
    if k <= -1 { MulGe(n, -k); }
  }

  lemma MulGe(n: int, k: int)
    requires n > 0 && k >= 1
    ensures n * k >= n
  {
    assert n * k == n * (k - 1) + n;
    assert n * (k - 1) >= 0;
  }

  /** Two numbers fall in the same slot only when they are a whole ring apart. */
  lemma {:induction false} SlotsDistinct(a: int, b: int, n: int)
    requires 0 < a - b < n
    ensures a % n != b % n
  {
    if a % n == b % n {
      var k := a / n - b / n;
      assert a - b == n * k by {
        assert a == n * (a / n) + a % n && b == n * (b / n) + b % n;
        assert n * k == n * (a / n) - n * (b / n);
      }
      if k >= 1 { MulGe(n, k); }
    }
  }

  lemma ModAddSame(x: int, n: int, k: int)
    requires n > 0
    ensures (x + n * k) % n == x % n
  {
    assert x == n * (x / n) + x % n;
    assert x + n * k == n * (x / n + k) + x % n;
    ModUnique(x + n * k, n, x / n + k, x % n);
  }

  lemma WrapDifference(m: nat, x: int, y: int)
    requires m > 0
    ensures Wrap(m, Wrap(m, x) - Wrap(m, y)) == Wrap(m, x - y)
  {
    var k := y / m - x / m;
    assert x == m * (x / m) + x % m && y == m * (y / m) + y % m;
    assert m * k == m * (y / m) - m * (x / m);
    assert x % m - y % m == (x - y) + m * k;
    ModAddSame(x - y, m, k);
  }

  /** A difference that fits the signed half range. */
  predicate InHalf(m: nat, d: int) { -(m / 2) <= d < m - m / 2 }

  // ---- main results ----

  /** The word difference is the true difference exactly when the true one fits the signed half range. */
  lemma {:induction false} DifferenceExact(m: nat, x: int, y: int)
    requires m > 0
    ensures Difference(m, Wrap(m, x), Wrap(m, y)) == x - y <==> -(m / 2) <= x - y < m - m / 2
  {
    WrapDifference(m, x, y);
    var d := x - y;
    if 0 <= d < m - m / 2 {
      ModUnique(d, m, 0, d);
    } else if -(m / 2) <= d < 0 {
      ModUnique(d, m, -1, d + m);
    }
  }

  /** Order of words is the order of the numbers while those are less than half a range apart. */
  lemma {:induction false} PrecedesExact(m: nat, x: int, y: int)
    requires m > 0 && -(m / 2) <= x - y < m - m / 2
    ensures Precedes(m, Wrap(m, x), Wrap(m, y)) <==> x < y
  {
    DifferenceExact(m, x, y);
  }

  /** Numbers less than a whole range apart are stored in different words. */
  lemma {:induction false} WrapInjective(m: nat, x: int, y: int)
    requires m > 0 && x - y < m && y - x < m
    ensures Wrap(m, x) == Wrap(m, y) <==> x == y
  {
    if x > y { SlotsDistinct(x, y, m); }
    if x < y { SlotsDistinct(y, x, m); }
  }

  /** Arithmetic on words follows arithmetic on numbers. */
  lemma {:induction false} WrapAdd(m: nat, x: int, d: int)
    requires m > 0
    ensures Wrap(m, Wrap(m, x) + d) == Wrap(m, x + d)
  {
    assert x == m * (x / m) + x % m;
    assert Wrap(m, x) + d == x + d + m * (-(x / m));
    ModAddSame(x + d, m, -(x / m));
  }

  /** The slot found from the word is the slot of the number: ring sizes divide the word range. */
  lemma {:induction false} SlotOfWord(m: nat, n: nat, k: nat, x: int)
    requires n > 0 && m == n * k && m > 0
    ensures Wrap(m, x) % n == x % n
  {
    var laps, e := x / m, k * (x / m);
    assert x == m * laps + x % m;
    assert m * laps == n * e by { assert n * k * laps == n * (k * laps); }
    assert Wrap(m, x) == x + n * -e;
    ModAddSame(x, n, -e);
  }

  /** `s & mask` is the remainder by the ring size, for every ring of a power-of-two size. */
  lemma {:induction false} MaskIsRemainder(s: nat, k: nat)
    ensures And(s, Pow2(k) - 1) == s % Pow2(k)
  {
    hide And;
    if k == 0 || s == 0 {
      ZeroMask(s, Pow2(k));
    } else {
      var p := Pow2(k - 1);
      assert Pow2(k) == 2 * p;
      hide Pow2;
      MaskIsRemainder(s / 2, k - 1);
      MaskStep(s, p);
    }
  }

  lemma ZeroMask(s: nat, n: nat)
    requires n > 0 && (s == 0 || n == 1)
    ensures And(s, n - 1) == s % n
  {
  }

  lemma MaskStep(s: nat, p: nat)
    requires s > 0 && p > 0 && And(s / 2, p - 1) == (s / 2) % p
    ensures And(s, 2 * p - 1) == s % (2 * p)
  {
    hide And;
    HalveMask(s, p);
    HalveRemainder(s, p);
  }

  lemma HalveMask(s: nat, p: nat)
    requires s > 0 && p > 0
    ensures And(s, 2 * p - 1) == 2 * And(s / 2, p - 1) + s % 2
  {
    ModUnique(2 * p - 1, 2, p - 1, 1);
  }

  lemma HalveRemainder(s: nat, p: nat)
    requires p > 0
    ensures s % (2 * p) == 2 * ((s / 2) % p) + s % 2
  {
    var h := s / 2;
    var q, r := h / p, h % p;
    assert h == p * q + r;
    assert (2 * p) * q == 2 * (p * q);
    ModUnique(s, 2 * p, q, 2 * r + s % 2);
  }

  lemma {:induction false} Pow2Splits(j: nat, k: nat)
    requires k <= j
    ensures Pow2(j) == Pow2(k) * Pow2(j - k)
  {
    if k > 0 { Pow2Splits(j - 1, k - 1); }
  }
}
