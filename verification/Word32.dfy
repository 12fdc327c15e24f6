/**
  The `unsigned` counters of the rings: 32-bit words that wrap around, compared by
  difference and reduced to a slot by masking with a power of two minus one.
 */
module Word32 {
  const WORD: nat := 0x1_0000_0000

  type Word = x: nat | x < WORD

  function Wrap(x: int): (w: Word) {
    x % WORD
  }

  function Pow2(k: nat): (p: nat)
    ensures p >= 1
  {
    if k == 0 then 1 else 2 * Pow2(k - 1)
  }

  /** The bitwise `&` of two words, bit by bit from the lowest. */
  function BitAnd(x: nat, y: nat): nat
    decreases x + y
  {
    if x == 0 || y == 0 then 0
    else 2 * BitAnd(x / 2, y / 2) + (if x % 2 == 1 && y % 2 == 1 then 1 else 0)
  }

  lemma {:induction false} BitAndBound(x: nat, y: nat)
    ensures BitAnd(x, y) <= x && BitAnd(x, y) <= y
    decreases x + y
  {
    if x > 0 && y > 0 {
      BitAndBound(x / 2, y / 2);
    }
  }

  /** Masking with 2^k - 1 is the remainder by 2^k. */
  lemma {:induction false} MaskIsMod(x: nat, k: nat)
    ensures BitAnd(x, Pow2(k) - 1) == x % Pow2(k)
  {
    if k > 0 {
      var half := Pow2(k - 1);
      MaskIsMod(x / 2, k - 1);
      HalveMod(x, half);
      if x > 0 {
        assert (Pow2(k) - 1) / 2 == half - 1 && (Pow2(k) - 1) % 2 == 1;
      }
    }
  }

  lemma HalveMod(x: nat, half: nat)
    requires half > 0
    ensures x % (2 * half) == 2 * (x / 2 % half) + x % 2
  {
    var y := x / 2;
    var q, r := y / half, y % half;
    assert y == q * half + r;
    assert x == q * (2 * half) + (2 * r + x % 2);
    ModUnique(x, 2 * half, q, 2 * r + x % 2);
  }

  lemma ModUnique(x: nat, n: nat, q: nat, r: nat)
    requires r < n && x == q * n + r
    ensures x % n == r
  {
    var d := q - x / n;
    assert d * n == q * n - x / n * n;
    assert d * n == x % n - r;
    NoMultiple(d, n);
  }

  /** No multiple of n lies strictly between -n and n, except 0. */
  lemma NoMultiple(d: int, n: nat)
    requires n > 0 && 0 - n < d * n < n
    ensures d == 0
  {
  }

  lemma {:induction false} Pow2Divides(k: nat, m: nat)
    requires k <= m
    ensures Pow2(m) == Pow2(k) * Pow2(m - k)
  {
    if k < m {
      Pow2Divides(k, m - 1);
      var p := Pow2(m - 1 - k);
      assert Pow2(m - k) == 2 * p && 2 * (Pow2(k) * p) == Pow2(k) * (2 * p);
    }
  }

  lemma {:induction false} Pow2Monotone(k: nat, m: nat)
    requires k <= m
    ensures Pow2(k) <= Pow2(m)
  {
    if k < m {
      Pow2Monotone(k, m - 1);
    }
  }

  lemma WordIsPow2()
    ensures Pow2(32) == WORD
  {
    assert Pow2(8) == 256;
    Pow2Divides(8, 16);
    Pow2Divides(16, 32);
  }

  lemma ModOfMod(x: nat, n: nat, c: nat)
    requires n > 0 && c > 0
    ensures x % (n * c) % n == x % n
  {
    var m := n * c;
    var w, q := x % m, x / m;
    assert q * m == q * c * n by {
      Regroup(q, n, c);
    }
    assert (q * c + w / n) * n == q * c * n + w / n * n;
    ModUnique(x, n, q * c + w / n, w % n);
  }

  lemma Regroup(q: nat, n: nat, c: nat)
    ensures q * (n * c) == q * c * n
  {
  }

  /** Masking a wrapped counter yields the slot of the counter that never wraps. */
  lemma Slot(position: nat, k: nat)
    requires k <= 31
    ensures BitAnd(Wrap(position), Pow2(k) - 1) == position % Pow2(k)
  {
    MaskIsMod(Wrap(position), k);
    Pow2Divides(k, 32);
    WordIsPow2();
    ModOfMod(position, Pow2(k), Pow2(32 - k));
  }

  /** The wrapped difference of two counters is their real difference. */
  lemma Difference(a: nat, b: nat)
    requires 0 <= a - b < WORD
    ensures Wrap(Wrap(a) - Wrap(b)) == a - b
  {
  }

  /** Two counters less than 2^32 apart are equal when their words are. */
  lemma SameWord(a: nat, b: nat)
    requires 0 <= a - b < WORD
    ensures Wrap(a) == Wrap(b) <==> a == b
  {
  }

  lemma WrapAdd(a: nat, b: nat)
    ensures Wrap(Wrap(a) + b) == Wrap(a + b)
  {
  }

  lemma Increment(a: nat)
    ensures Wrap(Wrap(a) + 1) == Wrap(a + 1)
  {
  }

  /** Two positions less than one lap apart share no slot. */
  lemma SlotsDiffer(p: nat, q: nat, n: nat)
    requires p < q < p + n
    ensures p % n != q % n
  {
    var d := q / n - p / n;
    assert d * n == q / n * n - p / n * n;
    assert d * n == q - p - (q % n - p % n);
    if p % n == q % n {
      NoMultiple(d, n);
      assert false;
    }
  }

  lemma SameSlot(p: nat, n: nat)
    requires n > 0
    ensures (p + n) % n == p % n
  {
    assert (p / n + 1) * n == p / n * n + n;
    ModUnique(p + n, n, p / n + 1, p % n);
  }

  /** The slot of a position in a ring with this mask. */
  function SlotAt(p: nat, mask: nat): nat {
    BitAnd(Wrap(p), mask)
  }

  lemma SlotsApart(p: nat, q: nat, k: nat)
    requires k <= 31 && p <= q < p + Pow2(k)
    ensures SlotAt(p, Pow2(k) - 1) < Pow2(k) && SlotAt(q, Pow2(k) - 1) < Pow2(k)
    ensures p != q ==> SlotAt(p, Pow2(k) - 1) != SlotAt(q, Pow2(k) - 1)
  {
    Slot(p, k);
    Slot(q, k);
    if p < q {
      SlotsDiffer(p, q, Pow2(k));
    }
  }

  /** A position one lap later has the same slot. */
  lemma NextLap(p: nat, k: nat)
    requires k <= 31
    ensures SlotAt(p + Pow2(k), Pow2(k) - 1) == SlotAt(p, Pow2(k) - 1) < Pow2(k)
  {
    Slot(p, k);
    Slot(p + Pow2(k), k);
    SameSlot(p, Pow2(k));
  }

  /** In the first lap slots are positions. */
  lemma FirstLap(p: nat, k: nat)
    requires k <= 31 && p < Pow2(k)
    ensures SlotAt(p, Pow2(k) - 1) == p
  {
    Slot(p, k);
    ModUnique(p, Pow2(k), 0, p);
  }
}
