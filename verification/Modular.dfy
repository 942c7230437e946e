/** The few facts about remainders that rotation needs. */
module Modular {
  lemma MulAtLeast(d: int, len: nat)
    requires d >= 1
    ensures d * len >= len
  {
    assert d * len == (d - 1) * len + len;
    assert (d - 1) * len >= 0;
  }

  lemma DivMod(n: nat, len: nat)
    requires len > 0
    ensures n == (n / len) * len + n % len && n % len < len
  {}

  lemma SmallMultiple(d: int, len: nat)
    requires d * len < len && 0 < d * len + len
    ensures d == 0
  {
    assert (-d) * len == -(d * len);
    if d >= 1 { MulAtLeast(d, len); }
    if d <= -1 { MulAtLeast(-d, len); }
  }

  lemma Unique(q: nat, q': nat, len: nat, r: nat, r': nat)
    requires r < len && r' < len && q * len + r == q' * len + r'
    ensures q == q' && r == r'
  {
    assert (q - q') * len == q * len - q' * len;
    SmallMultiple(q - q', len);
  }

  lemma ModIs(n: nat, q: nat, len: nat, r: nat)
    requires r < len && n == q * len + r
    ensures n % len == r
  {
    DivMod(n, len);
    Unique(n / len, q, len, n % len, r);
  }

  /** Slot `step` places on from `start` in a circle of `len`. */
  function Slot(start: nat, step: nat, len: nat): (i: nat)
    requires start < len && step <= len
    ensures i < len && i == if start + step < len then start + step else start + step - len
  {
    if start + step < len then ModIs(start + step, 0, len, start + step); (start + step) % len
    else ModIs(start + step, 1, len, start + step - len); (start + step) % len
  }

  /** Any `len` consecutive numbers hit every remainder... */
  lemma WindowCovers(len: nat, first: nat, j: nat) returns (n: nat)
    requires j < len
    ensures first <= n < first + len && n % len == j
  {
    DivMod(first, len);
    var q := first / len;
    if j >= first % len {
      n := q * len + j;
      ModIs(n, q, len, j);
    } else {
      n := (q + 1) * len + j;
      assert (q + 1) * len == q * len + len;
      ModIs(n, q + 1, len, j);
    }
  }

  /** ...and hit it once. */
  lemma WindowHitsOnce(len: nat, first: nat, a: nat, b: nat)
    requires len > 0 && first <= a < first + len && first <= b < first + len && a % len == b % len
    ensures a == b
  {
    DivMod(a, len);
    DivMod(b, len);
    assert (a / len - b / len) * len == (a / len) * len - (b / len) * len;
    SmallMultiple(a / len - b / len, len);
  }
}
