/** Byte strings, their lexicographic order, and the encoding of a leaf index as
    the `member_id` every other layer carries around. */
module ByteStrings {
  newtype Byte = x: int | 0 <= x < 256
  type Bytes = seq<Byte>

  /** A member is named by bytes; members of the group by the bytes of their leaf. */
  type Id = Bytes

  type Leaf = x: nat | x < 0x1_0000_0000

  datatype Option<+T> = None | Some(value: T)

  datatype Result<+T, +E> = Ok(value: T) | Err(error: E)

  /** Strict lexicographic order, the order of Rust's byte slices. */
  predicate Less(a: Bytes, b: Bytes) {
    if b == [] then false
    else if a == [] then true
    else if a[0] != b[0] then a[0] < b[0]
    else Less(a[1..], b[1..])
  }

  /** Read left to right, `a` runs out, or falls below `b`, at position `k`. */
  ghost predicate FallsBelowAt(a: Bytes, b: Bytes, k: nat) {
    k <= |a| && k < |b| && a[..k] == b[..k] && (k == |a| || a[k] < b[k])
  }

  /** `a` comes first exactly if it is the first to run out or to fall below, reading both
      from the left. */
  lemma {:induction false} LessMeaning(a: Bytes, b: Bytes)
    ensures Less(a, b) <==> exists k: nat :: FallsBelowAt(a, b, k)
  {
    if b != [] && a == [] {
      assert FallsBelowAt(a, b, 0);
    } else if b != [] && a[0] != b[0] {
      if a[0] < b[0] { assert FallsBelowAt(a, b, 0); }
      forall k: nat | FallsBelowAt(a, b, k) ensures k == 0 {}
    } else if b != [] {
      LessMeaning(a[1..], b[1..]);
      forall k: nat | FallsBelowAt(a[1..], b[1..], k) ensures FallsBelowAt(a, b, k + 1) {
        assert a[..k + 1] == [a[0]] + a[1..][..k] && b[..k + 1] == [b[0]] + b[1..][..k];
      }
      forall k: nat | FallsBelowAt(a, b, k) ensures k > 0 && FallsBelowAt(a[1..], b[1..], k - 1) {
        assert a[1..][..k - 1] == a[..k][1..] && b[1..][..k - 1] == b[..k][1..];
      }
    }
  }

  lemma {:induction false} LessTrichotomy(a: Bytes, b: Bytes)
    ensures Less(a, b) || a == b || Less(b, a)
    ensures !(Less(a, b) && Less(b, a))
    ensures a == b ==> !Less(a, b)
  {
    if a != [] && b != [] && a[0] == b[0] {
      LessTrichotomy(a[1..], b[1..]);
      assert a == [a[0]] + a[1..] && b == [b[0]] + b[1..];
    }
  }

  lemma {:induction false} LessTransitive(a: Bytes, b: Bytes, c: Bytes)
    requires Less(a, b) && Less(b, c)
    ensures Less(a, c)
  {
    if a != [] && a[0] == b[0] && b[0] == c[0] {
      LessTransitive(a[1..], b[1..], c[1..]);
    }
  }

  /** Big-endian encoding of a leaf index. */
  function MemberIdOf(leaf: Leaf): (id: Id) {
    [(leaf / 0x100_0000) as Byte, (leaf / 0x1_0000 % 0x100) as Byte,
     (leaf / 0x100 % 0x100) as Byte, (leaf % 0x100) as Byte]
  }

  function LeafOf(id: Id): (leaf: Option<Leaf>) {
    if |id| != 4 then None
    else Some(id[0] as int * 0x100_0000 + id[1] as int * 0x1_0000 + id[2] as int * 0x100 + id[3] as int)
  }

  lemma MemberIdRoundTrip(leaf: Leaf)
    ensures LeafOf(MemberIdOf(leaf)) == Some(leaf)
  {
    var hi, lo := leaf / 0x1_0000, leaf % 0x1_0000;
    assert leaf == hi * 0x1_0000 + lo;
    assert leaf / 0x100 == hi * 0x100 + lo / 0x100;
    assert leaf / 0x100_0000 == hi / 0x100;
  }

  lemma LeafRoundTrip(id: Id)
    requires |id| == 4
    ensures MemberIdOf(LeafOf(id).value) == id
  {
    var b0, b1, b2, b3 := id[0] as int, id[1] as int, id[2] as int, id[3] as int;
    var leaf := LeafOf(id).value;
    assert leaf / 0x100_0000 == b0;
    assert leaf / 0x1_0000 == b0 * 0x100 + b1;
    assert leaf / 0x100 == b0 * 0x1_0000 + b1 * 0x100 + b2;
  }

  /** Members sort by the leaves they sit on. */
  lemma MemberIdKeepsOrder(a: Leaf, b: Leaf)
    ensures Less(MemberIdOf(a), MemberIdOf(b)) <==> a < b
  {
    hide MemberIdOf;
    Digits(a);
    Digits(b);
    LessOfFour(MemberIdOf(a), MemberIdOf(b));
  }

  lemma LessOfFour(x: Bytes, y: Bytes)
    requires |x| == 4 && |y| == 4
    ensures Less(x, y)
            <==> x[0] < y[0] || (x[0] == y[0] && (x[1] < y[1] || (x[1] == y[1] && (x[2] < y[2] || (x[2] == y[2] && x[3] < y[3])))))
  {
    var x1, y1 := x[1..], y[1..];
    var x2, y2 := x1[1..], y1[1..];
    var x3, y3 := x2[1..], y2[1..];
    assert x3[1..] == [] && y3[1..] == [];
    assert Less(x3, y3) <==> x[3] < y[3];
    assert Less(x2, y2) <==> x[2] < y[2] || (x[2] == y[2] && x[3] < y[3]);
  }

  lemma Digits(leaf: Leaf)
    ensures var id := MemberIdOf(leaf);
            |id| == 4 && leaf == id[0] as int * 0x100_0000 + id[1] as int * 0x1_0000 + id[2] as int * 0x100 + id[3] as int
  {
    MemberIdRoundTrip(leaf);
  }

  /** Two seats never share a member id. */
  lemma MemberIdInjective(a: Leaf, b: Leaf)
    ensures MemberIdOf(a) == MemberIdOf(b) ==> a == b
  {
    MemberIdRoundTrip(a);
    MemberIdRoundTrip(b);
  }
}
