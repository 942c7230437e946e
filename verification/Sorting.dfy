/** Stable sorting by a total preorder, and the facts about it the protocol leans
    on: the sorted sequence does not depend on the order of the input, mapping
    commutes with sorting, and dropping elements keeps the order of the rest. */
module Sorting {
  ghost predicate TotalPreorder<T(!new)>(leq: (T, T) -> bool) {
    && (forall a, b :: leq(a, b) || leq(b, a))
    && (forall a, b, c :: leq(a, b) && leq(b, c) ==> leq(a, c))
  }

  ghost predicate SortedBy<T>(leq: (T, T) -> bool, s: seq<T>) {
    forall i, j :: 0 <= i < j < |s| ==> leq(s[i], s[j])
  }

  /** No two different elements of `s` are tied. */
  ghost predicate AntisymmetricOn<T>(leq: (T, T) -> bool, s: seq<T>) {
    forall a, b :: a in s && b in s && leq(a, b) && leq(b, a) ==> a == b
  }

  ghost predicate Distinct<T>(s: seq<T>) {
    forall i, j :: 0 <= i < j < |s| ==> s[i] != s[j]
  }

  function InsertInto<T>(leq: (T, T) -> bool, x: T, s: seq<T>): (r: seq<T>) {
    if s == [] || leq(x, s[0]) then [x] + s else [s[0]] + InsertInto(leq, x, s[1..])
  }

  /** Rust's `sort_by`: stable. */
  function SortBy<T>(leq: (T, T) -> bool, s: seq<T>): (r: seq<T>) {
    if s == [] then [] else InsertInto(leq, s[0], SortBy(leq, s[1..]))
  }

  lemma {:induction false} InsertIntoMultiset<T>(leq: (T, T) -> bool, x: T, s: seq<T>)
    ensures multiset(InsertInto(leq, x, s)) == multiset{x} + multiset(s)
  {
    if s != [] && !leq(x, s[0]) {
      InsertIntoMultiset(leq, x, s[1..]);
      assert s == [s[0]] + s[1..];
    }
  }

  lemma {:induction false} SortByMultiset<T>(leq: (T, T) -> bool, s: seq<T>)
    ensures multiset(SortBy(leq, s)) == multiset(s)
    ensures |SortBy(leq, s)| == |s|
  {
    if s != [] {
      SortByMultiset(leq, s[1..]);
      InsertIntoMultiset(leq, s[0], SortBy(leq, s[1..]));
      assert s == [s[0]] + s[1..];
    }
    assert |multiset(SortBy(leq, s))| == |multiset(s)|;
  }

  lemma SortByMembers<T>(leq: (T, T) -> bool, s: seq<T>, x: T)
    ensures x in SortBy(leq, s) <==> x in s
  {
    SortByMultiset(leq, s);
    assert x in SortBy(leq, s) <==> x in multiset(SortBy(leq, s));
  }

  lemma {:induction false} InsertIntoSorted<T(!new)>(leq: (T, T) -> bool, x: T, s: seq<T>)
    requires TotalPreorder(leq) && SortedBy(leq, s)
    ensures SortedBy(leq, InsertInto(leq, x, s))
  {
    if s != [] && !leq(x, s[0]) {
      var rest := InsertInto(leq, x, s[1..]);
      InsertIntoSorted(leq, x, s[1..]);
      InsertIntoMultiset(leq, x, s[1..]);
      forall i | 0 <= i < |rest| ensures leq(s[0], rest[i]) {
        assert rest[i] in multiset(rest);
        assert rest[i] == x || rest[i] in s[1..];
      }
    }
  }

  lemma {:induction false} SortBySorted<T(!new)>(leq: (T, T) -> bool, s: seq<T>)
    requires TotalPreorder(leq)
    ensures SortedBy(leq, SortBy(leq, s))
  {
    if s != [] {
      SortBySorted(leq, s[1..]);
      InsertIntoSorted(leq, s[0], SortBy(leq, s[1..]));
    }
  }

  lemma SortedHead<T>(leq: (T, T) -> bool, s: seq<T>, x: T)
    requires SortedBy(leq, s) && x in s && leq(x, x)
    ensures leq(s[0], x)
  {
    var i :| 0 <= i < |s| && s[i] == x;
    assert i == 0 || leq(s[0], s[i]);
  }

  lemma TailMultiset<T>(s: seq<T>)
    requires s != []
    ensures multiset(s[1..]) == multiset(s) - multiset{s[0]}
  {
    assert s == [s[0]] + s[1..];
  }

  /** Two sorted arrangements of the same elements are the same sequence. */
  lemma {:induction false} SortedUnique<T(!new)>(leq: (T, T) -> bool, s: seq<T>, t: seq<T>)
    requires SortedBy(leq, s) && SortedBy(leq, t) && multiset(s) == multiset(t)
    requires TotalPreorder(leq) && AntisymmetricOn(leq, s)
    ensures s == t
  {
    hide TotalPreorder, SortedBy, AntisymmetricOn;
    SameLength(s, t);
    if s != [] {
      SameHead(leq, s, t);
      SameTails(s, t);
      SortedTail(leq, s);
      SortedTail(leq, t);
      SortedUnique(leq, s[1..], t[1..]);
      assert s == [s[0]] + s[1..] && t == [t[0]] + t[1..];
    }
  }

  lemma SameLength<T>(s: seq<T>, t: seq<T>)
    requires multiset(s) == multiset(t)
    ensures |s| == |t|
  {
    assert |s| == |multiset(s)| == |multiset(t)| == |t|;
  }

  lemma SameTails<T>(s: seq<T>, t: seq<T>)
    requires multiset(s) == multiset(t) && s != [] && t != [] && s[0] == t[0]
    ensures multiset(s[1..]) == multiset(t[1..])
  {
    TailMultiset(s);
    TailMultiset(t);
  }

  lemma SortedTail<T>(leq: (T, T) -> bool, s: seq<T>)
    requires s != []
    ensures SortedBy(leq, s) ==> SortedBy(leq, s[1..])
    ensures AntisymmetricOn(leq, s) ==> AntisymmetricOn(leq, s[1..])
  {
    assert forall x :: x in s[1..] ==> x in s;
  }

  lemma SameHead<T(!new)>(leq: (T, T) -> bool, s: seq<T>, t: seq<T>)
    requires SortedBy(leq, s) && SortedBy(leq, t) && multiset(s) == multiset(t) && s != [] && t != []
    requires TotalPreorder(leq) && AntisymmetricOn(leq, s)
    ensures s[0] == t[0]
  {
    assert s[0] in multiset(t) && t[0] in multiset(s);
    SortedHead(leq, s, t[0]);
    SortedHead(leq, t, s[0]);
  }

  /** The sorted sequence is the same for every permutation of the input. */
  lemma SortByPermutation<T(!new)>(leq: (T, T) -> bool, s: seq<T>, t: seq<T>)
    requires TotalPreorder(leq) && AntisymmetricOn(leq, s) && multiset(s) == multiset(t)
    ensures SortBy(leq, s) == SortBy(leq, t)
  {
    SortBySorted(leq, s);
    SortBySorted(leq, t);
    SortByMultiset(leq, s);
    SortByMultiset(leq, t);
    forall x | x in SortBy(leq, s) ensures x in s { SortByMembers(leq, s, x); }
    SortedUnique(leq, SortBy(leq, s), SortBy(leq, t));
  }

  lemma {:induction false} SortByFixpoint<T>(leq: (T, T) -> bool, s: seq<T>)
    requires SortedBy(leq, s)
    ensures SortBy(leq, s) == s
  {
    if s != [] {
      SortByFixpoint(leq, s[1..]);
      assert s == [s[0]] + s[1..];
    }
  }

  lemma HasFirst<T>(s: seq<T>)
    ensures s != [] ==> s[0] in s
  {}

  // ── Filtering ──

  function Keep<T>(p: T -> bool, s: seq<T>): (r: seq<T>) {
    if s == [] then [] else (if p(s[0]) then [s[0]] else []) + Keep(p, s[1..])
  }

  lemma {:induction false} KeepMembers<T>(p: T -> bool, s: seq<T>, x: T)
    ensures x in Keep(p, s) <==> x in s && p(x)
  {
    if s != [] {
      KeepMembers(p, s[1..], x);
      assert s == [s[0]] + s[1..];
    }
  }

  /** What is kept keeps its order. */
  lemma {:induction false} KeepOrder<T>(p: T -> bool, s: seq<T>, i: nat, j: nat) returns (k: nat, l: nat)
    requires i < j < |Keep(p, s)|
    ensures k < l < |s| && s[k] == Keep(p, s)[i] && s[l] == Keep(p, s)[j]
  {
    if !p(s[0]) {
      k, l := KeepOrder(p, s[1..], i, j);
      k, l := k + 1, l + 1;
    } else if i > 0 {
      k, l := KeepOrder(p, s[1..], i - 1, j - 1);
      k, l := k + 1, l + 1;
    } else {
      k := 0;
      KeepMembers(p, s[1..], Keep(p, s[1..])[j - 1]);
      var m :| 0 <= m < |s[1..]| && s[1..][m] == Keep(p, s[1..])[j - 1];
      l := m + 1;
    }
  }

  lemma {:induction false} KeepConcat<T>(p: T -> bool, s: seq<T>, t: seq<T>)
    ensures Keep(p, s + t) == Keep(p, s) + Keep(p, t)
  {
    if s == [] {
      assert s + t == t;
    } else {
      KeepConcat(p, s[1..], t);
      assert (s + t)[1..] == s[1..] + t;
      var first := if p(s[0]) then [s[0]] else [];
      calc {
        Keep(p, s + t);
        first + Keep(p, s[1..] + t);
        first + (Keep(p, s[1..]) + Keep(p, t));
        (first + Keep(p, s[1..])) + Keep(p, t);
        Keep(p, s) + Keep(p, t);
      }
    }
  }

  lemma {:induction false} KeepAll<T>(p: T -> bool, s: seq<T>)
    requires forall x :: x in s ==> p(x)
    ensures Keep(p, s) == s
  {
    if s != [] {
      assert s[0] in s && forall x :: x in s[1..] ==> x in s;
      KeepAll(p, s[1..]);
    }
  }

  lemma {:induction false} KeepNothing<T>(p: T -> bool, s: seq<T>)
    requires forall x :: x in s ==> !p(x)
    ensures Keep(p, s) == []
  {
    if s != [] {
      assert s[0] in s && forall x :: x in s[1..] ==> x in s;
      KeepNothing(p, s[1..]);
    }
  }

  /** Keeping everything is the only way to keep the length. */
  lemma {:induction false} KeepLength<T>(p: T -> bool, s: seq<T>)
    ensures |Keep(p, s)| <= |s|
    ensures |Keep(p, s)| == |s| <==> forall x :: x in s ==> p(x)
  {
    if s != [] {
      KeepLength(p, s[1..]);
      assert s == [s[0]] + s[1..];
    }
  }

  lemma {:induction false} KeepCount<T>(p: T -> bool, s: seq<T>, x: T)
    ensures multiset(Keep(p, s))[x] == if p(x) then multiset(s)[x] else 0
  {
    if s != [] {
      KeepCount(p, s[1..], x);
      assert s == [s[0]] + s[1..];
    }
  }

  lemma {:induction false} KeepSorted<T>(leq: (T, T) -> bool, p: T -> bool, s: seq<T>)
    requires SortedBy(leq, s)
    ensures SortedBy(leq, Keep(p, s))
  {
    if s != [] {
      KeepSorted(leq, p, s[1..]);
      var rest := Keep(p, s[1..]);
      forall i | 0 <= i < |rest| ensures leq(s[0], rest[i]) {
        KeepMembers(p, s[1..], rest[i]);
        var k :| 0 <= k < |s[1..]| && s[1..][k] == rest[i];
        assert leq(s[0], s[k + 1]);
      }
    }
  }

  /** Keeping a part of the input keeps the same part of the sorted sequence. */
  lemma SortByKeep<T(!new)>(leq: (T, T) -> bool, p: T -> bool, s: seq<T>, part: seq<T>)
    requires TotalPreorder(leq) && AntisymmetricOn(leq, s)
    requires multiset(part) == multiset(Keep(p, s))
    ensures SortBy(leq, part) == Keep(p, SortBy(leq, s))
  {
    var sorted := SortBy(leq, s);
    SortBySorted(leq, s);
    SortByMultiset(leq, s);
    KeepSorted(leq, p, sorted);
    forall x ensures multiset(Keep(p, s))[x] == multiset(Keep(p, sorted))[x] {
      KeepCount(p, s, x);
      KeepCount(p, sorted, x);
    }
    assert multiset(part) == multiset(Keep(p, sorted));
    forall x | x in part ensures x in s {
      assert x in multiset(Keep(p, s));
      KeepMembers(p, s, x);
    }
    SortByPermutation(leq, part, Keep(p, sorted));
    SortByFixpoint(leq, Keep(p, sorted));
  }

  // ── Mapping ──

  function MapSeq<T, U>(f: T -> U, s: seq<T>): (r: seq<U>)
    ensures |r| == |s| && forall i :: 0 <= i < |s| ==> r[i] == f(s[i])
  {
    if s == [] then [] else [f(s[0])] + MapSeq(f, s[1..])
  }

  lemma MapSeqSubset<T, U>(f: T -> U, s: seq<T>, t: seq<T>)
    requires forall x :: x in s ==> x in t
    ensures forall y :: y in MapSeq(f, s) ==> y in MapSeq(f, t)
  {
    forall i | 0 <= i < |s| ensures MapSeq(f, s)[i] in MapSeq(f, t) {
      assert s[i] in t;
      var k :| 0 <= k < |t| && t[k] == s[i];
      assert MapSeq(f, t)[k] == MapSeq(f, s)[i];
    }
  }

  ghost predicate Agrees<T(!new), U>(f: T -> U, leq: (T, T) -> bool, leqU: (U, U) -> bool) {
    forall a, b :: leq(a, b) == leqU(f(a), f(b))
  }

  lemma {:induction false} InsertIntoMap<T(!new), U>(f: T -> U, leq: (T, T) -> bool, leqU: (U, U) -> bool, x: T,
        s: seq<T>)
    requires Agrees(f, leq, leqU)
    ensures MapSeq(f, InsertInto(leq, x, s)) == InsertInto(leqU, f(x), MapSeq(f, s))
  {
    if s != [] {
      assert MapSeq(f, s)[1..] == MapSeq(f, s[1..]);
      if !leq(x, s[0]) {
        InsertIntoMap(f, leq, leqU, x, s[1..]);
      }
    }
  }

  /** Sorting by what `f` reads off commutes with `f`. */
  lemma {:induction false} SortByMap<T(!new), U>(f: T -> U, leq: (T, T) -> bool, leqU: (U, U) -> bool, s: seq<T>)
    requires Agrees(f, leq, leqU)
    ensures MapSeq(f, SortBy(leq, s)) == SortBy(leqU, MapSeq(f, s))
  {
    if s != [] {
      SortByMap(f, leq, leqU, s[1..]);
      InsertIntoMap(f, leq, leqU, s[0], SortBy(leq, s[1..]));
      assert MapSeq(f, s)[1..] == MapSeq(f, s[1..]);
    }
  }

  lemma {:induction false} KeepMap<T, U>(f: T -> U, p: T -> bool, q: U -> bool, s: seq<T>)
    requires forall x :: x in s ==> p(x) == q(f(x))
    ensures MapSeq(f, Keep(p, s)) == Keep(q, MapSeq(f, s))
  {
    if s != [] {
      assert s[0] in s && forall x :: x in s[1..] ==> x in s;
      KeepMap(f, p, q, s[1..]);
      assert MapSeq(f, s)[1..] == MapSeq(f, s[1..]);
    }
  }

  // ── Sequences without repetition ──

  lemma {:induction false} DistinctCount<T>(s: seq<T>, x: T)
    requires Distinct(s)
    ensures multiset(s)[x] == if x in s then 1 else 0
  {
    if s != [] {
      assert s == [s[0]] + s[1..];
      DistinctCount(s[1..], x);
      assert x in s[1..] ==> exists i :: 0 < i < |s| && s[i] == x;
    }
  }

  /** The same elements without repetition are a permutation of each other. */
  lemma DistinctSameMultiset<T>(s: seq<T>, t: seq<T>)
    requires Distinct(s) && Distinct(t)
    requires forall x :: x in s <==> x in t
    ensures multiset(s) == multiset(t)
  {
    forall x ensures multiset(s)[x] == multiset(t)[x] {
      DistinctCount(s, x);
      DistinctCount(t, x);
    }
  }

  function ToSet<T>(s: seq<T>): (r: set<T>) { set x | x in s }

  lemma {:induction false} DistinctCardinality<T>(s: seq<T>)
    ensures |ToSet(s)| <= |s|
    ensures Distinct(s) ==> |ToSet(s)| == |s|
  {
    if s != [] {
      DistinctCardinality(s[1..]);
      assert s == [s[0]] + s[1..];
      assert ToSet(s) == {s[0]} + ToSet(s[1..]);
      if Distinct(s) {
        assert s[0] !in s[1..];
        assert Distinct(s[1..]);
      }
    }
  }

  lemma {:induction false} CountedOnce<T>(s: seq<T>)
    requires forall x :: multiset(s)[x] <= 1
    ensures Distinct(s)
  {
    if s != [] {
      assert s == [s[0]] + s[1..];
      assert multiset(s) == multiset{s[0]} + multiset(s[1..]);
      forall x ensures multiset(s[1..])[x] <= 1 { assert multiset(s)[x] <= 1; }
      assert multiset(s)[s[0]] == 1 + multiset(s[1..])[s[0]];
      assert s[0] !in s[1..];
      CountedOnce(s[1..]);
    }
  }

  lemma DistinctSorted<T>(leq: (T, T) -> bool, s: seq<T>)
    requires Distinct(s)
    ensures Distinct(SortBy(leq, s))
  {
    SortByMultiset(leq, s);
    forall x ensures multiset(SortBy(leq, s))[x] <= 1 { DistinctCount(s, x); }
    CountedOnce(SortBy(leq, s));
  }

  lemma {:induction false} SubsetCardinality<T>(a: set<T>, b: set<T>)
    requires a <= b
    ensures |a| <= |b|
    ensures |a| == |b| ==> a == b
  {
    var rest := b - a;
    assert b == a + rest && |b| == |a| + |rest|;
    if |a| == |b| {
      assert rest == {};
    }
  }

  lemma KeepOne<T>(p: T -> bool, x: T)
    ensures Keep(p, [x]) == if p(x) then [x] else []
  {
    assert [x][1..] == [];
  }

  /** No two different elements share their image. */
  ghost predicate InjectiveOn<T(!new), U>(f: T -> U, s: seq<T>) {
    forall x, y :: x in s && y in s && f(x) == f(y) ==> x == y
  }

  lemma DistinctImage<T(!new), U>(f: T -> U, s: seq<T>)
    ensures Distinct(MapSeq(f, s)) <==> Distinct(s) && InjectiveOn(f, s)
  {
    var image := MapSeq(f, s);
    if Distinct(image) {
      forall i, j | 0 <= i < j < |s| ensures s[i] != s[j] { assert image[i] != image[j]; }
      forall x, y | x in s && y in s && f(x) == f(y) ensures x == y {
        var i :| 0 <= i < |s| && s[i] == x;
        var j :| 0 <= j < |s| && s[j] == y;
        assert image[i] == image[j];
      }
    }
    if Distinct(s) && InjectiveOn(f, s) {
      forall i, j | 0 <= i < j < |s| ensures image[i] != image[j] { assert s[i] in s && s[j] in s; }
    }
  }

  lemma KeptPermutes<T>(p: T -> bool, s: seq<T>, t: seq<T>)
    requires multiset(s) == multiset(t) && Distinct(Keep(p, s))
    ensures Distinct(Keep(p, t)) && forall x :: x in Keep(p, t) <==> x in Keep(p, s)
  {
    forall x ensures multiset(Keep(p, t))[x] == multiset(Keep(p, s))[x] <= 1 {
      KeepCount(p, s, x);
      KeepCount(p, t, x);
      DistinctCount(Keep(p, s), x);
    }
    CountedOnce(Keep(p, t));
    assert forall x :: x in Keep(p, t) <==> x in multiset(Keep(p, t));
    assert forall x :: x in Keep(p, s) <==> x in multiset(Keep(p, s));
  }
}
