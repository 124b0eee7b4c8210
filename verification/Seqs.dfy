// Sequence vocabulary shared by the models: filtering, stable sorting, distinctness, and the
// string order that JavaScript's `<` and default sort use.

module Options {
  datatype Option<+T> = None | Some(value: T)
}

// A provider's id, wrapped so that the proofs treat it as a name and not as a sequence.
module Providers {
  datatype ProviderId = ProviderId(name: string)
}

module Seqs {

  predicate Distinct<T(==)>(s: seq<T>) {
    forall i, j :: 0 <= i < j < |s| ==> s[i] != s[j]
  }

  function Filter<T>(s: seq<T>, p: T -> bool): (r: seq<T>)
    ensures |r| <= |s|
  {
    if s == [] then [] else (if p(s[0]) then [s[0]] else []) + Filter(s[1..], p)
  }

  lemma {:induction false} FilterMembers<T>(s: seq<T>, p: T -> bool)
    ensures forall x | x in Filter(s, p) :: x in s && p(x)
    ensures forall x | x in s && p(x) :: x in Filter(s, p)
  {
    if s != [] {
      FilterMembers(s[1..], p);
    }
  }

  lemma Associative<T>(a: seq<T>, b: seq<T>, c: seq<T>)
    ensures a + (b + c) == (a + b) + c
  {
  }

  lemma {:induction false} FilterAppend<T>(s: seq<T>, t: seq<T>, p: T -> bool)
    ensures Filter(s + t, p) == Filter(s, p) + Filter(t, p)
  {
    if s == [] {
      assert s + t == t;
    } else {
      FilterAppend(s[1..], t, p);
      assert (s + t)[1..] == s[1..] + t;
      Associative(if p(s[0]) then [s[0]] else [], Filter(s[1..], p), Filter(t, p));
    }
  }

  // Filtering up to and including position k: the form a left-to-right loop needs.
  lemma FilterSnoc<T>(s: seq<T>, k: nat, p: T -> bool)
    requires k < |s|
    ensures Filter(s[..k + 1], p) == Filter(s[..k], p) + if p(s[k]) then [s[k]] else []
  {
    assert s[..k + 1] == s[..k] + [s[k]];
    FilterAppend(s[..k], [s[k]], p);
  }

  lemma {:induction false} FilterDistinct<T>(s: seq<T>, p: T -> bool)
    requires Distinct(s)
    ensures Distinct(Filter(s, p))
  {
    if s != [] {
      FilterDistinct(s[1..], p);
      FilterMembers(s[1..], p);
      assert s[0] !in s[1..];
    }
  }

  lemma {:induction false} FilterMultiset<T(!new)>(s: seq<T>, p: T -> bool)
    ensures forall x :: multiset(Filter(s, p))[x] == if p(x) then multiset(s)[x] else 0
  {
    if s != [] {
      FilterMultiset(s[1..], p);
      assert s == [s[0]] + s[1..];
    }
  }

  lemma MultisetHead<T>(s: seq<T>)
    requires s != []
    ensures multiset(s) == multiset{s[0]} + multiset(s[1..])
  {
    assert s == [s[0]] + s[1..];
  }

  lemma MultisetRemove<T>(s: seq<T>, k: nat)
    requires k < |s|
    ensures multiset(s) == multiset{s[k]} + multiset(s[..k] + s[k + 1..])
  {
    assert s == s[..k] + ([s[k]] + s[k + 1..]);
  }

  lemma FilterHead<T>(s: seq<T>, p: T -> bool)
    requires s != []
    ensures multiset(Filter(s, p)) == (if p(s[0]) then multiset{s[0]} else multiset{}) + multiset(Filter(s[1..], p))
  {
  }

  // Three tests that split the elements between them split the sequence.
  lemma {:induction false} FilterPartition<T>(s: seq<T>, p: T -> bool, q: T -> bool, r: T -> bool)
    requires forall x :: x in s ==> p(x) || q(x) || r(x)
    requires forall x :: x in s ==> !(p(x) && q(x)) && !(p(x) && r(x)) && !(q(x) && r(x))
    ensures multiset(s) == multiset(Filter(s, p)) + multiset(Filter(s, q)) + multiset(Filter(s, r))
  {
    if s != [] {
      FilterPartition(s[1..], p, q, r);
      FilterHead(s, p);
      FilterHead(s, q);
      FilterHead(s, r);
      MultisetHead(s);
      AddToOne(s[0], multiset(Filter(s[1..], p)), multiset(Filter(s[1..], q)), multiset(Filter(s[1..], r)));
    }
  }

  lemma AddToOne<T>(x: T, a: multiset<T>, b: multiset<T>, c: multiset<T>)
    ensures multiset{x} + (a + b + c) == (multiset{x} + a) + (multiset{} + b) + (multiset{} + c)
    ensures multiset{x} + (a + b + c) == (multiset{} + a) + (multiset{x} + b) + (multiset{} + c)
    ensures multiset{x} + (a + b + c) == (multiset{} + a) + (multiset{} + b) + (multiset{x} + c)
  {
  }

  lemma {:induction false} FilterNone<T>(s: seq<T>, p: T -> bool)
    requires forall y :: y in s ==> !p(y)
    ensures Filter(s, p) == []
  {
    if s != [] {
      FilterNone(s[1..], p);
    }
  }

  lemma {:induction false} FilterEvery<T>(s: seq<T>, p: T -> bool)
    requires forall x :: x in s ==> p(x)
    ensures Filter(s, p) == s
  {
    if s != [] {
      FilterEvery(s[1..], p);
      assert s == [s[0]] + s[1..];
    }
  }

  lemma {:induction false} FilterSingle<T>(s: seq<T>, p: T -> bool, x: T)
    requires Distinct(s) && x in s && forall y :: y in s ==> (p(y) <==> y == x)
    ensures Filter(s, p) == [x]
  {
    if s[0] == x {
      assert x !in s[1..];
      FilterNone(s[1..], p);
    } else {
      FilterSingle(s[1..], p, x);
    }
  }

  // Filtering keeps the order.
  lemma {:induction false} FilterInOrder<T>(s: seq<T>, p: T -> bool, i: nat, j: nat) returns (x: nat, y: nat)
    requires i < j < |Filter(s, p)|
    ensures x < y < |s| && s[x] == Filter(s, p)[i] && s[y] == Filter(s, p)[j]
  {
    if !p(s[0]) {
      x, y := FilterInOrder(s[1..], p, i, j);
      x, y := x + 1, y + 1;
    } else if i > 0 {
      x, y := FilterInOrder(s[1..], p, i - 1, j - 1);
      x, y := x + 1, y + 1;
    } else {
      FilterMembers(s[1..], p);
      assert Filter(s, p)[j] == Filter(s[1..], p)[j - 1];
      assert Filter(s, p)[j] in Filter(s[1..], p);
      y :| 0 <= y < |s[1..]| && s[1..][y] == Filter(s, p)[j];
      x, y := 0, y + 1;
    }
  }

  lemma {:induction false} FilterExt<T>(s: seq<T>, p: T -> bool, q: T -> bool)
    requires forall x :: x in s ==> p(x) == q(x)
    ensures Filter(s, p) == Filter(s, q)
  {
    if s != [] {
      FilterExt(s[1..], p, q);
    }
  }

  // ---- Stable sorting: what Array.prototype.sort guarantees --------------------------------

  // `lt(a, b)`: the comparator returned a negative number, so a goes before b.
  function Insert<T>(x: T, s: seq<T>, lt: (T, T) -> bool): (r: seq<T>)
    ensures multiset(r) == multiset([x]) + multiset(s)
    ensures |r| == |s| + 1
  {
    if s != [] && lt(s[0], x) then
      assert s == [s[0]] + s[1..];
      [s[0]] + Insert(x, s[1..], lt)
    else [x] + s
  }

  function Sort<T>(s: seq<T>, lt: (T, T) -> bool): (r: seq<T>)
    ensures multiset(r) == multiset(s)
    ensures |r| == |s|
  {
    if s == [] then []
    else
      assert s == [s[0]] + s[1..];
      Insert(s[0], Sort(s[1..], lt), lt)
  }

  // A comparator on the elements of `dom`: never both ways, and "not after" is transitive.
  ghost predicate Comparator<T(!new)>(lt: (T, T) -> bool, dom: iset<T>) {
    && (forall x, y :: x in dom && y in dom && lt(x, y) ==> !lt(y, x))
    && (forall x, y, z :: x in dom && y in dom && z in dom && !lt(y, x) && !lt(z, y) ==> !lt(z, x))
  }

  ghost predicate SortedBy<T>(s: seq<T>, lt: (T, T) -> bool) {
    forall i, j :: 0 <= i < j < |s| ==> !lt(s[j], s[i])
  }

  lemma {:induction false} InsertSorted<T(!new)>(x: T, s: seq<T>, lt: (T, T) -> bool, dom: iset<T>)
    requires Comparator(lt, dom) && x in dom && forall y :: y in s ==> y in dom
    requires SortedBy(s, lt)
    ensures SortedBy(Insert(x, s, lt), lt)
  {
    if s != [] && lt(s[0], x) {
      InsertSorted(x, s[1..], lt, dom);
      var r := Insert(x, s[1..], lt);
      forall y | y in r ensures !lt(y, s[0]) {
        assert y in multiset(r);
        if y != x {
          assert y in multiset(s[1..]);
        }
      }
    } else {
      assert !lt(x, x);
      forall j | 0 <= j < |s| ensures !lt(s[j], x) {
        if j > 0 { assert !lt(s[j], s[0]); }
      }
    }
  }

  lemma {:induction false} SortSorted<T(!new)>(s: seq<T>, lt: (T, T) -> bool, dom: iset<T>)
    requires Comparator(lt, dom) && forall y :: y in s ==> y in dom
    ensures SortedBy(Sort(s, lt), lt)
  {
    if s != [] {
      SortSorted(s[1..], lt, dom);
      var r := Sort(s[1..], lt);
      forall y | y in r ensures y in dom {
        assert y in multiset(r);
        assert y in multiset(s[1..]);
      }
      InsertSorted(s[0], r, lt, dom);
    }
  }

  lemma {:induction false} SameMultisetDistinct<T>(s: seq<T>, t: seq<T>)
    requires multiset(s) == multiset(t) && Distinct(s)
    ensures Distinct(t)
  {
    forall i, j | 0 <= i < j < |t| ensures t[i] != t[j] {
      if t[i] == t[j] {
        assert t == t[..i] + [t[i]] + t[i + 1..j] + [t[j]] + t[j + 1..];
        assert multiset(t)[t[i]] >= 2;
        DistinctMultiplicity(s, t[i]);
        assert false;
      }
    }
  }

  lemma {:induction false} DistinctMultiplicity<T>(s: seq<T>, x: T)
    requires Distinct(s)
    ensures multiset(s)[x] <= 1
  {
    if s != [] {
      DistinctMultiplicity(s[1..], x);
      assert s == [s[0]] + s[1..];
      if x == s[0] {
        assert x !in s[1..];
      }
    }
  }

  lemma SortedHead<T(!new)>(s: seq<T>, t: seq<T>, lt: (T, T) -> bool)
    requires SortedBy(s, lt) && s != [] && t != [] && multiset(s) == multiset(t)
    ensures s[0] == t[0] || !lt(t[0], s[0])
    ensures t[0] in s
  {
    assert t[0] in multiset(s);
  }

  // Two sorted arrangements of the same elements agree when the comparator separates them.
  lemma {:induction false} SortedUnique<T(!new)>(s: seq<T>, t: seq<T>, lt: (T, T) -> bool)
    requires SortedBy(s, lt) && SortedBy(t, lt) && multiset(s) == multiset(t)
    requires forall x, y :: x in s && y in s && !lt(x, y) && !lt(y, x) ==> x == y
    ensures s == t
  {
    assert |multiset(s)| == |multiset(t)|;
    if s != [] {
      SortedHead(s, t, lt);
      SortedHead(t, s, lt);
      MultisetHead(s);
      MultisetHead(t);
      CancelHead(s[0], multiset(s[1..]), multiset(t[1..]));
      SortedUnique(s[1..], t[1..], lt);
      assert s == [s[0]] + s[1..] && t == [t[0]] + t[1..];
    }
  }

  lemma CancelHead<T>(x: T, a: multiset<T>, b: multiset<T>)
    requires multiset{x} + a == multiset{x} + b
    ensures a == b
  {
    assert a == (multiset{x} + a) - multiset{x};
    assert b == (multiset{x} + b) - multiset{x};
  }
}

// JavaScript compares strings by code unit, left to right, a proper prefix first.
module Strings {

  predicate Less(a: string, b: string) {
    b != [] && (a == [] || a[0] < b[0] || (a[0] == b[0] && Less(a[1..], b[1..])))
  }

  // Where they first differ a has the smaller character, or a ends there and b goes on.
  lemma LessIff(a: string, b: string)
    ensures Less(a, b) <==> exists k :: FirstSmaller(a, b, k)
  {
    if Less(a, b) {
      var k := LessAt(a, b);
    }
    forall k | FirstSmaller(a, b, k) ensures Less(a, b) {
      SmallerIsLess(a, b, k);
    }
  }

  lemma {:induction false} LessAt(a: string, b: string) returns (k: nat)
    requires Less(a, b)
    ensures FirstSmaller(a, b, k)
  {
    if a != [] && a[0] == b[0] {
      k := LessAt(a[1..], b[1..]);
      assert a[..k + 1] == [a[0]] + a[1..][..k] && b[..k + 1] == [b[0]] + b[1..][..k];
      k := k + 1;
    } else {
      k := 0;
    }
  }

  lemma {:induction false} SmallerIsLess(a: string, b: string, k: nat)
    requires FirstSmaller(a, b, k)
    ensures Less(a, b)
  {
    if k > 0 {
      assert a[0] == a[..k][0] && b[0] == b[..k][0];
      assert a[1..][..k - 1] == a[..k][1..] && b[1..][..k - 1] == b[..k][1..];
      SmallerIsLess(a[1..], b[1..], k - 1);
    }
  }

  ghost predicate FirstSmaller(a: string, b: string, k: nat) {
    && k <= |a| && k < |b| && a[..k] == b[..k]
    && (k == |a| || a[k] < b[k])
  }

  lemma {:induction false} LessTotal(a: string, b: string)
    ensures !(Less(a, b) && Less(b, a))
    ensures Less(a, b) || Less(b, a) || a == b
  {
    if a != [] && b != [] && a[0] == b[0] {
      LessTotal(a[1..], b[1..]);
      if a[1..] == b[1..] {
        assert a == [a[0]] + a[1..] && b == [b[0]] + b[1..];
      }
    }
  }

  lemma {:induction false} LessTransitive(a: string, b: string, c: string)
    requires Less(a, b) && Less(b, c)
    ensures Less(a, c)
  {
    if a != [] && a[0] == b[0] && b[0] == c[0] {
      LessTransitive(a[1..], b[1..], c[1..]);
    }
  }

  // The first place of c in s, or |s|.
  function IndexOf(s: string, c: char): (k: nat)
    ensures k <= |s|
    ensures k < |s| ==> s[k] == c
    ensures forall i :: 0 <= i < k ==> s[i] != c
  {
    if s == [] || s[0] == c then 0 else 1 + IndexOf(s[1..], c)
  }

  lemma IndexIs(s: string, c: char, k: nat)
    requires k < |s| && s[k] == c && forall i :: 0 <= i < k ==> s[i] != c
    ensures IndexOf(s, c) == k
  {
  }

  // A separator that does not occur in the first part marks where to cut.
  lemma CutAt(k: string, c: char, x: string)
    requires c !in k
    ensures var s := k + [c] + x;
      IndexOf(s, c) == |k| && s[..|k|] == k && s[|k| + 1..] == x
  {
    var s := k + [c] + x;
    assert s[|k|] == c;
    assert forall j :: 0 <= j < |k| ==> s[j] == k[j] && k[j] in k;
  }
}
