// server/src/routing/semanticCache.js: responses filed under the embedding of their prompt, served again
// to prompts whose embedding is close enough. Vectors are real, and the square root is a parameter.
module SemanticCache {
  import opened Options
  import opened Seqs

  type Vector = seq<real>

  // ---- cosineSimilarity --------------------------------------------------------------------------------------

  function Dot(a: Vector, b: Vector): real
    requires |a| == |b|
  {
    if a == [] then 0.0 else Dot(a[..|a| - 1], b[..|b| - 1]) + a[|a| - 1] * b[|b| - 1]
  }

  // What Math.sqrt promises of magnitudes, rounding aside.
  ghost predicate IsRoot(root: real -> real) {
    forall x :: x >= 0.0 ==> root(x) >= 0.0 && root(x) * root(x) == x
  }

  function Similarity(a: Vector, b: Vector, root: real -> real): real {
    if |a| != |b| || a == [] then 0.0 else Cosine(Dot(a, b), Product(root(Dot(a, a)), root(Dot(b, b))))
  }

  function Product(x: real, y: real): real {
    x * y
  }

  function Cosine(dot: real, denom: real): real {
    if denom > 0.0 then dot / denom else 0.0
  }

  method CosineSimilarity(a: Vector, b: Vector, root: real -> real) returns (r: real)
    ensures r == Similarity(a, b, root)
  {
    if |a| != |b| || a == [] {
      return 0.0;
    }
    var dot, magA, magB := 0.0, 0.0, 0.0;
    for i := 0 to |a|
      invariant dot == Dot(a[..i], b[..i]) && magA == Dot(a[..i], a[..i]) && magB == Dot(b[..i], b[..i])
    {
      assert a[..i + 1][..i] == a[..i] && b[..i + 1][..i] == b[..i];
      dot := dot + a[i] * b[i];
      magA := magA + a[i] * a[i];
      magB := magB + b[i] * b[i];
    }
    assert a[..|a|] == a && b[..|b|] == b;
    var denom := root(magA) * root(magB);
    r := if denom > 0.0 then dot / denom else 0.0;
  }

  // Vectors of different lengths, empty ones and zero ones have nothing in common.
  lemma NothingInCommon(a: Vector, b: Vector, root: real -> real)
    requires IsRoot(root) && (|a| != |b| || a == [] || Dot(a, a) == 0.0 || Dot(b, b) == 0.0)
    ensures Similarity(a, b, root) == 0.0
  {
    if |a| == |b| && a != [] {
      var x, y := root(Dot(a, a)), root(Dot(b, b));
      RootOfZero(root);
      ProductOfZero(x, y);
    }
  }

  lemma PositiveProduct(x: real, y: real)
    requires x > 0.0 && y > 0.0
    ensures Product(x, y) > 0.0
  {
  }

  lemma RootOfZero(root: real -> real)
    requires IsRoot(root)
    ensures root(0.0) == 0.0
  {
    var x := root(0.0);
    assert Product(x, x) == 0.0;
    hide Product;
    if x > 0.0 {
      PositiveProduct(x, x);
    }
  }

  lemma ProductOfZero(x: real, y: real)
    requires x == 0.0 || y == 0.0
    ensures Product(x, y) == 0.0
  {
  }

  lemma SquareNonnegative(x: real)
    ensures x * x >= 0.0
  {
  }

  lemma SquareOfDifference(x: real, y: real, t: real, u: real)
    ensures x * x * (t * t) - 2.0 * (x * y * (t * u)) + y * y * (u * u) >= 0.0
  {
    SquareNonnegative(x * t - y * u);
    assert (x * t - y * u) * (x * t - y * u) == x * x * (t * t) - 2.0 * (x * y * (t * u)) + y * y * (u * u);
  }

  // The squared length of t * a - u * b.
  lemma {:induction false} FormNonnegative(a: Vector, b: Vector, t: real, u: real)
    requires |a| == |b|
    ensures Dot(a, a) * (t * t) - 2.0 * (Dot(a, b) * (t * u)) + Dot(b, b) * (u * u) >= 0.0
  {
    if a != [] {
      var n := |a| - 1;
      FormNonnegative(a[..n], b[..n], t, u);
      SquareOfDifference(a[n], b[n], t, u);
      Distribute(Dot(a[..n], a[..n]), a[n] * a[n], t * t);
      Distribute(Dot(a[..n], b[..n]), a[n] * b[n], t * u);
      Distribute(Dot(b[..n], b[..n]), b[n] * b[n], u * u);
    }
  }

  lemma Distribute(x: real, y: real, z: real)
    ensures (x + y) * z == x * z + y * z
  {
  }

  lemma {:induction false} MagnitudeNonnegative(a: Vector)
    ensures Dot(a, a) >= 0.0
  {
    if a != [] {
      MagnitudeNonnegative(a[..|a| - 1]);
      SquareNonnegative(a[|a| - 1]);
    }
  }

  lemma SquareOfSum(d: real, p: real)
    ensures (d + p) * (d + p) == d * d + 2.0 * (d * p) + p * p
  {
  }

  lemma ProductOfSums(m: real, n: real, x: real, y: real)
    ensures (m + x * x) * (n + y * y) == m * n + m * (y * y) + n * (x * x) + (x * y) * (x * y)
  {
  }

  // The dot product the loop accumulates is never larger than the magnitudes allow.
  lemma {:induction false} DotBounded(a: Vector, b: Vector)
    requires |a| == |b|
    ensures Dot(a, b) * Dot(a, b) <= Dot(a, a) * Dot(b, b)
  {
    if a != [] {
      var n := |a| - 1;
      var x, y := a[n], b[n];
      DotBounded(a[..n], b[..n]);
      FormNonnegative(a[..n], b[..n], y, x);
      SquareOfSum(Dot(a[..n], b[..n]), x * y);
      ProductOfSums(Dot(a[..n], a[..n]), Dot(b[..n], b[..n]), x, y);
      assert y * x == x * y;
    }
  }

  lemma CosineBounded(d: real, r: real)
    requires d * d <= r * r && r >= 0.0
    ensures -1.0 <= Cosine(d, r) <= 1.0
  {
    LargerSquare(d, r);
    LargerSquare(-d, r);
    assert (-d) * (-d) == d * d;
    if r > 0.0 {
      DivideWithin(d, r);
    }
  }

  lemma LargerSquare(x: real, y: real)
    requires y >= 0.0
    ensures x > y ==> x * x > y * y
  {
    assert x * x == y * y + (x - y) * (x + y);
    if x > y {
      ProductPositive(x - y, x + y);
    }
  }

  lemma ProductPositive(x: real, y: real)
    requires x > 0.0 && y > 0.0
    ensures x * y > 0.0
  {
  }

  lemma DivideWithin(d: real, r: real)
    requires -r <= d <= r && r > 0.0
    ensures -1.0 <= d / r <= 1.0
  {
  }

  // Similarity lies in [-1, 1] and does not depend on which vector comes first.
  lemma SimilarityBounded(a: Vector, b: Vector, root: real -> real)
    requires IsRoot(root)
    ensures -1.0 <= Similarity(a, b, root) <= 1.0
    ensures Similarity(a, b, root) == Similarity(b, a, root)
  {
    if |a| == |b| && a != [] {
      hide Dot, Cosine;
      MagnitudeNonnegative(a);
      MagnitudeNonnegative(b);
      DotBounded(a, b);
      DotSymmetric(a, b);
      var p, q := root(Dot(a, a)), root(Dot(b, b));
      SquareOfProduct(p, q);
      ProductNonnegative(p, q);
      CosineBounded(Dot(a, b), Product(p, q));
      assert Product(p, q) == Product(q, p);
    }
  }

  lemma ProductNonnegative(p: real, q: real)
    requires p >= 0.0 && q >= 0.0
    ensures p * q >= 0.0
  {
  }

  lemma SquareOfProduct(p: real, q: real)
    ensures (p * q) * (p * q) == (p * p) * (q * q)
  {
  }

  lemma {:induction false} DotSymmetric(a: Vector, b: Vector)
    requires |a| == |b|
    ensures Dot(a, b) == Dot(b, a)
  {
    if a != [] {
      DotSymmetric(a[..|a| - 1], b[..|b| - 1]);
    }
  }

  // A prompt's own embedding is the closest there can be.
  lemma SelfSimilar(a: Vector, root: real -> real)
    requires IsRoot(root) && Dot(a, a) > 0.0
    ensures Similarity(a, a, root) == 1.0
  {
    hide Cosine, Product;
    SameDenominator(Dot(a, a), root);
    EmptyDot(a);
  }

  lemma EmptyDot(a: Vector)
    ensures Dot(a, a) > 0.0 ==> a != []
  {
  }

  lemma SameDenominator(m: real, root: real -> real)
    requires IsRoot(root) && m > 0.0
    ensures Cosine(m, Product(root(m), root(m))) == 1.0 && Cosine(-m, Product(root(m), root(m))) == -1.0
  {
    assert Product(root(m), root(m)) == m;
    assert m / m == 1.0;
    assert -m / m == -1.0;
  }

  // The range [0, 1] that the source's comment gives holds exactly where the dot product is not negative.
  lemma UnitRangeIff(a: Vector, b: Vector, root: real -> real)
    requires IsRoot(root)
    ensures 0.0 <= Similarity(a, b, root) <= 1.0 <==> (|a| == |b| ==> Dot(a, b) >= 0.0)
  {
    hide Cosine;
    SimilarityBounded(a, b, root);
    if |a| == |b| && a != [] {
      MagnitudeNonnegative(a);
      MagnitudeNonnegative(b);
      DotBounded(a, b);
      SignOfCosine(Dot(a, b), Dot(a, a), Dot(b, b), root);
    }
  }

  lemma SignOfCosine(d: real, m: real, n: real, root: real -> real)
    requires IsRoot(root) && m >= 0.0 && n >= 0.0 && d * d <= m * n
    ensures Cosine(d, Product(root(m), root(n))) >= 0.0 <==> d >= 0.0
  {
    var p, q := root(m), root(n);
    ProductNonnegative(p, q);
    if Product(p, q) > 0.0 {
      SignOfQuotient(d, Product(p, q));
    } else {
      ZeroProduct(p, q);
      assert m == 0.0 || n == 0.0;
      assert d * d <= 0.0;
      ZeroSquare(d);
    }
  }

  lemma SignOfQuotient(d: real, r: real)
    requires r > 0.0
    ensures d / r >= 0.0 <==> d >= 0.0
  {
    assert d / r * r == d;
  }

  lemma ZeroProduct(p: real, q: real)
    requires p >= 0.0 && q >= 0.0 && Product(p, q) <= 0.0
    ensures p == 0.0 || q == 0.0
  {
    if p > 0.0 && q > 0.0 {
      ProductPositive(p, q);
    }
  }

  lemma ZeroSquare(d: real)
    requires d * d <= 0.0
    ensures d == 0.0
  {
    LargerSquare(d, 0.0);
    LargerSquare(-d, 0.0);
    assert (-d) * (-d) == d * d;
  }

  lemma DotOne(x: real, y: real)
    ensures Dot([x], [y]) == Product(x, y)
  {
    assert [x][..0] == [] && [y][..0] == [];
  }

  // Opposite vectors are outside it: they meet at -1.
  lemma OppositesMeetBelowZero(x: real, root: real -> real)
    requires IsRoot(root) && x != 0.0
    ensures Similarity([x], [-x], root) == -1.0
  {
    hide Cosine, Product, Dot;
    var m := Product(x, x);
    DotOne(x, x);
    DotOne(-x, -x);
    DotOne(x, -x);
    Signs(x);
    SameDenominator(m, root);
  }

  lemma Signs(x: real)
    requires x != 0.0
    ensures Product(-x, -x) == Product(x, x) && Product(x, -x) == -Product(x, x) && Product(x, x) > 0.0
  {
    ProductPositive(if x > 0.0 then x else -x, if x > 0.0 then x else -x);
  }

  // ---- The store -----------------------------------------------------------------------------------------------

  const MAX_ENTRIES := 1000

  datatype Entry<V> = Entry(embedding: Vector, value: V, expiresAt: int)

  datatype Found<V> = Miss | Hit(value: V) | NullDereference

  function Live<V>(now: int): Entry<V> -> bool {
    (e: Entry<V>) => e.expiresAt >= now
  }

  // The place of the most similar entry among the first n, the earliest of equals; None while none
  // is above -1.
  ghost predicate IsNearest<V>(entries: seq<Entry<V>>, query: Vector, root: real -> real, n: nat, best: Option<nat>) {
    if best.Some? then
      && best.value < n <= |entries|
      && Similarity(query, entries[best.value].embedding, root) > -1.0
      && (forall j :: 0 <= j < n ==>
            Similarity(query, entries[j].embedding, root) <= Similarity(query, entries[best.value].embedding, root))
      && (forall j :: 0 <= j < best.value ==>
            Similarity(query, entries[j].embedding, root) < Similarity(query, entries[best.value].embedding, root))
    else
      n <= |entries| && forall j :: 0 <= j < n ==> Similarity(query, entries[j].embedding, root) <= -1.0
  }

  // The answer over the live entries. Where no entry is above -1 and the threshold lets -1 through,
  // the code reads a field of null.
  ghost predicate IsLookup<V>(live: seq<Entry<V>>, query: Vector, root: real -> real, threshold: real, r: Found<V>) {
    match r
    case Hit(v) => exists k: nat :: && IsNearest(live, query, root, |live|, Some(k)) && live[k].value == v
                                    && Similarity(query, live[k].embedding, root) >= threshold
    case NullDereference => IsNearest(live, query, root, |live|, None) && threshold <= -1.0
    case Miss =>
      && (forall j :: 0 <= j < |live| ==>
            || Similarity(query, live[j].embedding, root) < threshold
            || Similarity(query, live[j].embedding, root) <= -1.0)
      && (IsNearest(live, query, root, |live|, None) ==> threshold > -1.0)
  }

  lemma NoneYet<V>(entries: seq<Entry<V>>, query: Vector, root: real -> real)
    ensures IsNearest(entries, query, root, 0, None)
  {
  }

  // The similarity to beat: that of the best entry so far, or -1.
  function Best<V>(entries: seq<Entry<V>>, query: Vector, root: real -> real, best: Option<nat>): real
    requires best.Some? ==> best.value < |entries|
  {
    if best.Some? then Similarity(query, entries[best.value].embedding, root) else -1.0
  }

  lemma OneMore<V>(entries: seq<Entry<V>>, query: Vector, root: real -> real, i: nat, best: Option<nat>)
    requires i < |entries| && (best.Some? ==> best.value < |entries|) && IsNearest(entries, query, root, i, best)
    ensures var beats := Similarity(query, entries[i].embedding, root) > Best(entries, query, root, best);
      IsNearest(entries, query, root, i + 1, if beats then Some(i) else best)
  {
    hide Similarity;
  }

  lemma Answers<V>(entries: seq<Entry<V>>, query: Vector, root: real -> real, best: Option<nat>, threshold: real)
    requires (best.Some? ==> best.value < |entries|) && IsNearest(entries, query, root, |entries|, best)
    ensures IsLookup(entries, query, root, threshold,
              if Best(entries, query, root, best) < threshold then Miss
              else if best.Some? then Hit(entries[best.value].value) else NullDereference)
  {
    hide Similarity;
  }

  function Threshold(t: Option<real>): real {
    if t.Some? then t.value else 0.92
  }

  // The steps of a store, `get` reduced to its eviction.
  datatype Step<V> = SetStep(entry: Entry<V>) | GetStep(now: int) | ClearStep

  function After<V>(s: seq<Entry<V>>, step: Step<V>): seq<Entry<V>> {
    match step
    case SetStep(e) => (if |s| >= MAX_ENTRIES then s[1..] else s) + [e]
    case GetStep(now) => Filter(s, Live(now))
    case ClearStep => []
  }

  class Store<V(!new)> {
    var entries: seq<Entry<V>>

    constructor ()
      ensures entries == []
    {
      entries := [];
    }

    method EvictExpired(now: int)
      modifies this
      ensures entries == Filter(old(entries), Live(now))
    {
      var kept := [];
      for i := 0 to |entries|
        invariant entries == old(entries) && kept == Filter(entries[..i], Live(now))
      {
        FilterSnoc(entries, i, Live(now));
        if !(entries[i].expiresAt < now) {
          kept := kept + [entries[i]];
        }
      }
      assert entries[..|entries|] == entries;
      entries := kept;
    }

    // `query` is None where there is no text or no embedding of it; `wasEmpty` is what the store was
    // when the call began, before it waited for the embedding.
    method Get(wasEmpty: bool, query: Option<Vector>, threshold: Option<real>, now: int, root: real -> real)
      returns (r: Found<V>)
      modifies this
      ensures wasEmpty || query.None? ==> r == Miss && entries == old(entries)
      ensures !wasEmpty && query.Some? ==>
        && entries == After(old(entries), GetStep(now))
        && IsLookup(entries, query.value, root, if threshold.Some? then threshold.value else 0.92, r)
    {
      hide Similarity, IsNearest, IsLookup;
      if wasEmpty || query.None? {
        return Miss;
      }
      EvictExpired(now);
      var best: Option<nat>, bestSim := None, -1.0;
      NoneYet(entries, query.value, root);
      for i := 0 to |entries|
        invariant entries == Filter(old(entries), Live(now))
        invariant IsNearest(entries, query.value, root, i, best)
        invariant best.Some? ==> best.value < |entries|
        invariant bestSim == Best(entries, query.value, root, best)
      {
        var sim := CosineSimilarity(query.value, entries[i].embedding, root);
        OneMore(entries, query.value, root, i, best);
        if sim > bestSim {
          best, bestSim := Some(i), sim;
        }
      }
      if bestSim >= Threshold(threshold) {
        r := if best.Some? then Hit(entries[best.value].value) else NullDereference;
      } else {
        r := Miss;
      }
      Answers(entries, query.value, root, best, Threshold(threshold));
    }

    method Set(embedding: Option<Vector>, value: V, ttlMinutes: Option<int>, now: int)
      modifies this
      ensures embedding.None? ==> entries == old(entries)
      ensures embedding.Some? ==>
        var ttl := if ttlMinutes.Some? && ttlMinutes.value > 0 then ttlMinutes.value else 60;
        entries == After(old(entries), SetStep(Entry(embedding.value, value, now + ttl * 60 * 1000)))
    {
      if embedding.None? {
        return;
      }
      if |entries| >= MAX_ENTRIES {
        entries := entries[1..];
      }
      var ttl := if ttlMinutes.Some? && ttlMinutes.value > 0 then ttlMinutes.value else 60;
      entries := entries + [Entry(embedding.value, value, now + ttl * 60 * 1000)];
    }

    method Clear()
      modifies this
      ensures entries == After(old(entries), ClearStep)
    {
      entries := [];
    }
  }

  // A lookup has one answer for any threshold above -1, and can only fail on a null at or below it.
  lemma LookupIsDetermined<V>(live: seq<Entry<V>>, query: Vector, root: real -> real, threshold: real, r: Found<V>,
                              s: Found<V>)
    requires IsLookup(live, query, root, threshold, r) && IsLookup(live, query, root, threshold, s)
    ensures r == s
    ensures r == NullDereference <==>
      threshold <= -1.0 && forall j :: 0 <= j < |live| ==> Similarity(query, live[j].embedding, root) <= -1.0
  {
    hide Similarity;
    if r.Hit? {
      var k: nat :| IsNearest(live, query, root, |live|, Some(k)) && live[k].value == r.value
        && Similarity(query, live[k].embedding, root) >= threshold;
      if s.Hit? {
        var l: nat :| IsNearest(live, query, root, |live|, Some(l)) && live[l].value == s.value;
        assert k == l;
      }
    }
  }

  // ---- Runs ----------------------------------------------------------------------------------------------------

  function Run<V>(steps: seq<Step<V>>): seq<Entry<V>> {
    if steps == [] then [] else After(Run(steps[..|steps| - 1]), steps[|steps| - 1])
  }

  // No run of sets, gets and clears grows the store past its limit.
  lemma {:induction false} RunBounded<V>(steps: seq<Step<V>>)
    ensures |Run(steps)| <= 1000
  {
    if steps != [] {
      RunBounded(steps[..|steps| - 1]);
    }
  }

  // A later step that leaves an entry alone: it is not a clear, and not a get after the entry expired.
  predicate Spares<V>(step: Step<V>, e: Entry<V>) {
    match step
    case SetStep(_) => true
    case GetStep(now) => e.expiresAt >= now
    case ClearStep => false
  }

  function Sets<V>(steps: seq<Step<V>>): nat {
    if steps == [] then 0 else Sets(steps[..|steps| - 1]) + if steps[|steps| - 1].SetStep? then 1 else 0
  }

  lemma SetsGrow<V>(steps: seq<Step<V>>, step: Step<V>)
    ensures Sets<V>([]) == 0 && Sets(steps + [step]) == Sets(steps) + if step.SetStep? then 1 else 0
  {
    assert (steps + [step])[..|steps|] == steps;
  }

  // e is in s with at most `behind` entries after it.
  ghost predicate HeldWithin<V>(s: seq<Entry<V>>, e: Entry<V>, behind: nat) {
    exists k :: 0 <= k < |s| && s[k] == e && |s| - 1 - k <= behind
  }

  lemma FilterHolds<V>(s: seq<Entry<V>>, e: Entry<V>, behind: nat, p: Entry<V> -> bool)
    requires HeldWithin(s, e, behind) && p(e)
    ensures HeldWithin(Filter(s, p), e, behind)
  {
    var k :| 0 <= k < |s| && s[k] == e && |s| - 1 - k <= behind;
    assert s == s[..k] + ([e] + s[k + 1..]);
    FilterAppend(s[..k], [e] + s[k + 1..], p);
    FilterAppend([e], s[k + 1..], p);
    assert Filter([e], p) == [e];
    var r := Filter(s, p);
    assert r == Filter(s[..k], p) + ([e] + Filter(s[k + 1..], p));
    assert r[|Filter(s[..k], p)|] == e;
  }

  lemma StepHolds<V>(s: seq<Entry<V>>, step: Step<V>, e: Entry<V>, behind: nat)
    requires HeldWithin(s, e, behind) && Spares(step, e) && |s| <= MAX_ENTRIES
    requires step.SetStep? ==> behind + 1 < MAX_ENTRIES
    ensures HeldWithin(After(s, step), e, if step.SetStep? then behind + 1 else behind)
  {
    match step {
      case SetStep(latest) =>
        var k :| 0 <= k < |s| && s[k] == e && |s| - 1 - k <= behind;
        assert After(s, step)[if |s| >= MAX_ENTRIES then k - 1 else k] == e;
      case GetStep(now) => FilterHolds(s, e, behind, Live(now));
      case ClearStep =>
    }
  }

  // The oldest entries go first: an entry is still there until it is cleared, found expired, or
  // followed by a thousand more.
  lemma {:induction false} EntryIsRetained<V>(before: seq<Step<V>>, e: Entry<V>, later: seq<Step<V>>)
    requires Sets(later) < 1000 && forall k :: 0 <= k < |later| ==> Spares(later[k], e)
    ensures HeldWithin(Run(before + [SetStep(e)] + later), e, Sets(later))
  {
    hide After, Spares;
    var steps := before + [SetStep(e)] + later;
    RunBounded(steps[..|steps| - 1]);
    if later == [] {
      assert steps == before + [SetStep(e)];
      assert steps[..|steps| - 1] == before;
      JustSet(Run(before), e);
    } else {
      var front, last := later[..|later| - 1], later[|later| - 1];
      EntryIsRetained(before, e, front);
      assert steps[..|steps| - 1] == before + [SetStep(e)] + front;
      StepHolds(Run(before + [SetStep(e)] + front), last, e, Sets(front));
    }
  }

  lemma JustSet<V>(s: seq<Entry<V>>, e: Entry<V>)
    ensures HeldWithin(After(s, SetStep(e)), e, 0)
  {
    var now := After(s, SetStep(e));
    assert now[|now| - 1] == e;
  }
}
