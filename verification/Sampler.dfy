// server/src/eval/dataset.js: picking the records of an evaluation dataset. Duplicated prompts are
// dropped, then strata take turns until the target is reached, so that none of them dominates.
module Sampler {
  import opened Seqs

  // ---- dedupeByPromptHash ---------------------------------------------------------------------------------

  ghost predicate DistinctBy<R, H>(s: seq<R>, hash: R -> H) {
    forall i, j :: 0 <= i < j < |s| ==> hash(s[i]) != hash(s[j])
  }

  function Hashes<R, H>(s: seq<R>, hash: R -> H): set<H> {
    set i | 0 <= i < |s| :: hash(s[i])
  }

  // The first record of each prompt, in order.
  function Firsts<R, H(==)>(s: seq<R>, hash: R -> H): seq<R> {
    if s == [] then []
    else
      var front, r := s[..|s| - 1], s[|s| - 1];
      Firsts(front, hash) + if hash(r) in Hashes(front, hash) then [] else [r]
  }

  method DedupeByPromptHash<R, H(==)>(records: seq<R>, hash: R -> H) returns (out: seq<R>)
    ensures out == Firsts(records, hash)
  {
    var seen: set<H> := {};
    out := [];
    for i := 0 to |records|
      invariant seen == Hashes(records[..i], hash)
      invariant out == Firsts(records[..i], hash)
    {
      var h := hash(records[i]);
      assert records[..i + 1][..i] == records[..i];
      HashesSnoc(records, i, hash);
      if h in seen {
        continue;
      }
      seen := seen + {h};
      out := out + [records[i]];
    }
    assert records[..|records|] == records;
  }

  lemma HashesSnoc<R, H>(s: seq<R>, i: nat, hash: R -> H)
    requires i < |s|
    ensures Hashes(s[..i + 1], hash) == Hashes(s[..i], hash) + {hash(s[i])}
  {
    var more := s[..i + 1];
    forall h | h in Hashes(s[..i], hash) + {hash(s[i])} ensures h in Hashes(more, hash) {
      if h == hash(s[i]) {
        assert more[i] == s[i];
      } else {
        var k :| 0 <= k < i && hash(s[k]) == h;
        assert more[k] == s[k];
      }
    }
  }

  // One record per prompt, none lost, each the earliest of its prompt.
  lemma {:induction false} FirstsKeepEachPromptOnce<R, H>(s: seq<R>, hash: R -> H)
    ensures DistinctBy(Firsts(s, hash), hash)
    ensures Hashes(Firsts(s, hash), hash) == Hashes(s, hash)
    ensures forall k :: 0 <= k < |s| && hash(s[k]) !in Hashes(s[..k], hash) ==> s[k] in Firsts(s, hash)
  {
    if s != [] {
      hide Hashes;
      var front, r := s[..|s| - 1], s[|s| - 1];
      FirstsKeepEachPromptOnce(front, hash);
      var kept := Firsts(front, hash);
      HashesSnoc(s, |front|, hash);
      assert s[..|front| + 1] == s;
      if hash(r) !in Hashes(front, hash) {
        HashesAppend(kept, r, hash);
        DistinctAppend(kept, r, hash);
      } else {
        assert Firsts(s, hash) == kept;
      }
      forall k | 0 <= k < |s| && hash(s[k]) !in Hashes(s[..k], hash) ensures s[k] in Firsts(s, hash) {
        if k < |front| {
          assert front[k] == s[k] && front[..k] == s[..k];
        } else {
          assert s[..k] == front;
        }
      }
    }
  }

  lemma HashesAppend<R, H>(s: seq<R>, r: R, hash: R -> H)
    ensures Hashes(s + [r], hash) == Hashes(s, hash) + {hash(r)}
  {
    HashesSnoc(s + [r], |s|, hash);
    assert (s + [r])[..|s|] == s && (s + [r])[..|s| + 1] == s + [r];
  }

  lemma DistinctAppend<R, H>(s: seq<R>, r: R, hash: R -> H)
    requires DistinctBy(s, hash) && hash(r) !in Hashes(s, hash)
    ensures DistinctBy(s + [r], hash)
  {
    forall i | 0 <= i < |s| ensures hash(s[i]) != hash(r) {
      assert hash(s[i]) in Hashes(s, hash);
    }
  }

  // ---- Strata -----------------------------------------------------------------------------------------------

  // An entry of the insertion-ordered Map from stratum key to queue.
  datatype Stratum<K, R> = Stratum(key: K, queue: seq<R>)

  function OfKey<K(==), R>(key: R -> K, k: K): R -> bool {
    (r: R) => key(r) == k
  }

  function FindStratum<K(==), R>(strata: seq<Stratum<K, R>>, k: K): (i: nat)
    ensures i <= |strata| && (i < |strata| ==> strata[i].key == k)
    ensures forall j :: 0 <= j < i ==> strata[j].key != k
  {
    if strata == [] || strata[0].key == k then 0 else 1 + FindStratum(strata[1..], k)
  }

  function Push<K(==), R>(strata: seq<Stratum<K, R>>, k: K, r: R): seq<Stratum<K, R>> {
    var i := FindStratum(strata, k);
    if i < |strata| then strata[i := Stratum(k, strata[i].queue + [r])] else strata + [Stratum(k, [r])]
  }

  function Buckets<K(==), R>(records: seq<R>, key: R -> K): seq<Stratum<K, R>> {
    if records == [] then []
    else Push(Buckets(records[..|records| - 1], key), key(records[|records| - 1]), records[|records| - 1])
  }

  function Queues<K, R>(strata: seq<Stratum<K, R>>): (q: seq<seq<R>>)
    ensures |q| == |strata| && forall i :: 0 <= i < |q| ==> q[i] == strata[i].queue
  {
    if strata == [] then [] else Queues(strata[..|strata| - 1]) + [strata[|strata| - 1].queue]
  }

  // Each stratum has a key of its own and holds the records of that key in order; no record is without one.
  ghost predicate Stratifies<K(!new), R(!new)>(strata: seq<Stratum<K, R>>, records: seq<R>, key: R -> K) {
    && (forall i, j :: 0 <= i < j < |strata| ==> strata[i].key != strata[j].key)
    && (forall i :: 0 <= i < |strata| ==> strata[i].queue == Filter(records, OfKey(key, strata[i].key)))
    && (forall k :: (forall i :: 0 <= i < |strata| ==> strata[i].key != k) ==> Filter(records, OfKey(key, k)) == [])
  }

  lemma FilterLast<K, R>(front: seq<R>, r: R, key: R -> K, k: K)
    ensures Filter(front + [r], OfKey(key, k)) == Filter(front, OfKey(key, k)) + if key(r) == k then [r] else []
  {
    FilterAppend(front, [r], OfKey(key, k));
    assert Filter([r], OfKey(key, k)) == if key(r) == k then [r] else [];
  }

  lemma {:induction false} BucketsStratify<K(!new), R(!new)>(records: seq<R>, key: R -> K)
    ensures Stratifies(Buckets(records, key), records, key)
    ensures Size(Queues(Buckets(records, key))) == |records|
  {
    hide Filter;
    if records == [] {
      forall k ensures Filter(records, OfKey(key, k)) == [] {
        FilterNone(records, OfKey(key, k));
      }
    } else {
      var front, r := records[..|records| - 1], records[|records| - 1];
      BucketsStratify(front, key);
      assert records == front + [r];
      forall k
        ensures Filter(records, OfKey(key, k)) == Filter(front, OfKey(key, k)) + if key(r) == k then [r] else []
      {
        FilterLast(front, r, key, k);
      }
      PushStratifies(Buckets(front, key), front, r, key);
      PushSize(Buckets(front, key), key(r), r);
    }
  }

  lemma PushStratifies<K(!new), R(!new)>(strata: seq<Stratum<K, R>>, front: seq<R>, r: R, key: R -> K)
    requires Stratifies(strata, front, key)
    ensures Stratifies(Push(strata, key(r), r), front + [r], key)
  {
    hide Filter;
    var more := Push(strata, key(r), r);
    forall k
      ensures Filter(front + [r], OfKey(key, k)) == Filter(front, OfKey(key, k)) + if key(r) == k then [r] else []
    {
      FilterLast(front, r, key, k);
    }
    var i := FindStratum(strata, key(r));
    forall k | forall j :: 0 <= j < |more| ==> more[j].key != k ensures Filter(front + [r], OfKey(key, k)) == [] {
      assert more[i].key == key(r);
      forall j | 0 <= j < |strata| ensures strata[j].key != k {
        assert more[j].key == strata[j].key;
      }
    }
  }

  function Size<R>(queues: seq<seq<R>>): nat {
    if queues == [] then 0 else |queues[0]| + Size(queues[1..])
  }

  lemma {:induction false} SizeAppend<R>(a: seq<seq<R>>, b: seq<seq<R>>)
    ensures Size(a + b) == Size(a) + Size(b)
  {
    if a == [] {
      assert a + b == b;
    } else {
      assert (a + b)[1..] == a[1..] + b;
      SizeAppend(a[1..], b);
    }
  }

  lemma SizeUpdate<R>(queues: seq<seq<R>>, i: nat, q: seq<R>)
    requires i < |queues|
    ensures Size(queues[i := q]) == Size(queues) - |queues[i]| + |q|
  {
    assert queues == queues[..i] + ([queues[i]] + queues[i + 1..]);
    assert queues[i := q] == queues[..i] + ([q] + queues[i + 1..]);
    SizeAppend(queues[..i], [queues[i]] + queues[i + 1..]);
    SizeAppend(queues[..i], [q] + queues[i + 1..]);
  }

  lemma PushSize<K, R>(strata: seq<Stratum<K, R>>, k: K, r: R)
    ensures Size(Queues(Push(strata, k, r))) == Size(Queues(strata)) + 1
  {
    hide Size;
    var i := FindStratum(strata, k);
    if i < |strata| {
      assert Queues(Push(strata, k, r)) == Queues(strata)[i := strata[i].queue + [r]];
      SizeUpdate(Queues(strata), i, strata[i].queue + [r]);
    } else {
      assert Queues(Push(strata, k, r)) == Queues(strata) + [[r]];
      SizeAppend(Queues(strata), [[r]]);
      OneQueue(r);
    }
  }

  lemma OneQueue<R>(r: R)
    ensures Size([[r]]) == 1
  {
  }

  // ---- Taking turns ---------------------------------------------------------------------------------------

  function Heads<R>(queues: seq<seq<R>>): (h: seq<R>)
    ensures |h| <= Size(queues)
  {
    if queues == [] then [] else (if queues[0] == [] then [] else [queues[0][0]]) + Heads(queues[1..])
  }

  function Tails<R>(queues: seq<seq<R>>): (t: seq<seq<R>>)
    ensures |t| == |queues| && forall i :: 0 <= i < |t| ==> t[i] == if queues[i] == [] then [] else queues[i][1..]
  {
    if queues == [] then [] else [if queues[0] == [] then [] else queues[0][1..]] + Tails(queues[1..])
  }

  lemma {:induction false} RoundSize<R>(queues: seq<seq<R>>)
    ensures Size(queues) == |Heads(queues)| + Size(Tails(queues))
    ensures Heads(queues) == [] <==> Size(queues) == 0
  {
    if queues != [] {
      RoundSize(queues[1..]);
      assert Tails(queues)[1..] == Tails(queues[1..]);
    }
  }

  // Round after round, one record from every queue that has one.
  function RoundRobin<R>(queues: seq<seq<R>>): (r: seq<R>)
    ensures |r| == Size(queues)
    decreases Size(queues)
  {
    RoundSize(queues);
    if Size(queues) == 0 then [] else Heads(queues) + RoundRobin(Tails(queues))
  }

  function Sample<K(==), R>(records: seq<R>, target: nat, key: R -> K): seq<R> {
    if |records| <= target then records
    else
      var all := RoundRobin(Queues(Buckets(records, key)));
      if |all| <= target then all else all[..target]
  }

  lemma HeadsStep<R>(queues: seq<seq<R>>, i: nat)
    requires i < |queues|
    ensures Heads(queues[..i + 1]) == Heads(queues[..i]) + if queues[i] == [] then [] else [queues[i][0]]
    ensures queues[..i] + queues[i..] == queues
  {
    assert queues[..i + 1] == queues[..i] + [queues[i]];
    HeadsAppend(queues[..i], [queues[i]]);
    assert Heads([queues[i]]) == if queues[i] == [] then [] else [queues[i][0]];
  }

  lemma {:induction false} HeadsAppend<R>(a: seq<seq<R>>, b: seq<seq<R>>)
    ensures Heads(a + b) == Heads(a) + Heads(b)
  {
    if a == [] {
      assert a + b == b;
    } else {
      assert (a + b)[1..] == a[1..] + b;
      HeadsAppend(a[1..], b);
      Associative(if a[0] == [] then [] else [a[0][0]], Heads(a[1..]), Heads(b));
    }
  }

  // One turn over the queues, shifting each in place; stops in the middle when the target is reached.
  method TakeTurn<R>(queues: seq<seq<R>>, out: seq<R>, target: nat)
    returns (rest: seq<seq<R>>, more: seq<R>, progress: bool)
    requires |out| < target
    ensures if |out| + |Heads(queues)| >= target then |more| == target && more == (out + Heads(queues))[..target]
      else more == out + Heads(queues) && rest == Tails(queues)
    ensures progress <==> Heads(queues) != []
  {
    hide Heads, Tails;
    rest, more, progress := queues, out, false;
    for i := 0 to |queues|
      invariant |rest| == |queues|
      invariant forall k :: 0 <= k < |queues| ==>
        rest[k] == if k < i && queues[k] != [] then queues[k][1..] else queues[k]
      invariant more == out + Heads(queues[..i]) && |more| < target
      invariant progress <==> Heads(queues[..i]) != []
    {
      HeadsStep(queues, i);
      if rest[i] != [] {
        more := more + [rest[i][0]];
        rest := rest[i := rest[i][1..]];
        progress := true;
        if |more| >= target {
          assert queues == queues[..i + 1] + queues[i + 1..];
          HeadsAppend(queues[..i + 1], queues[i + 1..]);
          return;
        }
      }
    }
    assert queues[..|queues|] == queues;
    assert rest == Tails(queues);
  }

  method StratifiedSample<K(==), R>(records: seq<R>, target: nat, key: R -> K) returns (out: seq<R>)
    ensures out == Sample(records, target, key)
  {
    hide Size, Heads, Tails;
    if |records| <= target {
      return records;
    }
    var buckets: seq<Stratum<K, R>> := [];
    for i := 0 to |records|
      invariant buckets == Buckets(records[..i], key)
    {
      assert records[..i + 1][..i] == records[..i];
      buckets := Push(buckets, key(records[i]), records[i]);
    }
    assert records[..|records|] == records;
    var queues := Queues(buckets);
    ghost var all := RoundRobin(queues);
    out := [];
    var progress := true;
    while |out| < target && progress
      invariant |out| <= target
      invariant if |out| < target then out + RoundRobin(queues) == all else |all| >= target && out == all[..target]
      invariant !progress ==> out == all
      decreases target - |out|, if progress then 1 else 0
    {
      RoundSize(queues);
      ghost var before, turn := out, Heads(queues);
      Associative(before, turn, RoundRobin(Tails(queues)));
      queues, out, progress := TakeTurn(queues, out, target);
    }
  }

  // ---- What a sample is --------------------------------------------------------------------------------------

  ghost predicate Prefix<R>(a: seq<R>, b: seq<R>) {
    |a| <= |b| && a == b[..|a|]
  }

  // Every queue holds the records of its own key only.
  ghost predicate Sorted<K, R>(keys: seq<K>, queues: seq<seq<R>>, key: R -> K) {
    && |keys| == |queues| && Distinct(keys)
    && forall i, x :: 0 <= i < |queues| && x in queues[i] ==> key(x) == keys[i]
  }

  lemma {:induction false} HeadsOfKey<K(!new), R>(keys: seq<K>, queues: seq<seq<R>>, key: R -> K, k: K)
    requires Sorted(keys, queues, key)
    ensures k !in keys ==> Filter(Heads(queues), OfKey(key, k)) == []
    ensures forall i :: 0 <= i < |keys| && keys[i] == k ==>
      Filter(Heads(queues), OfKey(key, k)) == if queues[i] == [] then [] else [queues[i][0]]
  {
    if queues != [] {
      HeadsOfKey(keys[1..], queues[1..], key, k);
      var head := if queues[0] == [] then [] else [queues[0][0]];
      FilterAppend(head, Heads(queues[1..]), OfKey(key, k));
      if queues[0] != [] {
        assert queues[0][0] in queues[0];
      }
      assert Filter(head, OfKey(key, k)) == if keys[0] == k then head else [];
      forall i | 0 <= i < |keys| && keys[i] == k
        ensures Filter(Heads(queues), OfKey(key, k)) == if queues[i] == [] then [] else [queues[i][0]]
      {
        if i == 0 {
          assert k !in keys[1..];
        } else {
          assert keys[1..][i - 1] == k && queues[1..][i - 1] == queues[i];
        }
      }
    }
  }

  lemma FilterOfPrefix<R>(s: seq<R>, n: nat, p: R -> bool)
    requires n <= |s|
    ensures Prefix(Filter(s[..n], p), Filter(s, p))
  {
    assert s == s[..n] + s[n..];
    FilterAppend(s[..n], s[n..], p);
  }

  lemma TailsSorted<K, R>(keys: seq<K>, queues: seq<seq<R>>, key: R -> K)
    requires Sorted(keys, queues, key)
    ensures Sorted(keys, Tails(queues), key)
  {
    var t := Tails(queues);
    forall i, x | 0 <= i < |t| && x in t[i] ensures key(x) == keys[i] {
      assert x in queues[i];
    }
  }

  // How many of the first n records dealt come from queue i.
  function Dealt<K(==), R>(queues: seq<seq<R>>, n: nat, key: R -> K, k: K): seq<R>
    requires n <= Size(queues)
  {
    Filter(RoundRobin(queues)[..n], OfKey(key, k))
  }

  // A deal that outlasts the first round gives each queue its turn, then deals the rest.
  lemma DealtRound<K(!new), R>(keys: seq<K>, queues: seq<seq<R>>, key: R -> K, n: nat, i: nat)
    requires Sorted(keys, queues, key) && i < |keys| && n <= Size(queues)
    ensures n <= |Heads(queues)| ==>
      Prefix(Dealt(queues, n, key, keys[i]), if queues[i] == [] then [] else [queues[i][0]])
    ensures n > |Heads(queues)| ==>
      && n - |Heads(queues)| <= Size(Tails(queues))
      && Dealt(queues, n, key, keys[i]) ==
         (if queues[i] == [] then [] else [queues[i][0]]) + Dealt(Tails(queues), n - |Heads(queues)|, key, keys[i])
  {
    hide Size, Heads, Tails, Filter;
    RoundSize(queues);
    HeadsOfKey(keys, queues, key, keys[i]);
    var h := Heads(queues);
    if n <= |h| {
      FilterOfPrefix(h, n, OfKey(key, keys[i]));
      assert RoundRobin(queues)[..n] == h[..n] by {
        if n > 0 { assert Size(queues) != 0; }
      }
    } else {
      var rest := RoundRobin(Tails(queues));
      assert RoundRobin(queues)[..n] == h + rest[..n - |h|];
      FilterAppend(h, rest[..n - |h|], OfKey(key, keys[i]));
    }
  }

  lemma {:induction false} DealtIsPrefix<K(!new), R>(keys: seq<K>, queues: seq<seq<R>>, key: R -> K, n: nat, i: nat)
    requires Sorted(keys, queues, key) && i < |keys| && n <= Size(queues)
    ensures Prefix(Dealt(queues, n, key, keys[i]), queues[i])
    decreases Size(queues)
  {
    hide Size, Heads, Tails, Dealt;
    RoundSize(queues);
    DealtRound(keys, queues, key, n, i);
    if n > |Heads(queues)| {
      TailsSorted(keys, queues, key);
      DealtIsPrefix(keys, Tails(queues), key, n - |Heads(queues)|, i);
    }
  }

  lemma {:induction false} DealtIsFair<K(!new), R>(keys: seq<K>, queues: seq<seq<R>>, key: R -> K, n: nat, i: nat,
                                                   j: nat)
    requires Sorted(keys, queues, key) && i < |keys| && j < |keys| && n <= Size(queues)
    requires |Dealt(queues, n, key, keys[j])| < |queues[j]|
    ensures |Dealt(queues, n, key, keys[i])| <= |Dealt(queues, n, key, keys[j])| + 1
    decreases Size(queues)
  {
    hide Size, Heads, Tails, Dealt;
    RoundSize(queues);
    DealtRound(keys, queues, key, n, i);
    DealtRound(keys, queues, key, n, j);
    if n > |Heads(queues)| {
      TailsSorted(keys, queues, key);
      DealtIsFair(keys, Tails(queues), key, n - |Heads(queues)|, i, j);
    }
  }

  function KeysOf<K, R>(strata: seq<Stratum<K, R>>): (keys: seq<K>)
    ensures |keys| == |strata| && forall i :: 0 <= i < |keys| ==> keys[i] == strata[i].key
  {
    if strata == [] then [] else KeysOf(strata[..|strata| - 1]) + [strata[|strata| - 1].key]
  }

  lemma BucketsSorted<K(!new), R(!new)>(records: seq<R>, key: R -> K)
    ensures var b := Buckets(records, key); Sorted(KeysOf(b), Queues(b), key)
  {
    hide Size;
    BucketsStratify(records, key);
    var b := Buckets(records, key);
    forall i, x | 0 <= i < |b| && x in Queues(b)[i] ensures key(x) == KeysOf(b)[i] {
      FilterMembers(records, OfKey(key, b[i].key));
      assert OfKey(key, b[i].key)(x);
    }
  }

  function Taken<K(==), R>(records: seq<R>, target: nat, key: R -> K, k: K): seq<R> {
    Filter(Sample(records, target, key), OfKey(key, k))
  }

  lemma SampleIsDeal<K(!new), R(!new)>(records: seq<R>, target: nat, key: R -> K)
    requires |records| > target
    ensures var q := Queues(Buckets(records, key));
      && Size(q) == |records|
      && Sample(records, target, key) == RoundRobin(q)[..target]
      && forall k :: Taken(records, target, key, k) == Dealt(q, target, key, k)
  {
    hide Size, Heads, Tails;
    BucketsStratify(records, key);
  }

  // A stratum that no record belongs to contributes nothing; any other is one of the buckets.
  lemma StratumOf<K(!new), R(!new)>(records: seq<R>, key: R -> K, k: K)
    requires Filter(records, OfKey(key, k)) != []
    ensures exists i :: && 0 <= i < |Buckets(records, key)| && KeysOf(Buckets(records, key))[i] == k
                        && Queues(Buckets(records, key))[i] == Filter(records, OfKey(key, k))
  {
    hide Filter, Size;
    BucketsStratify(records, key);
    var b := Buckets(records, key);
    var i :| 0 <= i < |b| && b[i].key == k;
    assert KeysOf(b)[i] == k && Queues(b)[i] == b[i].queue;
  }

  lemma {:induction false} NoneOfKey<R>(s: seq<R>, all: seq<R>, p: R -> bool)
    requires Filter(all, p) == [] && forall x :: x in s ==> x in all
    ensures Filter(s, p) == []
  {
    FilterMembers(all, p);
    FilterNone(s, p);
  }

  lemma {:induction false} DealtFrom<R>(queues: seq<seq<R>>)
    ensures forall x :: x in RoundRobin(queues) ==> exists i :: 0 <= i < |queues| && x in queues[i]
    decreases Size(queues)
  {
    hide Size;
    RoundSize(queues);
    if Size(queues) != 0 {
      DealtFrom(Tails(queues));
      HeadsFrom(queues);
      forall x | x in RoundRobin(queues) ensures exists i :: 0 <= i < |queues| && x in queues[i] {
        if x !in Heads(queues) {
          var i :| 0 <= i < |queues| && x in Tails(queues)[i];
          assert x in queues[i];
        }
      }
    }
  }

  lemma {:induction false} HeadsFrom<R>(queues: seq<seq<R>>)
    ensures forall x :: x in Heads(queues) ==> exists i :: 0 <= i < |queues| && x in queues[i]
  {
    if queues != [] {
      HeadsFrom(queues[1..]);
      forall x | x in Heads(queues) ensures exists i :: 0 <= i < |queues| && x in queues[i] {
        if x in Heads(queues[1..]) {
          var i :| 0 <= i < |queues[1..]| && x in queues[1..][i];
          assert x in queues[i + 1];
        } else {
          assert x in queues[0];
        }
      }
    }
  }

  lemma SampleFromRecords<K(!new), R(!new)>(records: seq<R>, target: nat, key: R -> K)
    ensures forall x :: x in Sample(records, target, key) ==> x in records
  {
    if |records| > target {
      hide Size, RoundRobin;
      SampleIsDeal(records, target, key);
      BucketsStratify(records, key);
      var b := Buckets(records, key);
      DealtFrom(Queues(b));
      forall x | x in Sample(records, target, key) ensures x in records {
        assert x in RoundRobin(Queues(b));
        var i :| 0 <= i < |b| && x in Queues(b)[i];
        FilterMembers(records, OfKey(key, b[i].key));
      }
    }
  }

  // Exactly min(target, n) records, and of each stratum the earliest ones in order.
  lemma SampleTakesPrefixes<K(!new), R(!new)>(records: seq<R>, target: nat, key: R -> K, k: K)
    ensures |Sample(records, target, key)| == if |records| <= target then |records| else target
    ensures Prefix(Taken(records, target, key, k), Filter(records, OfKey(key, k)))
  {
    if |records| > target {
      hide Size, RoundRobin, Filter, Buckets;
      SampleIsDeal(records, target, key);
      if Filter(records, OfKey(key, k)) == [] {
        SampleFromRecords(records, target, key);
        NoneOfKey(Sample(records, target, key), records, OfKey(key, k));
      } else {
        StratumOf(records, key, k);
        var b := Buckets(records, key);
        var i :| 0 <= i < |b| && KeysOf(b)[i] == k && Queues(b)[i] == Filter(records, OfKey(key, k));
        BucketsSorted(records, key);
        DealtIsPrefix(KeysOf(b), Queues(b), key, target, i);
      }
    }
  }

  // No stratum runs ahead: while one still has records left, no other has given more than one more.
  lemma SampleIsFair<K(!new), R(!new)>(records: seq<R>, target: nat, key: R -> K, k: K, l: K)
    requires |Taken(records, target, key, l)| < |Filter(records, OfKey(key, l))|
    ensures |Taken(records, target, key, k)| <= |Taken(records, target, key, l)| + 1
  {
    if |records| > target {
      hide Size, RoundRobin, Filter, Buckets;
      SampleIsDeal(records, target, key);
      SampleTakesPrefixes(records, target, key, k);
      if Filter(records, OfKey(key, k)) != [] {
        StratumOf(records, key, k);
        StratumOf(records, key, l);
        var b := Buckets(records, key);
        var i :| 0 <= i < |b| && KeysOf(b)[i] == k && Queues(b)[i] == Filter(records, OfKey(key, k));
        var j :| 0 <= j < |b| && KeysOf(b)[j] == l && Queues(b)[j] == Filter(records, OfKey(key, l));
        BucketsSorted(records, key);
        DealtIsFair(KeysOf(b), Queues(b), key, target, i, j);
      }
    }
  }

  lemma PrefixMultiset<R>(a: seq<R>, b: seq<R>, x: R)
    requires Prefix(a, b)
    ensures multiset(a)[x] <= multiset(b)[x]
  {
    assert b == a + b[|a|..];
  }

  // The sample repeats no record more often than the records do.
  lemma SampleRepeatsNothing<K(!new), R(!new)>(records: seq<R>, target: nat, key: R -> K, x: R)
    ensures multiset(Sample(records, target, key))[x] <= multiset(records)[x]
  {
    hide Sample, Filter;
    SampleTakesPrefixes(records, target, key, key(x));
    PrefixMultiset(Taken(records, target, key, key(x)), Filter(records, OfKey(key, key(x))), x);
    FilterMultiset(records, OfKey(key, key(x)));
    FilterMultiset(Sample(records, target, key), OfKey(key, key(x)));
  }

  // Sampling deduplicated records never puts the same prompt into the dataset twice.
  lemma SampleKeepsPromptsDistinct<K(!new), R(!new), H>(records: seq<R>, target: nat, key: R -> K, hash: R -> H)
    ensures DistinctBy(Sample(Firsts(records, hash), target, key), hash)
  {
    hide Sample;
    var kept := Firsts(records, hash);
    FirstsKeepEachPromptOnce(records, hash);
    var s := Sample(kept, target, key);
    SampleFromRecords(kept, target, key);
    forall i, j | 0 <= i < j < |s| ensures hash(s[i]) != hash(s[j]) {
      if hash(s[i]) == hash(s[j]) {
        assert s[i] in kept && s[j] in kept;
        if s[i] == s[j] {
          TwiceCounts(s, i, j);
          SampleRepeatsNothing(kept, target, key, s[i]);
          DistinctMultiplicity(kept, s[i]);
          assert false;
        }
      }
    }
  }

  lemma TwiceCounts<R>(s: seq<R>, i: nat, j: nat)
    requires i < j < |s| && s[i] == s[j]
    ensures multiset(s)[s[i]] >= 2
  {
    assert s == s[..i] + [s[i]] + s[i + 1..j] + [s[j]] + s[j + 1..];
  }
}
