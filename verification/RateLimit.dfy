// server/src/routing/rateLimit.js: requests per minute per key, counted in fixed windows. The counters
// live in a database shared by every replica; while it is unavailable each replica falls back to a
// memory of its own that keeps one window per key.
module RateLimit {
  import opened Seqs

  const WINDOW_MS := 60000

  datatype Key = Key(name: string)

  function WindowStart(now: int): (ws: int)
    ensures ws <= now < ws + 60000
  {
    now / WINDOW_MS * WINDOW_MS
  }

  // Windows are the minutes of the clock.
  lemma WindowsAreMinutes(now: int)
    ensures WindowStart(now) % 60000 == 0 && WindowStart(now) <= now < WindowStart(now) + 60000
  {
  }

  // Which counter a request was held against: the database, or one replica's memory.
  datatype Via = Database | Memory(replica: nat)

  // One call of the limiter; a limit of zero or less means unlimited.
  datatype Arrival = Arrival(via: Via, key: Key, rpm: int, now: int)

  // ---- The two stores -----------------------------------------------------------------------------------

  datatype Bucket = Bucket(key: Key, windowStart: int)
  type Counts = map<Bucket, nat>

  datatype Slot = Slot(windowStart: int, count: nat)
  type Slots = map<Key, Slot>

  function BucketOf(a: Arrival): Bucket {
    Bucket(a.key, WindowStart(a.now))
  }

  function Get(c: Counts, b: Bucket): nat {
    if b in c then c[b] else 0
  }

  function IsOverLimit(count: nat, rpm: int): bool {
    rpm > 0 && count > rpm
  }

  function Counted(c: Counts, a: Arrival): Counts {
    if a.rpm <= 0 then c else c[BucketOf(a) := Get(c, BucketOf(a)) + 1]
  }

  function CountsOver(c: Counts, a: Arrival): bool {
    IsOverLimit(Get(c, BucketOf(a)) + 1, a.rpm)
  }

  function SlotFor(m: Slots, a: Arrival): Slot {
    if a.key in m && m[a.key].windowStart == WindowStart(a.now) then m[a.key] else Slot(WindowStart(a.now), 0)
  }

  function Remembered(m: Slots, a: Arrival): Slots {
    if a.rpm <= 0 then m else m[a.key := SlotFor(m, a).(count := SlotFor(m, a).count + 1)]
  }

  function SlotsOver(m: Slots, a: Arrival): bool {
    IsOverLimit(SlotFor(m, a).count + 1, a.rpm)
  }

  // ---- As written ------------------------------------------------------------------------------------------

  class RateBuckets {
    var counts: Counts

    constructor ()
      ensures counts == map[]
    {
      counts := map[];
    }

    // findOneAndUpdate with $inc and upsert, returning the new document
    method Increment(b: Bucket) returns (count: nat)
      modifies this
      ensures counts == old(counts)[b := count] && count == Get(old(counts), b) + 1
    {
      count := Get(counts, b) + 1;
      counts := counts[b := count];
    }
  }

  class Limiter {
    const buckets: RateBuckets
    var mem: Slots

    constructor (buckets: RateBuckets)
      ensures this.buckets == buckets && mem == map[]
    {
      this.buckets := buckets;
      mem := map[];
    }

    method OverRpmLimitMemory(a: Arrival) returns (over: bool)
      modifies this
      ensures mem == Remembered(old(mem), a) && over == SlotsOver(old(mem), a)
    {
      if a.rpm <= 0 {
        return false;
      }
      var ws := WindowStart(a.now);
      if a.key !in mem || mem[a.key].windowStart != ws {
        mem := mem[a.key := Slot(ws, 0)];
      }
      mem := mem[a.key := mem[a.key].(count := mem[a.key].count + 1)];
      over := IsOverLimit(mem[a.key].count, a.rpm);
    }

    method OverRpmLimit(a: Arrival, unavailable: bool) returns (over: bool)
      modifies this, buckets
      ensures if unavailable then
          buckets.counts == old(buckets.counts) && mem == Remembered(old(mem), a) && over == SlotsOver(old(mem), a)
        else
          && buckets.counts == Counted(old(buckets.counts), a) && mem == old(mem)
          && over == CountsOver(old(buckets.counts), a)
    {
      if a.rpm <= 0 {
        return false;
      }
      if unavailable {
        over := OverRpmLimitMemory(a);
      } else {
        var count := buckets.Increment(BucketOf(a));
        over := IsOverLimit(count, a.rpm);
      }
    }
  }

  // ---- A fleet: any number of replicas, each call on the database or on its replica's memory ---------------

  datatype Fleet = Fleet(shared: Counts, local: map<nat, Slots>)

  function SlotsOf(f: Fleet, replica: nat): Slots {
    if replica in f.local then f.local[replica] else map[]
  }

  function Step(f: Fleet, a: Arrival): Fleet {
    match a.via
    case Database => f.(shared := Counted(f.shared, a))
    case Memory(r) => f.(local := f.local[r := Remembered(SlotsOf(f, r), a)])
  }

  function Over(f: Fleet, a: Arrival): bool {
    match a.via
    case Database => CountsOver(f.shared, a)
    case Memory(r) => SlotsOver(SlotsOf(f, r), a)
  }

  function Run(arrivals: seq<Arrival>): Fleet {
    if arrivals == [] then Fleet(map[], map[])
    else Step(Run(arrivals[..|arrivals| - 1]), arrivals[|arrivals| - 1])
  }

  // The arrivals let through, in order.
  function Admitted(arrivals: seq<Arrival>): seq<Arrival> {
    if arrivals == [] then []
    else
      var front, a := arrivals[..|arrivals| - 1], arrivals[|arrivals| - 1];
      Admitted(front) + if Over(Run(front), a) then [] else [a]
  }

  function InBucket(b: Bucket, via: Via): Arrival -> bool {
    (a: Arrival) => BucketOf(a) == b && a.via == via
  }

  function InBucketVias(b: Bucket, vias: seq<Via>): Arrival -> bool {
    (a: Arrival) => BucketOf(a) == b && a.via in vias
  }

  function InSpan(key: Key, from: int): (p: Arrival -> bool)
    ensures forall a :: p(a) <==> a.key == key && from <= a.now <= from + 59999
  {
    (a: Arrival) => a.key == key && from <= a.now < from + WINDOW_MS
  }

  function AdmittedIn(arrivals: seq<Arrival>, b: Bucket, via: Via): nat {
    |Filter(Admitted(arrivals), InBucket(b, via))|
  }

  function Min(a: nat, b: nat): nat {
    if a < b then a else b
  }

  ghost predicate SameLimit(arrivals: seq<Arrival>, key: Key, rpm: int) {
    forall k :: 0 <= k < |arrivals| && arrivals[k].key == key ==> arrivals[k].rpm == rpm
  }

  // The clock of a replica that answers from memory does not go back.
  ghost predicate ClocksAdvance(arrivals: seq<Arrival>) {
    forall j, k :: 0 <= j < k < |arrivals| && arrivals[j].via == arrivals[k].via && arrivals[j].via.Memory?
      ==> arrivals[j].now <= arrivals[k].now
  }

  lemma AdmittedSnoc(front: seq<Arrival>, a: Arrival, b: Bucket, via: Via)
    ensures AdmittedIn(front + [a], b, via) ==
      AdmittedIn(front, b, via) + if !Over(Run(front), a) && BucketOf(a) == b && a.via == via then 1 else 0
    ensures Run(front + [a]) == Step(Run(front), a)
  {
    hide Over, Step, BucketOf;
    assert (front + [a])[..|front|] == front;
    var passed := if Over(Run(front), a) then [] else [a];
    assert Admitted(front + [a]) == Admitted(front) + passed;
    FilterAppend(Admitted(front), passed, InBucket(b, via));
    assert Filter([a], InBucket(b, via)) == if BucketOf(a) == b && a.via == via then [a] else [];
  }

  lemma Fronts(arrivals: seq<Arrival>, key: Key, rpm: int)
    requires arrivals != [] && SameLimit(arrivals, key, rpm)
    ensures arrivals == arrivals[..|arrivals| - 1] + [arrivals[|arrivals| - 1]]
    ensures SameLimit(arrivals[..|arrivals| - 1], key, rpm)
    ensures ClocksAdvance(arrivals) ==> ClocksAdvance(arrivals[..|arrivals| - 1])
  {
  }

  // The shared counter admits exactly the first rpm requests of a window, whichever replicas they reach
  // and in whatever order their clocks stamp them.
  lemma {:induction false} SharedAdmitsFirst(arrivals: seq<Arrival>, b: Bucket, rpm: nat)
    requires rpm > 0 && SameLimit(arrivals, b.key, rpm)
    ensures AdmittedIn(arrivals, b, Database) == Min(rpm, Get(Run(arrivals).shared, b))
    ensures Get(Run(arrivals).shared, b) == |Filter(arrivals, InBucket(b, Database))|
  {
    hide AdmittedIn;
    if arrivals == [] {
      Nobody(b, Database);
    } else {
      var front, a := arrivals[..|arrivals| - 1], arrivals[|arrivals| - 1];
      Fronts(arrivals, b.key, rpm);
      SharedAdmitsFirst(front, b, rpm);
      AdmittedSnoc(front, a, b, Database);
      FilterAppend(front, [a], InBucket(b, Database));
      assert Filter([a], InBucket(b, Database)) == if BucketOf(a) == b && a.via == Database then [a] else [];
    }
  }

  // A limit of zero or less refuses nothing and counts nothing.
  lemma UnlimitedAdmitsAll(f: Fleet, a: Arrival)
    requires a.rpm <= 0
    ensures !Over(f, a) && Step(f, a).shared == f.shared
    ensures forall r :: SlotsOf(Step(f, a), r) == SlotsOf(f, r)
  {
  }

  lemma Nobody(b: Bucket, via: Via)
    ensures AdmittedIn([], b, via) == 0
  {
  }

  function Arrived(arrivals: seq<Arrival>, b: Bucket, via: Via): nat {
    |Filter(arrivals, InBucket(b, via))|
  }

  // What one replica's memory has counted of a bucket, by where its slot for the key stands.
  ghost predicate SlotCounts(arrivals: seq<Arrival>, r: nat, b: Bucket) {
    var m := SlotsOf(Run(arrivals), r);
    && (b.key !in m || m[b.key].windowStart < b.windowStart ==> Arrived(arrivals, b, Memory(r)) == 0)
    && (b.key in m && m[b.key].windowStart == b.windowStart ==> m[b.key].count == Arrived(arrivals, b, Memory(r)))
  }

  lemma ArrivedSnoc(front: seq<Arrival>, a: Arrival, b: Bucket, via: Via)
    ensures Arrived(front + [a], b, via) == Arrived(front, b, via) + if BucketOf(a) == b && a.via == via then 1 else 0
  {
    FilterAppend(front, [a], InBucket(b, via));
    assert Filter([a], InBucket(b, via)) == if BucketOf(a) == b && a.via == via then [a] else [];
  }

  // A key's slot stands at the window of some arrival of that key.
  lemma {:induction false} SlotHasArrival(arrivals: seq<Arrival>, r: nat, key: Key)
    requires key in SlotsOf(Run(arrivals), r)
    ensures exists k ::
      && 0 <= k < |arrivals| && arrivals[k].via == Memory(r)
      && WindowStart(arrivals[k].now) == SlotsOf(Run(arrivals), r)[key].windowStart
  {
    var front, a := arrivals[..|arrivals| - 1], arrivals[|arrivals| - 1];
    if a.via == Memory(r) && a.key == key && a.rpm > 0 {
      assert arrivals[|arrivals| - 1] == a;
    } else {
      SlotHasArrival(front, r, key);
      var k :| 0 <= k < |front| && front[k].via == Memory(r)
        && WindowStart(front[k].now) == SlotsOf(Run(front), r)[key].windowStart;
      assert arrivals[k] == front[k];
    }
  }

  lemma WindowsAdvance(now: int, later: int)
    requires now <= later
    ensures WindowStart(now) <= WindowStart(later)
  {
  }

  // So does the memory of a replica whose clock does not go back: exactly the first rpm requests of a
  // window that it answers are admitted, also once its slot has moved on.
  lemma {:induction false} MemoryAdmitsFirst(arrivals: seq<Arrival>, r: nat, b: Bucket, rpm: nat)
    requires rpm > 0 && SameLimit(arrivals, b.key, rpm) && ClocksAdvance(arrivals)
    ensures AdmittedIn(arrivals, b, Memory(r)) == Min(rpm, Arrived(arrivals, b, Memory(r)))
    ensures SlotCounts(arrivals, r, b)
  {
    hide AdmittedIn, WindowStart, Arrived;
    if arrivals == [] {
      Nobody(b, Memory(r));
      NobodyArrived(b, Memory(r));
    } else {
      var front, a := arrivals[..|arrivals| - 1], arrivals[|arrivals| - 1];
      Fronts(arrivals, b.key, rpm);
      MemoryAdmitsFirst(front, r, b, rpm);
      AdmittedSnoc(front, a, b, Memory(r));
      ArrivedSnoc(front, a, b, Memory(r));
      if a.via == Memory(r) && b.key in SlotsOf(Run(front), r) {
        SlotHasArrival(front, r, b.key);
        var k :| 0 <= k < |front| && front[k].via == Memory(r)
          && WindowStart(front[k].now) == SlotsOf(Run(front), r)[b.key].windowStart;
        assert front[k] == arrivals[k];
        WindowsAdvance(front[k].now, a.now);
      }
    }
  }

  lemma NobodyArrived(b: Bucket, via: Via)
    ensures Arrived([], b, via) == 0
  {
  }

  lemma {:induction false} FilterCover<T>(s: seq<T>, p: T -> bool, q: T -> bool, r: T -> bool)
    requires forall x :: x in s && p(x) ==> q(x) || r(x)
    ensures |Filter(s, p)| <= |Filter(s, q)| + |Filter(s, r)|
  {
    if s != [] {
      FilterCover(s[1..], p, q, r);
    }
  }

  lemma {:induction false} BoundPerVias(arrivals: seq<Arrival>, b: Bucket, rpm: nat, vias: seq<Via>)
    requires rpm > 0 && SameLimit(arrivals, b.key, rpm) && ClocksAdvance(arrivals)
    ensures |Filter(Admitted(arrivals), InBucketVias(b, vias))| <= rpm * |vias|
    decreases |vias|
  {
    hide Filter, Admitted, SameLimit, ClocksAdvance, Run;
    if vias == [] {
      FilterNone(Admitted(arrivals), InBucketVias(b, vias));
      assert |Filter(Admitted(arrivals), InBucketVias(b, vias))| == 0;
    } else {
      BoundPerVias(arrivals, b, rpm, vias[1..]);
      FilterCover(Admitted(arrivals), InBucketVias(b, vias), InBucket(b, vias[0]), InBucketVias(b, vias[1..]));
      match vias[0] {
        case Database => SharedAdmitsFirst(arrivals, b, rpm);
        case Memory(r) => MemoryAdmitsFirst(arrivals, r, b, rpm);
      }
      assert rpm * |vias| == rpm + rpm * |vias[1..]|;
    }
  }

  // At most 2 * rpm requests per counter are admitted in any half-open minute, and at most rpm in a
  // window. With the database always available that is one counter; every replica that ever answered
  // from memory adds one.
  lemma MinuteBound(arrivals: seq<Arrival>, key: Key, rpm: nat, vias: seq<Via>, from: int)
    requires rpm > 0 && SameLimit(arrivals, key, rpm) && ClocksAdvance(arrivals)
    requires forall k :: 0 <= k < |arrivals| ==> arrivals[k].via in vias
    ensures |Filter(Admitted(arrivals), InSpan(key, from))| <= 2 * rpm * |vias|
    ensures from == WindowStart(from) ==> |Filter(Admitted(arrivals), InSpan(key, from))| <= rpm * |vias|
  {
    var first := Bucket(key, WindowStart(from));
    var second := Bucket(key, WindowStart(from) + WINDOW_MS);
    AdmittedArrived(arrivals);
    forall a | a in Admitted(arrivals) && InSpan(key, from)(a)
      ensures InBucketVias(first, vias)(a) || InBucketVias(second, vias)(a)
      ensures from == WindowStart(from) ==> InBucketVias(first, vias)(a)
    {
      SpanCoversTwo(from, a.now);
    }
    BoundPerVias(arrivals, first, rpm, vias);
    BoundPerVias(arrivals, second, rpm, vias);
    assert 2 * rpm * |vias| == rpm * |vias| + rpm * |vias|;
    FilterCover(Admitted(arrivals), InSpan(key, from), InBucketVias(first, vias), InBucketVias(second, vias));
    if from == WindowStart(from) {
      FilterCover(Admitted(arrivals), InSpan(key, from), InBucketVias(first, vias), Never());
      FilterNone(Admitted(arrivals), Never());
      assert |Filter(Admitted(arrivals), Never())| == 0;
    }
  }

  function Never(): Arrival -> bool {
    (a: Arrival) => false
  }

  lemma SpanCoversTwo(from: int, now: int)
    requires from <= now < from + WINDOW_MS
    ensures WindowStart(now) == WindowStart(from) || WindowStart(now) == WindowStart(from) + WINDOW_MS
    ensures from == WindowStart(from) ==> WindowStart(now) == WindowStart(from)
  {
  }

  lemma {:induction false} AdmittedArrived(arrivals: seq<Arrival>)
    ensures forall a :: a in Admitted(arrivals) ==> exists k :: 0 <= k < |arrivals| && arrivals[k] == a
  {
    if arrivals != [] {
      var front, last := arrivals[..|arrivals| - 1], arrivals[|arrivals| - 1];
      AdmittedArrived(front);
      forall a | a in Admitted(arrivals) ensures exists k :: 0 <= k < |arrivals| && arrivals[k] == a {
        if a in Admitted(front) {
          var k :| 0 <= k < |front| && front[k] == a;
          assert arrivals[k] == a;
        } else {
          assert arrivals[|arrivals| - 1] == a;
        }
      }
    }
  }

  // ---- The bound is tight --------------------------------------------------------------------------------------

  function Burst(key: Key, rpm: nat, now: int, n: nat): (r: seq<Arrival>)
    ensures |r| == n && forall k :: 0 <= k < n ==> r[k] == Arrival(Database, key, rpm, now)
  {
    if n == 0 then [] else Burst(key, rpm, now, n - 1) + [Arrival(Database, key, rpm, now)]
  }

  // A burst at the end of one window and a burst at the start of the next: twice the limit in two
  // milliseconds.
  lemma MinuteBoundIsTight(key: Key, rpm: nat)
    requires rpm > 0
    ensures var arrivals := Burst(key, rpm, WINDOW_MS - 1, rpm) + Burst(key, rpm, WINDOW_MS, rpm);
      && |arrivals| == 2 * rpm && SameLimit(arrivals, key, rpm)
      && AdmittedIn(arrivals, Bucket(key, 0), Database) == rpm
      && AdmittedIn(arrivals, Bucket(key, WINDOW_MS), Database) == rpm
  {
    hide AdmittedIn, Run;
    var a, b := Burst(key, rpm, WINDOW_MS - 1, rpm), Burst(key, rpm, WINDOW_MS, rpm);
    assert WindowStart(WINDOW_MS - 1) == 0 && WindowStart(WINDOW_MS) == WINDOW_MS;
    var early, late := InBucket(Bucket(key, 0), Database), InBucket(Bucket(key, WINDOW_MS), Database);
    FilterAppend(a, b, early);
    FilterAppend(a, b, late);
    FilterEvery(a, early);
    FilterNone(b, early);
    FilterNone(a, late);
    FilterEvery(b, late);
    SharedAdmitsFirst(a + b, Bucket(key, 0), rpm);
    SharedAdmitsFirst(a + b, Bucket(key, WINDOW_MS), rpm);
  }

  // ---- One slot per key against the full table of windows ---------------------------------------------------------

  function FullRun(arrivals: seq<Arrival>): Counts {
    if arrivals == [] then map[] else Counted(FullRun(arrivals[..|arrivals| - 1]), arrivals[|arrivals| - 1])
  }

  function SlotRun(arrivals: seq<Arrival>): Slots {
    if arrivals == [] then map[] else Remembered(SlotRun(arrivals[..|arrivals| - 1]), arrivals[|arrivals| - 1])
  }

  // The slot holds its window's count, and no later window has one.
  ghost predicate Current(m: Slots, c: Counts, key: Key) {
    if key in m then
      && Get(c, Bucket(key, m[key].windowStart)) == m[key].count
      && forall ws :: ws > m[key].windowStart ==> Get(c, Bucket(key, ws)) == 0
    else
      forall ws :: Get(c, Bucket(key, ws)) == 0
  }

  lemma {:induction false} SlotIsCurrent(arrivals: seq<Arrival>, key: Key, now: int)
    requires forall j, k :: 0 <= j < k < |arrivals| ==> arrivals[j].now <= arrivals[k].now
    requires arrivals != [] ==> arrivals[|arrivals| - 1].now <= now
    ensures Current(SlotRun(arrivals), FullRun(arrivals), key)
    ensures key in SlotRun(arrivals) ==> SlotRun(arrivals)[key].windowStart <= WindowStart(now)
  {
    hide WindowStart;
    if arrivals != [] {
      var a := arrivals[|arrivals| - 1];
      SlotIsCurrent(arrivals[..|arrivals| - 1], key, a.now);
      WindowsAdvance(a.now, now);
    }
  }

  // While the clock does not go back, one slot per key gives the verdicts of the full table.
  lemma SlotMatchesTable(arrivals: seq<Arrival>, a: Arrival)
    requires forall j, k :: 0 <= j < k < |arrivals| ==> arrivals[j].now <= arrivals[k].now
    requires arrivals != [] ==> arrivals[|arrivals| - 1].now <= a.now
    ensures SlotsOver(SlotRun(arrivals), a) == CountsOver(FullRun(arrivals), a)
  {
    hide WindowStart;
    SlotIsCurrent(arrivals, a.key, a.now);
  }

  lemma {:induction false} SlotNeverAhead(arrivals: seq<Arrival>, key: Key)
    ensures key in SlotRun(arrivals) ==>
      SlotRun(arrivals)[key].count <= Get(FullRun(arrivals), Bucket(key, SlotRun(arrivals)[key].windowStart))
  {
    hide WindowStart;
    if arrivals != [] {
      SlotNeverAhead(arrivals[..|arrivals| - 1], key);
    }
  }

  // On any clock the slot refuses no request the table would admit.
  lemma SlotNeverStricter(arrivals: seq<Arrival>, a: Arrival)
    ensures SlotsOver(SlotRun(arrivals), a) ==> CountsOver(FullRun(arrivals), a)
  {
    hide WindowStart;
    SlotNeverAhead(arrivals, a.key);
  }

  // ---- On any clock: exactly when the slot is as good as the table ----------------------------------------------

  predicate IsIn(a: Arrival, key: Key, ws: int) {
    a.key == key && WindowStart(a.now) == ws
  }

  function InWindowTest(key: Key, ws: int): Arrival -> bool {
    (a: Arrival) => IsIn(a, key, ws)
  }

  function InWindow(arrivals: seq<Arrival>, key: Key, ws: int): nat {
    |Filter(arrivals, InWindowTest(key, ws))|
  }

  // No request of the key in another window lies between two of this one.
  ghost predicate Together(arrivals: seq<Arrival>, key: Key, ws: int) {
    forall i, j, l ::
      0 <= i < j < l < |arrivals| && IsIn(arrivals[i], key, ws) && IsIn(arrivals[l], key, ws) && arrivals[j].key == key
      ==> IsIn(arrivals[j], key, ws)
  }

  predicate SameVerdict(before: seq<Arrival>, a: Arrival) {
    SlotsOver(SlotRun(before), a) == CountsOver(FullRun(before), a)
  }

  ghost predicate SameVerdicts(arrivals: seq<Arrival>, key: Key) {
    forall k :: 0 <= k < |arrivals| && arrivals[k].key == key ==> SameVerdict(arrivals[..k], arrivals[k])
  }

  ghost predicate SameVerdictsIn(arrivals: seq<Arrival>, key: Key, ws: int) {
    forall k :: 0 <= k < |arrivals| && IsIn(arrivals[k], key, ws) ==> SameVerdict(arrivals[..k], arrivals[k])
  }

  // Where the key's last request is, or |arrivals|.
  function LastOf(arrivals: seq<Arrival>, key: Key): (k: nat)
    ensures k <= |arrivals|
    ensures k < |arrivals| ==>
      arrivals[k].key == key && forall j :: k < j < |arrivals| ==> arrivals[j].key != key
    ensures k == |arrivals| ==> forall j :: 0 <= j < |arrivals| ==> arrivals[j].key != key
  {
    if arrivals == [] then 0
    else if arrivals[|arrivals| - 1].key == key then |arrivals| - 1
    else
      var k := LastOf(arrivals[..|arrivals| - 1], key);
      if k < |arrivals| - 1 then k else |arrivals|
  }

  predicate LastIn(arrivals: seq<Arrival>, key: Key, ws: int) {
    LastOf(arrivals, key) < |arrivals| && IsIn(arrivals[LastOf(arrivals, key)], key, ws)
  }

  lemma InWindowSnoc(front: seq<Arrival>, a: Arrival, key: Key, ws: int)
    ensures InWindow(front + [a], key, ws) == InWindow(front, key, ws) + if IsIn(a, key, ws) then 1 else 0
  {
    FilterAppend(front, [a], InWindowTest(key, ws));
    assert Filter([a], InWindowTest(key, ws)) == if IsIn(a, key, ws) then [a] else [];
  }

  lemma NoneInWindow(arrivals: seq<Arrival>, key: Key, ws: int)
    ensures InWindow(arrivals, key, ws) == 0 <==> forall k :: 0 <= k < |arrivals| ==> !IsIn(arrivals[k], key, ws)
  {
    FilterMembers(arrivals, InWindowTest(key, ws));
    if k :| 0 <= k < |arrivals| && IsIn(arrivals[k], key, ws) {
      assert InWindowTest(key, ws)(arrivals[k]);
    } else {
      FilterNone(arrivals, InWindowTest(key, ws));
    }
  }

  lemma TogetherSnoc(front: seq<Arrival>, a: Arrival, key: Key, ws: int)
    ensures !IsIn(a, key, ws) ==> (Together(front + [a], key, ws) <==> Together(front, key, ws))
    ensures IsIn(a, key, ws) ==>
      (Together(front + [a], key, ws) <==>
         Together(front, key, ws) && (InWindow(front, key, ws) == 0 || LastIn(front, key, ws)))
  {
    hide IsIn;
    var all := front + [a];
    assert forall j :: 0 <= j < |front| ==> all[j] == front[j];
    if IsIn(a, key, ws) {
      NoneInWindow(front, key, ws);
      if InWindow(front, key, ws) != 0 {
        TogetherTail(front, a, key, ws);
      }
    }
  }

  lemma TogetherTail(front: seq<Arrival>, a: Arrival, key: Key, ws: int)
    requires IsIn(a, key, ws) && exists k :: 0 <= k < |front| && IsIn(front[k], key, ws)
    ensures Together(front + [a], key, ws) <==> Together(front, key, ws) && LastIn(front, key, ws)
  {
    hide Together, LastIn, IsIn;
    if Together(front + [a], key, ws) {
      TailWasTogether(front, a, key, ws);
    }
    if Together(front, key, ws) && LastIn(front, key, ws) {
      TailStaysTogether(front, a, key, ws);
    }
  }

  lemma TailWasTogether(front: seq<Arrival>, a: Arrival, key: Key, ws: int)
    requires IsIn(a, key, ws) && exists k :: 0 <= k < |front| && IsIn(front[k], key, ws)
    requires Together(front + [a], key, ws)
    ensures Together(front, key, ws) && LastIn(front, key, ws)
  {
    var all, q := front + [a], LastOf(front, key);
    var i :| 0 <= i < |front| && IsIn(front[i], key, ws);
    InIsOfKey(front[i], key, ws);
    hide IsIn;
    assert all[|front|] == a && q < |front| && i <= q;
    assert forall j :: 0 <= j < |front| ==> all[j] == front[j];
    assert IsIn(all[i], key, ws) && all[q].key == key && IsIn(all[|front|], key, ws);
  }

  lemma TailStaysTogether(front: seq<Arrival>, a: Arrival, key: Key, ws: int)
    requires IsIn(a, key, ws) && Together(front, key, ws) && LastIn(front, key, ws)
    ensures Together(front + [a], key, ws)
  {
    hide IsIn;
    var all, q := front + [a], LastOf(front, key);
    forall u, v, w | 0 <= u < v < w < |all| && IsIn(all[u], key, ws) && IsIn(all[w], key, ws) && all[v].key == key
      ensures IsIn(all[v], key, ws)
    {
      assert all[u] == front[u] && all[v] == front[v] && v <= q;
      if w < |front| {
        assert all[w] == front[w];
      }
    }
  }

  lemma {:induction false} TableCounts(arrivals: seq<Arrival>, key: Key, ws: int, rpm: nat)
    requires rpm > 0 && SameLimit(arrivals, key, rpm)
    ensures Get(FullRun(arrivals), Bucket(key, ws)) == InWindow(arrivals, key, ws)
  {
    hide WindowStart, InWindow;
    if arrivals == [] {
      NoneInWindow(arrivals, key, ws);
    } else {
      var front, a := arrivals[..|arrivals| - 1], arrivals[|arrivals| - 1];
      Fronts(arrivals, key, rpm);
      TableCounts(front, key, ws, rpm);
      InWindowSnoc(front, a, key, ws);
    }
  }

  // What the slot holds of a window: nothing once it has left it.
  function Held(arrivals: seq<Arrival>, key: Key, ws: int): nat {
    var m := SlotRun(arrivals);
    if key in m && m[key].windowStart == ws then m[key].count else 0
  }

  lemma {:induction false} SlotHolds(arrivals: seq<Arrival>, key: Key, ws: int, rpm: nat)
    requires rpm > 0 && SameLimit(arrivals, key, rpm)
    ensures LastIn(arrivals, key, ws) ==>
      && 0 < Held(arrivals, key, ws) <= InWindow(arrivals, key, ws)
      && (Held(arrivals, key, ws) == InWindow(arrivals, key, ws) <==> Together(arrivals, key, ws))
    ensures !LastIn(arrivals, key, ws) ==> Held(arrivals, key, ws) == 0
  {
    hide WindowStart, InWindow, Together;
    if arrivals != [] {
      var front, a := arrivals[..|arrivals| - 1], arrivals[|arrivals| - 1];
      Fronts(arrivals, key, rpm);
      SlotHolds(front, key, ws, rpm);
      InWindowSnoc(front, a, key, ws);
      TogetherSnoc(front, a, key, ws);
      if InWindow(front, key, ws) == 0 {
        NoneInWindow(front, key, ws);
        NoneTogether(front, key, ws);
      }
    }
  }

  lemma NoneTogether(arrivals: seq<Arrival>, key: Key, ws: int)
    requires forall k :: 0 <= k < |arrivals| ==> !IsIn(arrivals[k], key, ws)
    ensures Together(arrivals, key, ws)
  {
  }

  // The verdicts differ where the table has counted rpm requests of the window and the slot has not.
  lemma VerdictIs(before: seq<Arrival>, a: Arrival, key: Key, ws: int, rpm: nat)
    requires rpm > 0 && SameLimit(before, key, rpm) && IsIn(a, key, ws) && a.rpm == rpm
    ensures SameVerdict(before, a) <==> !(Held(before, key, ws) < rpm <= InWindow(before, key, ws))
    ensures Held(before, key, ws) <= InWindow(before, key, ws)
  {
    hide WindowStart, InWindow, Together;
    TableCounts(before, key, ws, rpm);
    SlotHolds(before, key, ws, rpm);
  }

  lemma {:induction false} OneWindow(arrivals: seq<Arrival>, key: Key, ws: int, rpm: nat)
    requires rpm > 0 && SameLimit(arrivals, key, rpm)
    ensures SameVerdictsIn(arrivals, key, ws) <==> Together(arrivals, key, ws) || InWindow(arrivals, key, ws) <= rpm
  {
    hide IsIn, SameVerdict, InWindow, Together, LastIn, Held;
    if arrivals == [] {
      NoneInWindow(arrivals, key, ws);
    } else {
      var front, a := arrivals[..|arrivals| - 1], arrivals[|arrivals| - 1];
      Fronts(arrivals, key, rpm);
      OneWindow(front, key, ws, rpm);
      InWindowSnoc(front, a, key, ws);
      TogetherSnoc(front, a, key, ws);
      VerdictsSnoc(front, a, key, ws);
      if IsIn(a, key, ws) {
        assert a.key == key by { InIsOfKey(a, key, ws); }
        VerdictIs(front, a, key, ws, rpm);
        SlotHolds(front, key, ws, rpm);
      }
    }
  }

  lemma InIsOfKey(a: Arrival, key: Key, ws: int)
    requires IsIn(a, key, ws)
    ensures a.key == key
  {
  }

  lemma VerdictsSnoc(front: seq<Arrival>, a: Arrival, key: Key, ws: int)
    ensures SameVerdictsIn(front + [a], key, ws) <==>
      SameVerdictsIn(front, key, ws) && (IsIn(a, key, ws) ==> SameVerdict(front, a))
  {
    hide IsIn, SameVerdict;
    var all := front + [a];
    assert forall k :: 0 <= k < |front| ==> all[k] == front[k] && all[..k] == front[..k];
    assert all[|front|] == a && all[..|front|] == front;
  }

  // On any clock, exactly when the slot gives the verdict of the table at every request of a key: each window
  // of the key has at most rpm requests, or has them together, with none of another window in between.
  lemma SlotMatchesTableIff(arrivals: seq<Arrival>, key: Key, rpm: nat)
    requires rpm > 0 && SameLimit(arrivals, key, rpm)
    ensures SameVerdicts(arrivals, key) <==>
      forall ws :: Together(arrivals, key, ws) || InWindow(arrivals, key, ws) <= rpm
  {
    hide SameVerdict, InWindow, Together, WindowStart;
    forall ws
      ensures SameVerdictsIn(arrivals, key, ws) <==> Together(arrivals, key, ws) || InWindow(arrivals, key, ws) <= rpm
    {
      OneWindow(arrivals, key, ws, rpm);
    }
    if forall ws :: SameVerdictsIn(arrivals, key, ws) {
      forall k | 0 <= k < |arrivals| && arrivals[k].key == key ensures SameVerdict(arrivals[..k], arrivals[k]) {
        assert SameVerdictsIn(arrivals, key, WindowStart(arrivals[k].now));
      }
    }
  }

  // A clock that steps back into a full window reopens it.
  lemma ClockBackReopensWindow(key: Key)
    ensures var a := Arrival(Memory(0), key, 1, 0); var b := Arrival(Memory(0), key, 1, WINDOW_MS);
      CountsOver(FullRun([a, b]), a) && !SlotsOver(SlotRun([a, b]), a)
  {
    var a, b := Arrival(Memory(0), key, 1, 0), Arrival(Memory(0), key, 1, WINDOW_MS);
    assert [a, b][..1] == [a] && [a][..0] == [];
    assert WindowStart(0) == 0 && WindowStart(WINDOW_MS) == WINDOW_MS;
    assert FullRun([a]) == map[Bucket(key, 0) := 1];
    assert SlotRun([a]) == map[key := Slot(0, 1)];
  }
}
