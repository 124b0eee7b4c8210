// server/src/eval/replay.js and server/src/eval/thresholds.js: replaying a candidate model over frozen
// items, aggregating the judged results into a summary, gating the run on thresholds, and re-scoring it
// from the stored results after a human corrected some verdicts.
module EvalRun {
  import opened Options
  import opened Seqs

  datatype Verdict = Better | Equal | Worse

  datatype Severity = Trivial | Normal | Critical

  function Weight(s: Severity): real {
    match s
    case Trivial => 0.3
    case Normal => 1.0
    case Critical => 3.0
  }

  datatype Score = Score(verdict: Option<Verdict>, severity: Severity, critical: bool, formatPass: bool,
                         disproved: bool, candidateCost: real, candidateLatency: real,
                         productionCost: real, productionLatency: real)

  datatype Entry = Errored | Scored(score: Score)

  // ---- Sums and counts ---------------------------------------------------------------------------------------

  function Sum<T>(s: seq<T>, f: T -> real): real {
    if s == [] then 0.0 else f(s[0]) + Sum(s[1..], f)
  }

  lemma {:induction false} SumAppend<T>(a: seq<T>, b: seq<T>, f: T -> real)
    ensures Sum(a + b, f) == Sum(a, f) + Sum(b, f)
  {
    if a == [] {
      assert a + b == b;
    } else {
      assert (a + b)[1..] == a[1..] + b;
      SumAppend(a[1..], b, f);
    }
  }

  lemma SumRemove<T>(s: seq<T>, k: nat, f: T -> real)
    requires k < |s|
    ensures Sum(s, f) == f(s[k]) + Sum(s[..k] + s[k + 1..], f)
  {
    hide Sum;
    assert s == s[..k] + ([s[k]] + s[k + 1..]);
    SumAppend(s[..k], [s[k]] + s[k + 1..], f);
    SumCons(s[k], s[k + 1..], f);
    SumAppend(s[..k], s[k + 1..], f);
  }

  lemma SumCons<T>(x: T, s: seq<T>, f: T -> real)
    ensures Sum([x] + s, f) == f(x) + Sum(s, f)
  {
    assert ([x] + s)[1..] == s;
  }

  lemma {:induction false} SumPermutes<T>(s: seq<T>, t: seq<T>, f: T -> real)
    requires multiset(s) == multiset(t)
    ensures Sum(s, f) == Sum(t, f)
    decreases |s|
  {
    assert |multiset(s)| == |multiset(t)|;
    if s != [] {
      assert s[0] in multiset(t);
      var k :| 0 <= k < |t| && t[k] == s[0];
      var rest := t[..k] + t[k + 1..];
      MultisetHead(s);
      MultisetRemove(t, k);
      CancelHead(s[0], multiset(s[1..]), multiset(rest));
      SumRemove(t, k, f);
      SumPermutes(s[1..], rest, f);
    }
  }

  lemma FilterPermutes<T(!new)>(s: seq<T>, t: seq<T>, p: T -> bool)
    requires multiset(s) == multiset(t)
    ensures multiset(Filter(s, p)) == multiset(Filter(t, p)) && |Filter(s, p)| == |Filter(t, p)|
  {
    FilterMultiset(s, p);
    FilterMultiset(t, p);
    assert multiset(Filter(s, p)) == multiset(Filter(t, p));
    assert |multiset(Filter(s, p))| == |multiset(Filter(t, p))|;
  }

  function Map<T, U>(s: seq<T>, f: T -> U): (r: seq<U>)
    ensures |r| == |s|
  {
    if s == [] then [] else [f(s[0])] + Map(s[1..], f)
  }

  lemma {:induction false} MapAppend<T, U>(a: seq<T>, b: seq<T>, f: T -> U)
    ensures Map(a + b, f) == Map(a, f) + Map(b, f)
  {
    if a == [] {
      assert a + b == b;
    } else {
      assert (a + b)[1..] == a[1..] + b;
      MapAppend(a[1..], b, f);
    }
  }

  lemma MapSnoc<T, U>(s: seq<T>, x: T, f: T -> U)
    ensures Map(s + [x], f) == Map(s, f) + [f(x)]
  {
    MapAppend(s, [x], f);
    assert Map([x], f) == [f(x)];
  }

  lemma SplitAt<T>(s: seq<T>, k: nat)
    requires k < |s|
    ensures s == s[..k] + ([s[k]] + s[k + 1..])
  {
  }

  lemma MapRemove<T, U>(s: seq<T>, k: nat, f: T -> U)
    requires k < |s|
    ensures multiset(Map(s, f)) == multiset{f(s[k])} + multiset(Map(s[..k] + s[k + 1..], f))
  {
    hide Map;
    SplitAt(s, k);
    MapMiddle(s[..k], s[k], s[k + 1..], f);
  }

  lemma MapMiddle<T, U>(a: seq<T>, x: T, b: seq<T>, f: T -> U)
    ensures multiset(Map(a + ([x] + b), f)) == multiset{f(x)} + multiset(Map(a + b, f))
  {
    hide Map;
    MapAppend(a, [x] + b, f);
    MapCons(x, b, f);
    MapAppend(a, b, f);
    MultisetMiddle(Map(a, f), f(x), Map(b, f));
  }

  lemma MultisetMiddle<T>(a: seq<T>, x: T, b: seq<T>)
    ensures multiset(a + ([x] + b)) == multiset{x} + multiset(a + b)
  {
  }

  lemma MapCons<T, U>(x: T, s: seq<T>, f: T -> U)
    ensures Map([x] + s, f) == [f(x)] + Map(s, f)
  {
    assert ([x] + s)[1..] == s;
  }

  lemma {:induction false} MapPermutes<T, U>(s: seq<T>, t: seq<T>, f: T -> U)
    requires multiset(s) == multiset(t)
    ensures multiset(Map(s, f)) == multiset(Map(t, f))
    decreases |s|
  {
    assert |multiset(s)| == |multiset(t)|;
    if s != [] {
      assert s[0] in multiset(t);
      var k :| 0 <= k < |t| && t[k] == s[0];
      var rest := t[..k] + t[k + 1..];
      MultisetHead(s);
      MultisetRemove(t, k);
      CancelHead(s[0], multiset(s[1..]), multiset(rest));
      MapRemove(t, k, f);
      MapPermutes(s[1..], rest, f);
    }
  }

  // ---- aggregate ----------------------------------------------------------------------------------------------

  datatype Tally = Tally(judged: nat, worse: nat)

  datatype Summary = Summary(
    total: nat, judged: nat, better: nat, equal: nat, worse: nat, worseRate: real, worseRateRaw: real,
    breakdown: map<Severity, Tally>, disprovedWorse: nat, criticalFailRate: real, formatPassRate: real,
    prodCost: real, candidateCost: real, costSaving: real, avgProdLatency: real, avgCandidateLatency: real,
    avgLatencyDelta: real, p95LatencyDelta: real, errored: nat)

  function IsScored(): Entry -> bool {
    (e: Entry) => e.Scored?
  }

  function ScoreOf(): Entry -> Score {
    (e: Entry) => if e.Scored? then e.score else Blank()
  }

  function Blank(): Score {
    Score(None, Normal, false, false, false, 0.0, 0.0, 0.0, 0.0)
  }

  function Scores(entries: seq<Entry>): (r: seq<Score>)
    ensures |r| <= |entries|
  {
    Map(Filter(entries, IsScored()), ScoreOf())
  }

  function IsJudged(): Score -> bool {
    (s: Score) => s.verdict.Some?
  }

  function Said(v: Verdict): Score -> bool {
    (s: Score) => s.verdict == Some(v)
  }

  function OfSeverity(sev: Severity): Score -> bool {
    (s: Score) => s.severity == sev
  }

  function IsCritical(): Score -> bool {
    (s: Score) => s.critical
  }

  function PassesFormat(): Score -> bool {
    (s: Score) => s.formatPass
  }

  function WasDisproved(): Score -> bool {
    (s: Score) => s.disproved
  }

  function HasBaseline(): Score -> bool {
    (s: Score) => s.productionLatency > 0.0
  }

  function WeightOf(): Score -> real {
    (s: Score) => Weight(s.severity)
  }

  function ProductionCost(): Score -> real {
    (s: Score) => s.productionCost
  }

  function CandidateCost(): Score -> real {
    (s: Score) => s.candidateCost
  }

  function ProductionLatency(): Score -> real {
    (s: Score) => s.productionLatency
  }

  function CandidateLatency(): Score -> real {
    (s: Score) => s.candidateLatency
  }

  function LatencyDelta(): Score -> real {
    (s: Score) => Ratio(s.candidateLatency - s.productionLatency, s.productionLatency)
  }

  function Itself(): real -> real {
    (x: real) => x
  }

  function Ascending(): (real, real) -> bool {
    (x: real, y: real) => x < y
  }

  // 0 where the divisor is.
  function Ratio(a: real, b: real): real {
    if b == 0.0 then 0.0 else a / b
  }

  function Share(k: nat, n: nat, none: real): real {
    if n == 0 then none else k as real / n as real
  }

  function Mean(total: real, n: nat): real {
    if n == 0 then total else total / n as real
  }

  function Percentile(sorted: seq<real>, p: nat): real {
    if sorted == [] then 0.0
    else
      var at := p * |sorted| / 100;
      sorted[if at < |sorted| then at else |sorted| - 1]
  }

  function TallyOf(judged: seq<Score>, sev: Severity): Tally {
    var g := Filter(judged, OfSeverity(sev));
    Tally(|g|, |Filter(g, Said(Worse))|)
  }

  function Breakdown(judged: seq<Score>): map<Severity, Tally> {
    map sev | sev in {Trivial, Normal, Critical} && TallyOf(judged, sev).judged > 0 :: TallyOf(judged, sev)
  }

  function WorseRate(judged: seq<Score>): real {
    Ratio(Sum(Filter(judged, Said(Worse)), WeightOf()), Sum(judged, WeightOf()))
  }

  function CostSaving(prodCost: real, candidateCost: real): real {
    if prodCost > 0.0 then (prodCost - candidateCost) / prodCost else 0.0
  }

  function Deltas(ok: seq<Score>): seq<real> {
    Sort(Map(Filter(ok, HasBaseline()), LatencyDelta()), Ascending())
  }

  function Summarise(ok: seq<Score>, total: nat, errored: nat): Summary {
    var judged := Filter(ok, IsJudged());
    var deltas := Deltas(ok);
    Summary(
      total, |judged|, |Filter(judged, Said(Better))|, |Filter(judged, Said(Equal))|, |Filter(judged, Said(Worse))|,
      WorseRate(judged), Share(|Filter(judged, Said(Worse))|, |judged|, 0.0), Breakdown(judged),
      |Filter(ok, WasDisproved())|, Share(|Filter(ok, IsCritical())|, |ok|, 0.0),
      Share(|Filter(ok, PassesFormat())|, |ok|, 1.0),
      Sum(ok, ProductionCost()), Sum(ok, CandidateCost()),
      CostSaving(Sum(ok, ProductionCost()), Sum(ok, CandidateCost())),
      Mean(Sum(ok, ProductionLatency()), |ok|), Mean(Sum(ok, CandidateLatency()), |ok|),
      Share0(Sum(deltas, Itself()), |deltas|), Percentile(deltas, 95), errored)
  }

  function Share0(total: real, n: nat): real {
    if n == 0 then 0.0 else total / n as real
  }

  function Aggregate(entries: seq<Entry>): Summary {
    var ok := Scores(entries);
    Summarise(ok, |entries|, |entries| - |ok|)
  }

  lemma {:induction false} DeltasPermute(s: seq<Score>, t: seq<Score>)
    requires multiset(s) == multiset(t)
    ensures Deltas(s) == Deltas(t)
  {
    hide Sort;
    FilterPermutes(s, t, HasBaseline());
    var a, b := Map(Filter(s, HasBaseline()), LatencyDelta()), Map(Filter(t, HasBaseline()), LatencyDelta());
    MapPermutes(Filter(s, HasBaseline()), Filter(t, HasBaseline()), LatencyDelta());
    var dom := iset x: real {:trigger x + 0.0} | true;
    SortSorted(a, Ascending(), dom);
    SortSorted(b, Ascending(), dom);
    SortedUnique(Sort(a, Ascending()), Sort(b, Ascending()), Ascending());
  }

  lemma TallyPermutes(s: seq<Score>, t: seq<Score>, sev: Severity)
    requires multiset(s) == multiset(t)
    ensures TallyOf(s, sev) == TallyOf(t, sev)
  {
    hide Filter;
    FilterPermutes(s, t, OfSeverity(sev));
    FilterPermutes(Filter(s, OfSeverity(sev)), Filter(t, OfSeverity(sev)), Said(Worse));
  }

  lemma WorseRatePermutes(s: seq<Score>, t: seq<Score>)
    requires multiset(s) == multiset(t)
    ensures WorseRate(s) == WorseRate(t)
  {
    hide Filter;
    FilterPermutes(s, t, Said(Worse));
    SumPermutes(Filter(s, Said(Worse)), Filter(t, Said(Worse)), WeightOf());
    SumPermutes(s, t, WeightOf());
  }

  lemma BreakdownPermutes(s: seq<Score>, t: seq<Score>)
    requires multiset(s) == multiset(t)
    ensures Breakdown(s) == Breakdown(t)
  {
    hide TallyOf;
    TallyPermutes(s, t, Trivial);
    TallyPermutes(s, t, Normal);
    TallyPermutes(s, t, Critical);
  }

  lemma SummarisePermutes(s: seq<Score>, t: seq<Score>, total: nat, errored: nat)
    requires multiset(s) == multiset(t)
    ensures Summarise(s, total, errored) == Summarise(t, total, errored)
  {
    hide Filter, Sum, WorseRate, Breakdown, Deltas, Share, Mean;
    var p, q := Filter(s, IsJudged()), Filter(t, IsJudged());
    FilterPermutes(s, t, IsJudged());
    FilterPermutes(p, q, Said(Better));
    FilterPermutes(p, q, Said(Equal));
    FilterPermutes(p, q, Said(Worse));
    WorseRatePermutes(p, q);
    BreakdownPermutes(p, q);
    FilterPermutes(s, t, WasDisproved());
    FilterPermutes(s, t, IsCritical());
    FilterPermutes(s, t, PassesFormat());
    SumPermutes(s, t, ProductionCost());
    SumPermutes(s, t, CandidateCost());
    SumPermutes(s, t, ProductionLatency());
    SumPermutes(s, t, CandidateLatency());
    DeltasPermute(s, t);
    assert |multiset(s)| == |multiset(t)|;
  }

  // The summary does not depend on the order of the entries, percentile and rates included.
  lemma AggregatePermutes(s: seq<Entry>, t: seq<Entry>)
    requires multiset(s) == multiset(t)
    ensures Aggregate(s) == Aggregate(t)
  {
    hide Filter, Map, Summarise;
    FilterPermutes(s, t, IsScored());
    MapPermutes(Filter(s, IsScored()), Filter(t, IsScored()), ScoreOf());
    assert |multiset(s)| == |multiset(t)|;
    SummarisePermutes(Scores(s), Scores(t), |s|, |s| - |Scores(s)|);
  }

  // ---- What the summary says ----------------------------------------------------------------------------------

  lemma ThreeWays(s: seq<Score>, p: Score -> bool, q: Score -> bool, r: Score -> bool)
    requires forall x :: x in s ==> p(x) || q(x) || r(x)
    requires forall x :: x in s ==> !(p(x) && q(x)) && !(p(x) && r(x)) && !(q(x) && r(x))
    ensures |s| == |Filter(s, p)| + |Filter(s, q)| + |Filter(s, r)|
  {
    FilterPartition(s, p, q, r);
    assert |multiset(s)| == |multiset(Filter(s, p)) + multiset(Filter(s, q)) + multiset(Filter(s, r))|;
  }

  function TallyIn(breakdown: map<Severity, Tally>, sev: Severity): Tally {
    if sev in breakdown then breakdown[sev] else Tally(0, 0)
  }

  // Nothing is lost or counted twice: entries are errored or scored, judged ones have one verdict and
  // one severity, and the tallies add up to them.
  lemma SummaryAddsUp(entries: seq<Entry>)
    ensures var s := Aggregate(entries); var b := s.breakdown;
      && s.total == |entries| && s.judged + s.errored <= s.total
      && s.judged == s.better + s.equal + s.worse
      && s.judged == TallyIn(b, Trivial).judged + TallyIn(b, Normal).judged + TallyIn(b, Critical).judged
  {
    hide Filter, Scores, Deltas, WorseRate, Sum;
    var ok := Scores(entries);
    var judged := Filter(ok, IsJudged());
    FilterMembers(ok, IsJudged());
    forall s | s in judged ensures Said(Better)(s) || Said(Equal)(s) || Said(Worse)(s) {
      assert IsJudged()(s);
      match s.verdict {
        case Some(Better) =>
        case Some(Equal) =>
        case Some(Worse) =>
      }
    }
    ThreeWays(judged, Said(Better), Said(Equal), Said(Worse));
    ThreeWays(judged, OfSeverity(Trivial), OfSeverity(Normal), OfSeverity(Critical));
  }

  lemma {:induction false} SumUnits(s: seq<Score>)
    requires forall x :: x in s ==> x.severity == Normal
    ensures Sum(s, WeightOf()) == |s| as real
  {
    if s != [] {
      SumUnits(s[1..]);
    }
  }

  // An uncurated run, with every severity normal, is gated on the plain worse rate.
  lemma UncuratedRateIsRaw(entries: seq<Entry>)
    requires forall e :: e in entries && e.Scored? ==> e.score.severity == Normal
    ensures Aggregate(entries).worseRate == Aggregate(entries).worseRateRaw
  {
    hide Filter, Deltas, Sum, Breakdown;
    var ok := Scores(entries);
    var judged := Filter(ok, IsJudged());
    ScoresFrom(entries);
    FilterMembers(ok, IsJudged());
    FilterMembers(judged, Said(Worse));
    SumUnits(judged);
    SumUnits(Filter(judged, Said(Worse)));
  }

  lemma {:induction false} ScoresFrom(entries: seq<Entry>)
    ensures forall s :: s in Scores(entries) ==> Scored(s) in entries
  {
    if entries != [] {
      var k := |entries| - 1;
      ScoresFrom(entries[..k]);
      assert entries == entries[..k] + [entries[k]];
      ScoresSnoc(entries[..k], entries[k]);
    }
  }

  // Position k holds the p-th percentile: more than p of every hundred values are at or before it, at most p
  // before it, those are no larger, and the rest are no smaller.
  ghost predicate CoversAt(sorted: seq<real>, p: nat, k: nat) {
    && k < |sorted| && Percentile(sorted, p) == sorted[k]
    && 100 * k <= p * |sorted| < 100 * (k + 1)
    && (forall i :: 0 <= i <= k ==> sorted[i] <= sorted[k])
    && (forall i :: k <= i < |sorted| ==> sorted[i] >= sorted[k])
  }

  // At least p of every hundred deltas are at or below the p-th percentile.
  lemma PercentileCovers(sorted: seq<real>, p: nat)
    requires sorted != [] && SortedBy(sorted, Ascending()) && p < 100
    ensures exists k: nat :: CoversAt(sorted, p, k)
  {
    var k := p * |sorted| / 100;
    Below(p, |sorted|);
    AroundPosition(sorted, k);
    assert CoversAt(sorted, p, k);
  }

  // The regression a summary reports is the 95th of the deltas of its items with a baseline.
  lemma SummaryPercentile(entries: seq<Entry>)
    requires Filter(Scores(entries), HasBaseline()) != []
    ensures var deltas := Deltas(Scores(entries));
      && multiset(deltas) == multiset(Map(Filter(Scores(entries), HasBaseline()), LatencyDelta()))
      && SortedBy(deltas, Ascending())
      && exists k: nat :: CoversAt(deltas, 95, k) && Aggregate(entries).p95LatencyDelta == deltas[k]
  {
    hide Scores, Filter, Map, Sum, WorseRate, Breakdown, Share, Mean, Share0, CostSaving, Percentile, CoversAt;
    var dom := iset x: real {:trigger x + 0.0} | true;
    SortSorted(Map(Filter(Scores(entries), HasBaseline()), LatencyDelta()), Ascending(), dom);
    var deltas := Deltas(Scores(entries));
    PercentileCovers(deltas, 95);
    var k: nat :| CoversAt(deltas, 95, k);
    assert deltas[k] == Percentile(deltas, 95) by {
      CoversValue(deltas, 95, k);
    }
  }

  lemma CoversValue(sorted: seq<real>, p: nat, k: nat)
    requires CoversAt(sorted, p, k)
    ensures k < |sorted| && Percentile(sorted, p) == sorted[k]
  {
  }

  lemma AroundPosition(sorted: seq<real>, k: nat)
    requires SortedBy(sorted, Ascending()) && k < |sorted|
    ensures forall i :: 0 <= i <= k ==> sorted[i] <= sorted[k]
    ensures forall i :: k <= i < |sorted| ==> sorted[i] >= sorted[k]
  {
    forall i | 0 <= i < |sorted| ensures (i <= k ==> sorted[i] <= sorted[k]) && (k <= i ==> sorted[i] >= sorted[k]) {
      if i < k {
        assert !Ascending()(sorted[k], sorted[i]);
      } else if k < i {
        assert !Ascending()(sorted[i], sorted[k]);
      }
    }
  }

  lemma Below(p: nat, n: nat)
    requires p < 100 && n > 0
    ensures p * n / 100 < n && 100 * (p * n / 100) <= p * n < 100 * (p * n / 100 + 1)
  {
    assert p * n < 100 * n;
  }

  method CountBySeverity(judged: seq<Score>) returns (breakdown: map<Severity, Tally>)
    ensures breakdown == Breakdown(judged)
  {
    hide TallyOf;
    var severities := [Trivial, Normal, Critical];
    breakdown := map[];
    for i := 0 to |severities|
      invariant breakdown.Keys == set j | 0 <= j < i && TallyOf(judged, severities[j]).judged > 0 :: severities[j]
      invariant forall sev :: sev in breakdown ==> breakdown[sev] == TallyOf(judged, sev)
    {
      var tally := TallyOf(judged, severities[i]);
      if tally.judged > 0 {
        breakdown := breakdown[severities[i] := tally];
      }
    }
    assert severities[0] == Trivial && severities[1] == Normal && severities[2] == Critical;
  }

  // ---- What one more entry does to the summary ------------------------------------------------------------------

  lemma CountGrows(s: seq<Score>, x: Score, p: Score -> bool)
    ensures Filter(s + [x], p) == Filter(s, p) + (if p(x) then [x] else [])
    ensures |Filter(s + [x], p)| == |Filter(s, p)| + One(p(x))
    ensures !p(x) ==> Filter(s + [x], p) == Filter(s, p)
  {
    FilterAppend(s, [x], p);
  }

  lemma SumGrows(s: seq<Score>, x: Score, f: Score -> real)
    ensures Sum(s + [x], f) == Sum(s, f) + f(x)
  {
    SumAppend(s, [x], f);
  }

  function One(b: bool): int {
    if b then 1 else 0
  }

  lemma JudgedGrows(ok: seq<Score>, x: Score, p: Score -> bool)
    requires p(x) ==> x.verdict.Some?
    ensures Filter(Filter(ok + [x], IsJudged()), p) == Filter(Filter(ok, IsJudged()), p) + (if p(x) then [x] else [])
  {
    CountGrows(ok, x, IsJudged());
    if x.verdict.Some? {
      CountGrows(Filter(ok, IsJudged()), x, p);
    } else {
      assert Filter(ok + [x], IsJudged()) == Filter(ok, IsJudged());
    }
  }

  lemma TallyGrows(ok: seq<Score>, x: Score, sev: Severity)
    ensures var t, t' := TallyOf(Filter(ok, IsJudged()), sev), TallyOf(Filter(ok + [x], IsJudged()), sev);
      && t'.judged == t.judged + One(x.verdict.Some? && x.severity == sev)
      && t'.worse == t.worse + One(x.verdict == Some(Worse) && x.severity == sev)
  {
    hide Filter;
    var judged := Filter(ok, IsJudged());
    CountGrows(ok, x, IsJudged());
    if x.verdict.Some? {
      CountGrows(judged, x, OfSeverity(sev));
      if x.severity == sev {
        CountGrows(Filter(judged, OfSeverity(sev)), x, Said(Worse));
      }
    }
  }

  lemma BreakdownIs(judged: seq<Score>, sev: Severity)
    ensures TallyIn(Breakdown(judged), sev) == TallyOf(judged, sev)
  {
    if TallyOf(judged, sev).judged == 0 {
      assert Filter(judged, OfSeverity(sev)) == [];
    }
  }

  // Each count moves by the entry's own field, and an entry that errored moves none but its own.
  lemma SummaryCounts(entries: seq<Entry>, e: Entry)
    ensures var s, s' := Aggregate(entries), Aggregate(entries + [e]);
      && s'.total == s.total + 1
      && (e.Errored? ==> s' == s.(total := s.total + 1, errored := s.errored + 1))
      && (e.Scored? ==>
            var x := e.score;
            && s'.errored == s.errored
            && s'.judged == s.judged + One(x.verdict.Some?)
            && s'.better == s.better + One(x.verdict == Some(Better))
            && s'.equal == s.equal + One(x.verdict == Some(Equal))
            && s'.worse == s.worse + One(x.verdict == Some(Worse))
            && s'.disprovedWorse == s.disprovedWorse + One(x.disproved)
            && forall sev ::
                 && TallyIn(s'.breakdown, sev).judged
                      == TallyIn(s.breakdown, sev).judged + One(x.verdict.Some? && x.severity == sev)
                 && TallyIn(s'.breakdown, sev).worse
                      == TallyIn(s.breakdown, sev).worse + One(x.verdict == Some(Worse) && x.severity == sev))
  {
    hide Filter, Scores, Deltas, WorseRate, Sum, Breakdown, TallyIn, TallyOf;
    hide Share, Mean, Share0, CostSaving, Percentile;
    ScoresSnoc(entries, e);
    if e.Scored? {
      var ok, x := Scores(entries), e.score;
      CountGrows(ok, x, IsJudged());
      JudgedGrows(ok, x, Said(Better));
      JudgedGrows(ok, x, Said(Equal));
      JudgedGrows(ok, x, Said(Worse));
      CountGrows(ok, x, WasDisproved());
      forall sev
        ensures
          var t, t' := TallyIn(Breakdown(Filter(ok, IsJudged())), sev),
                       TallyIn(Breakdown(Filter(ok + [x], IsJudged())), sev);
          && t'.judged == t.judged + One(x.verdict.Some? && x.severity == sev)
          && t'.worse == t.worse + One(x.verdict == Some(Worse) && x.severity == sev)
      {
        TallyGrows(ok, x, sev);
        BreakdownIs(Filter(ok, IsJudged()), sev);
        BreakdownIs(Filter(ok + [x], IsJudged()), sev);
      }
    } else {
      assert Scores(entries + [e]) == Scores(entries);
    }
  }

  lemma ShareTimes(k: nat, n: nat, none: real)
    requires n == 0 ==> k == 0
    ensures Share(k, n, none) * n as real == k as real
  {
  }

  lemma MeanTimes(total: real, n: nat)
    requires n == 0 ==> total == 0.0
    ensures Mean(total, n) * n as real == total
  {
  }

  // And so do costs and, times the number of scored entries, the rates and mean latencies.
  lemma SummarySums(entries: seq<Entry>, x: Score)
    ensures var s, s' := Aggregate(entries), Aggregate(entries + [Scored(x)]);
      var n, n' := (s.total - s.errored) as real, (s.total - s.errored + 1) as real;
      && s'.prodCost == s.prodCost + x.productionCost && s'.candidateCost == s.candidateCost + x.candidateCost
      && s'.avgProdLatency * n' == s.avgProdLatency * n + x.productionLatency
      && s'.avgCandidateLatency * n' == s.avgCandidateLatency * n + x.candidateLatency
      && s'.criticalFailRate * n' == s.criticalFailRate * n + One(x.critical) as real
      && s'.formatPassRate * n' == s.formatPassRate * n + One(x.formatPass) as real
  {
    hide Filter, Scores, Deltas, WorseRate, Sum, Breakdown, Share, Mean, Share0, CostSaving, Percentile;
    ScoresSnoc(entries, Scored(x));
    var ok := Scores(entries);
    assert Scores(entries + [Scored(x)]) == ok + [x];
    SumGrows(ok, x, ProductionCost());
    SumGrows(ok, x, CandidateCost());
    MeanGrows(ok, x, ProductionLatency());
    MeanGrows(ok, x, CandidateLatency());
    RateGrows(ok, x, IsCritical(), 0.0);
    RateGrows(ok, x, PassesFormat(), 1.0);
  }

  lemma MeanGrows(ok: seq<Score>, x: Score, f: Score -> real)
    ensures Mean(Sum(ok + [x], f), |ok| + 1) * (|ok| + 1) as real == Mean(Sum(ok, f), |ok|) * |ok| as real + f(x)
  {
    hide Sum, Mean;
    SumGrows(ok, x, f);
    EmptySum(f);
    MeanTimes(Sum(ok, f), |ok|);
    MeanTimes(Sum(ok + [x], f), |ok| + 1);
  }

  lemma EmptySum<T>(f: T -> real)
    ensures Sum([], f) == 0.0
  {
  }

  lemma RateGrows(ok: seq<Score>, x: Score, p: Score -> bool, none: real)
    ensures Share(|Filter(ok + [x], p)|, |ok| + 1, none) * (|ok| + 1) as real ==
      Share(|Filter(ok, p)|, |ok|, none) * |ok| as real + One(p(x)) as real
  {
    hide Share, Filter;
    CountGrows(ok, x, p);
    ShareTimes(|Filter(ok, p)|, |ok|, none);
    ShareTimes(|Filter(ok + [x], p)|, |ok| + 1, none);
  }

  lemma EmptySummary()
    ensures Aggregate([]) ==
      Summary(0, 0, 0, 0, 0, 0.0, 0.0, map[], 0, 0.0, 1.0, 0.0, 0.0, 0.0, 0.0, 0.0, 0.0, 0.0, 0)
  {
    NoScores();
    forall sev ensures sev !in Breakdown([]) {
      assert TallyOf([], sev).judged == 0;
    }
  }

  lemma CountHead(s: seq<Score>, p: Score -> bool)
    requires s != []
    ensures |Filter(s, p)| == |Filter(s[1..], p)| + One(p(s[0]))
  {
  }

  lemma {:induction false} WeightBySeverity(s: seq<Score>)
    ensures Sum(s, WeightOf()) ==
      0.3 * |Filter(s, OfSeverity(Trivial))| as real + |Filter(s, OfSeverity(Normal))| as real
      + 3.0 * |Filter(s, OfSeverity(Critical))| as real
  {
    if s != [] {
      WeightBySeverity(s[1..]);
      CountHead(s, OfSeverity(Trivial));
      CountHead(s, OfSeverity(Normal));
      CountHead(s, OfSeverity(Critical));
    }
  }

  lemma {:induction false} WorseOfSeverity(s: seq<Score>, sev: Severity)
    ensures |Filter(Filter(s, Said(Worse)), OfSeverity(sev))| == |Filter(Filter(s, OfSeverity(sev)), Said(Worse))|
  {
    if s != [] {
      WorseOfSeverity(s[1..], sev);
      var a, b := if Said(Worse)(s[0]) then [s[0]] else [], if OfSeverity(sev)(s[0]) then [s[0]] else [];
      FilterAppend(a, Filter(s[1..], Said(Worse)), OfSeverity(sev));
      FilterAppend(b, Filter(s[1..], OfSeverity(sev)), Said(Worse));
    }
  }

  lemma RatioTimes(a: real, b: real)
    requires b == 0.0 ==> a == 0.0
    ensures Ratio(a, b) * b == a && (b == 0.0 ==> Ratio(a, b) == 0.0)
  {
  }

  // The gated worse rate counts a trivial regression 0.3 times and a critical one three times; the raw one
  // counts them alike; the saving is positive exactly where the candidate is cheaper.
  lemma RatesInFields(entries: seq<Entry>)
    ensures var s := Aggregate(entries);
      var t, n, c := TallyIn(s.breakdown, Trivial), TallyIn(s.breakdown, Normal), TallyIn(s.breakdown, Critical);
      && s.worseRate * (0.3 * t.judged as real + n.judged as real + 3.0 * c.judged as real)
           == 0.3 * t.worse as real + n.worse as real + 3.0 * c.worse as real
      && (s.judged == 0 ==> s.worseRate == 0.0 && s.worseRateRaw == 0.0)
      && s.worseRateRaw * s.judged as real == s.worse as real
      && (s.prodCost > 0.0 ==> s.costSaving * s.prodCost == s.prodCost - s.candidateCost)
      && (s.prodCost > 0.0 ==> (s.costSaving > 0.0 <==> s.candidateCost < s.prodCost))
      && (s.prodCost <= 0.0 ==> s.costSaving == 0.0)
  {
    hide Scores, Filter, Deltas, Sum, Breakdown, TallyIn, TallyOf, WorseRate;
    hide Share, Mean, Share0, CostSaving, Percentile;
    var ok := Scores(entries);
    var judged := Filter(ok, IsJudged());
    BreakdownIs(judged, Trivial);
    BreakdownIs(judged, Normal);
    BreakdownIs(judged, Critical);
    WorseRateInFields(judged);
    ShareTimes(|Filter(judged, Said(Worse))|, |judged|, 0.0);
    NoneJudged(judged);
    SavingInFields(Sum(ok, ProductionCost()), Sum(ok, CandidateCost()));
  }

  lemma WorseRateInFields(judged: seq<Score>)
    ensures var t, n, c := TallyOf(judged, Trivial), TallyOf(judged, Normal), TallyOf(judged, Critical);
      WorseRate(judged) * (0.3 * t.judged as real + n.judged as real + 3.0 * c.judged as real)
        == 0.3 * t.worse as real + n.worse as real + 3.0 * c.worse as real
  {
    hide Filter, Sum, Ratio;
    var worse := Filter(judged, Said(Worse));
    WeightBySeverity(judged);
    WeightBySeverity(worse);
    WorseOfSeverity(judged, Trivial);
    WorseOfSeverity(judged, Normal);
    WorseOfSeverity(judged, Critical);
    var x, y := Sum(worse, WeightOf()), Sum(judged, WeightOf());
    if y == 0.0 {
      FewerThan(judged, OfSeverity(Trivial));
      FewerThan(judged, OfSeverity(Normal));
      FewerThan(judged, OfSeverity(Critical));
    }
    RatioTimes(x, y);
  }

  lemma FewerThan(judged: seq<Score>, p: Score -> bool)
    ensures |Filter(Filter(judged, p), Said(Worse))| <= |Filter(judged, p)|
  {
  }

  lemma NoneJudged(judged: seq<Score>)
    ensures judged == [] ==> WorseRate(judged) == 0.0 && Share(|Filter(judged, Said(Worse))|, |judged|, 0.0) == 0.0
  {
  }

  lemma SavingInFields(prod: real, cand: real)
    ensures prod > 0.0 ==>
      CostSaving(prod, cand) * prod == prod - cand && (CostSaving(prod, cand) > 0.0 <==> cand < prod)
    ensures prod <= 0.0 ==> CostSaving(prod, cand) == 0.0
  {
  }

  ghost predicate Within(x: Score, lo: real, hi: real) {
    lo * x.productionLatency <= x.candidateLatency - x.productionLatency <= hi * x.productionLatency
  }

  lemma {:induction false} DeltasWithin(s: seq<Score>, lo: real, hi: real)
    requires forall x :: x in s && x.productionLatency > 0.0 ==> Within(x, lo, hi)
    ensures forall d :: d in Map(Filter(s, HasBaseline()), LatencyDelta()) ==> lo <= d <= hi
    ensures (exists x :: x in s && x.productionLatency > 0.0) <==> Filter(s, HasBaseline()) != []
  {
    if s != [] {
      DeltasWithin(s[1..], lo, hi);
      DeltaHead(s);
      if s[0].productionLatency > 0.0 {
        DeltaWithin(s[0], lo, hi);
      }
      assert s == [s[0]] + s[1..];
    }
  }

  lemma DeltaWithin(x: Score, lo: real, hi: real)
    requires x.productionLatency > 0.0 && Within(x, lo, hi)
    ensures lo <= LatencyDelta()(x) <= hi
  {
    DivWithin(x.candidateLatency - x.productionLatency, x.productionLatency, lo, hi);
  }

  lemma DivWithin(a: real, n: real, lo: real, hi: real)
    requires n > 0.0 && lo * n <= a <= hi * n
    ensures lo <= a / n <= hi
  {
    var q := a / n;
    assert q * n == a;
    assert q < lo ==> (lo - q) * n > 0.0;
    assert q > hi ==> (q - hi) * n > 0.0;
  }

  function Times(x: real, n: nat): real {
    x * n as real
  }

  lemma TimesNext(x: real, n: nat)
    ensures Times(x, n + 1) == x + Times(x, n) && Times(x, 0) == 0.0
  {
  }

  lemma {:induction false} SumWithin(s: seq<real>, lo: real, hi: real)
    requires forall k :: 0 <= k < |s| ==> lo <= s[k] <= hi
    ensures Times(lo, |s|) <= Sum(s, Itself()) <= Times(hi, |s|)
  {
    hide Times;
    if s == [] {
      TimesNext(lo, 0);
      TimesNext(hi, 0);
    } else {
      SumWithin(s[1..], lo, hi);
      TimesNext(lo, |s| - 1);
      TimesNext(hi, |s| - 1);
    }
  }

  lemma SameRange(s: seq<real>, t: seq<real>, lo: real, hi: real)
    requires multiset(s) == multiset(t) && forall d :: d in s ==> lo <= d <= hi
    ensures forall k :: 0 <= k < |t| ==> lo <= t[k] <= hi
  {
    forall k | 0 <= k < |t| ensures lo <= t[k] <= hi {
      assert t[k] in multiset(t);
      assert t[k] in multiset(s);
      var j :| 0 <= j < |s| && s[j] == t[k];
      assert s[j] in s;
    }
  }

  // Where every replayed item is between lo and hi slower than its production latency, so are the mean and
  // the 95th percentile of the regression the gate reads; items without a baseline do not count.
  lemma LatencyWithin(entries: seq<Entry>, lo: real, hi: real)
    requires forall x :: Scored(x) in entries && x.productionLatency > 0.0 ==> Within(x, lo, hi)
    ensures var s := Aggregate(entries);
      if exists x :: Scored(x) in entries && x.productionLatency > 0.0
      then lo <= s.avgLatencyDelta <= hi && lo <= s.p95LatencyDelta <= hi
      else s.avgLatencyDelta == 0.0 && s.p95LatencyDelta == 0.0
  {
    hide Scores, Map, Filter, Sum, Sort, WorseRate, Breakdown, Share, Mean, CostSaving, Within;
    var ok := Scores(entries);
    ScoresFrom(entries);
    ScoresAll(entries);
    DeltasWithin(ok, lo, hi);
    var plain, deltas := Map(Filter(ok, HasBaseline()), LatencyDelta()), Deltas(ok);
    SameRange(plain, deltas, lo, hi);
    SumWithin(deltas, lo, hi);
    EmptySum(Itself());
    if deltas != [] {
      assert exists k :: 0 <= k < |deltas| && Percentile(deltas, 95) == deltas[k];
      DivWithin(Sum(deltas, Itself()), |deltas| as real, lo, hi);
    }
  }

  lemma {:induction false} ScoresAll(entries: seq<Entry>)
    ensures forall x :: Scored(x) in entries ==> x in Scores(entries)
  {
    if entries != [] {
      var k := |entries| - 1;
      ScoresAll(entries[..k]);
      assert entries == entries[..k] + [entries[k]];
      ScoresSnoc(entries[..k], entries[k]);
    }
  }

  // ---- evaluateRun ----------------------------------------------------------------------------------------------

  datatype Thresholds = Thresholds(minItems: nat, maxWorseRate: Option<real>, maxCriticalFailRate: Option<real>,
                                   minFormatPassRate: Option<real>, minCostSaving: Option<real>,
                                   maxLatencyRegression: Option<real>)

  datatype Failure = TooFewItems | TooManyWorse | TooManyCritical | FormatTooLow | SavingTooLow | LatencyRegressed

  predicate AtMost(x: real, limit: Option<real>) {
    limit.Some? ==> x <= limit.value
  }

  predicate AtLeast(x: real, limit: Option<real>) {
    limit.Some? ==> x >= limit.value
  }

  predicate Holds(s: Summary, t: Thresholds, f: Failure) {
    match f
    case TooFewItems => s.judged >= t.minItems
    case TooManyWorse => AtMost(s.worseRate, t.maxWorseRate)
    case TooManyCritical => AtMost(s.criticalFailRate, t.maxCriticalFailRate)
    case FormatTooLow => AtLeast(s.formatPassRate, t.minFormatPassRate)
    case SavingTooLow => AtLeast(s.costSaving, t.minCostSaving)
    case LatencyRegressed => AtMost(s.avgLatencyDelta, t.maxLatencyRegression)
  }

  ghost predicate Passes(s: Summary, t: Thresholds) {
    forall f: Failure :: Holds(s, t, f)
  }

  function Only(s: Summary, t: Thresholds, f: Failure): seq<Failure> {
    if Holds(s, t, f) then [] else [f]
  }

  function Failures(s: Summary, t: Thresholds): seq<Failure> {
    Only(s, t, TooFewItems) + Only(s, t, TooManyWorse) + Only(s, t, TooManyCritical)
    + Only(s, t, FormatTooLow) + Only(s, t, SavingTooLow) + Only(s, t, LatencyRegressed)
  }

  // The failures name every broken threshold and no other.
  lemma FailuresAreBroken(s: Summary, t: Thresholds)
    ensures forall f :: f in Failures(s, t) <==> !Holds(s, t, f)
    ensures Failures(s, t) == [] <==> Passes(s, t)
    ensures var broken := Failures(s, t);
      && (TooFewItems in broken <==> s.judged < t.minItems)
      && (TooManyWorse in broken <==> t.maxWorseRate.Some? && s.worseRate > t.maxWorseRate.value)
      && (TooManyCritical in broken <==>
            t.maxCriticalFailRate.Some? && s.criticalFailRate > t.maxCriticalFailRate.value)
      && (FormatTooLow in broken <==> t.minFormatPassRate.Some? && s.formatPassRate < t.minFormatPassRate.value)
      && (SavingTooLow in broken <==> t.minCostSaving.Some? && s.costSaving < t.minCostSaving.value)
      && (LatencyRegressed in broken <==>
            t.maxLatencyRegression.Some? && s.avgLatencyDelta > t.maxLatencyRegression.value)
  {
    HoldsInFields(s, t);
    hide Holds;
    forall f: Failure ensures f in Failures(s, t) <==> !Holds(s, t, f) {
      match f {
        case TooFewItems =>
        case TooManyWorse =>
        case TooManyCritical =>
        case FormatTooLow =>
        case SavingTooLow =>
        case LatencyRegressed =>
      }
    }
    if Failures(s, t) != [] {
      assert Failures(s, t)[0] in Failures(s, t);
    }
  }

  lemma HoldsInFields(s: Summary, t: Thresholds)
    ensures Holds(s, t, TooFewItems) <==> s.judged >= t.minItems
    ensures Holds(s, t, TooManyWorse) <==> t.maxWorseRate.None? || s.worseRate <= t.maxWorseRate.value
    ensures Holds(s, t, TooManyCritical) <==>
      t.maxCriticalFailRate.None? || s.criticalFailRate <= t.maxCriticalFailRate.value
    ensures Holds(s, t, FormatTooLow) <==> t.minFormatPassRate.None? || s.formatPassRate >= t.minFormatPassRate.value
    ensures Holds(s, t, SavingTooLow) <==> t.minCostSaving.None? || s.costSaving >= t.minCostSaving.value
    ensures Holds(s, t, LatencyRegressed) <==>
      t.maxLatencyRegression.None? || s.avgLatencyDelta <= t.maxLatencyRegression.value
  {
  }

  method EvaluateRun(s: Summary, t: Thresholds) returns (passed: bool, failures: seq<Failure>)
    ensures failures == Failures(s, t) && (passed <==> Passes(s, t))
  {
    failures := [];
    if s.judged < t.minItems {
      failures := failures + [TooFewItems];
    }
    ghost var found := Only(s, t, TooFewItems);
    assert failures == found;
    if t.maxWorseRate.Some? && s.worseRate > t.maxWorseRate.value {
      failures := failures + [TooManyWorse];
    }
    found := found + Only(s, t, TooManyWorse);
    assert failures == found;
    if t.maxCriticalFailRate.Some? && s.criticalFailRate > t.maxCriticalFailRate.value {
      failures := failures + [TooManyCritical];
    }
    found := found + Only(s, t, TooManyCritical);
    assert failures == found;
    if t.minFormatPassRate.Some? && s.formatPassRate < t.minFormatPassRate.value {
      failures := failures + [FormatTooLow];
    }
    found := found + Only(s, t, FormatTooLow);
    assert failures == found;
    if t.minCostSaving.Some? && s.costSaving < t.minCostSaving.value {
      failures := failures + [SavingTooLow];
    }
    found := found + Only(s, t, SavingTooLow);
    assert failures == found;
    if t.maxLatencyRegression.Some? && s.avgLatencyDelta > t.maxLatencyRegression.value {
      failures := failures + [LatencyRegressed];
    }
    found := found + Only(s, t, LatencyRegressed);
    assert failures == found;
    passed := failures == [];
    FailuresAreBroken(s, t);
  }

  // ---- executeRun: items to entries and stored results ------------------------------------------------------------

  // An item of a metadata-only dataset has no messages and cannot be replayed.
  datatype Item = Item(id: int, replayable: bool, severity: Severity, productionCost: real, productionLatency: real)

  // `overturned`: a "worse" verdict did not survive the second look.
  datatype Judgement = NoVerdict | Judged(verdict: Verdict, critical: bool, overturned: bool)

  // `Broke`: the candidate answered, and was paid for, but judging it or storing the result threw.
  datatype Attempt =
    | Threw(message: string)
    | Broke(cost: real, message: string)
    | Answered(cost: real, latency: real, formatPass: bool, judgement: Judgement)

  datatype Row = Row(itemId: int, error: string, judge: Option<Verdict>, human: Option<Verdict>, critical: bool,
                     formatPass: bool, cost: real, latency: real, disproved: bool)

  function Overturned(j: Judgement): bool {
    j.Judged? && j.verdict == Worse && j.overturned
  }

  function FinalVerdict(j: Judgement): Option<Verdict> {
    if j.NoVerdict? then None else if Overturned(j) then Some(Equal) else Some(j.verdict)
  }

  function EntryOf(item: Item, a: Attempt): Entry {
    if !item.replayable || !a.Answered? then Errored
    else
      Scored(Score(FinalVerdict(a.judgement), item.severity, a.judgement.Judged? && a.judgement.critical, a.formatPass,
                   Overturned(a.judgement), a.cost, a.latency, item.productionCost, item.productionLatency))
  }

  function RowOf(item: Item, a: Attempt): Row {
    if !a.Answered? then Row(item.id, a.message, None, None, false, true, 0.0, 0.0, false)
    else
      Row(item.id, "", FinalVerdict(a.judgement), None, a.judgement.Judged? && a.judgement.critical, a.formatPass,
          a.cost, a.latency, Overturned(a.judgement))
  }

  function Entries(items: seq<Item>, attempts: nat -> Attempt, n: nat): (r: seq<Entry>)
    requires n <= |items|
    ensures |r| == n
  {
    if n == 0 then [] else Entries(items, attempts, n - 1) + [EntryOf(items[n - 1], attempts(n - 1))]
  }

  function Rows(items: seq<Item>, attempts: nat -> Attempt, n: nat): seq<Row>
    requires n <= |items|
  {
    if n == 0 then []
    else Rows(items, attempts, n - 1) + if items[n - 1].replayable then [RowOf(items[n - 1], attempts(n - 1))] else []
  }

  lemma MissingIsErrored(item: Item, a: Attempt)
    requires !item.replayable
    ensures EntryOf(item, a) == Errored
  {
  }

  function CostOf(item: Item, a: Attempt): real {
    if item.replayable && !a.Threw? then a.cost else 0.0
  }

  function Spent(items: seq<Item>, attempts: nat -> Attempt, n: nat): real
    requires n <= |items|
  {
    if n == 0 then 0.0 else Spent(items, attempts, n - 1) + CostOf(items[n - 1], attempts(n - 1))
  }

  // What one item leaves behind. Only an answer that was judged and stored is scored, its "worse" turned into
  // "equal" where a second look overturned it; whatever was answered was paid for.
  lemma ItemInFields(item: Item, a: Attempt)
    ensures EntryOf(item, a) == Errored <==> !item.replayable || !a.Answered?
    ensures CostOf(item, a) == if item.replayable && (a.Answered? || a.Broke?) then a.cost else 0.0
    ensures !a.Answered? ==>
      RowOf(item, a).(itemId := 0) == Row(0, a.message, None, None, false, true, 0.0, 0.0, false)
    ensures a.Answered? ==> RowOf(item, a).error == "" && RowOf(item, a).human == None
    ensures item.replayable && a.Answered? ==>
      var x, j := EntryOf(item, a).score, a.judgement;
      && x.severity == item.severity && x.formatPass == a.formatPass
      && x.candidateCost == a.cost && x.candidateLatency == a.latency
      && x.productionCost == item.productionCost && x.productionLatency == item.productionLatency
      && (j.NoVerdict? ==> x.verdict == None && !x.critical && !x.disproved)
      && (j.Judged? ==> x.critical == j.critical && (x.disproved <==> j.verdict == Worse && j.overturned))
      && (j.Judged? ==> x.verdict == Some(if x.disproved then Equal else j.verdict))
  {
  }

  // A run's entries, stored results and cost are those of its items, one after the other.
  lemma ItemsInOrder(items: seq<Item>, attempts: nat -> Attempt, n: nat)
    requires n < |items|
    ensures Entries(items, attempts, 0) == [] && Rows(items, attempts, 0) == [] && Spent(items, attempts, 0) == 0.0
    ensures Entries(items, attempts, n + 1) == Entries(items, attempts, n) + [EntryOf(items[n], attempts(n))]
    ensures Rows(items, attempts, n + 1) ==
      Rows(items, attempts, n) + if items[n].replayable then [RowOf(items[n], attempts(n))] else []
    ensures Spent(items, attempts, n + 1) ==
      Spent(items, attempts, n)
      + if items[n].replayable && !attempts(n).Threw? then attempts(n).cost else 0.0
  {
    hide EntryOf, RowOf;
  }

  predicate OverCap(cap: Option<real>, spent: real) {
    cap.Some? && spent > cap.value
  }

  // Replays the items in order until they run out, the cost cap is passed, or a periodic look finds the
  // run cancelled. At most the last item replayed takes the cost past the cap.
  method ExecuteRun(items: seq<Item>, attempts: nat -> Attempt, cap: Option<real>, cancelled: nat -> bool)
    returns (entries: seq<Entry>, rows: seq<Row>, cost: real, wasCancelled: bool)
    ensures |entries| <= |items|
    ensures entries == Entries(items, attempts, |entries|) && rows == Rows(items, attempts, |entries|)
    ensures cost == Spent(items, attempts, |entries|)
    ensures forall k :: 0 <= k < |entries| && items[k].replayable && cap.Some? ==>
      Spent(items, attempts, k) <= cap.value
    ensures |entries| == |items|
      || (items[|entries|].replayable
          && if wasCancelled then |entries| % 10 == 0 && cancelled(|entries|) else cap.Some? && cost > cap.value)
  {
    hide EntryOf, RowOf;
    entries, rows, cost := [], [], 0.0;
    for k := 0 to |items|
      invariant |entries| == k && entries == Entries(items, attempts, k) && rows == Rows(items, attempts, k)
      invariant cost == Spent(items, attempts, k)
      invariant forall j :: 0 <= j < k && items[j].replayable ==> !OverCap(cap, Spent(items, attempts, j))
    {
      var item := items[k];
      if !item.replayable {
        assert EntryOf(item, attempts(k)) == Errored by { MissingIsErrored(item, attempts(k)); }
        entries := entries + [Errored];
        continue;
      }
      if OverCap(cap, cost) {
        return entries, rows, cost, false;
      }
      if |entries| % 10 == 0 && cancelled(k) {
        return entries, rows, cost, true;
      }
      rows := rows + [RowOf(item, attempts(k))];
      if !attempts(k).Threw? {
        cost := cost + attempts(k).cost;
      }
      entries := entries + [EntryOf(item, attempts(k))];
    }
    wasCancelled := false;
  }

  // ---- recomputeRun -----------------------------------------------------------------------------------------------

  function Rescore(byItem: map<int, Item>): Row -> Entry {
    (r: Row) => Rescored(r, byItem)
  }

  // A result whose error message is empty is taken for one without an error.
  function Rescored(r: Row, byItem: map<int, Item>): Entry {
    if r.error != "" then Errored
    else
      var item := if r.itemId in byItem then byItem[r.itemId] else Item(r.itemId, true, Normal, 0.0, 0.0);
      Scored(Score(if r.human.Some? then r.human else r.judge, item.severity, r.critical, r.formatPass, r.disproved,
                   r.cost, r.latency, item.productionCost, item.productionLatency))
  }

  // A stored result as it is scored again: the human verdict before the judge's, and an item that is gone
  // counts as normal and free.
  lemma RescoredInFields(r: Row, byItem: map<int, Item>)
    ensures Rescored(r, byItem) == Errored <==> r.error != ""
    ensures r.error == "" ==>
      var x, known := Rescored(r, byItem).score, r.itemId in byItem;
      && (r.human.Some? ==> x.verdict == r.human) && (r.human.None? ==> x.verdict == r.judge)
      && x.critical == r.critical && x.formatPass == r.formatPass && x.disproved == r.disproved
      && x.candidateCost == r.cost && x.candidateLatency == r.latency
      && (known ==> x.severity == byItem[r.itemId].severity && x.productionCost == byItem[r.itemId].productionCost
                    && x.productionLatency == byItem[r.itemId].productionLatency)
      && (!known ==> x.severity == Normal && x.productionCost == 0.0 && x.productionLatency == 0.0)
  {
  }

  function Recompute(rows: seq<Row>, byItem: map<int, Item>): Summary {
    Aggregate(Map(rows, Rescore(byItem)))
  }

  // Items without messages, and failures whose error said nothing, among the first n.
  function Missing(items: seq<Item>, n: nat): nat
    requires n <= |items|
  {
    if n == 0 then 0 else Missing(items, n - 1) + if items[n - 1].replayable then 0 else 1
  }

  function Silent(items: seq<Item>, attempts: nat -> Attempt, n: nat): nat
    requires n <= |items|
  {
    if n == 0 then 0
    else Silent(items, attempts, n - 1) + if items[n - 1].replayable && FailsSilently(attempts(n - 1)) then 1 else 0
  }

  predicate FailsSilently(a: Attempt) {
    !a.Answered? && a.message == ""
  }

  ghost predicate Kept(items: seq<Item>, byItem: map<int, Item>) {
    forall k :: 0 <= k < |items| ==> items[k].id in byItem && byItem[items[k].id] == items[k]
  }

  lemma ScoresSnoc(entries: seq<Entry>, e: Entry)
    ensures Scores(entries + [e]) == Scores(entries) + Taken(e)
  {
    FilterAppend(entries, [e], IsScored());
    assert Filter([e], IsScored()) == if e.Scored? then [e] else [];
    MapAppend(Filter(entries, IsScored()), Filter([e], IsScored()), ScoreOf());
  }

  function Taken(e: Entry): seq<Score> {
    if e.Scored? then [e.score] else []
  }

  lemma RescoreSnoc(rows: seq<Row>, r: Row, byItem: map<int, Item>)
    ensures var before := Map(rows, Rescore(byItem)); var after := Map(rows + [r], Rescore(byItem));
      |after| == |before| + 1 && Scores(after) == Scores(before) + Taken(Rescored(r, byItem))
  {
    hide Scores;
    MapSnoc(rows, r, Rescore(byItem));
    ScoresSnoc(Map(rows, Rescore(byItem)), Rescored(r, byItem));
  }

  // One item: the entry and the re-scored result agree unless a failure was silent.
  lemma RescoreItem(item: Item, a: Attempt, byItem: map<int, Item>)
    requires item.replayable && item.id in byItem && byItem[item.id] == item
    ensures if FailsSilently(a) then Taken(EntryOf(item, a)) == [] && |Taken(Rescored(RowOf(item, a), byItem))| == 1
      else Rescored(RowOf(item, a), byItem) == EntryOf(item, a)
  {
  }

  lemma {:induction false} RescoreMatches(items: seq<Item>, attempts: nat -> Attempt, n: nat, byItem: map<int, Item>)
    requires n <= |items| && Kept(items, byItem)
    ensures var again := Map(Rows(items, attempts, n), Rescore(byItem)); var first := Entries(items, attempts, n);
      && |again| == n - Missing(items, n)
      && |Scores(again)| == |Scores(first)| + Silent(items, attempts, n)
      && (Silent(items, attempts, n) == 0 ==> Scores(again) == Scores(first))
  {
    hide Scores, Map, RowOf, EntryOf, Taken;
    if n == 0 {
      NoRows(byItem);
    } else {
      RescoreMatches(items, attempts, n - 1, byItem);
      var item, a := items[n - 1], attempts(n - 1);
      var rows := Rows(items, attempts, n - 1);
      ScoresSnoc(Entries(items, attempts, n - 1), EntryOf(item, a));
      if item.replayable {
        RescoreSnoc(rows, RowOf(item, a), byItem);
        RescoreItem(item, a, byItem);
      } else {
        assert Rows(items, attempts, n) == rows;
        MissingTakesNothing(item, a);
      }
    }
  }

  lemma MissingTakesNothing(item: Item, a: Attempt)
    ensures !item.replayable ==> Taken(EntryOf(item, a)) == []
  {
  }

  lemma NoRows(byItem: map<int, Item>)
    ensures Map([], Rescore(byItem)) == [] && Scores([]) == []
  {
  }

  lemma NoScores()
    ensures Scores([]) == []
  {
  }

  // Re-scoring stored results nobody overrode, in any order: the summary comes back, without the items
  // that had no messages, exactly when no failure was stored with an empty message. Then every
  // threshold answers as it did.
  lemma RecomputeReproducesIff(items: seq<Item>, attempts: nat -> Attempt, n: nat, rows: seq<Row>,
                               byItem: map<int, Item>)
    requires n <= |items| && Kept(items, byItem) && multiset(rows) == multiset(Rows(items, attempts, n))
    ensures var was := Aggregate(Entries(items, attempts, n)); var missing := Missing(items, n);
      && was.errored >= missing
      && (Recompute(rows, byItem) == was.(total := was.total - missing, errored := was.errored - missing)
          <==> Silent(items, attempts, n) == 0)
    ensures Silent(items, attempts, n) == 0 ==>
      forall t :: Failures(Recompute(rows, byItem), t) == Failures(Aggregate(Entries(items, attempts, n)), t)
  {
    hide Scores, Aggregate, Entries, Rows, Silent, Missing, Failures, Map;
    var stored := Rows(items, attempts, n);
    MapPermutes(rows, stored, Rescore(byItem));
    AggregatePermutes(Map(rows, Rescore(byItem)), Map(stored, Rescore(byItem)));
    RescoreMatches(items, attempts, n, byItem);
    MissingErrored(items, attempts, n);
    SameScores(Map(stored, Rescore(byItem)), Entries(items, attempts, n), Missing(items, n));
  }

  // One item whose replay threw an empty message: an errored entry that comes back as a scored result.
  lemma SilentFailureComesBackScored(item: Item)
    requires item.replayable
    ensures var was := Aggregate(Entries([item], n => Threw(""), 1));
      var now := Recompute(Rows([item], n => Threw(""), 1), map[item.id := item]);
      was.errored == 1 && was.formatPassRate == 1.0 && now.errored == 0 && now.total == 1 && now.judged == 0
  {
    hide Deltas, Sum, Breakdown, WorseRate;
    var attempts := (n: nat) => Threw("");
    var again := Map(Rows([item], attempts, 1), Rescore(map[item.id := item]));
    assert Entries([item], attempts, 1) == [Errored];
    assert Rows([item], attempts, 1) == [RowOf(item, Threw(""))];
    assert |again| == 1 && again[0].Scored?;
    assert Scores([Errored]) == [] && Scores(again) == [again[0].score];
  }

  lemma SameScores(again: seq<Entry>, first: seq<Entry>, missing: nat)
    requires |again| == |first| - missing && |Scores(first)| + missing <= |first|
    ensures var was := Aggregate(first);
      && was.total >= missing && was.errored == |first| - |Scores(first)|
      && (Aggregate(again) == was.(total := was.total - missing, errored := was.errored - missing)
          ==> |Scores(again)| == |Scores(first)|)
      && (Scores(again) == Scores(first) ==>
            && Aggregate(again) == was.(total := was.total - missing, errored := was.errored - missing)
            && forall t :: Failures(Aggregate(again), t) == Failures(was, t))
  {
    hide Scores, Deltas, WorseRate, Breakdown, Filter, Sum, Share, Mean, CostSaving, Percentile, Share0;
  }

  lemma {:induction false} MissingErrored(items: seq<Item>, attempts: nat -> Attempt, n: nat)
    requires n <= |items|
    ensures |Scores(Entries(items, attempts, n))| + Missing(items, n) <= n
  {
    hide Scores;
    if n == 0 {
      NoScores();
    } else {
      MissingErrored(items, attempts, n - 1);
      ScoresSnoc(Entries(items, attempts, n - 1), EntryOf(items[n - 1], attempts(n - 1)));
    }
  }

  // ---- Human overrides ----------------------------------------------------------------------------------------------

  // The same result, or the same with a human verdict of better or equal.
  ghost predicate Eased(a: Row, b: Row) {
    a == b || b == a.(human := Some(Better)) || b == a.(human := Some(Equal))
  }

  ghost predicate Milder(a: Score, b: Score) {
    a == b || b == a.(verdict := Some(Better)) || b == a.(verdict := Some(Equal))
  }

  ghost predicate AllMilder(s: seq<Score>, t: seq<Score>) {
    |s| == |t| && forall i :: 0 <= i < |s| ==> Milder(s[i], t[i])
  }

  lemma {:induction false} EasedScores(rows: seq<Row>, eased: seq<Row>, byItem: map<int, Item>)
    requires |rows| == |eased| && forall i :: 0 <= i < |rows| ==> Eased(rows[i], eased[i])
    ensures AllMilder(Scores(Map(rows, Rescore(byItem))), Scores(Map(eased, Rescore(byItem))))
  {
    hide Scores;
    if rows == [] {
      NoScores();
    } else {
      hide Map, AllMilder;
      var k := |rows| - 1;
      EasedScores(rows[..k], eased[..k], byItem);
      assert rows == rows[..k] + [rows[k]] && eased == eased[..k] + [eased[k]];
      RescoreSnoc(rows[..k], rows[k], byItem);
      RescoreSnoc(eased[..k], eased[k], byItem);
      EasedTaken(rows[k], eased[k], byItem);
      MilderAppend(Scores(Map(rows[..k], Rescore(byItem))), Scores(Map(eased[..k], Rescore(byItem))),
        Taken(Rescored(rows[k], byItem)), Taken(Rescored(eased[k], byItem)));
    }
  }

  lemma EasedTaken(r: Row, e: Row, byItem: map<int, Item>)
    requires Eased(r, e)
    ensures AllMilder(Taken(Rescored(r, byItem)), Taken(Rescored(e, byItem)))
  {
  }

  lemma MilderAppend(s: seq<Score>, t: seq<Score>, x: seq<Score>, y: seq<Score>)
    requires AllMilder(s, t) && AllMilder(x, y)
    ensures AllMilder(s + x, t + y)
  {
    hide Milder;
  }

  lemma {:induction false} MilderCount(s: seq<Score>, t: seq<Score>, p: Score -> bool)
    requires AllMilder(s, t) && forall a, b :: Milder(a, b) ==> p(a) == p(b)
    ensures |Filter(s, p)| == |Filter(t, p)|
  {
    hide Milder;
    if s != [] {
      MilderCount(s[1..], t[1..], p);
    }
  }

  lemma {:induction false} MilderSum(s: seq<Score>, t: seq<Score>, f: Score -> real)
    requires AllMilder(s, t) && forall a, b :: Milder(a, b) ==> f(a) == f(b)
    ensures Sum(s, f) == Sum(t, f)
  {
    hide Milder;
    if s != [] {
      MilderSum(s[1..], t[1..], f);
    }
  }

  lemma {:induction false} MilderDeltas(s: seq<Score>, t: seq<Score>)
    requires AllMilder(s, t)
    ensures Map(Filter(s, HasBaseline()), LatencyDelta()) == Map(Filter(t, HasBaseline()), LatencyDelta())
  {
    if s != [] {
      MilderDeltas(s[1..], t[1..]);
      DeltaHead(s);
      DeltaHead(t);
    }
  }

  lemma DeltaHead(s: seq<Score>)
    requires s != []
    ensures Map(Filter(s, HasBaseline()), LatencyDelta()) ==
      (if HasBaseline()(s[0]) then [LatencyDelta()(s[0])] else []) + Map(Filter(s[1..], HasBaseline()), LatencyDelta())
  {
    MapAppend(if HasBaseline()(s[0]) then [s[0]] else [], Filter(s[1..], HasBaseline()), LatencyDelta());
  }

  function WorseWeight(ok: seq<Score>): real {
    Sum(Filter(Filter(ok, IsJudged()), Said(Worse)), WeightOf())
  }

  function JudgedWeight(ok: seq<Score>): real {
    Sum(Filter(ok, IsJudged()), WeightOf())
  }

  lemma JudgedHead(s: seq<Score>)
    requires s != []
    ensures JudgedWeight(s) == JudgedWeight(s[1..]) + if s[0].verdict.Some? then Weight(s[0].severity) else 0.0
  {
    var head := if IsJudged()(s[0]) then [s[0]] else [];
    SumAppend(head, Filter(s[1..], IsJudged()), WeightOf());
    assert Sum(head, WeightOf()) == if s[0].verdict.Some? then Weight(s[0].severity) else 0.0;
  }

  lemma WorseHead(s: seq<Score>)
    requires s != []
    ensures WorseWeight(s) == WorseWeight(s[1..]) + if s[0].verdict == Some(Worse) then Weight(s[0].severity) else 0.0
  {
    var head := if IsJudged()(s[0]) then [s[0]] else [];
    FilterAppend(head, Filter(s[1..], IsJudged()), Said(Worse));
    SumAppend(Filter(head, Said(Worse)), Filter(Filter(s[1..], IsJudged()), Said(Worse)), WeightOf());
    assert Filter(head, Said(Worse)) == if s[0].verdict == Some(Worse) then [s[0]] else [];
  }

  lemma {:induction false} MilderWeights(s: seq<Score>, t: seq<Score>)
    requires AllMilder(s, t)
    ensures 0.0 <= WorseWeight(t) <= WorseWeight(s) <= JudgedWeight(s) <= JudgedWeight(t)
    ensures |Filter(s, IsJudged())| <= |Filter(t, IsJudged())|
  {
    if s != [] {
      hide WorseWeight, JudgedWeight;
      MilderWeights(s[1..], t[1..]);
      JudgedHead(s);
      JudgedHead(t);
      WorseHead(s);
      WorseHead(t);
    }
  }

  lemma RatioShrinks(a: real, b: real, c: real, d: real)
    requires 0.0 <= c <= a <= b <= d
    ensures Ratio(c, d) <= Ratio(a, b)
  {
    if b != 0.0 {
      assert c / d <= a / b by {
        CrossMultiply(a, b, c, d);
      }
    }
  }

  lemma CrossMultiply(a: real, b: real, c: real, d: real)
    requires 0.0 <= c <= a && 0.0 < b <= d
    ensures c / d <= a / b
  {
    assert c * b <= a * d by {
      assert c * b <= a * b;
      assert a * b <= a * d;
    }
    var x, y := c / d, a / b;
    assert x * d == c && y * b == a;
    assert x * (b * d) == c * b && y * (b * d) == a * d;
    assert b * d > 0.0;
  }

  // Humans calling results better or equal, whatever the judge had said of them, never turn a passed
  // run into a failed one: no threshold that held breaks.
  lemma OverridesNeverFail(rows: seq<Row>, eased: seq<Row>, byItem: map<int, Item>, t: Thresholds)
    requires |rows| == |eased| && forall i :: 0 <= i < |rows| ==> Eased(rows[i], eased[i])
    ensures NothingBreaks(Recompute(rows, byItem), Recompute(eased, byItem), t)
    ensures Passes(Recompute(rows, byItem), t) ==> Passes(Recompute(eased, byItem), t)
  {
    hide Scores, Filter, Sum, Milder, Breakdown;
    EasedScores(rows, eased, byItem);
    MilderSummary(Scores(Map(rows, Rescore(byItem))), Scores(Map(eased, Rescore(byItem))), |rows|, t);
  }

  // Every threshold that holds of s holds of e.
  ghost predicate NothingBreaks(s: Summary, e: Summary, t: Thresholds) {
    forall f: Failure :: Holds(s, t, f) ==> Holds(e, t, f)
  }

  lemma MilderSummary(s: seq<Score>, e: seq<Score>, total: nat, t: Thresholds)
    requires AllMilder(s, e) && |s| <= total
    ensures NothingBreaks(Summarise(s, total, total - |s|), Summarise(e, total, total - |e|), t)
  {
    hide Filter, Sum, Breakdown;
    MilderCount(s, e, IsCritical());
    MilderCount(s, e, PassesFormat());
    MilderSum(s, e, ProductionCost());
    MilderSum(s, e, CandidateCost());
    MilderDeltas(s, e);
    MilderWeights(s, e);
    RatioShrinks(WorseWeight(s), JudgedWeight(s), WorseWeight(e), JudgedWeight(e));
  }
}
