// server/src/routing/aiPolicy.js: the deterministic engine that assigns a model to a task. Each
// stage is "filter, unless that empties the pool"; the survivors are sorted and the first one wins.
module PolicyEngine {
  import opened Options
  import opened Seqs
  import Strings

  datatype Dim = Coding | Reasoning | Writing | Analysis | Language | General | Data
  const DIMS: seq<Dim> := [Coding, Reasoning, Writing, Analysis, Language, General, Data]

  datatype Tier = Light | Mid | Premium | OtherTier
  datatype Goal = MinCost | Balanced | MaxQuality | NoGoal
  datatype Cost = Finite(usd: real) | Infinite
  datatype Tokens = Tokens(avgIn: real, avgOut: real)

  // A registry model with its capabilities resolved. The registry requires a rate of at least 0;
  // 0.0 is how an unpriced model is stored.
  datatype Model = Model(id: ModelId, provider: string, tier: Tier, inputPer1M: real, outputPer1M: Option<real>,
                         caps: map<Dim, real>, measured: bool)
  datatype ModelId = ModelId(name: string)

  const GATE_NEED := 0.7
  const GATE_FLOOR := 0.55
  const UNKNOWN_CAP := 0.4

  // What rankCandidates looks up before ranking: the tier, the task's weights and token profile.
  datatype Task = Task(tier: Tier, weights: map<Dim, real>, tokens: Tokens, goal: Goal)

  function Bar(goal: Goal): real {
    match goal
    case MinCost => 0.70
    case Balanced => 0.80
    case MaxQuality => 0.0
    case NoGoal => 0.80
  }

  function Weight(weights: map<Dim, real>, d: Dim): real {
    if d in weights then weights[d] else 0.0
  }

  function Cap(caps: map<Dim, real>, d: Dim): real {
    if d in caps then caps[d] else UNKNOWN_CAP
  }

  function Scaled(weight: real, cap: real): real {
    weight * cap
  }

  function Weighted(weights: map<Dim, real>, caps: map<Dim, real>, dims: seq<Dim>): real {
    if dims == [] then 0.0
    else
      var last := dims[|dims| - 1];
      Weighted(weights, caps, dims[..|dims| - 1]) + Scaled(Weight(weights, last), Cap(caps, last))
  }

  function TotalWeight(weights: map<Dim, real>, dims: seq<Dim>): real {
    if dims == [] then 0.0 else TotalWeight(weights, dims[..|dims| - 1]) + Weight(weights, dims[|dims| - 1])
  }

  function Quality(weights: map<Dim, real>, caps: map<Dim, real>): real {
    var total := TotalWeight(weights, DIMS);
    if total > 0.0 then Weighted(weights, caps, DIMS) / total else UNKNOWN_CAP
  }

  method QualityScore(weights: map<Dim, real>, caps: map<Dim, real>) returns (score: real)
    ensures score == Quality(weights, caps)
  {
    var weighted, totalWeight := 0.0, 0.0;
    for k := 0 to |DIMS|
      invariant weighted == Weighted(weights, caps, DIMS[..k])
      invariant totalWeight == TotalWeight(weights, DIMS[..k])
    {
      var w := Weight(weights, DIMS[k]);
      weighted := weighted + Scaled(w, Cap(caps, DIMS[k]));
      totalWeight := totalWeight + w;
      assert DIMS[..k + 1][..k] == DIMS[..k];
    }
    assert DIMS[..|DIMS|] == DIMS;
    score := if totalWeight > 0.0 then weighted / totalWeight else UNKNOWN_CAP;
  }

  predicate GatePasses(weights: map<Dim, real>, caps: map<Dim, real>) {
    forall d :: d in DIMS ==> !(Weight(weights, d) >= GATE_NEED && Cap(caps, d) < GATE_FLOOR)
  }

  method PassesGates(weights: map<Dim, real>, caps: map<Dim, real>) returns (ok: bool)
    ensures ok <==> GatePasses(weights, caps)
  {
    for k := 0 to |DIMS|
      invariant forall d :: d in DIMS[..k] ==> !(Weight(weights, d) >= GATE_NEED && Cap(caps, d) < GATE_FLOOR)
    {
      assert DIMS[k] in DIMS;
      if Weight(weights, DIMS[k]) >= GATE_NEED && Cap(caps, DIMS[k]) < GATE_FLOOR {
        return false;
      }
      assert DIMS[..k + 1] == DIMS[..k] + [DIMS[k]];
    }
    assert DIMS[..|DIMS|] == DIMS;
    return true;
  }

  function ExpectedCost(m: Model, t: Tokens): Cost {
    if !(m.inputPer1M > 0.0) then Infinite
    else
      var outRate := if m.outputPer1M.Some? then m.outputPer1M.value else m.inputPer1M;
      Finite(((t.avgIn / 1000000.0) * m.inputPer1M + (t.avgOut / 1000000.0) * outRate) * 1000.0)
  }

  predicate Cheaper(a: Cost, b: Cost) {
    a.Finite? && (b.Infinite? || a.usd < b.usd)
  }

  // ---- The stages ----------------------------------------------------------------------------

  // Keep what passes the test; keep everything when nothing does.
  function Relax<T>(s: seq<T>, p: T -> bool): (r: seq<T>)
    ensures s != [] ==> r != []
  {
    var kept := Filter(s, p);
    if kept != [] then kept else s
  }

  function Priced(): Model -> bool {
    (m: Model) => m.inputPer1M > 0.0
  }

  function OfTier(tier: Tier): Model -> bool {
    (m: Model) => m.tier == tier
  }

  // Which models a task of this tier considers, when it has any such model.
  function InTier(tier: Tier, goal: Goal): Model -> bool {
    (m: Model) =>
      if tier == Premium then (goal == MinCost ==> m.tier == Mid || m.tier == Premium)
      else if tier == Light then m.tier == Light
      else m.tier == Light || m.tier == Mid
  }

  function PoolFor(tier: Tier, models: seq<Model>, goal: Goal): (p: seq<Model>)
    ensures models != [] ==> p != []
  {
    if tier == Premium && goal != MinCost then models
    else
      var p :=
        if tier == Premium then Filter(models, OfTier(Mid)) + Filter(models, OfTier(Premium))
        else if tier == Light then Filter(models, OfTier(Light))
        else Filter(models, OfTier(Light)) + Filter(models, OfTier(Mid));
      if p != [] then p else models
  }

  method FillBuckets(tier: Tier, liveModels: seq<Model>, goal: Goal) returns (pool: seq<Model>)
    ensures pool == PoolFor(tier, liveModels, goal)
  {
    var light: seq<Model>, mid: seq<Model>, premium: seq<Model> := [], [], [];
    for k := 0 to |liveModels|
      invariant light == Filter(liveModels[..k], OfTier(Light))
      invariant mid == Filter(liveModels[..k], OfTier(Mid))
      invariant premium == Filter(liveModels[..k], OfTier(Premium))
    {
      FilterSnoc(liveModels, k, OfTier(Light));
      FilterSnoc(liveModels, k, OfTier(Mid));
      FilterSnoc(liveModels, k, OfTier(Premium));
      match liveModels[k].tier {
        case Light => light := light + [liveModels[k]];
        case Mid => mid := mid + [liveModels[k]];
        case Premium => premium := premium + [liveModels[k]];
        case OtherTier =>
      }
    }
    assert liveModels[..|liveModels|] == liveModels;
    if tier == Premium {
      if goal == MinCost {
        var p := mid + premium;
        return if p != [] then p else liveModels;
      }
      return liveModels;
    }
    var p := if tier == Light then light else light + mid;
    return if p != [] then p else liveModels;
  }

  // One row of the ranking: what the later stages know about a model.
  datatype Candidate = Candidate(model: ModelId, tier: Tier, measured: bool, quality: real, cost: Cost, gatePass: bool)

  function Assess(t: Task, m: Model): Candidate {
    Candidate(m.id, m.tier, m.measured, Quality(t.weights, m.caps), ExpectedCost(m, t.tokens),
              GatePasses(t.weights, m.caps))
  }

  function AssessAll(t: Task, pool: seq<Model>): (r: seq<Candidate>)
    ensures |r| == |pool|
    ensures forall i :: 0 <= i < |pool| ==> r[i] == Assess(t, pool[i])
  {
    if pool == [] then [] else [Assess(t, pool[0])] + AssessAll(t, pool[1..])
  }

  function Gated(): Candidate -> bool {
    (c: Candidate) => c.gatePass
  }

  function Trusted(tier: Tier): Candidate -> bool {
    (c: Candidate) => tier == Premium ==> c.measured
  }

  function Clears(bar: real): Candidate -> bool {
    (c: Candidate) => c.quality >= bar
  }

  // The sort comparator: quality first for the quality goal, expected cost first otherwise.
  predicate Before(goal: Goal, a: Candidate, b: Candidate) {
    if goal == MaxQuality && a.quality != b.quality then a.quality > b.quality
    else if a.cost != b.cost then Cheaper(a.cost, b.cost)
    else if a.quality != b.quality then a.quality > b.quality
    else if a.measured != b.measured then a.measured
    else Strings.Less(a.model.name, b.model.name)
  }

  function Comparing(goal: Goal): (Candidate, Candidate) -> bool {
    (a, b) => Before(goal, a, b)
  }

  function Clearing(t: Task, models: seq<Model>): seq<Candidate> {
    var cands := AssessAll(t, PoolFor(t.tier, models, t.goal));
    Relax(Relax(Relax(cands, Gated()), Trusted(t.tier)), Clears(Bar(t.goal)))
  }

  // The ranking of a list of live models; its head is the assignment.
  function Ranking(t: Task, models: seq<Model>): (r: seq<Candidate>) {
    Sort(Clearing(t, models), Comparing(t.goal))
  }

  method AssessPool(t: Task, pool: seq<Model>) returns (cands: seq<Candidate>)
    ensures cands == AssessAll(t, pool)
  {
    hide Quality, ExpectedCost, GatePasses;
    cands := [];
    for k := 0 to |pool|
      invariant |cands| == k
      invariant forall i :: 0 <= i < k ==> cands[i] == Assess(t, pool[i])
    {
      var quality := QualityScore(t.weights, pool[k].caps);
      var gatePass := PassesGates(t.weights, pool[k].caps);
      var m := pool[k];
      cands := cands + [Candidate(m.id, m.tier, m.measured, quality, ExpectedCost(m, t.tokens), gatePass)];
    }
  }

  method RankCandidates(t: Task, liveModels: seq<Model>) returns (ranked: seq<Candidate>, barMet: bool)
    ensures ranked == Ranking(t, liveModels)
    ensures barMet <==> exists c :: c in ranked && c.quality >= Bar(t.goal)
  {
    hide PoolFor, Before, Sort, Filter, Assess, AssessAll;
    var bar := Bar(t.goal);
    var pool := FillBuckets(t.tier, liveModels, t.goal);
    var cands := AssessPool(t, pool);
    var elig := Filter(cands, Gated());
    if elig == [] {
      elig := cands;
    }
    assert elig == Relax(cands, Gated());
    if t.tier == Premium {
      var meas := Filter(elig, Trusted(t.tier));
      if meas != [] {
        elig := meas;
      }
    } else {
      FilterEvery(elig, Trusted(t.tier));
    }
    assert elig == Relax(Relax(cands, Gated()), Trusted(t.tier));
    var clearing := Filter(elig, Clears(bar));
    FilterMembers(elig, Clears(bar));
    barMet := clearing != [];
    if !barMet {
      clearing := elig;
    }
    assert clearing == Clearing(t, liveModels);
    ranked := Sort(clearing, Comparing(t.goal));
    SortMembers(clearing, Comparing(t.goal));
    if barMet {
      assert clearing[0] in ranked;
    }
  }

  lemma SortMembers(s: seq<Candidate>, lt: (Candidate, Candidate) -> bool)
    ensures forall c :: c in Sort(s, lt) <==> c in s
  {
    forall c ensures c in Sort(s, lt) <==> c in s {
      assert c in multiset(Sort(s, lt)) <==> c in multiset(s);
    }
  }

  // ---- One strict order behind the stages -----------------------------------------------------

  // The preference the stages amount to: what the earlier tests tell apart outweighs the later.
  predicate Prefers(t: Task, a: Model, b: Model) {
    var ca, cb := Assess(t, a), Assess(t, b);
    if InTier(t.tier, t.goal)(a) != InTier(t.tier, t.goal)(b) then InTier(t.tier, t.goal)(a)
    else if ca.gatePass != cb.gatePass then ca.gatePass
    else if Trusted(t.tier)(ca) != Trusted(t.tier)(cb) then Trusted(t.tier)(ca)
    else if Clears(Bar(t.goal))(ca) != Clears(Bar(t.goal))(cb) then Clears(Bar(t.goal))(ca)
    else Before(t.goal, ca, cb)
  }

  // Pricing is settled before anything else.
  predicate PrefersPriced(t: Task, a: Model, b: Model) {
    if Priced()(a) != Priced()(b) then Priced()(a) else Prefers(t, a, b)
  }

  ghost predicate Best<T>(w: T, s: seq<T>, lt: (T, T) -> bool) {
    w in s && forall o :: o in s && o != w ==> lt(w, o)
  }

  function Lex<T>(p: T -> bool, lt: (T, T) -> bool): (T, T) -> bool {
    (a: T, b: T) => if p(a) != p(b) then p(a) else lt(a, b)
  }

  // A relaxed filter before an order is the order refined by the filter's test.
  lemma RelaxBest<T>(w: T, s: seq<T>, r: seq<T>, p: T -> bool, lt: (T, T) -> bool)
    requires forall x :: x in r <==> x in Relax(s, p)
    requires Best(w, r, lt)
    ensures Best(w, s, Lex(p, lt))
  {
    FilterMembers(s, p);
    forall o | o in s && o != w ensures Lex(p, lt)(w, o) {
      if Filter(s, p) == [] {
        assert !p(w) && !p(o);
      }
    }
  }

  lemma BeforeOrders(goal: Goal, a: Candidate, b: Candidate, c: Candidate)
    ensures !(Before(goal, a, b) && Before(goal, b, a))
    ensures a.model != b.model ==> Before(goal, a, b) || Before(goal, b, a)
    ensures Before(goal, a, b) && Before(goal, b, c) ==> Before(goal, a, c)
    ensures !Before(goal, b, a) && !Before(goal, c, b) ==> !Before(goal, c, a)
  {
    Strings.LessTotal(a.model.name, b.model.name);
    Strings.LessTotal(b.model.name, c.model.name);
    Strings.LessTotal(a.model.name, c.model.name);
    if Strings.Less(a.model.name, b.model.name) && Strings.Less(b.model.name, c.model.name) {
      Strings.LessTransitive(a.model.name, b.model.name, c.model.name);
    }
    if Strings.Less(c.model.name, a.model.name) && Strings.Less(a.model.name, b.model.name) {
      Strings.LessTransitive(c.model.name, a.model.name, b.model.name);
    }
    if Strings.Less(b.model.name, c.model.name) && Strings.Less(c.model.name, a.model.name) {
      Strings.LessTransitive(b.model.name, c.model.name, a.model.name);
    }
  }

  // The preference is a strict total order on models with different ids.
  lemma PreferenceIsTotalOrder(t: Task, a: Model, b: Model, c: Model)
    ensures !(PrefersPriced(t, a, b) && PrefersPriced(t, b, a))
    ensures a.id != b.id ==> PrefersPriced(t, a, b) || PrefersPriced(t, b, a)
    ensures PrefersPriced(t, a, b) && PrefersPriced(t, b, c) ==> PrefersPriced(t, a, c)
  {
    BeforeOrders(t.goal, Assess(t, a), Assess(t, b), Assess(t, c));
  }

  // The pool the policy chooses from: distinct ids, in any order.
  ghost predicate DistinctIds(models: seq<Model>) {
    forall i, j :: 0 <= i < j < |models| ==> models[i].id != models[j].id
  }

  function PricedPool(models: seq<Model>): (r: seq<Model>)
    ensures models != [] ==> r != []
  {
    Relax(models, Priced())
  }

  function Pricier(): (Model, Model) -> bool {
    (a: Model, b: Model) => a.inputPer1M > b.inputPer1M
  }

  // computeAssignments: priced models only, dearest first, ranked for the task; the first wins.
  function Winner(t: Task, models: seq<Model>): ModelId
    requires models != []
  {
    Ranking(t, Sort(PricedPool(models), Pricier()))[0].model
  }

  ghost predicate Wins(t: Task, models: seq<Model>, w: Model) {
    w in models && forall o :: o in models && o != w ==> PrefersPriced(t, w, o)
  }

  // ---- The engine picks the best model of that order -------------------------------------------

  ghost predicate IdsTell(cands: seq<Candidate>) {
    forall a, b :: a in cands && b in cands && a.model == b.model ==> a == b
  }

  lemma SortedHeadBest(goal: Goal, s: seq<Candidate>)
    requires s != [] && IdsTell(s)
    ensures Best(Sort(s, Comparing(goal))[0], s, Comparing(goal))
  {
    var lt := Comparing(goal);
    var dom := iset c: Candidate {:trigger c.model} | true;
    assert Comparator(lt, dom) by {
      forall a: Candidate, b: Candidate, c: Candidate
        ensures (lt(a, b) ==> !lt(b, a)) && (!lt(b, a) && !lt(c, b) ==> !lt(c, a))
      {
        BeforeOrders(goal, a, b, c);
      }
    }
    SortSorted(s, lt, dom);
    SortMembers(s, lt);
    var r := Sort(s, lt);
    assert r[0] in r;
    forall o | o in s && o != r[0] ensures lt(r[0], o) {
      assert o in r;
      var k :| 0 <= k < |r| && r[k] == o;
      BeforeOrders(goal, r[0], o, o);
    }
  }

  // From the sorted survivors back to every assessed candidate.
  function StageOrder(t: Task): (Candidate, Candidate) -> bool {
    Lex(Gated(), Lex(Trusted(t.tier), Lex(Clears(Bar(t.goal)), Comparing(t.goal))))
  }

  lemma StagesPickBest(t: Task, cands: seq<Candidate>)
    requires cands != [] && IdsTell(cands)
    ensures var clearing := Relax(Relax(Relax(cands, Gated()), Trusted(t.tier)), Clears(Bar(t.goal)));
      clearing != [] && Best(Sort(clearing, Comparing(t.goal))[0], cands, StageOrder(t))
  {
    var gated := Relax(cands, Gated());
    var trusted := Relax(gated, Trusted(t.tier));
    var clearing := Relax(trusted, Clears(Bar(t.goal)));
    FilterMembers(cands, Gated());
    FilterMembers(gated, Trusted(t.tier));
    FilterMembers(trusted, Clears(Bar(t.goal)));
    assert IdsTell(clearing);
    var w := Sort(clearing, Comparing(t.goal))[0];
    SortedHeadBest(t.goal, clearing);
    RelaxBest(w, trusted, clearing, Clears(Bar(t.goal)), Comparing(t.goal));
    RelaxBest(w, gated, trusted, Trusted(t.tier), Lex(Clears(Bar(t.goal)), Comparing(t.goal)));
    RelaxBest(w, cands, gated, Gated(), Lex(Trusted(t.tier), Lex(Clears(Bar(t.goal)), Comparing(t.goal))));
  }

  function AsModels(t: Task): (Model, Model) -> bool {
    (a: Model, b: Model) => StageOrder(t)(Assess(t, a), Assess(t, b))
  }

  lemma PoolForMembers(tier: Tier, models: seq<Model>, goal: Goal)
    ensures forall m :: m in PoolFor(tier, models, goal) <==> m in Relax(models, InTier(tier, goal))
  {
    FilterMembers(models, OfTier(Light));
    FilterMembers(models, OfTier(Mid));
    FilterMembers(models, OfTier(Premium));
    FilterMembers(models, InTier(tier, goal));
    if tier != Premium || goal == MinCost {
      var p :=
        if tier == Premium then Filter(models, OfTier(Mid)) + Filter(models, OfTier(Premium))
        else if tier == Light then Filter(models, OfTier(Light))
        else Filter(models, OfTier(Light)) + Filter(models, OfTier(Mid));
      SameMembers(p, Filter(models, InTier(tier, goal)));
    } else {
      FilterEvery(models, InTier(tier, goal));
    }
  }

  lemma SameMembers(p: seq<Model>, q: seq<Model>)
    requires forall m :: m in p <==> m in q
    ensures p == [] <==> q == []
  {
    if p != [] { assert p[0] in q; }
    if q != [] { assert q[0] in p; }
  }

  ghost predicate ModelIdsTell(models: seq<Model>) {
    forall a, b :: a in models && b in models && a.id == b.id ==> a == b
  }

  // The assessed candidates of a pool stand for its models one to one.
  lemma AssessedIdsTell(t: Task, pool: seq<Model>)
    requires ModelIdsTell(pool)
    ensures IdsTell(AssessAll(t, pool))
  {
    var cands := AssessAll(t, pool);
    forall a, b | a in cands && b in cands && a.model == b.model ensures a == b {
      var i :| 0 <= i < |cands| && cands[i] == a;
      var j :| 0 <= j < |cands| && cands[j] == b;
      assert pool[i] in pool && pool[j] in pool;
    }
  }

  lemma AssessedBest(t: Task, pool: seq<Model>, head: Candidate) returns (w: Model)
    requires ModelIdsTell(pool) && Best(head, AssessAll(t, pool), StageOrder(t))
    ensures w in pool && head == Assess(t, w) && Best(w, pool, AsModels(t))
  {
    hide StageOrder, Quality, ExpectedCost, GatePasses;
    var cands := AssessAll(t, pool);
    var k :| 0 <= k < |cands| && cands[k] == head;
    w := pool[k];
    forall o | o in pool && o != w ensures AsModels(t)(w, o) {
      var j :| 0 <= j < |pool| && pool[j] == o;
      assert cands[j] in cands;
      assert o.id != w.id;
    }
  }

  lemma RankingPicksBest(t: Task, models: seq<Model>) returns (w: Model)
    requires models != [] && ModelIdsTell(models)
    ensures Ranking(t, models) != [] && Ranking(t, models)[0] == Assess(t, w)
    ensures Best(w, models, Lex(InTier(t.tier, t.goal), AsModels(t)))
  {
    hide Assess, StageOrder, InTier, OfTier;
    var pool := PoolFor(t.tier, models, t.goal);
    PoolForMembers(t.tier, models, t.goal);
    FilterMembers(models, InTier(t.tier, t.goal));
    AssessedIdsTell(t, pool);
    StagesPickBest(t, AssessAll(t, pool));
    w := AssessedBest(t, pool, Ranking(t, models)[0]);
    RelaxBest(w, models, pool, InTier(t.tier, t.goal), AsModels(t));
  }

  // The winner is the one model the strict total order puts before every other live model.
  lemma WinnerIsBest(t: Task, models: seq<Model>) returns (w: Model)
    requires models != [] && DistinctIds(models)
    ensures Wins(t, models, w) && Winner(t, models) == w.id
  {
    var sorted := Sort(PricedPool(models), Pricier());
    SortedSame(PricedPool(models));
    ModelsTell(models);
    w := SortedBest(t, models, sorted);
    forall o | o in models && o != w ensures PrefersPriced(t, w, o) {
      LexIsPreference(t, w, o);
    }
  }

  lemma SortedBest(t: Task, models: seq<Model>, sorted: seq<Model>) returns (w: Model)
    requires sorted != [] && ModelIdsTell(models)
    requires forall m :: m in sorted <==> m in Relax(models, Priced())
    ensures Ranking(t, sorted) != [] && Ranking(t, sorted)[0].model == w.id
    ensures Best(w, models, Lex(Priced(), Lex(InTier(t.tier, t.goal), AsModels(t))))
  {
    hide Ranking, InTier, AsModels, Quality, ExpectedCost, GatePasses;
    FilterMembers(models, Priced());
    w := RankingPicksBest(t, sorted);
    RelaxBest(w, models, sorted, Priced(), Lex(InTier(t.tier, t.goal), AsModels(t)));
  }

  lemma SortedSame(models: seq<Model>)
    ensures forall m :: m in Sort(models, Pricier()) <==> m in models
  {
    forall m ensures m in Sort(models, Pricier()) <==> m in models {
      assert m in multiset(Sort(models, Pricier())) <==> m in multiset(models);
    }
  }

  lemma ModelsTell(models: seq<Model>)
    requires DistinctIds(models)
    ensures ModelIdsTell(models)
  {
  }

  lemma LexIsPreference(t: Task, a: Model, b: Model)
    ensures Lex(Priced(), Lex(InTier(t.tier, t.goal), AsModels(t)))(a, b) == PrefersPriced(t, a, b)
  {
    hide Quality, ExpectedCost, GatePasses, Before;
    var ca, cb := Assess(t, a), Assess(t, b);
    var order3 := Lex(Clears(Bar(t.goal)), Comparing(t.goal));
    assert Comparing(t.goal)(ca, cb) == Before(t.goal, ca, cb);
    assert StageOrder(t) == Lex(Gated(), Lex(Trusted(t.tier), order3));
    assert AsModels(t)(a, b) == StageOrder(t)(ca, cb);
    assert AsModels(t)(a, b) == Lex(Gated(), Lex(Trusted(t.tier), order3))(ca, cb);
    assert Lex(InTier(t.tier, t.goal), AsModels(t))(a, b) == Prefers(t, a, b);
  }

  // Independence of irrelevant alternatives and of order: whenever the winner of a pool is also in
  // a smaller (or reordered) pool of its models, it wins there too.
  lemma WinnerSurvivesShrinking(t: Task, models: seq<Model>, fewer: seq<Model>)
    requires models != [] && fewer != [] && DistinctIds(models) && DistinctIds(fewer)
    requires forall m :: m in fewer ==> m in models
    requires exists m :: m in fewer && m.id == Winner(t, models)
    ensures Winner(t, fewer) == Winner(t, models)
  {
    var w := WinnerIsBest(t, models);
    var v := WinnerIsBest(t, fewer);
    if v != w {
      assert w in fewer;
      PreferenceIsTotalOrder(t, v, w, w);
    }
  }

  // Adding models changes the winner only to one of the added models.
  lemma WinnerOfMore(t: Task, models: seq<Model>, added: seq<Model>)
    requires models != [] && DistinctIds(models + added)
    ensures Winner(t, models + added) == Winner(t, models)
         || exists m :: m in added && m.id == Winner(t, models + added)
  {
    var w := WinnerIsBest(t, models + added);
    assert DistinctIds(models) by {
      assert forall i :: 0 <= i < |models| ==> (models + added)[i] == models[i];
    }
    if w in models {
      WinnerSurvivesShrinking(t, models + added, models);
    }
  }

  // One stage: the winner passes it where o does, and where they are level the next stage decides.
  ghost predicate Stage(o: bool, w: bool, next: bool) {
    (o ==> w) && (o == w ==> next)
  }

  // What the stages promise of the winner against any model: priced before unpriced, then the tier pool,
  // the capability gates, measured before estimated on premium tasks, and the quality bar.
  lemma WinnerPassesStages(t: Task, models: seq<Model>, o: Model) returns (w: Model)
    requires models != [] && DistinctIds(models) && o in models
    ensures w in models && w.id == Winner(t, models)
    ensures var a, b := Assess(t, o), Assess(t, w); var pool, trusted := InTier(t.tier, t.goal), Trusted(t.tier);
      Stage(Priced()(o), Priced()(w),
            Stage(pool(o), pool(w),
                  Stage(a.gatePass, b.gatePass,
                        Stage(trusted(a), trusted(b), Clears(Bar(t.goal))(a) ==> Clears(Bar(t.goal))(b)))))
  {
    hide Winner, Quality, ExpectedCost, GatePasses;
    w := WinnerIsBest(t, models);
  }

  // Where two models are level on every stage the goal decides: the quality goal takes the better of them
  // and then the cheaper, any other goal the cheaper and then the better; after that a measured model goes
  // before an estimated one, and the smaller id first.
  lemma WinnerServesGoal(t: Task, models: seq<Model>, o: Model) returns (w: Model)
    requires models != [] && DistinctIds(models) && o in models
    ensures w in models && w.id == Winner(t, models)
    ensures var a, b := Assess(t, o), Assess(t, w);
      Priced()(o) == Priced()(w) && InTier(t.tier, t.goal)(o) == InTier(t.tier, t.goal)(w) && a.gatePass == b.gatePass
      && Trusted(t.tier)(a) == Trusted(t.tier)(b) && Clears(Bar(t.goal))(a) == Clears(Bar(t.goal))(b) ==>
        var cost, cost' := ExpectedCost(w, t.tokens), ExpectedCost(o, t.tokens);
        var quality, quality' := Quality(t.weights, w.caps), Quality(t.weights, o.caps);
        var noDearer := cost == cost' || cost'.Infinite? || (cost.Finite? && cost.usd < cost'.usd);
        && (t.goal == MaxQuality ==> quality >= quality' && (quality == quality' ==> noDearer))
        && (t.goal != MaxQuality ==> noDearer && (cost == cost' ==> quality >= quality'))
        && (cost == cost' && quality == quality' ==>
              && (o.measured ==> w.measured)
              && (o.measured == w.measured && o != w ==> Strings.Less(w.id.name, o.id.name)))
  {
    hide Winner, Quality, ExpectedCost, GatePasses;
    w := WinnerIsBest(t, models);
  }

  // The stages in the model's own fields: a positive input rate; the tier; no need of 0.7 or more met with
  // less than 0.55; measured scores on a premium task; a quality of 0.7, 0.8 or any.
  lemma StagesInFields(t: Task, m: Model)
    ensures var a := Assess(t, m);
      && (Priced()(m) <==> m.inputPer1M > 0.0)
      && (InTier(t.tier, t.goal)(m) <==>
            || (m.tier == Light && t.tier != Premium)
            || (m.tier == Mid && t.tier != Light)
            || (t.tier == Premium && (m.tier == Premium || t.goal != MinCost)))
      && (a.gatePass <==>
            forall d: Dim :: d in t.weights && t.weights[d] >= 0.7 ==> d in m.caps && m.caps[d] >= 0.55)
      && (Trusted(t.tier)(a) <==> t.tier != Premium || m.measured)
      && (Clears(Bar(t.goal))(a) <==>
            Quality(t.weights, m.caps) >= match t.goal case MinCost => 0.7 case MaxQuality => 0.0 case _ => 0.8)
  {
    hide Quality, ExpectedCost, GatePasses;
    GatesInFields(t.weights, m.caps);
  }

  lemma GatesInFields(weights: map<Dim, real>, caps: map<Dim, real>)
    ensures GatePasses(weights, caps) <==>
      forall d: Dim :: d in weights && weights[d] >= 0.7 ==> d in caps && caps[d] >= 0.55
  {
    forall d: Dim ensures d in DIMS {
      EveryDimension(d);
    }
    forall d: Dim
      ensures Weight(weights, d) >= GATE_NEED && Cap(caps, d) < GATE_FLOOR <==>
        d in weights && weights[d] >= 0.7 && !(d in caps && caps[d] >= 0.55)
    {
    }
  }

  lemma EveryDimension(d: Dim)
    ensures d in DIMS
  {
    match d
    case Coding => assert DIMS[0] == d;
    case Reasoning => assert DIMS[1] == d;
    case Writing => assert DIMS[2] == d;
    case Analysis => assert DIMS[3] == d;
    case Language => assert DIMS[4] == d;
    case General => assert DIMS[5] == d;
    case Data => assert DIMS[6] == d;
  }

  // A score is the mean of the capabilities weighted by need, an unknown one counting 0.4; a cost is that
  // of a thousand requests at dollars per million tokens, output at the input's rate unless it has its own.
  lemma ScoresInFields(t: Task, m: Model)
    ensures var need := (d: Dim) => if d in t.weights then t.weights[d] else 0.0;
      var has := (d: Dim) => if d in m.caps then m.caps[d] else 0.4;
      var total := need(Coding) + need(Reasoning) + need(Writing) + need(Analysis) + need(Language) + need(General)
                   + need(Data);
      if total > 0.0 then
        Assess(t, m).quality * total ==
          need(Coding) * has(Coding) + need(Reasoning) * has(Reasoning) + need(Writing) * has(Writing)
          + need(Analysis) * has(Analysis) + need(Language) * has(Language) + need(General) * has(General)
          + need(Data) * has(Data)
      else Assess(t, m).quality == 0.4
    ensures var cost := Assess(t, m).cost;
      && (cost.Finite? <==> m.inputPer1M > 0.0)
      && (cost.Finite? ==>
            cost.usd * 1000.0 ==
              t.tokens.avgIn * m.inputPer1M
              + t.tokens.avgOut * (if m.outputPer1M.Some? then m.outputPer1M.value else m.inputPer1M))
  {
    WeightedOverAll(t.weights, m.caps);
    if m.inputPer1M > 0.0 {
      CostPerThousand(m, t.tokens);
    }
    assert m.inputPer1M <= 0.0 ==> ExpectedCost(m, t.tokens).Infinite?;
    hide Weighted, TotalWeight, ExpectedCost, GatePasses;
    var total := TotalWeight(t.weights, DIMS);
    if total > 0.0 {
      DivTimes(Weighted(t.weights, m.caps, DIMS), total);
    }
  }

  lemma DivTimes(x: real, n: real)
    requires n != 0.0
    ensures (x / n) * n == x
  {
  }

  lemma WeightedOverAll(weights: map<Dim, real>, caps: map<Dim, real>)
    ensures var need := (d: Dim) => if d in weights then weights[d] else 0.0;
      TotalWeight(weights, DIMS) ==
        need(Coding) + need(Reasoning) + need(Writing) + need(Analysis) + need(Language) + need(General) + need(Data)
    ensures var need := (d: Dim) => if d in weights then weights[d] else 0.0;
      var has := (d: Dim) => if d in caps then caps[d] else 0.4;
      Weighted(weights, caps, DIMS) ==
        need(Coding) * has(Coding) + need(Reasoning) * has(Reasoning) + need(Writing) * has(Writing)
        + need(Analysis) * has(Analysis) + need(Language) * has(Language) + need(General) * has(General)
        + need(Data) * has(Data)
  {
    hide Weight, Cap, Scaled;
    SumOverAll(weights, caps);
    TermIs(weights, caps, Coding);
    TermIs(weights, caps, Reasoning);
    TermIs(weights, caps, Writing);
    TermIs(weights, caps, Analysis);
    TermIs(weights, caps, Language);
    TermIs(weights, caps, General);
    TermIs(weights, caps, Data);
  }

  function Term(weights: map<Dim, real>, caps: map<Dim, real>, d: Dim): real {
    Scaled(Weight(weights, d), Cap(caps, d))
  }

  lemma TermIs(weights: map<Dim, real>, caps: map<Dim, real>, d: Dim)
    ensures Weight(weights, d) == if d in weights then weights[d] else 0.0
    ensures Term(weights, caps, d) ==
      (if d in weights then weights[d] else 0.0) * (if d in caps then caps[d] else 0.4)
  {
  }

  lemma OneTerm(weights: map<Dim, real>, caps: map<Dim, real>, dims: seq<Dim>, d: Dim)
    ensures TotalWeight(weights, dims + [d]) == TotalWeight(weights, dims) + Weight(weights, d)
    ensures Weighted(weights, caps, dims + [d]) == Weighted(weights, caps, dims) + Term(weights, caps, d)
  {
    assert (dims + [d])[..|dims|] == dims;
  }

  lemma SumOverAll(weights: map<Dim, real>, caps: map<Dim, real>)
    ensures TotalWeight(weights, DIMS) ==
      Weight(weights, Coding) + Weight(weights, Reasoning) + Weight(weights, Writing) + Weight(weights, Analysis)
      + Weight(weights, Language) + Weight(weights, General) + Weight(weights, Data)
    ensures Weighted(weights, caps, DIMS) ==
      Term(weights, caps, Coding) + Term(weights, caps, Reasoning) + Term(weights, caps, Writing)
      + Term(weights, caps, Analysis) + Term(weights, caps, Language) + Term(weights, caps, General)
      + Term(weights, caps, Data)
  {
    hide Weight, Term;
    var d3 := [Coding, Reasoning, Writing];
    var d4 := d3 + [Analysis];
    var d5 := d4 + [Language];
    var d6 := d5 + [General];
    OneTerm(weights, caps, d6, Data);
    OneTerm(weights, caps, d5, General);
    OneTerm(weights, caps, d4, Language);
    OneTerm(weights, caps, d3, Analysis);
    OneTerm(weights, caps, [Coding, Reasoning], Writing);
    OneTerm(weights, caps, [Coding], Reasoning);
    OneTerm(weights, caps, [], Coding);
    assert DIMS == d6 + [Data] && d3 == [Coding, Reasoning] + [Writing];
    assert [Coding, Reasoning] == [Coding] + [Reasoning] && [Coding] == [] + [Coding];
  }

  lemma CostPerThousand(m: Model, t: Tokens)
    requires m.inputPer1M > 0.0
    ensures ExpectedCost(m, t).Finite?
    ensures ExpectedCost(m, t).usd * 1000.0 ==
      t.avgIn * m.inputPer1M + t.avgOut * (if m.outputPer1M.Some? then m.outputPer1M.value else m.inputPer1M)
  {
  }

  // m' is m made no worse: no capability lower, no higher expected cost, still priced if it was.
  ghost predicate NoWorse(t: Task, m': Model, m: Model) {
    && m'.id == m.id && m'.tier == m.tier && (m.measured ==> m'.measured)
    && (forall d :: Cap(m'.caps, d) >= Cap(m.caps, d))
    && (Priced()(m) ==> Priced()(m'))
    && !Cheaper(ExpectedCost(m, t.tokens), ExpectedCost(m', t.tokens))
  }

  lemma {:induction false} WeightedMonotone(weights: map<Dim, real>, lo: map<Dim, real>, hi: map<Dim, real>,
                                            dims: seq<Dim>)
    requires forall d :: Weight(weights, d) >= 0.0 && Cap(hi, d) >= Cap(lo, d)
    ensures Weighted(weights, hi, dims) >= Weighted(weights, lo, dims)
  {
    if dims != [] {
      hide Scaled;
      var d := dims[|dims| - 1];
      WeightedMonotone(weights, lo, hi, dims[..|dims| - 1]);
      assert Weight(weights, d) >= 0.0;
      ScaleMonotone(Weight(weights, d), Cap(lo, d), Cap(hi, d));
    }
  }

  lemma ScaleMonotone(w: real, x: real, y: real)
    requires w >= 0.0 && x <= y
    ensures Scaled(w, x) <= Scaled(w, y)
  {
  }

  lemma DivMonotone(x: real, y: real, n: real)
    requires n > 0.0 && x <= y
    ensures x / n <= y / n
  {
  }

  lemma QualityMonotone(weights: map<Dim, real>, lo: map<Dim, real>, hi: map<Dim, real>)
    requires forall d :: Weight(weights, d) >= 0.0 && Cap(hi, d) >= Cap(lo, d)
    ensures Quality(weights, hi) >= Quality(weights, lo)
  {
    WeightedMonotone(weights, lo, hi, DIMS);
    if TotalWeight(weights, DIMS) > 0.0 {
      DivMonotone(Weighted(weights, lo, DIMS), Weighted(weights, hi, DIMS), TotalWeight(weights, DIMS));
    }
  }

  lemma NoWorseStillPreferred(t: Task, w: Model, w': Model, o: Model)
    requires forall d :: Weight(t.weights, d) >= 0.0
    requires NoWorse(t, w', w) && PrefersPriced(t, w, o)
    ensures PrefersPriced(t, w', o)
  {
    QualityMonotone(t.weights, w.caps, w'.caps);
    assert GatePasses(t.weights, w.caps) ==> GatePasses(t.weights, w'.caps);
  }

  lemma SameIds(t: Task, models: seq<Model>, k: nat, better: Model)
    requires k < |models| && DistinctIds(models) && NoWorse(t, better, models[k])
    ensures DistinctIds(models[k := better]) && better.id == models[k].id
  {
  }

  // Monotonicity: better benchmark scores or a lower price never lose a model its assignment.
  lemma ImprovingKeepsWinning(t: Task, models: seq<Model>, k: nat, better: Model)
    requires k < |models| && DistinctIds(models) && models[k].id == Winner(t, models)
    requires forall d :: Weight(t.weights, d) >= 0.0
    requires NoWorse(t, better, models[k])
    ensures Winner(t, models[k := better]) == Winner(t, models)
  {
    hide Winner, PrefersPriced, NoWorse;
    var w := WinnerIsBest(t, models);
    assert w.id == models[k].id;
    var models' := models[k := better];
    SameIds(t, models, k, better);
    var v := WinnerIsBest(t, models');
    if v != better {
      assert v in models && v != w;
      NoWorseStillPreferred(t, w, better, v);
      assert models'[k] == better;
      PreferenceIsTotalOrder(t, v, better, better);
    }
  }

  // ---- Serve-time difficulty adjustment ---------------------------------------------------------

  datatype Registered = Registered(model: Model, chatCapable: bool)

  function Servable(live: set<string>): Registered -> bool {
    (r: Registered) => r.model.provider in live && r.chatCapable
  }

  function ModelsOf(rs: seq<Registered>): (ms: seq<Model>)
    ensures |ms| == |rs| && forall i :: 0 <= i < |rs| ==> ms[i] == rs[i].model
  {
    if rs == [] then [] else [rs[0].model] + ModelsOf(rs[1..])
  }

  // resolveModel once lookup() found `base`: the assigned model, or a cheaper stand-in.
  // difficulty: the tier the classifier gave this request; catalogTier: the task's usual tier.
  function Resolve(base: Model, adjust: bool, difficulty: Option<Tier>, catalogTier: Option<Tier>,
                   registry: seq<Registered>, live: set<string>, weights: map<Dim, real>, tokens: Tokens): ModelId
  {
    if !adjust || difficulty.None? || difficulty == catalogTier then base.id
    else
      var liveModels := ModelsOf(Filter(registry, Servable(live)));
      if liveModels == [] then base.id
      else
        var id := Winner(Task(difficulty.value, weights, tokens, NoGoal), liveModels);
        var picked := Find(registry, id);
        if picked.None? || picked.value.provider !in live then base.id
        else if picked.value.inputPer1M < base.inputPer1M then id
        else base.id
  }

  function Find(registry: seq<Registered>, id: ModelId): (r: Option<Model>)
  {
    if registry == [] then None
    else if registry[0].model.id == id then Some(registry[0].model)
    else Find(registry[1..], id)
  }

  lemma {:induction false} FindUnique(registry: seq<Registered>, r: Registered)
    requires r in registry && forall a, b :: a in registry && b in registry && a.model.id == b.model.id ==> a == b
    ensures Find(registry, r.model.id) == Some(r.model)
  {
    if registry[0] != r {
      FindUnique(registry[1..], r);
    }
  }

  // The adjustment only ever moves to a strictly cheaper, live, chat-capable model.
  lemma AdjustmentOnlySaves(base: Model, adjust: bool, difficulty: Option<Tier>, catalogTier: Option<Tier>,
                            registry: seq<Registered>, live: set<string>, weights: map<Dim, real>, tokens: Tokens)
    returns (r: Registered)
    requires registry != [] && Distinct(registry)
    requires forall a, b :: a in registry && b in registry && a.model.id == b.model.id ==> a == b
    ensures var id := Resolve(base, adjust, difficulty, catalogTier, registry, live, weights, tokens);
      id != base.id ==>
        && adjust && r in registry && r.model.id == id
        && r.model.inputPer1M < base.inputPer1M && r.model.provider in live && r.chatCapable
  {
    r := registry[0];
    var kept := Filter(registry, Servable(live));
    var liveModels := ModelsOf(kept);
    FilterMembers(registry, Servable(live));
    FilterDistinct(registry, Servable(live));
    if adjust && difficulty.Some? && liveModels != [] {
      assert DistinctIds(liveModels) by {
        forall i, j | 0 <= i < j < |liveModels| ensures liveModels[i].id != liveModels[j].id {
          assert kept[i] in kept && kept[j] in kept;
        }
      }
      var w := WinnerIsBest(Task(difficulty.value, weights, tokens, NoGoal), liveModels);
      var k :| 0 <= k < |liveModels| && liveModels[k] == w;
      assert kept[k] in kept;
      r := kept[k];
      FindUnique(registry, r);
    }
  }

  // The models an adjustment chooses from.
  lemma ServableModels(registry: seq<Registered>, live: set<string>)
    ensures forall m :: m in ModelsOf(Filter(registry, Servable(live))) <==>
      exists r :: r in registry && r.model == m && r.model.provider in live && r.chatCapable
  {
    var kept := Filter(registry, Servable(live));
    FilterMembers(registry, Servable(live));
    forall m ensures m in ModelsOf(kept) <==> exists r :: r in kept && r.model == m {
      if m in ModelsOf(kept) {
        var k :| 0 <= k < |kept| && ModelsOf(kept)[k] == m;
        assert kept[k] in kept;
      }
      if r :| r in kept && r.model == m {
        var k :| 0 <= k < |kept| && kept[k] == r;
        assert ModelsOf(kept)[k] == m;
      }
    }
  }

  // And it is made exactly when it was asked for, the classifier rated this request otherwise than the
  // task usually is, and the best servable model for that tier has a lower input rate.
  lemma AdjustedIff(base: Model, adjust: bool, difficulty: Option<Tier>, catalogTier: Option<Tier>,
                    registry: seq<Registered>, live: set<string>, weights: map<Dim, real>, tokens: Tokens,
                    pick: Registered)
    requires forall a, b :: a in registry && b in registry && a.model.id == b.model.id ==> a == b
    requires pick in registry && pick.model.provider in live && pick.chatCapable && difficulty.Some?
    requires var servable := ModelsOf(Filter(registry, Servable(live)));
      servable != [] && pick.model.id == Winner(Task(difficulty.value, weights, tokens, NoGoal), servable)
    ensures var id := Resolve(base, adjust, difficulty, catalogTier, registry, live, weights, tokens);
      var adjusts := adjust && difficulty != catalogTier && pick.model.inputPer1M < base.inputPer1M;
      id == if adjusts then pick.model.id else base.id
  {
    hide Winner;
    FindUnique(registry, pick);
  }
}
