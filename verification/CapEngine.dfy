// server/src/routing/capEngine.js: usage caps with shared counters. A request is admitted before
// its cost is known; the cost is added to the counters when the request has been logged.
module CapEngine {
  import opened Options
  import opened Seqs

  datatype Dimension = Application | ByProvider | User | Department | Workflow | ByModel | OtherDimension
  datatype Period = Day | Month
  datatype Metric = Spend | Requests
  datatype Response = Alert | Downgrade | Block
  datatype CapId = CapId(key: string)
  datatype Label = Label(text: string)

  datatype Cap = Cap(id: CapId, dimension: Option<Dimension>, value: Option<Label>, period: Period,
                     metric: Metric, limit: real, action: Response)

  // The request fields a cap can be scoped to; internalKind marks the gateway's own calls.
  datatype Scope = Scope(application: Option<Label>, provider: Option<Label>, user: Option<Label>,
                         department: Option<Label>, workflow: Option<Label>, model: Option<Label>, internalKind: bool)

  predicate Matches(cap: Cap, ctx: Scope) {
    if cap.dimension.None? then true
    else if ctx.internalKind then false
    else
      match cap.dimension.value
      case Application => cap.value == ctx.application
      case ByProvider => cap.value == ctx.provider
      case User => cap.value == ctx.user
      case Department => cap.value == ctx.department
      case Workflow => cap.value == ctx.workflow
      case ByModel => cap.value == ctx.model
      case OtherDimension => false
  }

  // ---- Counters --------------------------------------------------------------------------------

  // A UTC calendar month of a timestamp, as a running number: any nondecreasing function will do.
  type Calendar = nat -> nat
  const DAY_MS: nat := 86400000

  datatype Window = Window(period: Period, index: nat)
  datatype Key = Key(cap: CapId, window: Window)
  type Counters = map<Key, real>

  function WindowAt(period: Period, now: nat, months: Calendar): Window {
    if period == Day then Window(Day, now / DAY_MS) else Window(Month, months(now))
  }

  function KeyAt(cap: Cap, now: nat, months: Calendar): Key {
    Key(cap.id, WindowAt(cap.period, now, months))
  }

  function Count(spent: Counters, k: Key): real {
    if k in spent then spent[k] else 0.0
  }

  // $inc with upsert.
  function Inc(spent: Counters, k: Key, amount: real): Counters {
    spent[k := Count(spent, k) + amount]
  }

  // _bump: one increment per matching cap.
  function Bump(spent: Counters, caps: seq<Cap>, ctx: Scope, amount: real, now: nat, months: Calendar): Counters {
    if caps == [] then spent
    else
      var rest := Bump(spent, caps[..|caps| - 1], ctx, amount, now, months);
      var cap := caps[|caps| - 1];
      if Matches(cap, ctx) then Inc(rest, KeyAt(cap, now, months), amount) else rest
  }

  function OfMetric(caps: seq<Cap>, metric: Metric): seq<Cap> {
    if caps == [] then []
    else OfMetric(caps[..|caps| - 1], metric) + if caps[|caps| - 1].metric == metric then [caps[|caps| - 1]] else []
  }

  function AfterSpend(spent: Counters, caps: seq<Cap>, ctx: Scope, cost: real, now: nat, months: Calendar): Counters {
    if cost <= 0.0 then spent else Bump(spent, OfMetric(caps, Spend), ctx, cost, now, months)
  }

  function AfterRequest(spent: Counters, caps: seq<Cap>, ctx: Scope, now: nat, months: Calendar): Counters {
    if ctx.internalKind then spent else Bump(spent, OfMetric(caps, Requests), ctx, 1.0, now, months)
  }

  // What one successful request adds to the counter of one cap.
  function Charge(cap: Cap, ctx: Scope, cost: real): real {
    if !Matches(cap, ctx) then 0.0
    else if cap.metric == Spend then (if cost <= 0.0 then 0.0 else cost)
    else if ctx.internalKind then 0.0
    else 1.0
  }

  ghost predicate DistinctCaps(caps: seq<Cap>) {
    forall i, j :: 0 <= i < j < |caps| ==> caps[i].id != caps[j].id
  }

  lemma {:induction false} BumpCounts(spent: Counters, caps: seq<Cap>, ctx: Scope, amount: real, now: nat,
                                      months: Calendar, k: Key)
    requires DistinctCaps(caps)
    ensures Count(Bump(spent, caps, ctx, amount, now, months), k) ==
      Count(spent, k)
      + if exists cap :: cap in caps && Matches(cap, ctx) && KeyAt(cap, now, months) == k then amount else 0.0
  {
    if caps != [] {
      var front, last := caps[..|caps| - 1], caps[|caps| - 1];
      BumpCounts(spent, front, ctx, amount, now, months, k);
      if Matches(last, ctx) && KeyAt(last, now, months) == k {
        forall cap | cap in front ensures KeyAt(cap, now, months) != k {
          var i :| 0 <= i < |front| && front[i] == cap;
          assert caps[i].id != caps[|caps| - 1].id;
        }
      }
      forall cap ensures cap in caps <==> cap in front || cap == last {
        assert caps == front + [last];
      }
    }
  }

  lemma {:induction false} OfMetricMembers(caps: seq<Cap>, metric: Metric)
    requires DistinctCaps(caps)
    ensures DistinctCaps(OfMetric(caps, metric))
    ensures forall cap :: cap in OfMetric(caps, metric) <==> cap in caps && cap.metric == metric
  {
    if caps != [] {
      var front, last := caps[..|caps| - 1], caps[|caps| - 1];
      OfMetricMembers(front, metric);
      assert caps == front + [last];
      var r := OfMetric(front, metric);
      forall i | 0 <= i < |r| ensures r[i].id != last.id {
        assert r[i] in front;
        var j :| 0 <= j < |front| && front[j] == r[i];
        assert caps[j].id != caps[|caps| - 1].id;
      }
    }
  }

  lemma SameIdSameCap(caps: seq<Cap>, a: Cap, b: Cap)
    requires DistinctCaps(caps) && a in caps && b in caps && a.id == b.id
    ensures a == b
  {
    var i :| 0 <= i < |caps| && caps[i] == a;
    var j :| 0 <= j < |caps| && caps[j] == b;
    assert i == j;
  }

  // Logging one request moves each cap's current counter by that cap's charge and nothing else.
  lemma RecordedCharge(spent: Counters, caps: seq<Cap>, cap: Cap, ctx: Scope, cost: real, now: nat, months: Calendar,
                       w: Window)
    requires DistinctCaps(caps) && cap in caps
    ensures var after := AfterRequest(AfterSpend(spent, caps, ctx, cost, now, months), caps, ctx, now, months);
      Count(after, Key(cap.id, w)) ==
        Count(spent, Key(cap.id, w)) + if w == WindowAt(cap.period, now, months) then Charge(cap, ctx, cost) else 0.0
  {
    var mid := AfterSpend(spent, caps, ctx, cost, now, months);
    var k := Key(cap.id, w);
    OfMetricMembers(caps, Spend);
    OfMetricMembers(caps, Requests);
    BumpTouches(spent, caps, Spend, cap, ctx, cost, now, months, w);
    BumpTouches(mid, caps, Requests, cap, ctx, 1.0, now, months, w);
  }

  // What a request carries for each dimension a cap can have.
  ghost function Labels(ctx: Scope): map<Dimension, Option<Label>> {
    map[Application := ctx.application, ByProvider := ctx.provider, User := ctx.user, Department := ctx.department,
        Workflow := ctx.workflow, ByModel := ctx.model]
  }

  // A global cap is about every call; any other about the customer requests that carry its value for its
  // own dimension.
  ghost predicate InScope(cap: Cap, ctx: Scope) {
    match cap.dimension
    case None => true
    case Some(d) => !ctx.internalKind && d in Labels(ctx) && Labels(ctx)[d] == cap.value
  }

  // Logging a request adds its cost to the spend caps it is in scope of, and one to the request caps if it
  // is a customer's, in the counter of the UTC day or month; every other counter of a cap stays.
  lemma ChargedIffInScope(spent: Counters, caps: seq<Cap>, cap: Cap, ctx: Scope, cost: real, now: nat,
                          months: Calendar, w: Window)
    requires DistinctCaps(caps) && cap in caps
    ensures var after := AfterRequest(AfterSpend(spent, caps, ctx, cost, now, months), caps, ctx, now, months);
      var here := if cap.period == Day then Window(Day, now / 86400000) else Window(Month, months(now));
      var spends := cap.metric == Spend && cost > 0.0 && InScope(cap, ctx);
      var counts := cap.metric == Requests && !ctx.internalKind && InScope(cap, ctx);
      && (spends ==> Count(after, Key(cap.id, here)) == Count(spent, Key(cap.id, here)) + cost)
      && (counts ==> Count(after, Key(cap.id, here)) == Count(spent, Key(cap.id, here)) + 1.0)
      && ((!spends && !counts) || w != here ==> Count(after, Key(cap.id, w)) == Count(spent, Key(cap.id, w)))
  {
    hide AfterRequest, AfterSpend, Count;
    RecordedCharge(spent, caps, cap, ctx, cost, now, months, w);
    var here := if cap.period == Day then Window(Day, now / 86400000) else Window(Month, months(now));
    RecordedCharge(spent, caps, cap, ctx, cost, now, months, here);
  }

  lemma BumpTouches(spent: Counters, caps: seq<Cap>, metric: Metric, cap: Cap, ctx: Scope, amount: real, now: nat,
                    months: Calendar, w: Window)
    requires DistinctCaps(caps) && cap in caps
    ensures Count(Bump(spent, OfMetric(caps, metric), ctx, amount, now, months), Key(cap.id, w)) ==
      Count(spent, Key(cap.id, w)) +
      if cap.metric == metric && Matches(cap, ctx) && w == WindowAt(cap.period, now, months) then amount else 0.0
  {
    hide Matches, WindowAt;
    OfMetricMembers(caps, metric);
    BumpCounts(spent, OfMetric(caps, metric), ctx, amount, now, months, Key(cap.id, w));
    forall other | other in OfMetric(caps, metric) && KeyAt(other, now, months) == Key(cap.id, w)
      ensures other == cap
    {
      SameIdSameCap(caps, other, cap);
    }
    if cap.metric == metric && Matches(cap, ctx) && w == WindowAt(cap.period, now, months) {
      assert cap in OfMetric(caps, metric) && KeyAt(cap, now, months) == Key(cap.id, w);
    }
  }

  // ---- Enforcement -----------------------------------------------------------------------------

  datatype Verdict = Admit | Degrade(cap: Cap, spent: real) | Refuse(cap: Cap, spent: real)

  predicate Breached(spent: Counters, cap: Cap, now: nat, months: Calendar) {
    Count(spent, KeyAt(cap, now, months)) >= cap.limit
  }

  predicate Hits(spent: Counters, cap: Cap, ctx: Scope, now: nat, months: Calendar) {
    Matches(cap, ctx) && Breached(spent, cap, now, months)
  }

  // enforcement(): the first breached block cap refuses; failing that, the first breached cap of
  // any kind degrades.
  ghost predicate Enforces(spent: Counters, caps: seq<Cap>, ctx: Scope, now: nat, months: Calendar, v: Verdict) {
    match v
    case Refuse(cap, s) =>
      && Hits(spent, cap, ctx, now, months) && cap.action == Block && s == Count(spent, KeyAt(cap, now, months))
      && exists i :: 0 <= i < |caps| && caps[i] == cap && NoneBlocks(spent, caps[..i], ctx, now, months)
    case Degrade(cap, s) =>
      && NoneBlocks(spent, caps, ctx, now, months)
      && Hits(spent, cap, ctx, now, months) && s == Count(spent, KeyAt(cap, now, months))
      && exists i :: 0 <= i < |caps| && caps[i] == cap && NoneHits(spent, caps[..i], ctx, now, months)
    case Admit => NoneHits(spent, caps, ctx, now, months)
  }

  ghost predicate NoneHits(spent: Counters, caps: seq<Cap>, ctx: Scope, now: nat, months: Calendar) {
    forall cap :: cap in caps ==> !Hits(spent, cap, ctx, now, months)
  }

  ghost predicate NoneBlocks(spent: Counters, caps: seq<Cap>, ctx: Scope, now: nat, months: Calendar) {
    forall cap :: cap in caps && Hits(spent, cap, ctx, now, months) ==> cap.action != Block
  }

  // A breached block cap in scope refuses the request whatever other caps there are.
  lemma BlockCapRefuses(spent: Counters, caps: seq<Cap>, cap: Cap, ctx: Scope, now: nat, months: Calendar, v: Verdict)
    requires Enforces(spent, caps, ctx, now, months, v) && cap in caps
    requires Hits(spent, cap, ctx, now, months) && cap.action == Block
    ensures v.Refuse?
  {
  }

  // Alert caps do enforce: the documentation says they only notify, but routing is left alone only
  // while no cap in scope, of any action, is breached.
  lemma AdmitMeansNothingBreached(spent: Counters, caps: seq<Cap>, ctx: Scope, now: nat, months: Calendar, v: Verdict)
    requires Enforces(spent, caps, ctx, now, months, v)
    ensures v.Admit? <==> forall cap :: cap in caps ==> !Hits(spent, cap, ctx, now, months)
    ensures v.Refuse? <==> exists cap :: cap in caps && Hits(spent, cap, ctx, now, months) && cap.action == Block
  {
    if v.Refuse? || v.Degrade? {
      assert v.cap in caps && Hits(spent, v.cap, ctx, now, months);
    }
  }

  // A request is refused exactly when a block cap it is in scope of has reached its limit in the current
  // window, and admitted exactly when no cap it is in scope of has.
  lemma RefusedIffInScope(spent: Counters, caps: seq<Cap>, ctx: Scope, now: nat, months: Calendar, v: Verdict)
    requires Enforces(spent, caps, ctx, now, months, v)
    ensures var reached := (cap: Cap) =>
        Count(spent, Key(cap.id, if cap.period == Day then Window(Day, now / 86400000)
                                 else Window(Month, months(now)))) >= cap.limit;
      && (v.Refuse? <==> exists cap :: cap in caps && InScope(cap, ctx) && cap.action == Block && reached(cap))
      && (v.Admit? <==> forall cap :: cap in caps && InScope(cap, ctx) ==> !reached(cap))
  {
    AdmitMeansNothingBreached(spent, caps, ctx, now, months, v);
    forall cap: Cap ensures Matches(cap, ctx) == InScope(cap, ctx) {
    }
  }

  function Quiet(): Cap -> bool {
    (cap: Cap) => cap.action != Alert
  }

  // The caps an operator would expect to enforce.
  function Enforcing(caps: seq<Cap>): seq<Cap> {
    Filter(caps, Quiet())
  }

  // Alert caps change the kind of a verdict exactly when one of them is breached and no cap that is
  // meant to enforce is.
  lemma AlertsMatterIff(spent: Counters, caps: seq<Cap>, ctx: Scope, now: nat, months: Calendar, v: Verdict, w: Verdict)
    requires Enforces(spent, caps, ctx, now, months, v) && Enforces(spent, Enforcing(caps), ctx, now, months, w)
    ensures v.Refuse? <==> w.Refuse?
    ensures (v.Degrade? <==> w.Degrade?) <==>
      || (forall cap :: cap in caps && Hits(spent, cap, ctx, now, months) ==> cap.action != Alert)
      || (exists cap :: cap in caps && Hits(spent, cap, ctx, now, months) && cap.action != Alert)
  {
    hide Matches, Breached, Hits;
    FilterMembers(caps, Quiet());
    AdmitMeansNothingBreached(spent, caps, ctx, now, months, v);
    AdmitMeansNothingBreached(spent, Enforcing(caps), ctx, now, months, w);
  }

  // One alert cap at its limit is enough.
  lemma AlertCapDegrades(cap: Cap, now: nat, months: Calendar, ctx: Scope, v: Verdict)
    requires cap.action == Alert && cap.limit > 0.0 && Matches(cap, ctx)
    requires Enforces(map[KeyAt(cap, now, months) := cap.limit], [cap], ctx, now, months, v)
    ensures v == Degrade(cap, cap.limit)
  {
    assert Hits(map[KeyAt(cap, now, months) := cap.limit], [cap][0], ctx, now, months);
  }

  class CapStore {
    var caps: seq<Cap>
    var spent: Counters
    const months: Calendar

    constructor (caps: seq<Cap>, months: Calendar)
      ensures this.caps == caps && spent == map[] && this.months == months
    {
      this.caps, this.months := caps, months;
      spent := map[];
    }

    method BumpAll(chosen: seq<Cap>, ctx: Scope, amount: real, now: nat)
      modifies this`spent
      ensures spent == Bump(old(spent), chosen, ctx, amount, now, months)
    {
      for k := 0 to |chosen|
        invariant spent == Bump(old(spent), chosen[..k], ctx, amount, now, months)
      {
        assert chosen[..k + 1][..k] == chosen[..k];
        if Matches(chosen[k], ctx) {
          spent := Inc(spent, KeyAt(chosen[k], now, months), amount);
        }
      }
      assert chosen[..|chosen|] == chosen;
    }

    method RecordSpend(totalCost: real, ctx: Scope, now: nat)
      modifies this`spent
      ensures spent == AfterSpend(old(spent), caps, ctx, totalCost, now, months)
    {
      if totalCost <= 0.0 {
        return;
      }
      BumpAll(OfMetric(caps, Spend), ctx, totalCost, now);
    }

    method RecordRequest(ctx: Scope, now: nat)
      modifies this`spent
      ensures spent == AfterRequest(old(spent), caps, ctx, now, months)
    {
      if ctx.internalKind {
        return;
      }
      BumpAll(OfMetric(caps, Requests), ctx, 1.0, now);
    }

    method Enforcement(ctx: Scope, now: nat) returns (v: Verdict)
      ensures Enforces(spent, caps, ctx, now, months, v)
    {
      v := Admit;
      for k := 0 to |caps|
        invariant !v.Refuse? && Enforces(spent, caps[..k], ctx, now, months, v)
      {
        var cap := caps[k];
        assert caps[..k + 1] == caps[..k] + [cap] && caps[..k + 1][..k] == caps[..k];
        if v.Degrade? {
          ghost var i :| 0 <= i < k && caps[i] == v.cap && NoneHits(spent, caps[..k][..i], ctx, now, months);
          assert caps[..k + 1][..i] == caps[..k][..i] && caps[..k + 1][i] == v.cap;
        }
        if Matches(cap, ctx) {
          var s := Count(spent, KeyAt(cap, now, months));
          if s >= cap.limit {
            if cap.action == Block {
              return Refuse(cap, s);
            }
            if v.Admit? {
              v := Degrade(cap, s);
              assert caps[..k + 1][k] == v.cap;
            }
          }
        }
      }
      assert caps[..|caps|] == caps;
    }
  }

  // ---- Overshoot of one block cap under concurrency ------------------------------------------------

  type RequestId = nat

  // `open`: the scope enforcement saw of each admitted request that has not been logged yet.
  // `unasked`: what traffic that never read this cap has charged it, by window.
  datatype Site = Site(spent: Counters, open: map<RequestId, Scope>, unasked: map<nat, real>)
  const EMPTY := Site(map[], map[], map[])

  // A request is logged under the provider and model that answered, wherever a downgrade, a fallback
  // or a replica took it after enforcement. Internal calls, embeddings, realtime sessions and ingested
  // reports are logged without any enforcement.
  datatype Event =
    | Ask(r: RequestId, ctx: Scope, now: nat)
    | Settle(r: RequestId, provider: Option<Label>, model: Option<Label>, cost: real, now: nat)
    | Drop(r: RequestId, now: nat)
    | Unenforced(ctx: Scope, cost: real, now: nat)

  function Moved(ctx: Scope, provider: Option<Label>, model: Option<Label>): Scope {
    ctx.(provider := provider, model := model)
  }

  // The admitted requests that read this cap below its limit.
  function Readers(s: Site, cap: Cap): set<RequestId> {
    set r | r in s.open && Matches(cap, s.open[r])
  }

  predicate Enabled(s: Site, e: Event) {
    match e
    case Ask(r, ctx, _) => r !in s.open && !ctx.internalKind
    case Settle(r, _, _, _, _) => r in s.open
    case Drop(r, _) => r in s.open
    case Unenforced(_, _, _) => true
  }

  function Log(spent: Counters, caps: seq<Cap>, ctx: Scope, cost: real, now: nat, months: Calendar): Counters {
    AfterRequest(AfterSpend(spent, caps, ctx, cost, now, months), caps, ctx, now, months)
  }

  function Added(unasked: map<nat, real>, i: nat, charge: real): map<nat, real> {
    unasked[i := Unasked(unasked, i) + charge]
  }

  function Unasked(unasked: map<nat, real>, i: nat): real {
    if i in unasked then unasked[i] else 0.0
  }

  // What an event charges the cap.
  function ChargeOf(s: Site, e: Event, cap: Cap): real
    requires Enabled(s, e)
  {
    match e
    case Settle(r, provider, model, cost, _) => Charge(cap, Moved(s.open[r], provider, model), cost)
    case Unenforced(ctx, cost, _) => Charge(cap, ctx, cost)
    case _ => 0.0
  }

  function Step(s: Site, e: Event, caps: seq<Cap>, cap: Cap, months: Calendar): Site
    requires Enabled(s, e)
  {
    match e
    case Ask(r, ctx, now) =>
      if Matches(cap, ctx) && Breached(s.spent, cap, now, months) then s else s.(open := s.open[r := ctx])
    case Settle(r, provider, model, cost, now) =>
      Site(Log(s.spent, caps, Moved(s.open[r], provider, model), cost, now, months), s.open - {r},
           if Matches(cap, s.open[r]) then s.unasked
           else Added(s.unasked, Index(cap, now, months), ChargeOf(s, e, cap)))
    case Drop(r, _) => s.(open := s.open - {r})
    case Unenforced(ctx, cost, now) =>
      Site(Log(s.spent, caps, ctx, cost, now, months), s.open,
           Added(s.unasked, Index(cap, now, months), ChargeOf(s, e, cap)))
  }

  // A request is charged for where it was answered: by the answering provider and model for caps on
  // those, by what enforcement saw for the others; an internal call by global spend caps only.
  lemma ChargedWhereAnswered(s: Site, r: RequestId, provider: Option<Label>, model: Option<Label>, cost: real,
                             now: nat, cap: Cap)
    requires r in s.open && cost > 0.0
    ensures var seen, charge := s.open[r], ChargeOf(s, Settle(r, provider, model, cost, now), cap);
      var unit := if cap.metric == Spend then cost else 1.0;
      && (charge == unit || charge == 0.0)
      && (seen.internalKind ==> (charge == unit <==> cap.dimension == None && cap.metric == Spend))
      && (!seen.internalKind ==>
            match cap.dimension
            case None => charge == unit
            case Some(ByProvider) => charge == unit <==> cap.value == provider
            case Some(ByModel) => charge == unit <==> cap.value == model
            case Some(Application) => charge == unit <==> cap.value == seen.application
            case Some(User) => charge == unit <==> cap.value == seen.user
            case Some(Department) => charge == unit <==> cap.value == seen.department
            case Some(Workflow) => charge == unit <==> cap.value == seen.workflow
            case Some(OtherDimension) => charge == 0.0)
  {
  }

  // At most k requests that read the cap are unrecorded at once, each charges it at most c, and the
  // clock never runs back.
  ghost predicate IsRun(events: seq<Event>, caps: seq<Cap>, cap: Cap, k: nat, c: real, months: Calendar) {
    events == [] ||
    var front, e := events[..|events| - 1], events[|events| - 1];
    && IsRun(front, caps, cap, k, c, months)
    && (front != [] ==> front[|front| - 1].now <= e.now)
    && var s := After(front, caps, cap, months);
       && Enabled(s, e)
       && |Readers(Step(s, e, caps, cap, months), cap)| <= k
       && (e.Settle? ==> ChargeOf(s, e, cap) <= c)
  }

  function After(events: seq<Event>, caps: seq<Cap>, cap: Cap, months: Calendar): Site {
    if events == [] then EMPTY
    else
      var s := After(events[..|events| - 1], caps, cap, months);
      if Enabled(s, events[|events| - 1]) then Step(s, events[|events| - 1], caps, cap, months) else s
  }

  ghost predicate Monotone(months: Calendar) {
    forall a: nat, b: nat :: a <= b ==> months(a) <= months(b)
  }

  function Times(n: nat, c: real): real {
    n as real * c
  }

  function Used(s: Site, cap: Cap, i: nat): real {
    Count(s.spent, Key(cap.id, Window(cap.period, i)))
  }

  function Index(cap: Cap, now: nat, months: Calendar): nat {
    WindowAt(cap.period, now, months).index
  }

  // Counter plus what the open readers may still add stays below the bound in the current window;
  // past windows keep what they had, later ones are untouched.
  ghost predicate Bounded(s: Site, cap: Cap, current: nat, k: nat, c: real) {
    && (forall i: nat :: Unasked(s.unasked, i) >= 0.0)
    && (forall i: nat :: i < current ==> Used(s, cap, i) < cap.limit + Times(k, c) + Unasked(s.unasked, i))
    && (forall i: nat :: i > current ==> Used(s, cap, i) == 0.0 && Unasked(s.unasked, i) == 0.0)
    && Used(s, cap, current) + Times(|Readers(s, cap)|, c) < cap.limit + Times(k, c) + Unasked(s.unasked, current)
  }

  lemma Scale(a: nat, b: nat, c: real)
    requires a <= b && c >= 0.0
    ensures 0.0 <= Times(a, c) <= Times(b, c)
  {
    assert (b - a) as real * c >= 0.0;
    assert b as real * c == a as real * c + (b - a) as real * c;
  }

  lemma OneMore(a: nat, c: real)
    ensures Times(a + 1, c) == Times(a, c) + c
  {
  }

  // Moving to a later window: it starts from zero, and at most k open readers can still add to it.
  lemma RolloverBounded(s: Site, cap: Cap, from: nat, to: nat, k: nat, c: real)
    requires Bounded(s, cap, from, k, c) && from <= to && |Readers(s, cap)| <= k && c >= 0.0 && cap.limit > 0.0
    ensures Bounded(s, cap, to, k, c)
  {
    hide Times, Used, Unasked, Readers;
    Scale(0, |Readers(s, cap)|, c);
    Scale(|Readers(s, cap)|, k, c);
  }

  // One step, given how far it moves this cap's counter, the unasked charges and the open readers.
  lemma MoveBounded(s: Site, s': Site, cap: Cap, current: nat, charge: real, unasked: real, k: nat, c: real)
    requires Bounded(s, cap, current, k, c) && c >= 0.0 && unasked >= 0.0
    requires forall i: nat :: Used(s', cap, i) == Used(s, cap, i) + (if i == current then charge else 0.0)
    requires forall i: nat ::
      Unasked(s'.unasked, i) == Unasked(s.unasked, i) + (if i == current then unasked else 0.0)
    requires charge - unasked <= Times(|Readers(s, cap)|, c) - Times(|Readers(s', cap)|, c)
          || (charge == 0.0 && Used(s, cap, current) < cap.limit && Times(|Readers(s', cap)|, c) <= Times(k, c))
    ensures Bounded(s', cap, current, k, c)
  {
    hide Times, Used, Unasked, Readers;
  }

  lemma ReadersDrop(s: Site, s': Site, r: RequestId, cap: Cap)
    requires r in s.open && s'.open == s.open - {r}
    ensures |Readers(s, cap)| == |Readers(s', cap)| + if Matches(cap, s.open[r]) then 1 else 0
  {
    hide Matches;
    if Matches(cap, s.open[r]) {
      assert Readers(s, cap) == Readers(s', cap) + {r};
    } else {
      assert Readers(s, cap) == Readers(s', cap);
    }
  }

  lemma ReadersSame(s: Site, s': Site, cap: Cap)
    requires forall r :: (r in s.open && Matches(cap, s.open[r])) <==> (r in s'.open && Matches(cap, s'.open[r]))
    ensures Readers(s, cap) == Readers(s', cap)
  {
  }

  lemma AddedAt(unasked: map<nat, real>, at: nat, charge: real)
    ensures forall i: nat ::
      Unasked(Added(unasked, at, charge), i) == Unasked(unasked, i) + if i == at then charge else 0.0
  {
  }

  lemma ChargeNonnegative(cap: Cap, ctx: Scope, cost: real)
    ensures Charge(cap, ctx, cost) >= 0.0
  {
  }

  lemma StepBounded(s: Site, e: Event, caps: seq<Cap>, cap: Cap, k: nat, c: real, months: Calendar)
    requires DistinctCaps(caps) && cap in caps && cap.limit > 0.0 && c >= 0.0 && Enabled(s, e)
    requires Bounded(s, cap, Index(cap, e.now, months), k, c)
    requires |Readers(Step(s, e, caps, cap, months), cap)| <= k
    requires e.Settle? ==> ChargeOf(s, e, cap) <= c
    ensures Bounded(Step(s, e, caps, cap, months), cap, Index(cap, e.now, months), k, c)
  {
    hide Charge, Log, Matches, Times, Bounded, Readers, Unasked, Added;
    var s', current := Step(s, e, caps, cap, months), Index(cap, e.now, months);
    match e {
      case Ask(r, ctx, now) =>
        if !Matches(cap, ctx) {
          ReadersSame(s, s', cap);
          MoveBounded(s, s', cap, current, 0.0, 0.0, k, c);
        } else if !Breached(s.spent, cap, now, months) {
          Scale(|Readers(s', cap)|, k, c);
          MoveBounded(s, s', cap, current, 0.0, 0.0, k, c);
        }
      case Drop(r, now) =>
        ReadersDrop(s, s', r, cap);
        Scale(|Readers(s', cap)|, |Readers(s, cap)|, c);
        MoveBounded(s, s', cap, current, 0.0, 0.0, k, c);
      case Settle(r, provider, model, cost, now) =>
        LogMoves(s.spent, caps, cap, Moved(s.open[r], provider, model), cost, now, months);
        ChargeNonnegative(cap, Moved(s.open[r], provider, model), cost);
        ReadersDrop(s, s', r, cap);
        OneMore(|Readers(s', cap)|, c);
        AddedAt(s.unasked, current, ChargeOf(s, e, cap));
        MoveBounded(s, s', cap, current, ChargeOf(s, e, cap),
                    if Matches(cap, s.open[r]) then 0.0 else ChargeOf(s, e, cap), k, c);
      case Unenforced(ctx, cost, now) =>
        LogMoves(s.spent, caps, cap, ctx, cost, now, months);
        ChargeNonnegative(cap, ctx, cost);
        ReadersSame(s, s', cap);
        AddedAt(s.unasked, current, ChargeOf(s, e, cap));
        MoveBounded(s, s', cap, current, ChargeOf(s, e, cap), ChargeOf(s, e, cap), k, c);
    }
  }

  lemma LogMoves(spent: Counters, caps: seq<Cap>, cap: Cap, ctx: Scope, cost: real, now: nat, months: Calendar)
    requires DistinctCaps(caps) && cap in caps
    ensures forall i: nat ::
      Count(Log(spent, caps, ctx, cost, now, months), Key(cap.id, Window(cap.period, i))) ==
      Count(spent, Key(cap.id, Window(cap.period, i)))
      + (if i == Index(cap, now, months) then Charge(cap, ctx, cost) else 0.0)
  {
    hide Charge, AfterRequest, AfterSpend;
    forall i: nat ensures Count(Log(spent, caps, ctx, cost, now, months), Key(cap.id, Window(cap.period, i))) ==
      Count(spent, Key(cap.id, Window(cap.period, i)))
      + (if i == Index(cap, now, months) then Charge(cap, ctx, cost) else 0.0)
    {
      RecordedCharge(spent, caps, cap, ctx, cost, now, months, Window(cap.period, i));
    }
  }

  lemma IndexMonotone(cap: Cap, a: nat, b: nat, months: Calendar)
    requires Monotone(months) && a <= b
    ensures Index(cap, a, months) <= Index(cap, b, months)
  {
    DivMonotone(a, b);
  }

  lemma DivMonotone(a: nat, b: nat)
    requires a <= b
    ensures a / DAY_MS <= b / DAY_MS
  {
  }

  lemma EmptyBounded(cap: Cap, current: nat, k: nat, c: real)
    requires cap.limit > 0.0 && c >= 0.0
    ensures Bounded(EMPTY, cap, current, k, c)
  {
    Scale(0, k, c);
    assert Readers(EMPTY, cap) == {};
  }

  lemma {:induction false} RunBounded(events: seq<Event>, caps: seq<Cap>, cap: Cap, k: nat, c: real, months: Calendar)
    requires IsRun(events, caps, cap, k, c, months) && events != []
    requires DistinctCaps(caps) && cap in caps && cap.limit > 0.0 && c >= 0.0 && Monotone(months)
    ensures Bounded(After(events, caps, cap, months), cap, Index(cap, events[|events| - 1].now, months), k, c)
    ensures |Readers(After(events, caps, cap, months), cap)| <= k
  {
    hide Step, Enabled, Index, Monotone, Times, Bounded, Readers, ChargeOf;
    var front, e := events[..|events| - 1], events[|events| - 1];
    var current := Index(cap, e.now, months);
    if front == [] {
      EmptyBounded(cap, current, k, c);
    } else {
      RunBounded(front, caps, cap, k, c, months);
      IndexMonotone(cap, front[|front| - 1].now, e.now, months);
      RolloverBounded(After(front, caps, cap, months), cap, Index(cap, front[|front| - 1].now, months), current, k, c);
    }
    StepBounded(After(front, caps, cap, months), e, caps, cap, k, c, months);
  }

  // A cap with no room admits no reader: whatever moves its counter never asked.
  lemma {:induction false} NoRoomOnlyUnasked(events: seq<Event>, caps: seq<Cap>, cap: Cap, k: nat, c: real,
                                             months: Calendar)
    requires IsRun(events, caps, cap, k, c, months)
    requires DistinctCaps(caps) && cap in caps && cap.limit <= 0.0
    ensures var s := After(events, caps, cap, months);
      && Readers(s, cap) == {}
      && forall i: nat :: Used(s, cap, i) == Unasked(s.unasked, i) && Unasked(s.unasked, i) >= 0.0
  {
    hide Log, Matches, Charge, Added, Unasked;
    if events == [] {
      NothingUsed(cap);
    } else {
      var front, e := events[..|events| - 1], events[|events| - 1];
      var s, s' := After(front, caps, cap, months), After(events, caps, cap, months);
      NoRoomOnlyUnasked(front, caps, cap, k, c, months);
      match e {
        case Ask(r, ctx, now) =>
          if !Matches(cap, ctx) {
            ReadersSame(s, s', cap);
          } else {
            assert Used(s, cap, Index(cap, now, months)) >= 0.0;
          }
        case Drop(r, _) => ReadersDrop(s, s', r, cap);
        case Settle(r, provider, model, cost, now) =>
          assert r !in Readers(s, cap);
          ReadersDrop(s, s', r, cap);
          LogMoves(s.spent, caps, cap, Moved(s.open[r], provider, model), cost, now, months);
          ChargeNonnegative(cap, Moved(s.open[r], provider, model), cost);
          AddedAt(s.unasked, Index(cap, now, months), ChargeOf(s, e, cap));
        case Unenforced(ctx, cost, now) =>
          ReadersSame(s, s', cap);
          LogMoves(s.spent, caps, cap, ctx, cost, now, months);
          ChargeNonnegative(cap, ctx, cost);
          AddedAt(s.unasked, Index(cap, now, months), ChargeOf(s, e, cap));
      }
    }
  }

  lemma NothingUsed(cap: Cap)
    ensures Readers(EMPTY, cap) == {}
    ensures forall i: nat :: Used(EMPTY, cap, i) == 0.0 && Unasked(EMPTY.unasked, i) == 0.0
  {
  }

  // In every interleaving, in every window, across rollovers: the counter of a block cap stays below
  // limit + k * c, plus what was charged to it by traffic that never read it.
  lemma OvershootBound(events: seq<Event>, caps: seq<Cap>, cap: Cap, k: nat, c: real, months: Calendar, i: nat)
    requires IsRun(events, caps, cap, k, c, months)
    requires DistinctCaps(caps) && cap in caps && c >= 0.0 && Monotone(months)
    requires cap.limit + Times(k, c) > 0.0
    ensures var s := After(events, caps, cap, months);
      Used(s, cap, i) < cap.limit + Times(k, c) + Unasked(s.unasked, i)
  {
    hide Times, Step, ChargeOf, Enabled, Readers;
    if cap.limit <= 0.0 {
      NoRoomOnlyUnasked(events, caps, cap, k, c, months);
    } else if events == [] {
      NothingUsed(cap);
    } else {
      RunBounded(events, caps, cap, k, c, months);
      Scale(0, k, c);
      Scale(0, |Readers(After(events, caps, cap, months), cap)|, c);
    }
  }

  // A request quota is the case c == 1: no request charges it more, whatever it costs.
  lemma QuotaChargesOne(cap: Cap, ctx: Scope, cost: real)
    requires cap.metric == Requests
    ensures 0.0 <= Charge(cap, ctx, cost) <= 1.0
    ensures Charge(cap, ctx, cost) == 1.0 <==> Matches(cap, ctx) && !ctx.internalKind
  {
  }

  // ---- Which caps the bound holds for ---------------------------------------------------------------

  // A request cannot leave the cap's scope after enforcement, nor can an internal call charge it.
  predicate Steady(cap: Cap) {
    match cap.dimension
    case None => cap.metric == Requests
    case Some(d) => d != ByProvider && d != ByModel
  }

  // A run of enforced traffic and internal calls only, every charge within c.
  ghost predicate IsChatRun(events: seq<Event>, caps: seq<Cap>, cap: Cap, k: nat, c: real, months: Calendar) {
    && IsRun(events, caps, cap, k, c, months)
    && forall j :: 0 <= j < |events| && events[j].Unenforced? ==>
         events[j].ctx.internalKind && Charge(cap, events[j].ctx, events[j].cost) <= c
  }

  lemma SteadyNeverUnasked(s: Site, e: Event, cap: Cap)
    requires Steady(cap) && Enabled(s, e) && (e.Unenforced? ==> e.ctx.internalKind)
    requires e.Unenforced? || (e.Settle? && !Matches(cap, s.open[e.r]))
    ensures ChargeOf(s, e, cap) == 0.0
  {
  }

  lemma {:induction false} SteadyAsksAll(events: seq<Event>, caps: seq<Cap>, cap: Cap, k: nat, c: real,
                                         months: Calendar)
    requires IsChatRun(events, caps, cap, k, c, months) && Steady(cap)
    ensures forall i: nat :: Unasked(After(events, caps, cap, months).unasked, i) == 0.0
  {
    hide Log, Matches, Charge, Added, Unasked, Steady, ChargeOf, Readers;
    if events == [] {
      NothingUsed(cap);
    } else {
      var front, e := events[..|events| - 1], events[|events| - 1];
      var s := After(front, caps, cap, months);
      assert forall j :: 0 <= j < |front| ==> front[j] == events[j];
      SteadyAsksAll(front, caps, cap, k, c, months);
      if e.Unenforced? || (e.Settle? && !Matches(cap, s.open[e.r])) {
        SteadyNeverUnasked(s, e, cap);
        AddedAt(s.unasked, Index(cap, e.now, months), ChargeOf(s, e, cap));
      }
    }
  }

  ghost predicate AlwaysBelow(caps: seq<Cap>, cap: Cap, k: nat, c: real, months: Calendar) {
    forall events, i: nat :: IsChatRun(events, caps, cap, k, c, months) ==>
      Used(After(events, caps, cap, months), cap, i) < cap.limit + Times(k, c)
  }

  // What one matching customer request of cost c charges.
  function Unit(cap: Cap, c: real): real {
    if cap.metric == Spend then c else 1.0
  }

  // A scope of customer traffic, of the cap's own value or of another one in its provider and model.
  function Inside(cap: Cap): Scope {
    Scope(cap.value, cap.value, cap.value, cap.value, cap.value, cap.value, false)
  }

  function Outside(cap: Cap): Scope {
    var other := if cap.value.None? then Some(Label("")) else None;
    Scope(cap.value, other, cap.value, cap.value, cap.value, other, false)
  }

  // n charges that never read the cap: requests moved into its scope, or internal calls.
  function Strays(cap: Cap, n: nat, c: real): seq<Event> {
    if n == 0 then []
    else if cap.dimension.None? then Strays(cap, n - 1, c) + [Unenforced(Inside(cap).(internalKind := true), c, 0)]
    else Strays(cap, n - 1, c) + [Ask(0, Outside(cap), 0)] + [Settle(0, cap.value, cap.value, c, 0)]
  }

  lemma AfterSnoc(front: seq<Event>, e: Event, caps: seq<Cap>, cap: Cap, k: nat, c: real, months: Calendar)
    requires IsChatRun(front, caps, cap, k, c, months) && Enabled(After(front, caps, cap, months), e)
    requires front != [] ==> front[|front| - 1].now <= e.now
    requires |Readers(Step(After(front, caps, cap, months), e, caps, cap, months), cap)| <= k
    requires ChargeOf(After(front, caps, cap, months), e, cap) <= c
    requires e.Unenforced? ==> e.ctx.internalKind
    ensures IsChatRun(front + [e], caps, cap, k, c, months)
    ensures After(front + [e], caps, cap, months) == Step(After(front, caps, cap, months), e, caps, cap, months)
  {
    hide Step, Readers, Charge, Enabled;
    assert (front + [e])[..|front|] == front;
  }

  ghost predicate AllAtZero(events: seq<Event>) {
    forall j :: 0 <= j < |events| ==> events[j].now == 0
  }

  lemma {:induction false} StraysCharge(caps: seq<Cap>, cap: Cap, n: nat, k: nat, c: real, months: Calendar)
    requires DistinctCaps(caps) && cap in caps && !Steady(cap) && c > 0.0 && Unit(cap, c) <= c
    ensures var events := Strays(cap, n, c); var s := After(events, caps, cap, months);
      && IsChatRun(events, caps, cap, k, c, months) && AllAtZero(events) && s.open == map[]
      && Used(s, cap, Index(cap, 0, months)) == Times(n, Unit(cap, c))
  {
    hide After, IsRun, IsChatRun, AllAtZero, Times, Used, Index, Steady;
    if n == 0 {
      StartsEmpty(caps, cap, k, c, months);
      NoTimes(Unit(cap, c));
    } else {
      var front := Strays(cap, n - 1, c);
      var s := After(front, caps, cap, months);
      StraysCharge(caps, cap, n - 1, k, c, months);
      OneMore(n - 1, Unit(cap, c));
      if cap.dimension.None? {
        StrayCall(front, caps, cap, k, c, months);
      } else {
        StrayRequest(front, caps, cap, k, c, months);
      }
    }
  }

  lemma NoTimes(c: real)
    ensures Times(0, c) == 0.0
  {
  }

  lemma NoReaders(s: Site, cap: Cap)
    requires s.open == map[] || exists r, ctx :: s.open == map[r := ctx] && !Matches(cap, ctx)
    ensures Readers(s, cap) == {}
  {
  }

  lemma StrayCall(front: seq<Event>, caps: seq<Cap>, cap: Cap, k: nat, c: real, months: Calendar)
    requires IsChatRun(front, caps, cap, k, c, months) && AllAtZero(front)
    requires After(front, caps, cap, months).open == map[]
    requires DistinctCaps(caps) && cap in caps && cap.dimension.None? && !Steady(cap) && c > 0.0
    ensures var events := front + [Unenforced(Inside(cap).(internalKind := true), c, 0)];
      var s, s' := After(front, caps, cap, months), After(events, caps, cap, months);
      && IsChatRun(events, caps, cap, k, c, months) && AllAtZero(events) && s'.open == map[]
      && Used(s', cap, Index(cap, 0, months)) == Used(s, cap, Index(cap, 0, months)) + Unit(cap, c)
  {
    hide Log, Index, IsRun, After;
    var s := After(front, caps, cap, months);
    var e := Unenforced(Inside(cap).(internalKind := true), c, 0);
    LogMoves(s.spent, caps, cap, e.ctx, c, 0, months);
    NoReaders(Step(s, e, caps, cap, months), cap);
    AfterSnoc(front, e, caps, cap, k, c, months);
  }

  lemma StrayRequest(front: seq<Event>, caps: seq<Cap>, cap: Cap, k: nat, c: real, months: Calendar)
    requires IsChatRun(front, caps, cap, k, c, months) && AllAtZero(front)
    requires After(front, caps, cap, months).open == map[]
    requires DistinctCaps(caps) && cap in caps && cap.dimension.Some? && !Steady(cap) && c > 0.0 && Unit(cap, c) <= c
    ensures var events := front + [Ask(0, Outside(cap), 0)] + [Settle(0, cap.value, cap.value, c, 0)];
      var s, s' := After(front, caps, cap, months), After(events, caps, cap, months);
      && IsChatRun(events, caps, cap, k, c, months) && AllAtZero(events) && s'.open == map[]
      && Used(s', cap, Index(cap, 0, months)) == Used(s, cap, Index(cap, 0, months)) + Unit(cap, c)
  {
    hide Log, Index, IsRun, After;
    var s := After(front, caps, cap, months);
    var ask, settle := Ask(0, Outside(cap), 0), Settle(0, cap.value, cap.value, c, 0);
    var mid := Step(s, ask, caps, cap, months);
    assert mid.open == map[0 := Outside(cap)];
    NoReaders(mid, cap);
    AfterSnoc(front, ask, caps, cap, k, c, months);
    assert (front + [ask])[|front|] == ask;
    NoReaders(Step(mid, settle, caps, cap, months), cap);
    LogMoves(s.spent, caps, cap, Moved(Outside(cap), cap.value, cap.value), c, 0, months);
    AfterSnoc(front + [ask], settle, caps, cap, k, c, months);
  }

  // Enough charges of q reach any amount.
  lemma Reaches(q: real, amount: real) returns (n: nat)
    requires q > 0.0
    ensures Times(n, q) >= amount
  {
    n := if amount <= 0.0 then 0 else (amount / q).Floor + 1;
    if amount > 0.0 {
      TimesDivided(amount, q, n as real);
    }
  }

  lemma TimesDivided(amount: real, q: real, n: real)
    requires q > 0.0 && n >= amount / q
    ensures n * q >= amount
  {
    assert amount / q * q == amount;
    assert (n - amount / q) * q >= 0.0;
    assert n * q == (n - amount / q) * q + amount / q * q;
  }

  // The bound limit + k * c needs no extra term exactly for caps on the application, the user, the
  // department or the workflow, and for the global request quota. Caps on a model or a provider, and
  // the global spend cap, are driven past any bound by traffic that never reads them.
  lemma BoundHoldsIffSteady(caps: seq<Cap>, cap: Cap, k: nat, c: real, months: Calendar)
    requires DistinctCaps(caps) && cap in caps && cap.limit > 0.0 && Monotone(months)
    requires c > 0.0 && (cap.metric == Requests ==> c >= 1.0)
    ensures AlwaysBelow(caps, cap, k, c, months) <==> Steady(cap)
  {
    hide Steady, IsRun, After, Index, Used, Times;
    if Steady(cap) {
      forall events, i: nat | IsChatRun(events, caps, cap, k, c, months)
        ensures Used(After(events, caps, cap, months), cap, i) < cap.limit + Times(k, c)
      {
        Scale(0, k, c);
        SteadyAsksAll(events, caps, cap, k, c, months);
        OvershootBound(events, caps, cap, k, c, months, i);
      }
    } else {
      var n := Reaches(Unit(cap, c), cap.limit + Times(k, c));
      StraysCharge(caps, cap, n, k, c, months);
      assert IsChatRun(Strays(cap, n, c), caps, cap, k, c, months);
      assert !(Used(After(Strays(cap, n, c), caps, cap, months), cap, Index(cap, 0, months)) < cap.limit + Times(k, c));
    }
  }

  // ---- The bound is approached -----------------------------------------------------------------------

  // One after another, n requests of this cost.
  function Column(cap: Cap, n: nat, cost: real): seq<Event> {
    if n == 0 then []
    else Column(cap, n - 1, cost) + [Ask(0, Inside(cap), 0)] + [Settle(0, cap.value, cap.value, cost, 0)]
  }

  // k requests that all ask before any of them is logged.
  function Asks(cap: Cap, k: nat): seq<Event> {
    if k == 0 then [] else Asks(cap, k - 1) + [Ask(k - 1, Inside(cap), 0)]
  }

  function Settles(cap: Cap, k: nat, n: nat, cost: real): seq<Event>
    requires n <= k
  {
    if n == 0 then [] else Settles(cap, k, n - 1, cost) + [Settle(k - n, cap.value, cap.value, cost, 0)]
  }

  ghost predicate OpenInside(s: Site, cap: Cap, k: nat) {
    s.open.Keys == FirstIds(k) && forall r :: r in s.open ==> s.open[r] == Inside(cap)
  }

  function FirstIds(k: nat): (ids: set<RequestId>)
    ensures |ids| == k && forall r: nat :: r in ids <==> r < k
  {
    if k == 0 then {} else FirstIds(k - 1) + {k - 1}
  }

  lemma OpenReaders(s: Site, cap: Cap, k: nat)
    requires OpenInside(s, cap, k) && Matches(cap, Inside(cap))
    ensures |Readers(s, cap)| == k
  {
    hide Matches;
    assert Readers(s, cap) == s.open.Keys;
  }

  lemma OneMoreOpen(s: Site, cap: Cap, j: nat)
    requires OpenInside(s, cap, j)
    ensures j !in s.open && OpenInside(s.(open := s.open[j := Inside(cap)]), cap, j + 1) && !Inside(cap).internalKind
  {
  }

  lemma BreachedIs(s: Site, cap: Cap, now: nat, months: Calendar)
    ensures Breached(s.spent, cap, now, months) <==> Used(s, cap, Index(cap, now, months)) >= cap.limit
  {
  }

  // Asking below the limit.
  lemma AskInside(front: seq<Event>, caps: seq<Cap>, cap: Cap, j: nat, k: nat, c: real, months: Calendar)
    requires IsChatRun(front, caps, cap, k, c, months) && AllAtZero(front) && j < k && c >= 0.0
    requires OpenInside(After(front, caps, cap, months), cap, j) && Matches(cap, Inside(cap))
    requires Used(After(front, caps, cap, months), cap, Index(cap, 0, months)) < cap.limit
    ensures var events := front + [Ask(j, Inside(cap), 0)]; var s' := After(events, caps, cap, months);
      && IsChatRun(events, caps, cap, k, c, months) && AllAtZero(events) && OpenInside(s', cap, j + 1)
      && s'.spent == After(front, caps, cap, months).spent
  {
    hide Index, IsRun, After, Matches, Charge, Readers, OpenInside, Breached, Used, Inside;
    var s, e := After(front, caps, cap, months), Ask(j, Inside(cap), 0);
    BreachedIs(s, cap, 0, months);
    OneMoreOpen(s, cap, j);
    var s' := Step(s, e, caps, cap, months);
    OpenReaders(s', cap, j + 1);
    AfterSnoc(front, e, caps, cap, k, c, months);
  }

  // Logging the last of the open requests.
  lemma SettleInside(front: seq<Event>, caps: seq<Cap>, cap: Cap, j: nat, cost: real, k: nat, c: real, months: Calendar)
    requires IsChatRun(front, caps, cap, k, c, months) && AllAtZero(front) && j < k && 0.0 <= cost <= c
    requires OpenInside(After(front, caps, cap, months), cap, j + 1) && Matches(cap, Inside(cap)) && cap.metric == Spend
    requires DistinctCaps(caps) && cap in caps
    ensures var events := front + [Settle(j, cap.value, cap.value, cost, 0)];
      var s' := After(events, caps, cap, months);
      && IsChatRun(events, caps, cap, k, c, months) && AllAtZero(events) && OpenInside(s', cap, j)
      && Used(s', cap, Index(cap, 0, months))
           == Used(After(front, caps, cap, months), cap, Index(cap, 0, months)) + cost
  {
    hide Index, IsRun, After, Matches, Readers, Log;
    var s, e := After(front, caps, cap, months), Settle(j, cap.value, cap.value, cost, 0);
    var s' := Step(s, e, caps, cap, months);
    assert s.open[j] == Inside(cap) && Moved(Inside(cap), cap.value, cap.value) == Inside(cap);
    assert OpenInside(s', cap, j);
    OpenReaders(s', cap, j);
    LogMoves(s.spent, caps, cap, Inside(cap), cost, 0, months);
    AfterSnoc(front, e, caps, cap, k, c, months);
  }

  lemma {:induction false} ColumnCharges(caps: seq<Cap>, cap: Cap, n: nat, cost: real, k: nat, c: real,
                                         months: Calendar)
    requires DistinctCaps(caps) && cap in caps && cap.metric == Spend && Matches(cap, Inside(cap))
    requires 0.0 <= cost <= c && k > 0 && Times(n, cost) < cap.limit
    ensures var events := Column(cap, n, cost); var s := After(events, caps, cap, months);
      && IsChatRun(events, caps, cap, k, c, months) && AllAtZero(events) && OpenInside(s, cap, 0)
      && Used(s, cap, Index(cap, 0, months)) == Times(n, cost)
  {
    hide Index, IsRun, After, Matches, Used, Times, OpenInside, IsChatRun, AllAtZero;
    if n == 0 {
      NoTimes(cost);
      StartsEmpty(caps, cap, k, c, months);
    } else {
      Scale(n - 1, n, cost);
      OneMore(n - 1, cost);
      ColumnCharges(caps, cap, n - 1, cost, k, c, months);
      var front := Column(cap, n - 1, cost);
      AskInside(front, caps, cap, 0, k, c, months);
      SameSpent(After(front, caps, cap, months), After(front + [Ask(0, Inside(cap), 0)], caps, cap, months), cap);
      SettleInside(front + [Ask(0, Inside(cap), 0)], caps, cap, 0, cost, k, c, months);
    }
  }

  lemma SameSpent(s: Site, s': Site, cap: Cap)
    requires s.spent == s'.spent
    ensures forall i: nat :: Used(s, cap, i) == Used(s', cap, i)
  {
  }

  lemma StartsEmpty(caps: seq<Cap>, cap: Cap, k: nat, c: real, months: Calendar)
    ensures IsChatRun([], caps, cap, k, c, months) && AllAtZero([])
    ensures After([], caps, cap, months) == EMPTY && OpenInside(EMPTY, cap, 0)
    ensures Used(EMPTY, cap, Index(cap, 0, months)) == 0.0
  {
  }

  lemma {:induction false} WaveAsks(front: seq<Event>, caps: seq<Cap>, cap: Cap, n: nat, k: nat, c: real,
                                    months: Calendar)
    requires IsChatRun(front, caps, cap, k, c, months) && AllAtZero(front) && n <= k && c >= 0.0
    requires OpenInside(After(front, caps, cap, months), cap, 0) && Matches(cap, Inside(cap))
    requires Used(After(front, caps, cap, months), cap, Index(cap, 0, months)) < cap.limit
    ensures var events := front + Asks(cap, n); var s' := After(events, caps, cap, months);
      && IsChatRun(events, caps, cap, k, c, months) && AllAtZero(events) && OpenInside(s', cap, n)
      && s'.spent == After(front, caps, cap, months).spent
  {
    hide Index, IsRun, After, Matches, Used, OpenInside, IsChatRun;
    if n == 0 {
      assert front + [] == front;
    } else {
      WaveAsks(front, caps, cap, n - 1, k, c, months);
      SameSpent(After(front, caps, cap, months), After(front + Asks(cap, n - 1), caps, cap, months), cap);
      AskInside(front + Asks(cap, n - 1), caps, cap, n - 1, k, c, months);
      Associative(front, Asks(cap, n - 1), [Ask(n - 1, Inside(cap), 0)]);
    }
  }

  lemma {:induction false} WaveSettles(front: seq<Event>, caps: seq<Cap>, cap: Cap, n: nat, k: nat, c: real,
                                       months: Calendar)
    requires IsChatRun(front, caps, cap, k, c, months) && AllAtZero(front) && n <= k && c >= 0.0
    requires OpenInside(After(front, caps, cap, months), cap, k) && Matches(cap, Inside(cap)) && cap.metric == Spend
    requires DistinctCaps(caps) && cap in caps
    ensures var events := front + Settles(cap, k, n, c); var s' := After(events, caps, cap, months);
      && IsChatRun(events, caps, cap, k, c, months) && AllAtZero(events) && OpenInside(s', cap, k - n)
      && Used(s', cap, Index(cap, 0, months))
           == Used(After(front, caps, cap, months), cap, Index(cap, 0, months)) + Times(n, c)
  {
    hide Index, IsRun, After, Matches, Used, OpenInside, IsChatRun, Times;
    if n == 0 {
      NoTimes(c);
      assert front + [] == front;
    } else {
      OneMore(n - 1, c);
      WaveSettles(front, caps, cap, n - 1, k, c, months);
      SettleInside(front + Settles(cap, k, n - 1, c), caps, cap, k - n, c, k, c, months);
      Associative(front, Settles(cap, k, n - 1, c), [Settle(k - n, cap.value, cap.value, c, 0)]);
    }
  }

  // A run that ends anywhere below the limit, plus k * c: the bound cannot be lowered.
  lemma OvershootIsApproached(caps: seq<Cap>, cap: Cap, k: nat, c: real, months: Calendar, used: real)
    returns (events: seq<Event>)
    requires DistinctCaps(caps) && cap in caps && cap.metric == Spend && Matches(cap, Inside(cap))
    requires 0.0 <= used < cap.limit && k > 0 && c > 0.0
    ensures IsChatRun(events, caps, cap, k, c, months)
    ensures Used(After(events, caps, cap, months), cap, Index(cap, 0, months)) == used + Times(k, c)
  {
    hide Index, IsRun, After, Matches, Used, OpenInside, IsChatRun, Times;
    var n := Reaches(c, used);
    var cost := Share(used, n, c);
    ColumnCharges(caps, cap, n, cost, k, c, months);
    events := Column(cap, n, cost);
    WaveAsks(events, caps, cap, k, k, c, months);
    SameSpent(After(events, caps, cap, months), After(events + Asks(cap, k), caps, cap, months), cap);
    events := events + Asks(cap, k);
    WaveSettles(events, caps, cap, k, k, c, months);
    events := events + Settles(cap, k, k, c);
  }

  // An amount split evenly.
  lemma Share(amount: real, n: nat, c: real) returns (cost: real)
    requires 0.0 <= amount <= Times(n, c) && c > 0.0
    ensures 0.0 <= cost <= c && Times(n, cost) == amount
  {
    if n == 0 {
      cost := 0.0;
    } else {
      cost := amount / n as real;
      SplitEvenly(amount, n as real, c);
    }
  }

  lemma SplitEvenly(amount: real, n: real, c: real)
    requires n > 0.0 && 0.0 <= amount <= n * c
    ensures 0.0 <= amount / n <= c && n * (amount / n) == amount
  {
    assert amount / n * n == amount;
    assert (c - amount / n) * n >= 0.0;
  }
}
