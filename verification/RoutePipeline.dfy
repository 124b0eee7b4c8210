// server/src/gateway/handler.js with server/src/routing/guards.js and server/src/gateway/explain.js:
// the path of one chat request from the client's model field to the provider call. Routing, a canary,
// the key's allowed set, the application's opt-outs, a budget cap and a failing provider can each move
// the served model; the trail of overrides, the governance verdict and the key used follow every move.
module RoutePipeline {
  import opened Options
  import opened Seqs
  import opened Providers
  import opened Connections

  // NoModel: JavaScript's null, undefined or "" where a model id could stand.
  datatype Model = Named(id: string) | NoModel

  datatype Target = Target(provider: ProviderId, model: Model)

  datatype Served = Served(provider: ProviderId, model: Model, alias: Option<Alias>)

  datatype Decision = Explicit | Passthrough | Rule | Ai | Auto | Canary | Budget | Fallback

  // ---- The override trail (explain.js) ---------------------------------------------------------------------

  datatype Kind = Diverted | AllowedSet | OptedOut | Downgraded | FellBack

  datatype Override = Move(kind: Kind, from: Model, to: Model) | BlockedByBudget

  datatype PinNote = PinNote(requested: Alias, used: Option<Alias>, byRule: bool, fellBack: bool)

  class Explain {
    var overrides: seq<Override>
    var last: Option<Override>
    var violation: Option<Model>
    var credential: Option<PinNote>

    constructor ()
      ensures overrides == [] && last == None && violation == None && credential == None
    {
      overrides, last, violation, credential := [], None, None, None;
    }

    // The single `override` field older readers use is always the last of the chain.
    predicate Tidy()
      reads this
    {
      last == if overrides == [] then None else Some(overrides[|overrides| - 1])
    }

    method PushOverride(o: Override)
      requires Tidy()
      modifies this`overrides, this`last
      ensures Tidy() && overrides == old(overrides) + [o]
    {
      overrides := overrides + [o];
      last := Some(o);
    }
  }

  // A chain of moves from the first model to the last, each starting where the one before it ended.
  ghost predicate Connected(first: Model, trail: seq<Override>, last: Model) {
    && (forall i :: 0 <= i < |trail| ==> trail[i].Move?)
    && (trail == [] ==> first == last)
    && (trail != [] ==> trail[0].from == first && trail[|trail| - 1].to == last)
    && (forall i :: 0 < i < |trail| ==> trail[i - 1].to == trail[i].from)
  }

  function Rank(k: Kind): nat {
    match k
    case Diverted => 0
    case AllowedSet => 1
    case OptedOut => 2
    case Downgraded => 3
    case FellBack => 4
  }

  // The stages record their moves in pipeline order, each at most once, all before stage `bound`.
  ghost predicate InOrder(trail: seq<Override>, bound: nat) {
    && (forall i :: 0 <= i < |trail| ==> trail[i].Move? && Rank(trail[i].kind) < bound)
    && (forall i, j :: 0 <= i < j < |trail| ==> Rank(trail[i].kind) < Rank(trail[j].kind))
  }

  // ---- The request and what surrounds it -------------------------------------------------------------------

  datatype Info = Info(provider: ProviderId, vision: bool, priced: bool)

  datatype Scope = PrimaryOnly | SameProvider | CrossProvider

  // `builtin` is config.defaultModels, `light` the per-provider downgrade target.
  datatype Setup = Setup(eff: Effective, live: seq<ProviderId>, defaultProvider: ProviderId, defaultModel: Model,
                         registry: map<Model, Info>, builtin: map<ProviderId, Model>, light: map<ProviderId, Model>,
                         scope: Scope)

  // What connections.effective() and getRouter() hand over.
  ghost predicate Sound(s: Setup) {
    && (forall p :: p in s.live <==> p in s.eff)
    && (forall p :: p in s.eff ==> WellFormed(s.eff[p]))
    && s.defaultProvider in s.eff
  }

  // `pin` and `hint` are NoModel and None for "auto". `allowed` and `keyDefault` come with the API key,
  // `optOut` and `pins` with the application.
  datatype Request = Request(pin: Model, hint: Option<ProviderId>, image: bool, allowed: seq<Model>, keyDefault: Model,
                             optOut: seq<Model>, pins: map<ProviderId, Alias>)

  datatype Route = Route(target: Target, alias: Option<Alias>)

  datatype Experiment = Experiment(toModel: Model, candidateProvider: Option<ProviderId>)

  datatype Mode = Off | AiPolicy | Guardrail

  datatype Verdict = Admit | Block | Downgrade

  // The decisions taken elsewhere: the rule engine, the policy, the canary experiments, the caps, whether
  // the k-th provider call succeeds, what a response cache holds for the served model (and who answered
  // it then), and which answers the output guardrail withholds.
  datatype World = World(mode: Mode, route: Option<Route>, policy: Option<Target>, auto: Target -> Option<Target>,
                         canary: Model -> Option<Experiment>, enforcement: Served -> Verdict, answers: nat -> bool,
                         cached: Served -> Option<Target>, withholds: Target -> bool)

  function Known(s: Setup, m: Model): Option<Info> {
    if m != NoModel && m in s.registry then Some(s.registry[m]) else None
  }

  function BuiltinOf(s: Setup, p: ProviderId): Model {
    if p in s.builtin then s.builtin[p] else NoModel
  }

  function OrElse(a: Model, b: Model): Model {
    if a != NoModel then a else b
  }

  // ---- Governance (guards.js) --------------------------------------------------------------------------------

  function VisionCapable(s: Setup, m: Model): bool {
    Known(s, m).Some? && Known(s, m).value.vision
  }

  function CheckModel(s: Setup, req: Request, m: Model, requirePriced: bool): bool {
    && (req.allowed != [] ==> m in req.allowed)
    && m !in req.optOut
    && (req.image ==> VisionCapable(s, m))
    && (requirePriced ==> Known(s, m).Some? && Known(s, m).value.priced)
  }

  function Outside(req: Request, m: Model): bool {
    req.allowed != [] && m !in req.allowed
  }

  // ---- Resolving the route -----------------------------------------------------------------------------------

  datatype Pin = Defer | Pinned(target: Target) | UnknownModel | NotConnected(provider: ProviderId)

  function ResolveExplicit(s: Setup, req: Request): Pin {
    if req.pin == NoModel then Defer
    else
      var known := Known(s, req.pin);
      var provider := if req.hint.Some? then req.hint else if known.Some? then Some(known.value.provider) else None;
      if provider.None? then UnknownModel
      else if provider.value !in s.live then NotConnected(provider.value)
      else Pinned(Target(provider.value, req.pin))
  }

  function ResolveDefault(s: Setup, req: Request): Target {
    var provider := if req.hint.Some? && req.hint.value in s.live then req.hint.value else s.defaultProvider;
    Target(provider,
           if provider == s.defaultProvider then OrElse(s.defaultModel, BuiltinOf(s, provider))
           else OrElse(BuiltinOf(s, provider), s.defaultModel))
  }

  // The key's own default, when it is registered with a connected provider.
  function KeyDefault(s: Setup, req: Request): Option<Target> {
    var known := Known(s, req.keyDefault);
    if known.Some? && known.value.provider in s.live then Some(Target(known.value.provider, req.keyDefault)) else None
  }

  // Where a request is on its way through the pipeline.
  datatype Trip = Trip(target: Target, decision: Decision, trail: seq<Override>)

  function Moved(t: Trip, kind: Kind, to: Target, decision: Decision): Trip {
    Trip(to, decision, t.trail + [Move(kind, t.target.model, to.model)])
  }

  function BaseChoice(s: Setup, req: Request): Target {
    if KeyDefault(s, req).Some? then KeyDefault(s, req).value else ResolveDefault(s, req)
  }

  function FirstChoice(s: Setup, req: Request, w: World): Trip {
    var base := BaseChoice(s, req);
    if w.route.Some? then Trip(w.route.value.target, Rule, [])
    else if w.mode == AiPolicy && w.policy.Some? && w.policy.value.provider in s.live then Trip(w.policy.value, Ai, [])
    else if w.mode == Guardrail && w.auto(base).Some? then Trip(w.auto(base).value, Auto, [])
    else Trip(base, Passthrough, [])
  }

  // Where a canary sends a request served `model`: the registered provider of its candidate first.
  function Diversion(s: Setup, w: World, model: Model): Option<Target> {
    var c := w.canary(model);
    if c.None? then None
    else
      var known := Known(s, c.value.toModel);
      var provider := if known.Some? then Some(known.value.provider) else c.value.candidateProvider;
      if provider.Some? && provider.value in s.live then Some(Target(provider.value, c.value.toModel)) else None
  }

  function AfterCanary(s: Setup, w: World, t: Trip): Trip {
    var d := Diversion(s, w, t.target.model);
    if d.Some? then Moved(t, Diverted, d.value, Canary) else t
  }

  // None: the request is refused with "model_not_allowed".
  function AfterAllowed(s: Setup, req: Request, t: Trip): Option<Trip> {
    if !Outside(req, t.target.model) then Some(t)
    else if KeyDefault(s, req).Some? then Some(Moved(t, AllowedSet, KeyDefault(s, req).value, Passthrough))
    else None
  }

  function AfterOptOut(s: Setup, req: Request, t: Trip): Trip {
    var default := ResolveDefault(s, req);
    if t.target.model in req.optOut && default.model !in req.optOut then Moved(t, OptedOut, default, Passthrough) else t
  }

  // The alias a request is pinned to on the provider that ends up serving it.
  function PinFor(req: Request, provider: ProviderId, rulePin: Option<Alias>): Option<Alias> {
    if rulePin.Some? then rulePin else if provider in req.pins then Some(req.pins[provider]) else None
  }

  function AliasFor(s: Setup, req: Request, provider: ProviderId, rulePin: Option<Alias>): Option<Alias> {
    var resolved := CredentialFor(s.eff, provider, PinFor(req, provider, rulePin));
    if resolved.Some? then resolved.value.alias else None
  }

  function NoteFor(s: Setup, req: Request, provider: ProviderId, rulePin: Option<Alias>): Option<PinNote> {
    var pinned := PinFor(req, provider, rulePin);
    var resolved := CredentialFor(s.eff, provider, pinned);
    if pinned.None? then None
    else
      var used := AliasFor(s, req, provider, rulePin);
      Some(PinNote(pinned.value, used, rulePin.Some?, resolved.Some? && resolved.value.fellBack))
  }

  function RulePin(w: World, t: Trip): Option<Alias> {
    if t.decision == Rule && w.route.Some? && t.target.provider == w.route.value.target.provider
    then w.route.value.alias else None
  }

  datatype Refusal = NoSuchModel | ProviderOff(provider: ProviderId) | ModelNotAllowed | NoVision(model: Model)

  // `first` is the model chosen before anything overrode it.
  datatype Routing =
    | Refused(why: Refusal)
    | Routed(served: Served, decision: Decision, first: Model, trail: seq<Override>, violation: Option<Model>,
             note: Option<PinNote>)

  function Settle(s: Setup, req: Request, w: World, first: Model, explicit: bool, t: Trip): Routing {
    if !explicit && req.image && !VisionCapable(s, t.target.model) then Refused(NoVision(t.target.model))
    else
      var p := t.target.provider;
      Routed(Served(p, t.target.model, AliasFor(s, req, p, RulePin(w, t))), t.decision, first, t.trail,
             if Outside(req, t.target.model) then Some(t.target.model) else None, NoteFor(s, req, p, RulePin(w, t)))
  }

  function Govern(s: Setup, req: Request, w: World, first: Model, explicit: bool, t: Trip): Routing {
    var allowed := AfterAllowed(s, req, t);
    if allowed.None? then Refused(ModelNotAllowed)
    else Settle(s, req, w, first, explicit, AfterOptOut(s, req, allowed.value))
  }

  function ResolveRoute(s: Setup, req: Request, w: World): Routing {
    match ResolveExplicit(s, req)
    case UnknownModel => Refused(NoSuchModel)
    case NotConnected(p) => Refused(ProviderOff(p))
    case Pinned(target) => Govern(s, req, w, target.model, true, Trip(target, Explicit, []))
    case Defer =>
      var first := FirstChoice(s, req, w);
      Govern(s, req, w, first.target.model, false, AfterCanary(s, w, first))
  }

  // ---- Budget, invocation, fallback ------------------------------------------------------------------------------

  function SuggestLightTarget(s: Setup, m: Model): Option<Target> {
    var known := Known(s, m);
    if known.None? || known.value.provider !in s.light || s.light[known.value.provider] == m then None
    else Some(Target(known.value.provider, s.light[known.value.provider]))
  }

  // The target a breached non-block cap moves the request to, when it may.
  function DowngradeOf(s: Setup, req: Request, w: World, served: Served): Option<Target> {
    var target := SuggestLightTarget(s, served.model);
    if w.enforcement(served) == Downgrade && target.Some? && CheckModel(s, req, target.value.model, false)
    then target else None
  }

  function AfterBudget(s: Setup, req: Request, r: Routing, target: Option<Target>): (b: Routing)
    requires r.Routed?
    ensures b.Routed? && b.first == r.first && b.violation == r.violation
  {
    if target.None? then r
    else
      var t := target.value;
      var stays := t.provider == r.served.provider;
      var alias := if stays then r.served.alias else AliasFor(s, req, t.provider, None);
      Routed(Served(t.provider, t.model, alias), Budget, r.first,
             r.trail + [Move(Downgraded, r.served.model, t.model)], r.violation,
             if stays then r.note else NoteFor(s, req, t.provider, None))
  }

  function DefaultsElsewhere(s: Setup, provider: ProviderId, live: seq<ProviderId>): seq<Target> {
    if live == [] then []
    else
      var own := BuiltinOf(s, live[0]);
      var first := if live[0] != provider && own != NoModel then [Target(live[0], own)] else [];
      first + DefaultsElsewhere(s, provider, live[1..])
  }

  function BuildFallbackOrder(s: Setup, provider: ProviderId, model: Model): (r: seq<Target>)
    ensures r != [] && r[0] == Target(provider, model)
  {
    [Target(provider, model)] + match s.scope
      case PrimaryOnly => []
      case CrossProvider => DefaultsElsewhere(s, provider, s.live)
      case SameProvider =>
        var light := BuiltinOf(s, provider);
        if light != NoModel && light != model then [Target(provider, light)] else []
  }

  function MayServe(s: Setup, req: Request): Target -> bool {
    (t: Target) => CheckModel(s, req, t.model, true)
  }

  function Candidates(s: Setup, req: Request, served: Served): (r: seq<Target>)
    ensures r != [] && r[0] == Target(served.provider, served.model)
  {
    var full := BuildFallbackOrder(s, served.provider, served.model);
    [full[0]] + Filter(full[1..], MayServe(s, req))
  }

  // A provider call: None when the provider has no configuration, and the call fails without being sent.
  datatype Call = Call(target: Target, key: Option<Secret>)

  // credentialOverrideFor: None leaves the provider's own configured key in place.
  function OverrideKey(eff: Effective, p: ProviderId, alias: Option<Alias>): Option<Secret> {
    if alias.None? || p !in eff then None
    else
      var resolved := CredentialFor(eff, p, alias).value;
      if resolved.alias == eff[p].defaultAlias then None else Some(resolved.credential)
  }

  function CallOf(s: Setup, served: Served, t: Target): Call {
    var pinned := if t.provider == served.provider then OverrideKey(s.eff, t.provider, served.alias) else None;
    Call(t, if t.provider !in s.eff then None else if pinned.Some? then pinned else Some(s.eff[t.provider].credential))
  }

  function Succeeds(s: Setup, w: World, served: Served, order: seq<Target>, k: nat): bool
    requires k < |order|
  {
    CallOf(s, served, order[k]).key.Some? && w.answers(k)
  }

  // The first attempt that succeeds, or |order|.
  function FirstSuccess(s: Setup, w: World, served: Served, order: seq<Target>, k: nat): (r: nat)
    requires k <= |order|
    ensures k <= r <= |order|
    ensures r < |order| ==> Succeeds(s, w, served, order, r)
    ensures forall j :: k <= j < r ==> !Succeeds(s, w, served, order, j)
    decreases |order| - k
  {
    if k == |order| || Succeeds(s, w, served, order, k) then k else FirstSuccess(s, w, served, order, k + 1)
  }

  function CallsFor(s: Setup, served: Served, order: seq<Target>): (r: seq<Call>)
    ensures |r| == |order| && forall k :: 0 <= k < |order| ==> r[k] == CallOf(s, served, order[k])
  {
    if order == [] then [] else CallsFor(s, served, order[..|order| - 1]) + [CallOf(s, served, order[|order| - 1])]
  }

  // ---- The whole request ------------------------------------------------------------------------------------------

  // `recorded` is the alias the request log attributes the call to.
  datatype Reply =
    | Turned(why: Refusal)
    | OverBudget
    | FromCache(target: Target)
    | Withheld(calls: seq<Call>)
    | AllFailed(calls: seq<Call>)
    | Delivered(target: Target, decision: Decision, recorded: Option<Alias>, calls: seq<Call>)

  datatype Chat = Chat(reply: Reply, trail: seq<Override>, violation: Option<Model>, note: Option<PinNote>)

  function Invoke(s: Setup, req: Request, w: World, r: Routing): Chat
    requires r.Routed?
  {
    var order := Candidates(s, req, r.served);
    var k := FirstSuccess(s, w, r.served, order, 0);
    if k == |order| then Chat(AllFailed(CallsFor(s, r.served, order)), r.trail, r.violation, r.note)
    else
      var calls := CallsFor(s, r.served, order[..k + 1]);
      Chat(if w.withholds(order[k]) then Withheld(calls)
           else
             Delivered(order[k], if k > 0 then Fallback else r.decision,
                       if order[k].provider == r.served.provider then r.served.alias else None, calls),
           if k > 0 then r.trail + [Move(FellBack, r.served.model, order[k].model)] else r.trail, r.violation, r.note)
  }

  function Serve(s: Setup, req: Request, w: World): Chat {
    var r := ResolveRoute(s, req, w);
    if r.Refused? then Chat(Turned(r.why), [], None, None)
    else if w.enforcement(r.served) == Block then Chat(OverBudget, r.trail + [BlockedByBudget], r.violation, r.note)
    else Answer(s, req, w, AfterBudget(s, req, r, DowngradeOf(s, req, w, r.served)))
  }

  // A cached response for the served model, or the provider calls.
  function Answer(s: Setup, req: Request, w: World, r: Routing): Chat
    requires r.Routed?
  {
    var hit := w.cached(r.served);
    if hit.None? then Invoke(s, req, w, r)
    else Chat(if w.withholds(hit.value) then Withheld([]) else FromCache(hit.value), r.trail, r.violation, r.note)
  }

  // ---- The trail ---------------------------------------------------------------------------------------------------

  lemma ConnectedSnoc(first: Model, trail: seq<Override>, last: Model, kind: Kind, to: Model)
    requires Connected(first, trail, last) && InOrder(trail, Rank(kind))
    ensures Connected(first, trail + [Move(kind, last, to)], to)
    ensures InOrder(trail + [Move(kind, last, to)], Rank(kind) + 1)
  {
  }

  lemma GovernConnects(s: Setup, req: Request, w: World, first: Model, explicit: bool, t: Trip)
    requires Connected(first, t.trail, t.target.model) && InOrder(t.trail, 1)
    requires Govern(s, req, w, first, explicit, t).Routed?
    ensures var r := Govern(s, req, w, first, explicit, t);
      Connected(first, r.trail, r.served.model) && InOrder(r.trail, 3)
  {
    hide Connected, InOrder, ResolveDefault, KeyDefault, AliasFor, NoteFor;
    var a := AfterAllowed(s, req, t).value;
    Later(t.trail, 1, 2);
    if a != t {
      ConnectedSnoc(first, t.trail, t.target.model, AllowedSet, a.target.model);
    }
    var o := AfterOptOut(s, req, a);
    Later(a.trail, 2, 3);
    if o != a {
      ConnectedSnoc(first, a.trail, a.target.model, OptedOut, o.target.model);
    }
  }

  lemma Later(trail: seq<Override>, low: nat, high: nat)
    requires low <= high
    ensures InOrder(trail, low) ==> InOrder(trail, high)
  {
  }

  lemma NoMoves(m: Model)
    ensures Connected(m, [], m) && InOrder([], 0)
  {
  }

  lemma RouteConnects(s: Setup, req: Request, w: World)
    requires ResolveRoute(s, req, w).Routed?
    ensures var r := ResolveRoute(s, req, w); Connected(r.first, r.trail, r.served.model) && InOrder(r.trail, 3)
  {
    hide Connected, InOrder, Govern, FirstChoice, Diversion;
    match ResolveExplicit(s, req) {
      case Pinned(target) =>
        NoMoves(target.model);
        Later([], 0, 1);
        GovernConnects(s, req, w, target.model, true, Trip(target, Explicit, []));
        FirstIsKept(s, req, w, target.model, true, Trip(target, Explicit, []));
      case Defer =>
        var first := FirstChoice(s, req, w);
        FirstIsBare(s, req, w);
        var model := first.target.model;
        NoMoves(model);
        Later([], 0, 1);
        var t := AfterCanary(s, w, first);
        if t != first {
          ConnectedSnoc(model, [], model, Diverted, t.target.model);
        }
        GovernConnects(s, req, w, model, false, t);
        FirstIsKept(s, req, w, model, false, t);
      case _ =>
    }
  }

  lemma FirstIsBare(s: Setup, req: Request, w: World)
    ensures FirstChoice(s, req, w).trail == []
  {
  }

  lemma FirstIsKept(s: Setup, req: Request, w: World, first: Model, explicit: bool, t: Trip)
    ensures var r := Govern(s, req, w, first, explicit, t); r.Routed? ==> r.first == first
  {
  }

  // Every delivered answer is explained: the trail is a connected chain from the model chosen first to
  // the model that answered, naming each stage that moved it once and in pipeline order.
  lemma TrailExplainsDelivery(s: Setup, req: Request, w: World)
    requires Serve(s, req, w).reply.Delivered?
    ensures var c := Serve(s, req, w);
      Connected(ResolveRoute(s, req, w).first, c.trail, c.reply.target.model) && InOrder(c.trail, 5)
  {
    hide Connected, InOrder, ResolveRoute, DowngradeOf, AliasFor, NoteFor, Candidates, FirstSuccess, CallsFor;
    RouteConnects(s, req, w);
    var r := ResolveRoute(s, req, w);
    var target := DowngradeOf(s, req, w, r.served);
    var b := AfterBudget(s, req, r, target);
    Later(r.trail, 3, 4);
    if target.Some? {
      ConnectedSnoc(r.first, r.trail, r.served.model, Downgraded, b.served.model);
    }
    Later(b.trail, 4, 5);
    var order := Candidates(s, req, b.served);
    var k := FirstSuccess(s, w, b.served, order, 0);
    if k > 0 {
      ConnectedSnoc(r.first, b.trail, b.served.model, FellBack, order[k].model);
    }
  }

  // The label of a delivered answer agrees with the last entry of its trail.
  ghost predicate Labels(decision: Decision, trail: seq<Override>) {
    if trail == [] then decision !in {Canary, Budget, Fallback}
    else
      trail[|trail| - 1].Move? && decision == match trail[|trail| - 1].kind
        case Diverted => Canary
        case AllowedSet => Passthrough
        case OptedOut => Passthrough
        case Downgraded => Budget
        case FellBack => Fallback
  }

  lemma GovernLabels(s: Setup, req: Request, w: World, first: Model, explicit: bool, t: Trip)
    requires Labels(t.decision, t.trail) && Govern(s, req, w, first, explicit, t).Routed?
    ensures var r := Govern(s, req, w, first, explicit, t); Labels(r.decision, r.trail)
  {
    hide ResolveDefault, KeyDefault, AliasFor, NoteFor, VisionCapable;
  }

  lemma RouteLabels(s: Setup, req: Request, w: World)
    requires ResolveRoute(s, req, w).Routed?
    ensures var r := ResolveRoute(s, req, w); Labels(r.decision, r.trail)
  {
    hide Govern, Diversion, KeyDefault, ResolveDefault;
    match ResolveExplicit(s, req) {
      case Pinned(target) => GovernLabels(s, req, w, target.model, true, Trip(target, Explicit, []));
      case Defer =>
        var first := FirstChoice(s, req, w);
        GovernLabels(s, req, w, first.target.model, false, AfterCanary(s, w, first));
      case _ =>
    }
  }

  // The routing decision a response and its record carry is the one its last override made.
  lemma DecisionMatchesTrail(s: Setup, req: Request, w: World)
    requires Serve(s, req, w).reply.Delivered?
    ensures Labels(Serve(s, req, w).reply.decision, Serve(s, req, w).trail)
  {
    hide ResolveRoute, DowngradeOf, AliasFor, NoteFor, Candidates, FirstSuccess, CallsFor;
    RouteLabels(s, req, w);
  }

  // ---- Precedence -------------------------------------------------------------------------------------------------

  // A pin that resolves is served as it is whatever rules, policies and experiments there are: only the
  // key's allowed set and the application's opt-outs move it. One that does not is refused, never swapped.
  lemma PinSkipsPolicies(s: Setup, req: Request, w: World, v: World)
    requires req.pin != NoModel
    ensures var r := ResolveRoute(s, req, w);
      && r == ResolveRoute(s, req, v)
      && (r.Routed? ==> r.first == req.pin && (!Outside(req, req.pin) && req.pin !in req.optOut ==>
                                                  r.served.model == req.pin && r.decision == Explicit && r.trail == []))
      && (Known(s, req.pin).None? && req.hint.None? ==> r == Refused(NoSuchModel))
      && (req.hint.Some? && req.hint.value !in s.live ==> r == Refused(ProviderOff(req.hint.value)))
  {
    hide ResolveDefault, KeyDefault, AliasFor, NoteFor, VisionCapable;
  }

  // Without a pin, and where no later stage moves the request: a rule decides before the policy or the
  // guardrail, and they before the key's default and the global one.
  lemma RulesComeFirst(s: Setup, req: Request, w: World)
    requires ResolveRoute(s, req, w).Routed? && ResolveRoute(s, req, w).trail == [] && req.pin == NoModel
    ensures var r := ResolveRoute(s, req, w); var target := Target(r.served.provider, r.served.model);
      && (r.decision == Rule <==> w.route.Some?)
      && (w.route.Some? ==> target == w.route.value.target)
      && (r.decision == Ai <==>
            w.route.None? && w.mode == AiPolicy && w.policy.Some? && w.policy.value.provider in s.live)
      && (r.decision == Ai ==> Some(target) == w.policy)
      && (r.decision == Auto <==> w.route.None? && w.mode == Guardrail && w.auto(BaseChoice(s, req)).Some?)
      && (r.decision == Auto ==> Some(target) == w.auto(BaseChoice(s, req)))
      && (r.decision == Passthrough <==> r.decision !in {Rule, Ai, Auto})
      && (r.decision == Passthrough ==> target == BaseChoice(s, req))
  {
    hide ResolveDefault, KeyDefault, AliasFor, NoteFor, VisionCapable, Diversion, BaseChoice;
  }

  // ---- Governance ---------------------------------------------------------------------------------------------------

  lemma CandidatesPass(s: Setup, req: Request, served: Served, k: nat)
    requires 0 < k < |Candidates(s, req, served)|
    ensures CheckModel(s, req, Candidates(s, req, served)[k].model, true)
  {
    hide CheckModel, BuildFallbackOrder;
    var rest := BuildFallbackOrder(s, served.provider, served.model)[1..];
    FilterMembers(rest, MayServe(s, req));
    assert Candidates(s, req, served)[k] == Filter(rest, MayServe(s, req))[k - 1];
    assert MayServe(s, req)(Candidates(s, req, served)[k]);
  }

  // The checks every moved request passes, in fields: allowed, not opted out, able to see the request's
  // image, and for a retry registered with a price.
  lemma ChecksInFields(s: Setup, req: Request, m: Model, requirePriced: bool)
    ensures CheckModel(s, req, m, requirePriced) <==>
      && (req.allowed == [] || m in req.allowed) && m !in req.optOut
      && (!req.image || (m != NoModel && m in s.registry && s.registry[m].vision))
      && (!requirePriced || (m != NoModel && m in s.registry && s.registry[m].priced))
  {
  }

  // A later stage can only move the request to a model that passes the same checks: what is delivered
  // is the model the route settled on, or one that is allowed, not opted out, able to see the image
  // and, when it was a fallback, priced.
  lemma DeliveredIsGoverned(s: Setup, req: Request, w: World)
    requires Serve(s, req, w).reply.Delivered?
    ensures var reply := Serve(s, req, w).reply;
      || reply.target.model == ResolveRoute(s, req, w).served.model
      || CheckModel(s, req, reply.target.model, reply.decision == Fallback)
  {
    hide CheckModel, ResolveRoute, SuggestLightTarget, AliasFor, NoteFor, Candidates, FirstSuccess, CallsFor;
    var r := ResolveRoute(s, req, w);
    var b := AfterBudget(s, req, r, DowngradeOf(s, req, w, r.served));
    var k := FirstSuccess(s, w, b.served, Candidates(s, req, b.served), 0);
    if k > 0 {
      CandidatesPass(s, req, b.served, k);
    } else {
      RouteIsNotFallback(s, req, w);
    }
  }

  lemma RouteIsNotFallback(s: Setup, req: Request, w: World)
    requires ResolveRoute(s, req, w).Routed?
    ensures ResolveRoute(s, req, w).decision != Fallback
  {
    hide KeyDefault, ResolveDefault, Diversion, AliasFor, NoteFor;
  }

  lemma RouteFlagsOutsiders(s: Setup, req: Request, w: World)
    requires ResolveRoute(s, req, w).Routed?
    ensures var r := ResolveRoute(s, req, w);
      r.violation == if Outside(req, r.served.model) then Some(r.served.model) else None
  {
    hide KeyDefault, ResolveDefault, Diversion, AliasFor, NoteFor, FirstChoice, AfterCanary;
  }

  lemma ViolationSurvives(s: Setup, req: Request, w: World)
    requires ResolveRoute(s, req, w).Routed?
    ensures Serve(s, req, w).violation == ResolveRoute(s, req, w).violation
  {
    hide ResolveRoute, DowngradeOf, AliasFor, NoteFor, Candidates, FirstSuccess, CallsFor;
  }

  // A model returned outside a non-empty allowed list is always named by the recorded violation.
  lemma OutsidersAreNamed(s: Setup, req: Request, w: World)
    requires Serve(s, req, w).reply.Delivered? && Outside(req, Serve(s, req, w).reply.target.model)
    ensures Serve(s, req, w).violation == Some(Serve(s, req, w).reply.target.model)
    ensures Serve(s, req, w).reply.target.model == ResolveRoute(s, req, w).served.model
  {
    hide ResolveRoute, Serve;
    DeliveredIsGoverned(s, req, w);
    ServedWasRouted(s, req, w);
    RouteFlagsOutsiders(s, req, w);
    ViolationSurvives(s, req, w);
  }

  lemma ServedWasRouted(s: Setup, req: Request, w: World)
    ensures Serve(s, req, w).reply.Delivered? || Serve(s, req, w).reply.AllFailed? ==> ResolveRoute(s, req, w).Routed?
  {
    hide ResolveRoute, Invoke;
  }

  lemma RouteOptOut(s: Setup, req: Request, w: World)
    requires ResolveRoute(s, req, w).Routed? && ResolveRoute(s, req, w).served.model in req.optOut
    ensures ResolveDefault(s, req).model in req.optOut
  {
    hide KeyDefault, ResolveDefault, Diversion, AliasFor, NoteFor, FirstChoice, AfterCanary, AfterAllowed;
  }

  // An opted-out model is delivered only when the global default is opted out as well.
  lemma OptOutHonouredUnlessDefaultIsOut(s: Setup, req: Request, w: World)
    requires Serve(s, req, w).reply.Delivered? && Serve(s, req, w).reply.target.model in req.optOut
    ensures ResolveDefault(s, req).model in req.optOut
  {
    hide ResolveRoute, Serve, ResolveDefault;
    DeliveredIsGoverned(s, req, w);
    ServedWasRouted(s, req, w);
    RouteOptOut(s, req, w);
  }

  // The model governance starts from: the pin, or the first choice after any canary.
  function ChosenModel(s: Setup, req: Request, w: World): Model {
    if req.pin != NoModel then req.pin else AfterCanary(s, w, FirstChoice(s, req, w)).target.model
  }

  function KeyDefaultModel(s: Setup, req: Request): Model {
    if KeyDefault(s, req).Some? then KeyDefault(s, req).value.model else NoModel
  }

  // What the allowed set makes of it.
  function AllowedModel(s: Setup, req: Request, w: World): Model {
    var chosen := ChosenModel(s, req, w);
    if Outside(req, chosen) then KeyDefaultModel(s, req) else chosen
  }

  lemma RouteSettlesOn(s: Setup, req: Request, w: World)
    requires ResolveRoute(s, req, w).Routed?
    ensures var m := AllowedModel(s, req, w); var default := ResolveDefault(s, req).model;
      ResolveRoute(s, req, w).served.model == if m in req.optOut && default !in req.optOut then default else m
  {
    hide KeyDefault, ResolveDefault, Diversion, AliasFor, NoteFor, VisionCapable, FirstChoice, Outside;
  }

  // The opt-out stage moves what the allowed set left to the global default.
  predicate OptsOut(s: Setup, req: Request, m: Model) {
    m in req.optOut && ResolveDefault(s, req).model !in req.optOut
  }

  // Exactly when the route settles on a model outside the allowed set: an opt-out sends it to a global
  // default outside the set, or the chosen model and the key's own default are both outside.
  lemma OutsiderRoutedIff(s: Setup, req: Request, w: World)
    requires ResolveRoute(s, req, w).Routed?
    ensures Outside(req, ResolveRoute(s, req, w).served.model) <==>
      if OptsOut(s, req, AllowedModel(s, req, w)) then Outside(req, ResolveDefault(s, req).model)
      else Outside(req, ChosenModel(s, req, w)) && Outside(req, KeyDefaultModel(s, req))
  {
    hide ResolveRoute, ResolveDefault, KeyDefaultModel, ChosenModel;
    RouteSettlesOn(s, req, w);
  }

  // No cap moves the routed request, and its first provider call succeeds.
  predicate StaysPut(s: Setup, req: Request, w: World, served: Served) {
    DowngradeOf(s, req, w, served).None? && Succeeds(s, w, served, Candidates(s, req, served), 0)
  }

  // Only a request that stays put is delivered as routed; any other was moved to a checked model.
  lemma MovedIsChecked(s: Setup, req: Request, w: World)
    requires Serve(s, req, w).reply.Delivered?
    ensures var m := Serve(s, req, w).reply.target.model; var r := ResolveRoute(s, req, w);
      && r.Routed?
      && (if StaysPut(s, req, w, r.served) then m == r.served.model else CheckModel(s, req, m, false))
  {
    hide CheckModel, ResolveRoute, SuggestLightTarget, AliasFor, NoteFor, Candidates, CallsFor, Succeeds;
    ServedWasRouted(s, req, w);
    var r := ResolveRoute(s, req, w);
    var b := AfterBudget(s, req, r, DowngradeOf(s, req, w, r.served));
    var k := FirstSuccess(s, w, b.served, Candidates(s, req, b.served), 0);
    if k > 0 {
      CandidatesPass(s, req, b.served, k);
      PricedPasses(s, req, Candidates(s, req, b.served)[k].model);
    }
  }

  lemma PricedPasses(s: Setup, req: Request, m: Model)
    requires CheckModel(s, req, m, true)
    ensures CheckModel(s, req, m, false)
  {
  }

  // Exactly when a model outside the allowed set is delivered: the route settles on it and it stays put.
  lemma OutsiderDeliveredIff(s: Setup, req: Request, w: World)
    requires Serve(s, req, w).reply.Delivered?
    ensures ResolveRoute(s, req, w).Routed?
    ensures Outside(req, Serve(s, req, w).reply.target.model) <==>
      && StaysPut(s, req, w, ResolveRoute(s, req, w).served)
      && if OptsOut(s, req, AllowedModel(s, req, w)) then Outside(req, ResolveDefault(s, req).model)
         else Outside(req, ChosenModel(s, req, w)) && Outside(req, KeyDefaultModel(s, req))
  {
    hide ResolveRoute, Serve, ResolveDefault, KeyDefaultModel, ChosenModel, StaysPut, OptsOut, AllowedModel;
    MovedIsChecked(s, req, w);
    OutsiderRoutedIff(s, req, w);
  }

  // Exactly when an opted-out model is delivered: what the allowed set left is opted out together with the
  // global default, and the request stays put.
  lemma OptedOutDeliveredIff(s: Setup, req: Request, w: World)
    requires Serve(s, req, w).reply.Delivered?
    ensures ResolveRoute(s, req, w).Routed?
    ensures Serve(s, req, w).reply.target.model in req.optOut <==>
      && StaysPut(s, req, w, ResolveRoute(s, req, w).served)
      && AllowedModel(s, req, w) in req.optOut && ResolveDefault(s, req).model in req.optOut
  {
    hide ResolveRoute, Serve, ResolveDefault, AllowedModel, StaysPut;
    MovedIsChecked(s, req, w);
    RouteSettlesOn(s, req, w);
  }

  // One connected provider, with models "b", "c" and "d"; "d" is the global default.
  function SmallSetup(key: Secret): Setup {
    var own := Info(ProviderId("groq"), true, true);
    Setup(map[ProviderId("groq") := CustomEntry(key)], [ProviderId("groq")], ProviderId("groq"), Named("d"),
          map[Named("b") := own, Named("c") := own, Named("d") := own], map[], map[], PrimaryOnly)
  }

  function PinC(allowed: seq<Model>, keyDefault: Model, optOut: seq<Model>): Request {
    Request(Named("c"), None, false, allowed, keyDefault, optOut, map[])
  }

  function QuietWorld(): World {
    World(Off, None, None, (t: Target) => None, (m: Model) => None, (v: Served) => Admit, (k: nat) => true,
          (v: Served) => None, (t: Target) => false)
  }

  lemma SmallAnswer(key: Secret, req: Request, m: Model, decision: Decision)
    requires ResolveRoute(SmallSetup(key), req, QuietWorld()).Routed?
    requires var r := ResolveRoute(SmallSetup(key), req, QuietWorld());
      r.served == Served(ProviderId("groq"), m, Some(PLAIN)) && r.decision == decision
    ensures var t := Target(ProviderId("groq"), m);
      Serve(SmallSetup(key), req, QuietWorld()).reply == Delivered(t, decision, Some(PLAIN), [Call(t, Some(key))])
  {
    hide ResolveRoute;
    var s, w := SmallSetup(key), QuietWorld();
    var served := ResolveRoute(s, req, w).served;
    assert DowngradeOf(s, req, w, served) == None;
    var t := Target(ProviderId("groq"), m);
    assert Candidates(s, req, served) == [t];
    assert CallsFor(s, served, [t]) == [Call(t, Some(key))];
    assert [t][..1] == [t];
  }

  function Restricted(): Request {
    PinC([Named("a")], Named("b"), [])
  }

  lemma RestrictedRoute(key: Secret)
    ensures ResolveRoute(SmallSetup(key), Restricted(), QuietWorld())
      == Routed(Served(ProviderId("groq"), Named("b"), Some(PLAIN)), Passthrough, Named("c"),
                [Move(AllowedSet, Named("c"), Named("b"))], Some(Named("b")), None)
  {
    assert KeyDefault(SmallSetup(key), Restricted()) == Some(Target(ProviderId("groq"), Named("b")));
  }

  // A key allowed "a" alone, with its own default "b", asks for "c" and is served "b".
  lemma OutsiderIsServed(key: Secret)
    ensures var c := Serve(SmallSetup(key), Restricted(), QuietWorld());
      c.reply.Delivered? && c.reply.target.model == Named("b") && c.violation == Some(Named("b"))
  {
    hide ResolveRoute, Serve;
    RestrictedRoute(key);
    SmallAnswer(key, Restricted(), Named("b"), Passthrough);
    ViolationSurvives(SmallSetup(key), Restricted(), QuietWorld());
  }

  // An application that opted out of "c" and of the global default "d" asks for "c" and is served it.
  lemma OptedOutIsServed(key: Secret)
    ensures var c := Serve(SmallSetup(key), PinC([], NoModel, [Named("c"), Named("d")]), QuietWorld());
      c.reply.Delivered? && c.reply.target.model == Named("c")
  {
    var s, req, w := SmallSetup(key), PinC([], NoModel, [Named("c"), Named("d")]), QuietWorld();
    var r := ResolveRoute(s, req, w);
    assert r.Routed? && r.served == Served(ProviderId("groq"), Named("c"), Some(PLAIN)) && r.decision == Explicit;
    SmallAnswer(key, req, Named("c"), Explicit);
  }

  lemma RouteSeesImages(s: Setup, req: Request, w: World)
    requires ResolveRoute(s, req, w).Routed? && req.image && req.pin == NoModel
    ensures VisionCapable(s, ResolveRoute(s, req, w).served.model)
  {
    hide KeyDefault, ResolveDefault, Diversion, AliasFor, NoteFor, FirstChoice;
    hide AfterCanary, AfterAllowed, AfterOptOut, VisionCapable;
  }

  // An image sent without a pinned model is never answered by a text-only model.
  lemma ImagesNeedVision(s: Setup, req: Request, w: World)
    requires Serve(s, req, w).reply.Delivered? && req.image && req.pin == NoModel
    ensures VisionCapable(s, Serve(s, req, w).reply.target.model)
  {
    hide ResolveRoute, Serve, VisionCapable;
    DeliveredIsGoverned(s, req, w);
    ServedWasRouted(s, req, w);
    RouteSeesImages(s, req, w);
  }

  // ---- Keys -------------------------------------------------------------------------------------

  // An alias names a key of the provider, or is absent where the provider is not connected.
  ghost predicate GoodAlias(eff: Effective, p: ProviderId, alias: Option<Alias>) {
    if p in eff then alias.Some? && alias.value in eff[p].credentials else alias.None?
  }

  lemma AliasIsGood(s: Setup, req: Request, p: ProviderId, rulePin: Option<Alias>)
    requires Sound(s)
    ensures GoodAlias(s.eff, p, AliasFor(s, req, p, rulePin))
  {
  }

  lemma RouteAlias(s: Setup, req: Request, w: World)
    requires Sound(s) && ResolveRoute(s, req, w).Routed?
    ensures var r := ResolveRoute(s, req, w); GoodAlias(s.eff, r.served.provider, r.served.alias)
  {
    hide Sound, GoodAlias, KeyDefault, ResolveDefault, Diversion, AliasFor, NoteFor, FirstChoice;
    hide AfterCanary, AfterAllowed, AfterOptOut, RulePin;
    forall p, pin ensures GoodAlias(s.eff, p, AliasFor(s, req, p, pin)) {
      AliasIsGood(s, req, p, pin);
    }
  }

  // What the served target is when the provider calls begin.
  function Bound(s: Setup, req: Request, w: World): Served
    requires ResolveRoute(s, req, w).Routed?
  {
    var r := ResolveRoute(s, req, w);
    AfterBudget(s, req, r, DowngradeOf(s, req, w, r.served)).served
  }

  lemma BoundAlias(s: Setup, req: Request, w: World)
    requires Sound(s) && ResolveRoute(s, req, w).Routed?
    ensures GoodAlias(s.eff, Bound(s, req, w).provider, Bound(s, req, w).alias)
  {
    hide Sound, GoodAlias, ResolveRoute, DowngradeOf, AliasFor, NoteFor;
    RouteAlias(s, req, w);
    var target := DowngradeOf(s, req, w, ResolveRoute(s, req, w).served);
    if target.Some? {
      AliasIsGood(s, req, target.value.provider, None);
    }
  }

  lemma CallKey(s: Setup, served: Served, t: Target)
    requires Sound(s) && GoodAlias(s.eff, served.provider, served.alias) && t.provider in s.eff
    ensures CallOf(s, served, t).key == Some(
      if t.provider == served.provider then s.eff[t.provider].credentials[served.alias.value]
      else s.eff[t.provider].credential)
  {
  }

  function CallsMade(reply: Reply): seq<Call> {
    match reply
    case AllFailed(calls) => calls
    case Withheld(calls) => calls
    case Delivered(_, _, _, calls) => calls
    case _ => []
  }

  lemma InvokeCalls(s: Setup, req: Request, w: World, r: Routing)
    requires r.Routed?
    ensures var calls := CallsMade(Invoke(s, req, w, r).reply); var order := Candidates(s, req, r.served);
      && |calls| <= |order|
      && forall k :: 0 <= k < |calls| ==> calls[k] == CallOf(s, r.served, order[k])
  {
    hide Candidates, FirstSuccess, CallOf;
  }

  lemma ServeInvokes(s: Setup, req: Request, w: World)
    requires var reply := Serve(s, req, w).reply; CallsMade(reply) != [] || reply.AllFailed? || reply.Delivered?
    ensures ResolveRoute(s, req, w).Routed?
    ensures var r := ResolveRoute(s, req, w);
      Serve(s, req, w) == Invoke(s, req, w, AfterBudget(s, req, r, DowngradeOf(s, req, w, r.served)))
  {
    hide ResolveRoute, DowngradeOf, AfterBudget, Invoke;
  }

  lemma CallsAreBound(s: Setup, req: Request, w: World, k: nat)
    requires k < |CallsMade(Serve(s, req, w).reply)|
    ensures ResolveRoute(s, req, w).Routed?
    ensures var call := CallsMade(Serve(s, req, w).reply)[k]; call == CallOf(s, Bound(s, req, w), call.target)
  {
    hide ResolveRoute, DowngradeOf, AfterBudget, Serve, Invoke, Candidates;
    ServeInvokes(s, req, w);
    var r := ResolveRoute(s, req, w);
    var b := AfterBudget(s, req, r, DowngradeOf(s, req, w, r.served));
    InvokeCalls(s, req, w, b);
    var call := CallsMade(Serve(s, req, w).reply)[k];
    assert call == CallOf(s, b.served, Candidates(s, req, b.served)[k]);
  }

  // Every provider call of a request, through pins, canary, allowed set, opt-out, downgrade and
  // fallback, carries a key of the provider receiving it: the pinned one on the provider it was
  // resolved for, any other provider's own default.
  lemma KeysStayHome(s: Setup, req: Request, w: World, k: nat)
    requires Sound(s) && k < |CallsMade(Serve(s, req, w).reply)|
    ensures ResolveRoute(s, req, w).Routed?
    ensures var call := CallsMade(Serve(s, req, w).reply)[k];
      && call.key.Some? == (call.target.provider in s.eff)
      && (call.key.Some? ==> Owns(s.eff, call.target.provider, call.key.value))
      && (call.key.Some? && call.target.provider != Bound(s, req, w).provider ==>
            call.key == Some(s.eff[call.target.provider].credential))
  {
    hide ResolveRoute, Serve, Bound, Sound;
    CallsAreBound(s, req, w, k);
    BoundAlias(s, req, w);
    var call := CallsMade(Serve(s, req, w).reply)[k];
    if call.target.provider in s.eff {
      CallKey(s, Bound(s, req, w), call.target);
    }
  }

  lemma DeliveredCall(s: Setup, req: Request, w: World)
    requires Serve(s, req, w).reply.Delivered?
    ensures ResolveRoute(s, req, w).Routed?
    ensures var reply := Serve(s, req, w).reply;
      && reply.calls != [] && reply.calls[|reply.calls| - 1].target == reply.target && reply.target.provider in s.eff
      && reply.recorded == if reply.target.provider == Bound(s, req, w).provider then Bound(s, req, w).alias else None
  {
    hide ResolveRoute, DowngradeOf, AliasFor, NoteFor, Candidates;
    ServedWasRouted(s, req, w);
  }

  // The spend record is honest: an alias in the log is the alias of the key the answering call carried,
  // and a call that carried any key but the default one has its alias in the log.
  lemma RecordedAliasIsTheKeyUsed(s: Setup, req: Request, w: World)
    requires Sound(s) && Serve(s, req, w).reply.Delivered?
    ensures var reply := Serve(s, req, w).reply;
      && reply.calls != [] && reply.target.provider in s.eff
      && (reply.recorded.Some? ==>
            && reply.recorded.value in s.eff[reply.target.provider].credentials
            && reply.calls[|reply.calls| - 1].key
                 == Some(s.eff[reply.target.provider].credentials[reply.recorded.value]))
      && (reply.recorded.None? ==> reply.calls[|reply.calls| - 1].key == Some(s.eff[reply.target.provider].credential))
  {
    hide ResolveRoute, Serve, Bound, Sound;
    DeliveredCall(s, req, w);
    var reply := Serve(s, req, w).reply;
    CallsAreBound(s, req, w, |reply.calls| - 1);
    BoundAlias(s, req, w);
    CallKey(s, Bound(s, req, w), reply.target);
  }

  // A rule's pin reaches the request only when the rule's own target is what the route settled on.
  lemma RulePinNeedsRule(s: Setup, req: Request, w: World)
    requires ResolveRoute(s, req, w).Routed?
    ensures var r := ResolveRoute(s, req, w);
      (r.note.Some? && r.note.value.byRule) <==> (r.decision == Rule && w.route.value.alias.Some?)
    ensures var r := ResolveRoute(s, req, w);
      r.decision == Rule ==>
        w.route.Some? && Target(r.served.provider, r.served.model) == w.route.value.target && r.trail == []
  {
    hide KeyDefault, ResolveDefault, Diversion, AliasFor, VisionCapable;
  }

  // credentialFor as the replica loop calls it: the pinned alias goes with the routed provider only.
  function ReplicaKey(s: Setup, served: Served, member: ProviderId): Option<Secret> {
    var resolved := CredentialFor(s.eff, member, if member == served.provider then served.alias else None);
    if resolved.Some? then Some(resolved.value.credential) else None
  }

  // Failing over inside a replica pool never carries the routed provider's key to another member, and
  // a direct call and a proxied one to the same target use the same key.
  lemma ReplicaKeysStayHome(s: Setup, req: Request, w: World, member: ProviderId)
    requires Sound(s) && ResolveRoute(s, req, w).Routed?
    ensures var key := ReplicaKey(s, Bound(s, req, w), member);
      && key.Some? == (member in s.eff)
      && (key.Some? ==> Owns(s.eff, member, key.value))
      && (key.Some? && member != Bound(s, req, w).provider ==> key == Some(s.eff[member].credential))
      && forall m :: CallOf(s, Bound(s, req, w), Target(member, m)).key == key
  {
    hide ResolveRoute, Bound;
    BoundAlias(s, req, w);
  }

  // ---- Where the request lands ------------------------------------------------------------------

  // The request is answered exactly when some candidate answers; the calls made are the candidates in
  // order, up to the first that does. Without a cached response for the served model, that is.
  lemma EveryCandidateIsTried(s: Setup, req: Request, w: World)
    requires ResolveRoute(s, req, w).Routed? && w.enforcement(ResolveRoute(s, req, w).served) != Block
    requires w.cached(Bound(s, req, w)).None?
    ensures var reply := Serve(s, req, w).reply; var order := Candidates(s, req, Bound(s, req, w));
      && |CallsMade(reply)| <= |order|
      && (forall k :: 0 <= k < |CallsMade(reply)| ==> CallsMade(reply)[k].target == order[k])
      && (reply.AllFailed? <==> forall k :: 0 <= k < |order| ==> !(order[k].provider in s.eff && w.answers(k)))
      && (reply.Delivered? || reply.Withheld? <==>
            exists k :: 0 <= k < |order| && order[k].provider in s.eff && w.answers(k))
      && (forall k :: 0 <= k < |CallsMade(reply)| - 1 ==> !(order[k].provider in s.eff && w.answers(k)))
      && (reply.Delivered? ==> |CallsMade(reply)| > 0 && reply.target == order[|CallsMade(reply)| - 1])
      && (reply.Withheld? ==> |CallsMade(reply)| > 0 && w.withholds(order[|CallsMade(reply)| - 1]))
      && (reply.Delivered? ==> !w.withholds(reply.target))
  {
    hide ResolveRoute, DowngradeOf, AfterBudget, Invoke, Candidates, Succeeds;
    var r := ResolveRoute(s, req, w);
    InvokeTries(s, req, w, AfterBudget(s, req, r, DowngradeOf(s, req, w, r.served)));
    var order := Candidates(s, req, Bound(s, req, w));
    forall k | 0 <= k < |order|
      ensures Succeeds(s, w, Bound(s, req, w), order, k) <==> order[k].provider in s.eff && w.answers(k)
    {
      SucceedsIff(s, w, Bound(s, req, w), order, k);
    }
  }

  lemma SucceedsIff(s: Setup, w: World, served: Served, order: seq<Target>, k: nat)
    requires k < |order|
    ensures Succeeds(s, w, served, order, k) <==> order[k].provider in s.eff && w.answers(k)
  {
  }

  lemma InvokeTries(s: Setup, req: Request, w: World, r: Routing)
    requires r.Routed?
    ensures var reply := Invoke(s, req, w, r).reply; var order := Candidates(s, req, r.served);
      && |CallsMade(reply)| <= |order|
      && (forall k :: 0 <= k < |CallsMade(reply)| ==> CallsMade(reply)[k].target == order[k])
      && (reply.AllFailed? <==> forall k :: 0 <= k < |order| ==> !Succeeds(s, w, r.served, order, k))
      && (reply.Delivered? || reply.Withheld? <==> exists k :: 0 <= k < |order| && Succeeds(s, w, r.served, order, k))
      && (reply.Delivered? ==> |CallsMade(reply)| > 0 && reply.target == order[|CallsMade(reply)| - 1])
      && (reply.Withheld? ==> |CallsMade(reply)| > 0 && w.withholds(order[|CallsMade(reply)| - 1]))
      && (reply.Delivered? ==> !w.withholds(reply.target))
      && (forall k :: 0 <= k < |CallsMade(reply)| - 1 ==> !Succeeds(s, w, r.served, order, k))
  {
    hide Candidates, Succeeds;
    InvokeCalls(s, req, w, r);
  }

  lemma {:induction false} ElsewhereMembers(s: Setup, provider: ProviderId, live: seq<ProviderId>, t: Target)
    ensures t in DefaultsElsewhere(s, provider, live) <==>
      t.provider in live && t.provider != provider && t.model != NoModel && t.model == BuiltinOf(s, t.provider)
  {
    if live != [] {
      ElsewhereMembers(s, provider, live[1..], t);
    }
  }

  lemma OrderMembers(s: Setup, provider: ProviderId, model: Model, t: Target)
    ensures t in BuildFallbackOrder(s, provider, model)[1..] <==>
      && t.model != NoModel && t.model == BuiltinOf(s, t.provider)
      && match s.scope
         case PrimaryOnly => false
         case SameProvider => t.provider == provider && t.model != model
         case CrossProvider => t.provider in s.live && t.provider != provider
  {
    ElsewhereMembers(s, provider, s.live, t);
    var light := BuiltinOf(s, provider);
    assert BuildFallbackOrder(s, provider, model)[1..] == match s.scope
      case PrimaryOnly => []
      case CrossProvider => DefaultsElsewhere(s, provider, s.live)
      case SameProvider => if light != NoModel && light != model then [Target(provider, light)] else [];
  }

  // What a failed call is retried on: exactly the default models the configured scope reaches that are
  // allowed, not opted out, able to see the image and priced.
  lemma FallbacksAreExactly(s: Setup, req: Request, served: Served, t: Target)
    ensures t in Candidates(s, req, served)[1..] <==>
      && t.provider in s.builtin && t.model == s.builtin[t.provider] && t.model != NoModel
      && (req.allowed == [] || t.model in req.allowed) && t.model !in req.optOut
      && t.model in s.registry && s.registry[t.model].priced && (req.image ==> s.registry[t.model].vision)
      && match s.scope
         case PrimaryOnly => false
         case SameProvider => t.provider == served.provider && t.model != served.model
         case CrossProvider => t.provider in s.live && t.provider != served.provider
  {
    hide CheckModel, BuildFallbackOrder;
    var rest := BuildFallbackOrder(s, served.provider, served.model)[1..];
    OrderMembers(s, served.provider, served.model, t);
    FilterMembers(rest, MayServe(s, req));
    assert Candidates(s, req, served)[1..] == Filter(rest, MayServe(s, req));
    assert MayServe(s, req)(t) == CheckModel(s, req, t.model, true);
    ChecksInFields(s, req, t.model, true);
  }

  lemma {:induction false} ElsewhereInOrder(s: Setup, provider: ProviderId, live: seq<ProviderId>, i: nat, j: nat)
    returns (x: nat, y: nat)
    requires i < j < |DefaultsElsewhere(s, provider, live)|
    ensures var ts := DefaultsElsewhere(s, provider, live);
      x < y < |live| && live[x] == ts[i].provider && live[y] == ts[j].provider
  {
    var rest := DefaultsElsewhere(s, provider, live[1..]);
    if live[0] == provider || BuiltinOf(s, live[0]) == NoModel {
      x, y := ElsewhereInOrder(s, provider, live[1..], i, j);
      x, y := x + 1, y + 1;
    } else if i > 0 {
      x, y := ElsewhereInOrder(s, provider, live[1..], i - 1, j - 1);
      x, y := x + 1, y + 1;
    } else {
      assert DefaultsElsewhere(s, provider, live)[j] == rest[j - 1];
      assert rest[j - 1] in rest;
      ElsewhereMembers(s, provider, live[1..], rest[j - 1]);
      var k :| 0 <= k < |live[1..]| && live[1..][k] == rest[j - 1].provider;
      x, y := 0, k + 1;
    }
  }

  // Retries on other providers go through the connected ones in their order.
  lemma FallbacksInOrder(s: Setup, req: Request, served: Served, i: nat, j: nat) returns (x: nat, y: nat)
    requires 0 < i < j < |Candidates(s, req, served)|
    ensures var order := Candidates(s, req, served);
      x < y < |s.live| && s.live[x] == order[i].provider && s.live[y] == order[j].provider
  {
    var rest := BuildFallbackOrder(s, served.provider, served.model)[1..];
    var order := Candidates(s, req, served);
    assert order[i] == Filter(rest, MayServe(s, req))[i - 1] && order[j] == Filter(rest, MayServe(s, req))[j - 1];
    var a, b := FilterInOrder(rest, MayServe(s, req), i - 1, j - 1);
    assert rest == DefaultsElsewhere(s, served.provider, s.live);
    x, y := ElsewhereInOrder(s, served.provider, s.live, a, b);
  }

  // Choices made elsewhere name connected providers: rules are skipped otherwise, and the guardrail
  // keeps the registered provider of the model it was asked about.
  ghost predicate Connects(s: Setup, w: World) {
    && (w.route.Some? ==> w.route.value.target.provider in s.live)
    && (forall t :: w.auto(t).Some? ==>
          Known(s, t.model).Some? && w.auto(t).value.provider == Known(s, t.model).value.provider)
  }

  // No canary takes the model over, and neither the allowed set nor an opt-out moves it.
  predicate Stays(s: Setup, req: Request, w: World, m: Model) {
    Diversion(s, w, m).None? && Kept(s, req, m)
  }

  predicate Kept(s: Setup, req: Request, m: Model) {
    && (req.allowed == [] || m in req.allowed)
    && (m !in req.optOut || ResolveDefault(s, req).model in req.optOut)
  }

  predicate RuleDecides(s: Setup, req: Request, w: World) {
    req.pin == NoModel && w.route.Some? && Stays(s, req, w, w.route.value.target.model)
  }

  predicate PolicyDecides(s: Setup, req: Request, w: World) {
    && req.pin == NoModel && w.route.None? && w.mode == AiPolicy
    && w.policy.Some? && w.policy.value.provider in s.live && Stays(s, req, w, w.policy.value.model)
  }

  predicate GuardrailDecides(s: Setup, req: Request, w: World) {
    var base := BaseChoice(s, req);
    && req.pin == NoModel && w.route.None? && w.mode == Guardrail
    && w.auto(base).Some? && Stays(s, req, w, w.auto(base).value.model)
  }

  lemma AutoIff(s: Setup, req: Request, w: World)
    requires ResolveRoute(s, req, w).Routed?
    ensures ResolveRoute(s, req, w).decision == Auto <==> GuardrailDecides(s, req, w)
    ensures GuardrailDecides(s, req, w) ==>
      ResolveRoute(s, req, w).served.provider == w.auto(BaseChoice(s, req)).value.provider
  {
    hide BaseChoice, AliasFor, NoteFor, VisionCapable, KeyDefault, ResolveDefault, Diversion;
  }

  // Who decided: the pin, a rule, the policy or the guardrail, each exactly where it had a say and nothing
  // after it moved the request; a canary where it took over what had been chosen; the defaults otherwise.
  lemma DecisionIff(s: Setup, req: Request, w: World)
    requires ResolveRoute(s, req, w).Routed?
    ensures var r := ResolveRoute(s, req, w); var target := Target(r.served.provider, r.served.model);
      && (r.decision == Explicit <==> req.pin != NoModel && Kept(s, req, req.pin))
      && (r.decision == Rule <==> RuleDecides(s, req, w))
      && (r.decision == Rule ==> target == w.route.value.target)
      && (r.decision == Ai <==> PolicyDecides(s, req, w))
      && (r.decision == Ai ==> target == w.policy.value)
      && (r.decision == Auto <==> GuardrailDecides(s, req, w))
      && (r.decision == Auto ==> target == w.auto(BaseChoice(s, req)).value)
      && (r.decision == Canary <==>
            req.pin == NoModel && Diversion(s, w, r.first).Some? && Kept(s, req, Diversion(s, w, r.first).value.model))
      && (r.decision == Canary ==> target == Diversion(s, w, r.first).value)
      && (r.decision == Passthrough <==> r.decision !in {Explicit, Rule, Ai, Auto, Canary})
  {
    hide BaseChoice, AliasFor, NoteFor, VisionCapable, KeyDefault, ResolveDefault, Diversion;
  }

  // Where a request without a pin starts. The key's own default counts where it is registered with a
  // connected provider. Otherwise the hinted provider serves if it is connected, else the default one:
  // the default provider with the configured model before its built-in one, any other the other way round.
  lemma BaseInFields(s: Setup, req: Request)
    ensures var key, default := req.keyDefault, ResolveDefault(s, req);
      var hinted := req.hint.Some? && req.hint.value in s.live;
      var builtin := if default.provider in s.builtin then s.builtin[default.provider] else NoModel;
      && (key != NoModel && key in s.registry && s.registry[key].provider in s.live <==> KeyDefault(s, req).Some?)
      && (KeyDefault(s, req).Some? ==>
            BaseChoice(s, req) == Target(s.registry[key].provider, key) == KeyDefault(s, req).value)
      && (KeyDefault(s, req).None? ==> BaseChoice(s, req) == default)
      && (hinted ==> default.provider == req.hint.value) && (!hinted ==> default.provider == s.defaultProvider)
      && (default.provider == s.defaultProvider && s.defaultModel != NoModel ==> default.model == s.defaultModel)
      && (default.provider == s.defaultProvider && s.defaultModel == NoModel ==> default.model == builtin)
      && (default.provider != s.defaultProvider && builtin != NoModel ==> default.model == builtin)
      && (default.provider != s.defaultProvider && builtin == NoModel ==> default.model == s.defaultModel)
  {
  }

  // The model chosen first: the pin, or the rule's, or the policy's on a connected provider, or the
  // guardrail's, or that of the defaults.
  lemma FirstInFields(s: Setup, req: Request, w: World)
    requires ResolveRoute(s, req, w).Routed?
    ensures var first, base := ResolveRoute(s, req, w).first, BaseChoice(s, req);
      var ai := w.mode == AiPolicy && w.policy.Some? && w.policy.value.provider in s.live;
      var auto := w.mode == Guardrail && w.auto(base).Some?;
      && (req.pin != NoModel ==> first == req.pin)
      && (req.pin == NoModel && w.route.Some? ==> first == w.route.value.target.model)
      && (req.pin == NoModel && w.route.None? && ai ==> first == w.policy.value.model)
      && (req.pin == NoModel && w.route.None? && auto ==> first == w.auto(base).value.model)
      && (req.pin == NoModel && w.route.None? && !ai && !auto ==> first == base.model)
  {
    hide BaseChoice, AliasFor, NoteFor, VisionCapable, KeyDefault, ResolveDefault, Diversion;
  }

  // A canary takes a model over exactly where its candidate's provider is connected: the one the candidate
  // is registered with, or for an unregistered candidate the one the experiment stored.
  lemma DivertedIff(s: Setup, w: World, m: Model, t: Target)
    ensures Diversion(s, w, m) == Some(t) <==>
      && w.canary(m).Some? && t.model == w.canary(m).value.toModel && t.provider in s.live
      && if t.model != NoModel && t.model in s.registry then t.provider == s.registry[t.model].provider
         else w.canary(m).value.candidateProvider == Some(t.provider)
  {
  }

  // The whole trail of a route, and where it lands: each move is recorded exactly where it happened.
  lemma RouteInFields(s: Setup, req: Request, w: World)
    requires ResolveRoute(s, req, w).Routed?
    ensures var r := ResolveRoute(s, req, w); var target := Target(r.served.provider, r.served.model);
      var diverted := if req.pin == NoModel then Diversion(s, w, r.first) else None;
      var chosen := if diverted.Some? then diverted.value.model else r.first;
      var barred := req.allowed != [] && chosen !in req.allowed;
      var kept, default := if barred then req.keyDefault else chosen, ResolveDefault(s, req);
      var opted := kept in req.optOut && default.model !in req.optOut;
      && r.trail == (if diverted.Some? then [Move(Diverted, r.first, chosen)] else [])
                    + (if barred then [Move(AllowedSet, chosen, req.keyDefault)] else [])
                    + (if opted then [Move(OptedOut, kept, default.model)] else [])
      && (opted ==> target == default)
      && (!opted && barred ==>
            && req.keyDefault in s.registry && target == Target(s.registry[req.keyDefault].provider, req.keyDefault)
            && target.provider in s.live)
      && (!opted && !barred && diverted.Some? ==> target == diverted.value)
      && (!opted && !barred && diverted.None? ==> target.model == r.first)
      && (!opted && !barred && req.pin != NoModel ==>
            target.provider == if req.hint.Some? then req.hint.value else s.registry[req.pin].provider)
      && r.violation == if req.allowed != [] && target.model !in req.allowed then Some(target.model) else None
  {
    hide AliasFor, NoteFor, VisionCapable, ResolveDefault, Diversion, FirstChoice;
    if req.pin == NoModel {
      FirstIsBare(s, req, w);
    }
  }

  // Every refusal has its one reason.
  lemma RefusedIff(s: Setup, req: Request, w: World)
    ensures var r := ResolveRoute(s, req, w);
      var asked := req.hint.Some? || req.pin in s.registry;
      var provider := if req.hint.Some? then req.hint.value
                      else if req.pin in s.registry then s.registry[req.pin].provider else s.defaultProvider;
      var resolves := req.pin == NoModel || (asked && provider in s.live);
      var chosen, settled := ChosenModel(s, req, w), AllowedModel(s, req, w);
      var barred := req.allowed != [] && chosen !in req.allowed && KeyDefault(s, req).None?;
      var last := if OptsOut(s, req, settled) then ResolveDefault(s, req).model else settled;
      && (r == Refused(NoSuchModel) <==> req.pin != NoModel && !asked)
      && (r == Refused(ProviderOff(provider)) <==> req.pin != NoModel && asked && provider !in s.live)
      && (r == Refused(ModelNotAllowed) <==> resolves && barred)
      && (r == Refused(NoVision(last)) <==>
            && resolves && !barred && req.pin == NoModel && req.image
            && !(last != NoModel && last in s.registry && s.registry[last].vision))
      && (r.Routed? <==> r !in {Refused(NoSuchModel), Refused(ProviderOff(provider)), Refused(ModelNotAllowed),
                               Refused(NoVision(last))})
  {
    hide AliasFor, NoteFor, ResolveDefault, KeyDefault, Diversion, FirstChoice;
  }

  // Which key serves the route: the rule's pin where the rule decided, else the application's pin for that
  // provider, each where the provider holds that key; its default key otherwise, noted as fallen back.
  lemma KeyInFields(s: Setup, req: Request, w: World)
    requires ResolveRoute(s, req, w).Routed?
    ensures var r := ResolveRoute(s, req, w); var p := r.served.provider;
      var rules := r.decision == Rule && w.route.Some? && w.route.value.alias.Some?;
      && (r.note.None? <==> !rules && p !in req.pins)
      && (r.note.Some? ==>
            && r.note.value.requested == (if rules then w.route.value.alias.value else req.pins[p])
            && r.note.value.used == r.served.alias && r.note.value.byRule == rules)
      && (p !in s.eff ==> r.served.alias == None && (r.note.Some? ==> !r.note.value.fellBack))
      && (p in s.eff && r.note.None? ==> r.served.alias == s.eff[p].defaultAlias)
      && (p in s.eff && r.note.Some? ==>
            && (r.note.value.fellBack <==> r.note.value.requested !in s.eff[p].credentials)
            && r.served.alias == if r.note.value.fellBack then s.eff[p].defaultAlias
                                 else Some(r.note.value.requested))
  {
    hide KeyDefault, ResolveDefault, Diversion, VisionCapable, BaseChoice;
  }

  // The route settles on a connected provider, with one exception: where the guardrail decides, it goes
  // to the provider its base model is registered with, connected or not.
  lemma RouteConnectedIff(s: Setup, req: Request, w: World)
    requires Sound(s) && Connects(s, w) && ResolveRoute(s, req, w).Routed?
    ensures ResolveRoute(s, req, w).served.provider !in s.live <==>
      GuardrailDecides(s, req, w) && s.registry[BaseChoice(s, req).model].provider !in s.live
  {
    hide AliasFor, NoteFor, VisionCapable, Outside, KeyDefault, ResolveDefault, FirstChoice, Diversion;
    hide GuardrailDecides, BaseChoice;
    AutoIff(s, req, w);
    DefaultsConnected(s, req);
    FirstConnected(s, req, w);
    var first := FirstChoice(s, req, w);
    if Diversion(s, w, first.target.model).Some? {
      DiversionConnected(s, w, first.target.model);
    }
  }

  // The default model of the one connected provider is registered with another, and the guardrail is on.
  function Misfiled(key: Secret): Setup {
    Setup(map[ProviderId("groq") := CustomEntry(key)], [ProviderId("groq")], ProviderId("groq"), Named("gpt-4o"),
          map[Named("gpt-4o") := Info(ProviderId("openai"), true, true)], map[], map[], PrimaryOnly)
  }

  function GuardedWorld(): World {
    QuietWorld().(mode := Guardrail, auto := (t: Target) =>
      if t.model == Named("gpt-4o") then Some(Target(ProviderId("openai"), Named("gpt-4o-mini"))) else None)
  }

  // A request that asks for nothing in particular is routed to the provider that is not connected.
  lemma GuardrailCanDisconnect(key: Secret)
    ensures Sound(Misfiled(key)) && Connects(Misfiled(key), GuardedWorld())
    ensures var r := ResolveRoute(Misfiled(key), Request(NoModel, None, false, [], NoModel, [], map[]), GuardedWorld());
      r.Routed? && r.served == Served(ProviderId("openai"), Named("gpt-4o-mini"), None)
      && r.served.provider !in Misfiled(key).live
  {
    var s, req, w := Misfiled(key), Request(NoModel, None, false, [], NoModel, [], map[]), GuardedWorld();
    assert BaseChoice(s, req) == Target(ProviderId("groq"), Named("gpt-4o"));
    assert FirstChoice(s, req, w) == Trip(Target(ProviderId("openai"), Named("gpt-4o-mini")), Auto, []);
  }

  lemma DefaultsConnected(s: Setup, req: Request)
    requires Sound(s)
    ensures ResolveDefault(s, req).provider in s.live
    ensures KeyDefault(s, req).Some? ==> KeyDefault(s, req).value.provider in s.live
  {
  }

  lemma FirstConnected(s: Setup, req: Request, w: World)
    requires Sound(s) && Connects(s, w)
    ensures var first := FirstChoice(s, req, w);
      && (first.decision != Auto ==> first.target.provider in s.live)
      && (first.decision == Auto ==>
            && BaseChoice(s, req).model in s.registry
            && first.target.provider == s.registry[BaseChoice(s, req).model].provider)
  {
    hide KeyDefault, ResolveDefault;
    DefaultsConnected(s, req);
  }

  lemma DiversionConnected(s: Setup, w: World, model: Model)
    requires Diversion(s, w, model).Some?
    ensures Diversion(s, w, model).value.provider in s.live
  {
  }

  // A breached cap moves the request exactly where the light model of its model's own provider is another
  // one that passes the checks.
  lemma DowngradeIff(s: Setup, req: Request, w: World, served: Served, t: Target)
    ensures DowngradeOf(s, req, w, served) == Some(t) <==>
      && w.enforcement(served) == Downgrade
      && served.model != NoModel && served.model in s.registry && t.provider == s.registry[served.model].provider
      && t.provider in s.light && t.model == s.light[t.provider] && t.model != served.model
      && (req.allowed == [] || t.model in req.allowed) && t.model !in req.optOut
      && (req.image ==> t.model != NoModel && t.model in s.registry && s.registry[t.model].vision)
  {
  }

  // The key of a downgraded request: the one it had while it stays with the provider; on another provider
  // the application's pin there, where it is one of that provider's keys, or that provider's default.
  lemma DowngradeKeepsKey(s: Setup, req: Request, w: World)
    requires ResolveRoute(s, req, w).Routed?
    ensures var served := ResolveRoute(s, req, w).served; var b := Bound(s, req, w);
      var moved, p := DowngradeOf(s, req, w, served), b.provider;
      var pinned := p in s.eff && p in req.pins && req.pins[p] in s.eff[p].credentials;
      && (moved.None? ==> b == served)
      && (moved.Some? ==>
            && Target(p, b.model) == moved.value
            && (p == served.provider ==> b.alias == served.alias)
            && (p != served.provider && pinned ==> b.alias == Some(req.pins[p]))
            && (p != served.provider && !pinned && p in s.eff ==> b.alias == s.eff[p].defaultAlias)
            && (p !in s.eff && p != served.provider ==> b.alias == None))
  {
    hide ResolveRoute, DowngradeOf, NoteFor;
  }

  // And so does the note of the pinned key.
  lemma DowngradeKeepsNote(s: Setup, req: Request, w: World)
    requires ResolveRoute(s, req, w).Routed?
    ensures var r, note := ResolveRoute(s, req, w), Serve(s, req, w).note;
      var moved, p := DowngradeOf(s, req, w, r.served), Bound(s, req, w).provider;
      && (moved.None? || p == r.served.provider ==> note == r.note)
      && (moved.Some? && p != r.served.provider ==>
            && (note.Some? <==> p in req.pins)
            && (note.Some? ==>
                  note == Some(PinNote(req.pins[p], Bound(s, req, w).alias, false,
                                       p in s.eff && req.pins[p] !in s.eff[p].credentials))))
  {
    hide ResolveRoute, DowngradeOf, Candidates, FirstSuccess, CallsFor;
    var served := ResolveRoute(s, req, w).served;
    if DowngradeOf(s, req, w, served).Some? {
      DowngradeIff(s, req, w, served, DowngradeOf(s, req, w, served).value);
    }
  }

  // What a request comes to: refused with its route, stopped by a block cap, answered from the cache, or
  // handed to the providers.
  lemma ReplyIff(s: Setup, req: Request, w: World)
    ensures var reply, r := Serve(s, req, w).reply, ResolveRoute(s, req, w);
      && (reply.Turned? <==> r.Refused?) && (reply.Turned? ==> r == Refused(reply.why))
      && (reply == OverBudget <==> r.Routed? && w.enforcement(r.served) == Block)
      && (reply.FromCache? ==> r.Routed? && w.cached(Bound(s, req, w)) == Some(reply.target))
      && (r.Routed? && w.enforcement(r.served) != Block && w.cached(Bound(s, req, w)).Some? ==>
            CallsMade(reply) == [] && (reply.FromCache? <==> !w.withholds(w.cached(Bound(s, req, w)).value))
            && (reply.Withheld? <==> w.withholds(w.cached(Bound(s, req, w)).value)))
      && (reply == OverBudget ==> Serve(s, req, w).trail == r.trail + [BlockedByBudget])
  {
    hide ResolveRoute, DowngradeOf, AliasFor, NoteFor, Candidates, FirstSuccess, CallsFor;
  }

  // A downgrade does not check that: it moves to the provider the model is registered with, which an
  // explicit provider hint may have overridden. The request stays connected exactly when that one is.
  lemma DowngradeConnectedIff(s: Setup, req: Request, w: World)
    requires ResolveRoute(s, req, w).Routed? && ResolveRoute(s, req, w).served.provider in s.live
    ensures var served := ResolveRoute(s, req, w).served;
      Bound(s, req, w).provider in s.live <==>
        (DowngradeOf(s, req, w, served).None? || s.registry[served.model].provider in s.live)
  {
    hide ResolveRoute, AliasFor, NoteFor;
  }

  // A deployment with one connected provider, serving by pass-through a model that the registry files
  // under another one, which is not connected.
  function LoneProvider(key: Secret): Setup {
    Setup(map[ProviderId("groq") := CustomEntry(key)], [ProviderId("groq")], ProviderId("groq"), NoModel,
          map[Named("gpt-4o") := Info(ProviderId("openai"), true, true)], map[],
          map[ProviderId("openai") := Named("gpt-4o-mini")], PrimaryOnly)
  }

  function PassThrough(): Request {
    Request(Named("gpt-4o"), Some(ProviderId("groq")), false, [], NoModel, [], map[])
  }

  function OverBudgetWorld(): World {
    World(Off, None, None, (t: Target) => None, (m: Model) => None, (v: Served) => Downgrade, (k: nat) => true,
          (v: Served) => None, (t: Target) => false)
  }

  lemma PassThroughRoute(key: Secret)
    ensures Sound(LoneProvider(key))
    ensures ResolveRoute(LoneProvider(key), PassThrough(), OverBudgetWorld())
      == Routed(Served(ProviderId("groq"), Named("gpt-4o"), Some(PLAIN)), Explicit, Named("gpt-4o"), [], None, None)
  {
  }

  lemma PassThroughDowngrade(key: Secret)
    ensures var served := Served(ProviderId("groq"), Named("gpt-4o"), Some(PLAIN));
      DowngradeOf(LoneProvider(key), PassThrough(), OverBudgetWorld(), served)
      == Some(Target(ProviderId("openai"), Named("gpt-4o-mini")))
    ensures AliasFor(LoneProvider(key), PassThrough(), ProviderId("openai"), None) == None
  {
  }

  // A request pinned to a connected provider and downgraded to one that is not: its one call fails.
  lemma DowngradeCanDisconnect(key: Secret)
    ensures ResolveRoute(LoneProvider(key), PassThrough(), OverBudgetWorld()).Routed?
    ensures ResolveRoute(LoneProvider(key), PassThrough(), OverBudgetWorld()).served.provider in LoneProvider(key).live
    ensures Serve(LoneProvider(key), PassThrough(), OverBudgetWorld()).reply
      == AllFailed([Call(Target(ProviderId("openai"), Named("gpt-4o-mini")), None)])
  {
    hide ResolveRoute, DowngradeOf, AliasFor, NoteFor;
    var s, req, w := LoneProvider(key), PassThrough(), OverBudgetWorld();
    PassThroughRoute(key);
    PassThroughDowngrade(key);
    assert Candidates(s, req, Bound(s, req, w)) == [Target(ProviderId("openai"), Named("gpt-4o-mini"))];
  }

  // ---- As written: the request object moves through the stages ----------------------------------

  method PickAlias(s: Setup, req: Request, provider: ProviderId, rulePin: Option<Alias>, explain: Explain)
    returns (alias: Option<Alias>)
    modifies explain`credential
    ensures alias == AliasFor(s, req, provider, rulePin) && explain.credential == NoteFor(s, req, provider, rulePin)
  {
    var appPin := if provider in req.pins then Some(req.pins[provider]) else None;
    var pinned := if rulePin.Some? then rulePin else appPin;
    var resolved := CredentialFor(s.eff, provider, pinned);
    alias := if resolved.Some? then resolved.value.alias else None;
    if pinned.Some? {
      explain.credential := Some(PinNote(pinned.value, alias, rulePin.Some?,
                                         resolved.Some? && resolved.value.fellBack));
    } else {
      explain.credential := None;
    }
  }

  method ApplyGovernance(s: Setup, req: Request, w: World, first: Model, explicit: bool, t: Trip, explain: Explain)
    returns (r: Routing)
    requires explain.Tidy() && explain.overrides == t.trail && explain.violation == None
    modifies explain
    ensures r == Govern(s, req, w, first, explicit, t) && explain.Tidy()
    ensures r.Routed? ==>
      explain.overrides == r.trail && explain.violation == r.violation && explain.credential == r.note
  {
    hide KeyDefault, ResolveDefault, VisionCapable, AliasFor, NoteFor, RulePin;
    var served, decision := t.target, t.decision;
    if req.allowed != [] && served.model !in req.allowed {
      var fallback := KeyDefault(s, req);
      if fallback.None? {
        return Refused(ModelNotAllowed);
      }
      explain.PushOverride(Move(AllowedSet, served.model, fallback.value.model));
      served, decision := fallback.value, Passthrough;
    }
    ghost var a := AfterAllowed(s, req, t).value;
    assert a == Trip(served, decision, explain.overrides);
    if served.model in req.optOut {
      var fallback := ResolveDefault(s, req);
      if fallback.model !in req.optOut {
        explain.PushOverride(Move(OptedOut, served.model, fallback.model));
        served, decision := fallback, Passthrough;
      }
    }
    ghost var o := AfterOptOut(s, req, a);
    assert o == Trip(served, decision, explain.overrides);
    assert Govern(s, req, w, first, explicit, t) == Settle(s, req, w, first, explicit, o);
    hide Govern, AfterAllowed, AfterOptOut;
    if req.allowed != [] && served.model !in req.allowed {
      explain.violation := Some(served.model);
    }
    if !explicit && req.image && !VisionCapable(s, served.model) {
      return Refused(NoVision(served.model));
    }
    var rulePin := RulePin(w, Trip(served, decision, explain.overrides));
    var alias := PickAlias(s, req, served.provider, rulePin, explain);
    r := Routed(Served(served.provider, served.model, alias), decision, first, explain.overrides, explain.violation,
                explain.credential);
  }

  method Resolve(s: Setup, req: Request, w: World, explain: Explain) returns (r: Routing)
    requires explain.Tidy() && explain.overrides == [] && explain.violation == None
    modifies explain
    ensures r == ResolveRoute(s, req, w) && explain.Tidy()
    ensures r.Routed? ==>
      explain.overrides == r.trail && explain.violation == r.violation && explain.credential == r.note
  {
    hide Govern, KeyDefault, ResolveDefault, Diversion;
    var pin := ResolveExplicit(s, req);
    if pin.UnknownModel? {
      return Refused(NoSuchModel);
    }
    if pin.NotConnected? {
      return Refused(ProviderOff(pin.provider));
    }
    var explicit := pin.Pinned?;
    var served, decision;
    if explicit {
      served, decision := pin.target, Explicit;
    } else {
      served, decision := ResolveDefault(s, req), Passthrough;
      var own := KeyDefault(s, req);
      if own.Some? {
        served := own.value;
      }
      if w.route.Some? {
        served, decision := w.route.value.target, Rule;
      } else if w.mode == AiPolicy {
        if w.policy.Some? && w.policy.value.provider in s.live {
          served, decision := w.policy.value, Ai;
        }
      } else if w.mode == Guardrail {
        var auto := w.auto(served);
        if auto.Some? {
          served, decision := auto.value, Auto;
        }
      }
    }
    ghost var start := Trip(served, decision, []);
    assert !explicit ==> start == FirstChoice(s, req, w);
    var first := served.model;
    if !explicit {
      var diverted := Diversion(s, w, served.model);
      if diverted.Some? {
        explain.PushOverride(Move(Diverted, served.model, diverted.value.model));
        served, decision := diverted.value, Canary;
      }
    }
    assert Trip(served, decision, explain.overrides) == if explicit then start else AfterCanary(s, w, start);
    r := ApplyGovernance(s, req, w, first, explicit, Trip(served, decision, explain.overrides), explain);
  }

  method InvokeWithFallback(s: Setup, req: Request, w: World, served: Served)
    returns (hit: Option<nat>, calls: seq<Call>)
    ensures var order := Candidates(s, req, served); var k := FirstSuccess(s, w, served, order, 0);
      && hit == (if k < |order| then Some(k) else None)
      && calls == CallsFor(s, served, if k < |order| then order[..k + 1] else order)
  {
    hide Candidates, CallOf, FirstSuccess;
    var order := Candidates(s, req, served);
    calls := [];
    for i := 0 to |order|
      invariant calls == CallsFor(s, served, order[..i])
      invariant FirstSuccess(s, w, served, order, 0) == FirstSuccess(s, w, served, order, i)
    {
      var call := CallOf(s, served, order[i]);
      Attempted(s, w, served, order, i);
      calls := calls + [call];
      if call.key.Some? && w.answers(i) {
        return Some(i), calls;
      }
    }
    NoneLeft(s, w, served, order);
    assert order[..|order|] == order;
    hit := None;
  }

  lemma Attempted(s: Setup, w: World, served: Served, order: seq<Target>, i: nat)
    requires i < |order|
    ensures FirstSuccess(s, w, served, order, i) ==
      if Succeeds(s, w, served, order, i) then i else FirstSuccess(s, w, served, order, i + 1)
    ensures CallsFor(s, served, order[..i + 1]) == CallsFor(s, served, order[..i]) + [CallOf(s, served, order[i])]
  {
    assert order[..i + 1][..i] == order[..i];
  }

  lemma NoneLeft(s: Setup, w: World, served: Served, order: seq<Target>)
    ensures FirstSuccess(s, w, served, order, |order|) == |order|
  {
  }

  // From the cache to the response, once the served model is settled.
  method AnswerChat(s: Setup, req: Request, w: World, explain: Explain, served: Served, decided: Decision,
                    ghost r: Routing)
    returns (reply: Reply)
    requires explain.Tidy()
    requires r.Routed? && r.served == served && r.decision == decided
    requires explain.overrides == r.trail && explain.violation == r.violation && explain.credential == r.note
    modifies explain`overrides, explain`last
    ensures reply == Answer(s, req, w, r).reply && explain.Tidy()
    ensures explain.overrides == Answer(s, req, w, r).trail
    ensures explain.violation == Answer(s, req, w, r).violation && explain.credential == Answer(s, req, w, r).note
  {
    hide Candidates, FirstSuccess, CallsFor;
    var hit := w.cached(served);
    if hit.Some? {
      return if w.withholds(hit.value) then Withheld([]) else FromCache(hit.value);
    }
    var at, calls := InvokeWithFallback(s, req, w, served);
    if at.None? {
      return AllFailed(calls);
    }
    var decision := decided;
    var result := Candidates(s, req, served)[at.value];
    if at.value > 0 {
      decision := Fallback;
      explain.PushOverride(Move(FellBack, served.model, result.model));
    }
    if w.withholds(result) {
      return Withheld(calls);
    }
    reply := Delivered(result, decision, if result.provider == served.provider then served.alias else None, calls);
  }

  method HandleChat(s: Setup, req: Request, w: World, explain: Explain) returns (reply: Reply)
    requires explain.Tidy() && explain.overrides == [] && explain.violation == None
    modifies explain
    ensures reply == Serve(s, req, w).reply && explain.Tidy()
    ensures !reply.Turned? ==>
      && explain.overrides == Serve(s, req, w).trail
      && explain.violation == Serve(s, req, w).violation
      && explain.credential == Serve(s, req, w).note
  {
    hide ResolveRoute, SuggestLightTarget, CheckModel, AliasFor, NoteFor, Candidates, FirstSuccess, CallsFor;
    var r := Resolve(s, req, w, explain);
    if r.Refused? {
      return Turned(r.why);
    }
    var served, decision := r.served, r.decision;
    var verdict := w.enforcement(served);
    if verdict == Block {
      explain.PushOverride(BlockedByBudget);
      return OverBudget;
    }
    if verdict == Downgrade {
      var target := SuggestLightTarget(s, served.model);
      if target.Some? && CheckModel(s, req, target.value.model, false) {
        explain.PushOverride(Move(Downgraded, served.model, target.value.model));
        var prevProvider, alias := served.provider, served.alias;
        if target.value.provider != prevProvider {
          alias := PickAlias(s, req, target.value.provider, None, explain);
        }
        served := Served(target.value.provider, target.value.model, alias);
        decision := Budget;
      }
    }
    ghost var b := AfterBudget(s, req, r, DowngradeOf(s, req, w, r.served));
    assert b == Routed(served, decision, r.first, explain.overrides, explain.violation, explain.credential);
    assert Serve(s, req, w) == Answer(s, req, w, b);
    hide ResolveRoute, Serve, AfterBudget, DowngradeOf, Answer;
    reply := AnswerChat(s, req, w, explain, served, decision, b);
  }
}
