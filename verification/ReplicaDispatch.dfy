// server/src/gateway/openaiCompat.js, proxyOpenAICompat: the failover loop that many requests run
// at once over the shared replica pool. One Action is one stretch between two awaits of one
// request; probes, fetches and the client's connection are free to turn out either way.
module ReplicaDispatch {
  import opened Options
  import opened Seqs
  import opened Providers
  import opened ReplicaPool

  type RequestId = nat

  datatype Phase =
    | Probing                    // awaiting reachable(candidates[at])
    | Fetching                   // slot acquired, awaiting the upstream's headers
    | Cancelling                 // retryable answer, awaiting body.cancel(); the slot is still held
    | Serving(status: nat, released: bool, reported: bool)  // the answer is being relayed
    | Exhausted                  // 503 or 502: no member's answer could be relayed

  // `failed` lists the members this request reported as failed before any answer was relayed;
  // acquired and returned count its calls of acquire() and release().
  datatype Request = Request(candidates: seq<ProviderId>, pooled: bool, at: nat, phase: Phase,
                             failed: seq<ProviderId>, acquired: nat, returned: nat)

  datatype Gateway = Gateway(pool: Pool, requests: map<RequestId, Request>)

  datatype Action =
    | Arrive(r: RequestId, provider: ProviderId, eff: Effective, now: nat)
    | Probe(r: RequestId, ok: bool, now: nat)
    | FetchFails(r: RequestId, now: nat)
    | FetchAnswers(r: RequestId, status: nat, now: nat)
    | CancelSettles(r: RequestId, now: nat)
    | ResponseEnds(r: RequestId, now: nat)            // "finish" or "close"
    | Judge(r: RequestId, good: bool, now: nat)       // body read: the member's health is reported

  predicate Retryable(status: nat) {
    status == 429 || status >= 500
  }

  predicate UpstreamOk(status: nat) {
    200 <= status < 300
  }

  function Current(q: Request): ProviderId
    requires q.at < |q.candidates|
  {
    q.candidates[q.at]
  }

  predicate Holds(q: Request, id: ProviderId) {
    q.at < |q.candidates| && Current(q) == id &&
    (q.phase.Fetching? || q.phase.Cancelling? || (q.phase.Serving? && !q.phase.released))
  }

  predicate Enabled(g: Gateway, a: Action) {
    if a.Arrive? then a.r !in g.requests
    else
      a.r in g.requests && g.requests[a.r].at < |g.requests[a.r].candidates| &&
      var phase := g.requests[a.r].phase;
      match a
      case Probe(_, _, _) => phase.Probing?
      case FetchFails(_, _) => phase.Fetching?
      case FetchAnswers(_, _, _) => phase.Fetching?
      case CancelSettles(_, _) => phase.Cancelling?
      case ResponseEnds(_, _) => phase.Serving?
      case Judge(_, _, _) => phase.Serving? && !phase.reported
  }

  // What can happen next: a request arrives under a new id, and each await of one under way comes to an end.
  lemma EnabledIff(g: Gateway, r: RequestId, now: nat)
    ensures forall provider, eff :: Enabled(g, Arrive(r, provider, eff, now)) <==> r !in g.requests
    ensures r in g.requests && g.requests[r].at < |g.requests[r].candidates| ==>
      var phase := g.requests[r].phase;
      && (forall ok :: Enabled(g, Probe(r, ok, now)) <==> phase == Probing)
      && (Enabled(g, FetchFails(r, now)) <==> phase == Fetching)
      && (forall status :: Enabled(g, FetchAnswers(r, status, now)) <==> phase == Fetching)
      && (Enabled(g, CancelSettles(r, now)) <==> phase == Cancelling)
      && (Enabled(g, ResponseEnds(r, now)) <==> phase.Serving?)
      && (forall good :: Enabled(g, Judge(r, good, now)) <==> phase.Serving? && !phase.reported)
  {
  }

  // Proceed to candidate `at`: probe it first when pooled, otherwise acquire and fetch at once.
  function Proceed(g: Gateway, r: RequestId, q: Request, now: nat, c: Config): Gateway {
    if q.at >= |q.candidates| then g.(requests := g.requests[r := q.(phase := Exhausted)])
    else if q.pooled then g.(requests := g.requests[r := q.(phase := Probing)])
    else Take(g, r, q, now, c)
  }

  function Take(g: Gateway, r: RequestId, q: Request, now: nat, c: Config): Gateway
    requires q.at < |q.candidates|
  {
    Gateway(Apply(g.pool, Acquired(Current(q), now), c),
            g.requests[r := q.(phase := Fetching, acquired := q.acquired + 1)])
  }

  function GiveBack(g: Gateway, q: Request, now: nat, c: Config): Gateway
    requires q.at < |q.candidates|
  {
    g.(pool := Apply(g.pool, Released(Current(q), now), c))
  }

  // reportFailure(member) and `continue`.
  function MoveOn(g: Gateway, r: RequestId, q: Request, now: nat, c: Config): Gateway
    requires q.at < |q.candidates|
  {
    Proceed(g.(pool := Apply(g.pool, Failed(Current(q), now), c)), r,
         q.(at := q.at + 1, failed := q.failed + [Current(q)]), now, c)
  }

  function Step(g: Gateway, a: Action, c: Config): Gateway
    requires Enabled(g, a)
  {
    match a
    case Arrive(r, provider, eff, now) =>
      var candidates := Order(g.pool, provider, eff, now, c);
      var pooled := |Members(provider, eff)| > 1;
      Proceed(g.(pool := Apply(g.pool, Ordered(provider, eff, now), c)), r,
           Request(candidates, pooled, 0, Probing, [], 0, 0), now, c)
    case Probe(r, ok, now) =>
      if ok then Take(g, r, g.requests[r], now, c) else MoveOn(g, r, g.requests[r], now, c)
    case FetchFails(r, now) =>
      var q := g.requests[r];
      MoveOn(GiveBack(g, q, now, c), r, q.(returned := q.returned + 1), now, c)
    case FetchAnswers(r, status, now) =>
      var q := g.requests[r];
      if q.at < |q.candidates| - 1 && Retryable(status)
      then g.(requests := g.requests[r := q.(phase := Cancelling)])
      else g.(requests := g.requests[r := q.(phase := Serving(status, false, false))])
    case CancelSettles(r, now) =>
      var q := g.requests[r];
      MoveOn(GiveBack(g, q, now, c), r, q.(returned := q.returned + 1), now, c)
    case ResponseEnds(r, now) =>
      var q := g.requests[r];
      if q.phase.released then g
      else
        GiveBack(g, q, now, c)
          .(requests := g.requests[r := q.(phase := q.phase.(released := true), returned := q.returned + 1)])
    case Judge(r, good, now) =>
      var q := g.requests[r];
      var pool :=
        if good && UpstreamOk(q.phase.status) then Apply(g.pool, Succeeded(Current(q), now), c)
        else if UpstreamOk(q.phase.status) || Retryable(q.phase.status) then Apply(g.pool, Failed(Current(q), now), c)
        else g.pool;
      Gateway(pool, g.requests[r := q.(phase := q.phase.(reported := true))])
  }

  // ---- Slot accounting -----------------------------------------------------------------------

  ghost function Holders(requests: map<RequestId, Request>, id: ProviderId): set<RequestId> {
    set r | r in requests && Holds(requests[r], id)
  }

  ghost predicate SlotsCounted(g: Gateway) {
    forall id :: At(g.pool.board, id).inFlight == |Holders(g.requests, id)|
  }

  // One request's own books: calls of acquire and release, and whom it gave up on.
  predicate BooksBalance(q: Request) {
    && q.acquired == q.returned + (if q.at < |q.candidates| && Holds(q, Current(q)) then 1 else 0)
    && q.at <= |q.candidates|
    && q.failed == q.candidates[..q.at]
    && (q.phase.Exhausted? <==> q.at == |q.candidates|)
    && (q.phase.Serving? && Retryable(q.phase.status) ==> q.at == |q.candidates| - 1)
  }

  ghost predicate Inv(g: Gateway) {
    && SlotsCounted(g)
    && forall r :: r in g.requests ==> BooksBalance(g.requests[r])
  }

  ghost function OtherHolders(requests: map<RequestId, Request>, r: RequestId, id: ProviderId): set<RequestId> {
    set o | o in requests && o != r && Holds(requests[o], id)
  }

  lemma HoldersSplit(requests: map<RequestId, Request>, r: RequestId, id: ProviderId)
    ensures |Holders(requests, id)| ==
      |OtherHolders(requests, r, id)| + if r in requests && Holds(requests[r], id) then 1 else 0
  {
    if r in requests && Holds(requests[r], id) {
      assert Holders(requests, id) == OtherHolders(requests, r, id) + {r};
    } else {
      assert Holders(requests, id) == OtherHolders(requests, r, id);
    }
  }

  // Changing one request changes a member's holders by that request alone.
  lemma HoldersUpdate(requests: map<RequestId, Request>, r: RequestId, q: Request, id: ProviderId)
    ensures |Holders(requests[r := q], id)| ==
      |Holders(requests, id)| - (if r in requests && Holds(requests[r], id) then 1 else 0)
      + (if Holds(q, id) then 1 else 0)
  {
    HoldersSplit(requests, r, id);
    HoldersSplit(requests[r := q], r, id);
    assert OtherHolders(requests[r := q], r, id) == OtherHolders(requests, r, id);
  }

  function HeldBy(g: Gateway, r: RequestId, id: ProviderId): nat {
    if r in g.requests && Holds(g.requests[r], id) then 1 else 0
  }

  // The books stay right when the pool's count of each member moves with the request's own hold.
  lemma KeepsInv(g: Gateway, g': Gateway, r: RequestId)
    requires Inv(g) && r in g'.requests && g'.requests == g.requests[r := g'.requests[r]]
    requires BooksBalance(g'.requests[r])
    requires forall id ::
      At(g'.pool.board, id).inFlight == At(g.pool.board, id).inFlight - HeldBy(g, r, id) + HeldBy(g', r, id)
    ensures Inv(g')
  {
    forall id ensures At(g'.pool.board, id).inFlight == |Holders(g'.requests, id)| {
      HoldersUpdate(g.requests, r, g'.requests[r], id);
    }
  }

  lemma HolderCounted(g: Gateway, r: RequestId, id: ProviderId)
    requires SlotsCounted(g) && r in g.requests && Holds(g.requests[r], id)
    ensures At(g.pool.board, id).inFlight >= 1
  {
    assert r in Holders(g.requests, id);
    if |Holders(g.requests, id)| == 0 { assert false; }
  }

  ghost predicate SameLoad(p: Pool, q: Pool) {
    forall id :: At(p.board, id).inFlight == At(q.board, id).inFlight
  }

  lemma OrderKeepsLoad(p: Pool, provider: ProviderId, eff: Effective, now: nat, c: Config)
    ensures SameLoad(p, Apply(p, Ordered(provider, eff, now), c))
  {
    hide Live, Claim;
  }

  // The load change of Proceed and MoveOn, seen from a pool in which the request holds nothing.
  lemma TurnEffect(g: Gateway, r: RequestId, q: Request, now: nat, c: Config)
    requires q.at <= |q.candidates| && q.acquired == q.returned && q.failed == q.candidates[..q.at]
    ensures var g' := Proceed(g, r, q, now, c);
      && r in g'.requests && g'.requests == g.requests[r := g'.requests[r]] && BooksBalance(g'.requests[r])
      && forall id :: At(g'.pool.board, id).inFlight == At(g.pool.board, id).inFlight + HeldBy(g', r, id)
  {
  }

  lemma MoveOnEffect(g: Gateway, r: RequestId, q: Request, now: nat, c: Config)
    requires q.at < |q.candidates| && q.acquired == q.returned && q.failed == q.candidates[..q.at]
    ensures var g' := MoveOn(g, r, q, now, c);
      && r in g'.requests && g'.requests == g.requests[r := g'.requests[r]] && BooksBalance(g'.requests[r])
      && forall id :: At(g'.pool.board, id).inFlight == At(g.pool.board, id).inFlight + HeldBy(g', r, id)
  {
    var q' := q.(at := q.at + 1, failed := q.failed + [Current(q)]);
    assert q'.failed == q.candidates[..q'.at];
    TurnEffect(g.(pool := Apply(g.pool, Failed(Current(q), now), c)), r, q', now, c);
  }

  lemma GiveBackEffect(g: Gateway, r: RequestId, now: nat, c: Config)
    requires Inv(g) && r in g.requests && g.requests[r].at < |g.requests[r].candidates|
    requires Holds(g.requests[r], Current(g.requests[r]))
    ensures var g' := GiveBack(g, g.requests[r], now, c);
      forall id :: At(g'.pool.board, id).inFlight == At(g.pool.board, id).inFlight - HeldBy(g, r, id)
  {
    HolderCounted(g, r, Current(g.requests[r]));
  }

  lemma ProbeKeepsInv(g: Gateway, r: RequestId, ok: bool, now: nat, c: Config)
    requires Inv(g) && Enabled(g, Probe(r, ok, now))
    ensures Inv(Step(g, Probe(r, ok, now), c))
  {
    if !ok { MoveOnEffect(g, r, g.requests[r], now, c); }
    KeepsInv(g, Step(g, Probe(r, ok, now), c), r);
  }

  lemma EndKeepsInv(g: Gateway, r: RequestId, now: nat, c: Config)
    requires Inv(g) && Enabled(g, ResponseEnds(r, now))
    ensures Inv(Step(g, ResponseEnds(r, now), c))
  {
    if !g.requests[r].phase.released {
      GiveBackEffect(g, r, now, c);
      KeepsInv(g, Step(g, ResponseEnds(r, now), c), r);
    }
  }

  lemma JudgeKeepsInv(g: Gateway, r: RequestId, good: bool, now: nat, c: Config)
    requires Inv(g) && Enabled(g, Judge(r, good, now))
    ensures Inv(Step(g, Judge(r, good, now), c))
  {
    KeepsInv(g, Step(g, Judge(r, good, now), c), r);
  }

  lemma AnswerKeepsInv(g: Gateway, r: RequestId, status: nat, now: nat, c: Config)
    requires Inv(g) && Enabled(g, FetchAnswers(r, status, now))
    ensures Inv(Step(g, FetchAnswers(r, status, now), c))
  {
    KeepsInv(g, Step(g, FetchAnswers(r, status, now), c), r);
  }

  // Every step of every request keeps the counters right.
  lemma StepKeepsInv(g: Gateway, a: Action, c: Config)
    requires Inv(g) && Enabled(g, a)
    ensures Inv(Step(g, a, c))
  {
    hide Inv, MoveOn, GiveBack, Proceed, Take;
    match a {
      case Arrive(r, provider, eff, now) => ArriveKeepsInv(g, r, provider, eff, now, c);
      case Probe(r, ok, now) => ProbeKeepsInv(g, r, ok, now, c);
      case FetchFails(r, now) => RetryKeepsInv(g, r, now, c);
      case FetchAnswers(r, status, now) => AnswerKeepsInv(g, r, status, now, c);
      case CancelSettles(r, now) => RetryKeepsInv(g, r, now, c);
      case ResponseEnds(r, now) => EndKeepsInv(g, r, now, c);
      case Judge(r, good, now) => JudgeKeepsInv(g, r, good, now, c);
    }
  }

  lemma ArriveKeepsInv(g: Gateway, r: RequestId, provider: ProviderId, eff: Effective, now: nat, c: Config)
    requires Inv(g) && r !in g.requests
    ensures Inv(Step(g, Arrive(r, provider, eff, now), c))
  {
    hide Order, Members, AfterOrder;
    OrderKeepsLoad(g.pool, provider, eff, now, c);
    var g0 := g.(pool := Apply(g.pool, Ordered(provider, eff, now), c));
    var q := Request(Order(g.pool, provider, eff, now, c), |Members(provider, eff)| > 1, 0, Probing, [], 0, 0);
    TurnEffect(g0, r, q, now, c);
    KeepsInv(g, Proceed(g0, r, q, now, c), r);
  }

  // A failed fetch and a cancelled retryable answer both give the slot back and move on.
  lemma RetryKeepsInv(g: Gateway, r: RequestId, now: nat, c: Config)
    requires Inv(g) && r in g.requests && g.requests[r].at < |g.requests[r].candidates|
    requires g.requests[r].phase.Fetching? || g.requests[r].phase.Cancelling?
    ensures var q := g.requests[r]; Inv(MoveOn(GiveBack(g, q, now, c), r, q.(returned := q.returned + 1), now, c))
  {
    var q := g.requests[r];
    GiveBackEffect(g, r, now, c);
    MoveOnEffect(GiveBack(g, q, now, c), r, q.(returned := q.returned + 1), now, c);
    KeepsInv(g, MoveOn(GiveBack(g, q, now, c), r, q.(returned := q.returned + 1), now, c), r);
  }

  // ---- Whole runs ------------------------------------------------------------------------------

  // A run: gateways[0] is a fresh process, and each step is one enabled action.
  ghost predicate IsRun(gateways: seq<Gateway>, actions: seq<Action>, c: Config) {
    && |gateways| == |actions| + 1
    && gateways[0] == Gateway(EMPTY, map[])
    && forall k :: 0 <= k < |actions| ==>
         Enabled(gateways[k], actions[k]) && gateways[k + 1] == Step(gateways[k], actions[k], c)
  }

  lemma {:induction false} RunKeepsInv(gateways: seq<Gateway>, actions: seq<Action>, c: Config, k: nat)
    requires IsRun(gateways, actions, c) && k <= |actions|
    ensures Inv(gateways[k])
  {
    if k == 0 {
      forall id ensures At(EMPTY.board, id).inFlight == |Holders(map[], id)| {
        assert Holders(map[], id) == {};
      }
    } else {
      RunKeepsInv(gateways, actions, c, k - 1);
      StepKeepsInv(gateways[k - 1], actions[k - 1], c);
    }
  }

  // In every interleaving a member's inFlight is the number of requests holding a slot on it, and
  // once no request is under way every count is zero.
  lemma InFlightIsHolders(gateways: seq<Gateway>, actions: seq<Action>, c: Config, k: nat, id: ProviderId)
    requires IsRun(gateways, actions, c) && k <= |actions|
    ensures At(gateways[k].pool.board, id).inFlight == |Holders(gateways[k].requests, id)|
    ensures (forall r :: r in gateways[k].requests ==>
               var phase := gateways[k].requests[r].phase; phase.Exhausted? || (phase.Serving? && phase.released))
            ==> At(gateways[k].pool.board, id).inFlight == 0
  {
    RunKeepsInv(gateways, actions, c, k);
    if forall r :: r in gateways[k].requests ==>
         var phase := gateways[k].requests[r].phase; phase.Exhausted? || (phase.Serving? && phase.released)
    {
      assert Holders(gateways[k].requests, id) == {};
    }
  }

  // The Math.max(0, ...) in release() never acts: every slot given back was counted, and giving it back is
  // the first thing its action does to the pool.
  lemma ClampNeverActs(gateways: seq<Gateway>, actions: seq<Action>, c: Config, k: nat, e: Event)
    requires IsRun(gateways, actions, c) && k < |actions| && e.Released?
    requires e in EventsOf(gateways[k], actions[k], c)
    ensures EventsOf(gateways[k], actions[k], c)[0] == e && At(gateways[k].pool.board, e.id).inFlight >= 1
  {
    hide Order, Members;
    RunKeepsInv(gateways, actions, c, k);
    HolderCounted(gateways[k], actions[k].r, e.id);
  }

  // A request that is over has released exactly as often as it acquired, however often finish and
  // close fired; a request answered 502 or 503 was refused by every candidate, each once, in order;
  // a retryable answer is relayed only when no candidate is left to try.
  lemma OverMeansSettled(gateways: seq<Gateway>, actions: seq<Action>, c: Config, k: nat, r: RequestId)
    requires IsRun(gateways, actions, c) && k <= |actions| && r in gateways[k].requests
    ensures var q := gateways[k].requests[r];
      && (q.phase.Exhausted? || (q.phase.Serving? && q.phase.released) ==> q.acquired == q.returned)
      && (q.phase.Exhausted? ==> q.failed == q.candidates)
      && (q.phase.Serving? ==> q.at < |q.candidates| && q.failed == q.candidates[..q.at])
      && (q.phase.Serving? && (q.phase.status == 429 || q.phase.status >= 500) ==> q.at == |q.candidates| - 1)
  {
    RunKeepsInv(gateways, actions, c, k);
  }

  // An answer of 429 or from 500 on is cancelled while another candidate is left, and every other answer
  // is relayed, whichever candidate gave it; either way the slot is kept and no health is reported yet.
  lemma AnswerIsRetriedIff(g: Gateway, r: RequestId, status: nat, now: nat, c: Config)
    requires Enabled(g, FetchAnswers(r, status, now))
    ensures var q, g' := g.requests[r], Step(g, FetchAnswers(r, status, now), c);
      && r in g'.requests && g' == g.(requests := g.requests[r := q.(phase := g'.requests[r].phase)])
      && (g'.requests[r].phase == Cancelling <==>
            q.at < |q.candidates| - 1 && (status == 429 || status >= 500))
      && (g'.requests[r].phase == Serving(status, false, false) <==>
            q.at == |q.candidates| - 1 || (status != 429 && status < 500))
  {
  }

  // What a whole answer says of its member: a success only with a status of 200 to 299 and a readable
  // body; a failure with such a status and no body, with 429, or from 500 on; nothing otherwise.
  lemma HealthReportedIff(g: Gateway, r: RequestId, good: bool, now: nat, c: Config)
    requires Enabled(g, Judge(r, good, now))
    ensures var q, g' := g.requests[r], Step(g, Judge(r, good, now), c);
      var m, m' := At(g.pool.board, q.candidates[q.at]), At(g'.pool.board, q.candidates[q.at]);
      var ok := 200 <= q.phase.status < 300;
      && g'.requests == g.requests[r := q.(phase := Serving(q.phase.status, q.phase.released, true))]
      && g'.pool.rotation == g.pool.rotation
      && (forall id :: id != q.candidates[q.at] ==> At(g'.pool.board, id) == At(g.pool.board, id))
      && (m'.served == m.served + 1 && m'.fails == 0 && m'.downUntil == 0 && m'.lastOk == now <==> good && ok)
      && (m'.failed == m.failed + 1 && m'.fails == m.fails + 1 <==>
            (ok && !good) || q.phase.status == 429 || q.phase.status >= 500)
      && (m' == m <==> !ok && q.phase.status != 429 && q.phase.status < 500)
  {
  }

  // A second finish or close of the same response changes nothing.
  lemma SecondEndIsSilent(g: Gateway, r: RequestId, now: nat, later: nat, c: Config)
    requires Enabled(g, ResponseEnds(r, now))
    ensures Enabled(Step(g, ResponseEnds(r, now), c), ResponseEnds(r, later))
    ensures Step(Step(g, ResponseEnds(r, now), c), ResponseEnds(r, later), c) == Step(g, ResponseEnds(r, now), c)
  {
  }

  // ---- The pool's own history --------------------------------------------------------------------

  // The calls into the pool that an action makes, in order.
  function TurnEvents(q: Request, now: nat): seq<Event> {
    if q.at < |q.candidates| && !q.pooled then [Acquired(Current(q), now)] else []
  }

  function MoveOnEvents(q: Request, now: nat): seq<Event>
    requires q.at < |q.candidates|
  {
    [Failed(Current(q), now)] + TurnEvents(q.(at := q.at + 1), now)
  }

  function EventsOf(g: Gateway, a: Action, c: Config): seq<Event>
    requires Enabled(g, a)
  {
    match a
    case Arrive(_, provider, eff, now) =>
      var q := Request(Order(g.pool, provider, eff, now, c), |Members(provider, eff)| > 1, 0, Probing, [], 0, 0);
      [Ordered(provider, eff, now)] + TurnEvents(q, now)
    case Probe(r, ok, now) =>
      if ok then [Acquired(Current(g.requests[r]), now)] else MoveOnEvents(g.requests[r], now)
    case FetchAnswers(_, _, _) => []
    case ResponseEnds(r, now) => if g.requests[r].phase.released then [] else [Released(Current(g.requests[r]), now)]
    case Judge(r, good, now) =>
      var q := g.requests[r];
      if good && UpstreamOk(q.phase.status) then [Succeeded(Current(q), now)]
      else if UpstreamOk(q.phase.status) || Retryable(q.phase.status) then [Failed(Current(q), now)]
      else []
    case _ => [Released(Current(g.requests[a.r]), a.now)] + MoveOnEvents(g.requests[a.r], a.now)
  }

  lemma TurnMakes(g: Gateway, r: RequestId, q: Request, now: nat, c: Config)
    ensures Proceed(g, r, q, now, c).pool == ApplyAll(g.pool, TurnEvents(q, now), c)
  {
    hide Apply;
    if q.at < |q.candidates| && !q.pooled {
      ApplyOne(g.pool, Acquired(Current(q), now), c);
    }
  }

  lemma MoveOnMakes(g: Gateway, r: RequestId, q: Request, now: nat, c: Config)
    requires q.at < |q.candidates|
    ensures MoveOn(g, r, q, now, c).pool == ApplyAll(g.pool, MoveOnEvents(q, now), c)
  {
    hide Apply, Proceed, ApplyAll;
    var e := Failed(Current(q), now);
    ApplyOne(g.pool, e, c);
    TurnMakes(g.(pool := Apply(g.pool, e, c)), r, q.(at := q.at + 1, failed := q.failed + [Current(q)]), now, c);
    ApplyAppend(g.pool, [e], TurnEvents(q.(at := q.at + 1), now), c);
  }

  // The state machine's steps are made of these calls.
  lemma StepMakes(g: Gateway, a: Action, c: Config)
    requires Enabled(g, a)
    ensures Step(g, a, c).pool == ApplyAll(g.pool, EventsOf(g, a, c), c)
  {
    hide Apply, Proceed, MoveOn, Order, Members, ApplyAll, TurnEvents, MoveOnEvents;
    match a {
      case Arrive(r, provider, eff, now) =>
        var e := Ordered(provider, eff, now);
        var q := Request(Order(g.pool, provider, eff, now, c), |Members(provider, eff)| > 1, 0, Probing, [], 0, 0);
        ApplyOne(g.pool, e, c);
        TurnMakes(g.(pool := Apply(g.pool, e, c)), r, q, now, c);
        ApplyAppend(g.pool, [e], TurnEvents(q, now), c);
      case Probe(r, ok, now) =>
        ApplyOne(g.pool, Acquired(Current(g.requests[r]), now), c);
        MoveOnMakes(g, r, g.requests[r], now, c);
      case FetchAnswers(_, _, _) => ApplyNone(g.pool, c);
      case ResponseEnds(r, now) =>
        ApplyNone(g.pool, c);
        ApplyOne(g.pool, Released(Current(g.requests[r]), now), c);
      case Judge(r, good, now) =>
        ApplyNone(g.pool, c);
        ApplyOne(g.pool, Succeeded(Current(g.requests[r]), now), c);
        ApplyOne(g.pool, Failed(Current(g.requests[r]), now), c);
      case _ =>
        var q := g.requests[a.r];
        ApplyOne(g.pool, Released(Current(q), a.now), c);
        MoveOnMakes(GiveBack(g, q, a.now, c), a.r, q.(returned := q.returned + 1), a.now, c);
        ReturnedIsNoMatter(q, a.now);
        ApplyAppend(g.pool, [Released(Current(q), a.now)], MoveOnEvents(q, a.now), c);
    }
  }

  lemma ReturnedIsNoMatter(q: Request, now: nat)
    requires q.at < |q.candidates|
    ensures MoveOnEvents(q.(returned := q.returned + 1), now) == MoveOnEvents(q, now)
  {
  }

  function History(gateways: seq<Gateway>, actions: seq<Action>, c: Config, k: nat): seq<Event>
    requires |gateways| == |actions| + 1 && k <= |actions|
    requires forall j :: 0 <= j < |actions| ==> Enabled(gateways[j], actions[j])
  {
    if k == 0 then [] else History(gateways, actions, c, k - 1) + EventsOf(gateways[k - 1], actions[k - 1], c)
  }

  lemma {:induction false} HistoryMakesPool(gateways: seq<Gateway>, actions: seq<Action>, c: Config, k: nat)
    requires IsRun(gateways, actions, c) && k <= |actions|
    ensures gateways[k].pool == ApplyAll(EMPTY, History(gateways, actions, c, k), c)
  {
    if k > 0 {
      hide ApplyAll, EventsOf;
      HistoryMakesPool(gateways, actions, c, k - 1);
      StepMakes(gateways[k - 1], actions[k - 1], c);
      ApplyAppend(EMPTY, History(gateways, actions, c, k - 1), EventsOf(gateways[k - 1], actions[k - 1], c), c);
    } else {
      ApplyNone(EMPTY, c);
    }
  }

  // Every interleaving leaves the pool in a state that a plain sequence of calls reaches, so that
  // BreakerVerdict speaks about all of them.
  lemma RunHasHistory(gateways: seq<Gateway>, actions: seq<Action>, c: Config, k: nat)
    requires IsRun(gateways, actions, c) && k <= |actions|
    ensures var events := History(gateways, actions, c, k); gateways[k].pool == After(events, |events|, c)
  {
    var events := History(gateways, actions, c, k);
    HistoryMakesPool(gateways, actions, c, k);
    AfterIsApplyAll(events, |events|, c);
    assert events[..|events|] == events;
  }

  // ---- Trials in every interleaving ----------------------------------------------------------------

  ghost predicate OnTime(actions: seq<Action>) {
    forall i, j :: 0 <= i < j < |actions| ==> actions[i].now <= actions[j].now
  }

  lemma EventsAtOnce(g: Gateway, a: Action, c: Config)
    requires Enabled(g, a)
    ensures forall k :: 0 <= k < |EventsOf(g, a, c)| ==> EventsOf(g, a, c)[k].now == a.now
  {
    hide Order, Members;
  }

  lemma {:induction false} HistoryOnTime(gateways: seq<Gateway>, actions: seq<Action>, c: Config, k: nat)
    requires IsRun(gateways, actions, c) && OnTime(actions) && k <= |actions|
    ensures Chronological(History(gateways, actions, c, k))
    ensures forall i, j :: 0 <= i < |History(gateways, actions, c, k)| && k <= j < |actions| ==>
      History(gateways, actions, c, k)[i].now <= actions[j].now
  {
    hide EventsOf;
    if k > 0 {
      HistoryOnTime(gateways, actions, c, k - 1);
      EventsAtOnce(gateways[k - 1], actions[k - 1], c);
    }
  }

  lemma HistoryStep(gateways: seq<Gateway>, actions: seq<Action>, c: Config, i: nat, k: nat)
    requires IsRun(gateways, actions, c) && i <= k <= |actions|
    requires |History(gateways, actions, c, i)| < |History(gateways, actions, c, k)|
    ensures i < k
    ensures History(gateways, actions, c, k)
      == History(gateways, actions, c, k - 1) + EventsOf(gateways[k - 1], actions[k - 1], c)
  {
    hide EventsOf;
  }

  // Where an event of the history comes from.
  lemma {:induction false} HistoryFrom(gateways: seq<Gateway>, actions: seq<Action>, c: Config, i: nat, k: nat, at: nat)
    returns (m: nat)
    requires IsRun(gateways, actions, c) && i <= k <= |actions|
    requires |History(gateways, actions, c, i)| <= at < |History(gateways, actions, c, k)|
    ensures i <= m < k && History(gateways, actions, c, k)[at] in EventsOf(gateways[m], actions[m], c)
    decreases k
  {
    hide EventsOf, History;
    HistoryStep(gateways, actions, c, i, k);
    m := k - 1;
    if at < |History(gateways, actions, c, k - 1)| {
      HistoryGrows(gateways, actions, c, i, k - 1);
      m := HistoryFrom(gateways, actions, c, i, k - 1, at);
    }
  }

  lemma {:induction false} HistoryGrows(gateways: seq<Gateway>, actions: seq<Action>, c: Config, i: nat, k: nat)
    requires IsRun(gateways, actions, c) && i <= k <= |actions|
    ensures var early, late := History(gateways, actions, c, i), History(gateways, actions, c, k);
      |early| <= |late| && late[..|early|] == early
    decreases k
  {
    hide EventsOf, Step, Enabled;
    if i < k {
      HistoryGrows(gateways, actions, c, i, k - 1);
    }
  }

  // An arrival that takes the one trial of a recovering member.
  predicate TakesTrial(g: Gateway, a: Action, id: ProviderId, c: Config) {
    a.Arrive? && Claimed(g.pool, a.provider, a.eff, a.now, c) == Some(id)
  }

  lemma TrialInHistory(gateways: seq<Gateway>, actions: seq<Action>, c: Config, i: nat, k: nat, id: ProviderId)
    requires IsRun(gateways, actions, c) && i < k <= |actions| && TakesTrial(gateways[i], actions[i], id, c)
    ensures var at, events := |History(gateways, actions, c, i)|, History(gateways, actions, c, k);
      at < |events| && ClaimsTrial(events, at, id, c) && events[at].now == actions[i].now
    ensures |History(gateways, actions, c, i)| < |History(gateways, actions, c, i + 1)|
  {
    hide Claimed, Order, Members;
    var early, events := History(gateways, actions, c, i), History(gateways, actions, c, k);
    HistoryGrows(gateways, actions, c, i, k);
    HistoryGrows(gateways, actions, c, i + 1, k);
    HistoryMakesPool(gateways, actions, c, i);
    AfterIsApplyAll(events, |early|, c);
    assert EventsOf(gateways[i], actions[i], c)[0] == Ordered(actions[i].provider, actions[i].eff, actions[i].now);
    assert History(gateways, actions, c, i + 1)[|early|] == events[|early|];
  }

  // Half-open, over every interleaving with a clock that does not go back: between two requests that
  // take the trial of one member lies an action that reports on it, or at least TRIAL_MS.
  lemma RunTrialsSeparated(gateways: seq<Gateway>, actions: seq<Action>, c: Config, i: nat, j: nat, id: ProviderId)
    requires IsRun(gateways, actions, c) && OnTime(actions) && i < j < |actions|
    requires TakesTrial(gateways[i], actions[i], id, c) && TakesTrial(gateways[j], actions[j], id, c)
    ensures actions[j].now >= actions[i].now + TRIAL_MS
      || exists m, e :: i <= m < j && e in EventsOf(gateways[m], actions[m], c) && Reports(e, id)
  {
    hide EventsOf, History, TakesTrial, ClaimsTrial;
    var events := History(gateways, actions, c, j + 1);
    var at, to := |History(gateways, actions, c, i)|, |History(gateways, actions, c, j)|;
    TrialInHistory(gateways, actions, c, i, j + 1, id);
    TrialInHistory(gateways, actions, c, j, j + 1, id);
    HistoryGrows(gateways, actions, c, i + 1, j);
    HistoryOnTime(gateways, actions, c, j + 1);
    TrialsSeparated(events, at, to, id, c);
    if k :| at < k < to && Reports(events[k], id) {
      HistoryGrows(gateways, actions, c, j, j + 1);
      assert History(gateways, actions, c, j)[k] == events[k];
      var m := HistoryFrom(gateways, actions, c, i, j, k);
    }
  }

  // ---- Who reports on a trial --------------------------------------------------------------------------

  ghost predicate HasReport(events: seq<Event>, id: ProviderId) {
    exists e :: e in events && Reports(e, id)
  }

  // Request r has reported on the member in the first k actions.
  ghost predicate ReportedBy(gateways: seq<Gateway>, actions: seq<Action>, c: Config, k: nat, r: RequestId,
                             id: ProviderId)
    requires IsRun(gateways, actions, c) && k <= |actions|
  {
    k > 0 &&
    (ReportedBy(gateways, actions, c, k - 1, r, id)
     || (actions[k - 1].r == r && HasReport(EventsOf(gateways[k - 1], actions[k - 1], c), id)))
  }

  // An answer that says nothing about the member's health: neither a success nor one to retry.
  predicate Neutral(status: nat) {
    (status < 200 || status >= 300) && status != 429 && status < 500
  }

  // Whether a request in this phase has reported on its first candidate.
  predicate FirstReported(q: Request) {
    q.at > 0 || (q.phase.Serving? && q.phase.reported && !Neutral(q.phase.status))
  }

  lemma OwnStepReports(g: Gateway, a: Action, c: Config)
    requires Enabled(g, a) && !a.Arrive? && g.requests[a.r].candidates != []
    ensures var q, q' := g.requests[a.r], Step(g, a, c).requests[a.r];
      && q'.candidates == q.candidates
      && (FirstReported(q') <==> FirstReported(q) || HasReport(EventsOf(g, a, c), q.candidates[0]))
      && (q.phase.Serving? ==> q'.phase.Serving? && q'.at == q.at && q'.phase.status == q.phase.status)
      && (q.at > 0 ==> q'.at > 0)
  {
    hide Apply;
    var q := g.requests[a.r];
    if a.FetchFails? || a.CancelSettles? || (a.Probe? && !a.ok) {
      assert Failed(Current(q), a.now) in EventsOf(g, a, c) by { MoveOnReports(g, a, c); }
      assert Reports(Failed(Current(q), a.now), Current(q));
    } else if a.Judge? && !Neutral(q.phase.status) {
      assert Reports(EventsOf(g, a, c)[0], Current(q));
    }
  }

  lemma MoveOnReports(g: Gateway, a: Action, c: Config)
    requires Enabled(g, a) && (a.FetchFails? || a.CancelSettles? || (a.Probe? && !a.ok))
    ensures Failed(Current(g.requests[a.r]), a.now) in EventsOf(g, a, c)
  {
    var q := g.requests[a.r];
    assert MoveOnEvents(q, a.now)[0] == Failed(Current(q), a.now);
  }

  lemma ArrivalReportsNothing(g: Gateway, a: Action, c: Config, id: ProviderId)
    requires Enabled(g, a) && a.Arrive?
    ensures !HasReport(EventsOf(g, a, c), id)
    ensures a.r in Step(g, a, c).requests
    ensures var q' := Step(g, a, c).requests[a.r];
      q'.candidates == Order(g.pool, a.provider, a.eff, a.now, c) && q'.at == 0 && !q'.phase.Serving?
  {
    hide Order, Members, Apply;
  }

  lemma OthersUntouched(g: Gateway, a: Action, c: Config, r: RequestId)
    requires Enabled(g, a) && a.r != r
    ensures r in Step(g, a, c).requests <==> r in g.requests
    ensures r in g.requests ==> Step(g, a, c).requests[r] == g.requests[r]
  {
    hide Order, Members, Apply;
  }

  lemma StepCandidates(g: Gateway, a: Action, c: Config, r: RequestId)
    requires Enabled(g, a) && r in g.requests
    ensures r in Step(g, a, c).requests && Step(g, a, c).requests[r].candidates == g.requests[r].candidates
  {
    hide Order, Members, Apply;
  }

  lemma FirstReportedStep(g: Gateway, a: Action, c: Config, r: RequestId, id: ProviderId)
    requires Enabled(g, a)
    requires var g' := Step(g, a, c);
      r in g'.requests ==> g'.requests[r].candidates != [] && g'.requests[r].candidates[0] == id
    ensures var g' := Step(g, a, c);
      (r in g'.requests && FirstReported(g'.requests[r])) <==>
        || (r in g.requests && FirstReported(g.requests[r]))
        || (a.r == r && HasReport(EventsOf(g, a, c), id))
  {
    hide Step, EventsOf, FirstReported, HasReport, Enabled;
    if r in g.requests {
      StepCandidates(g, a, c, r);
    }
    if a.r != r {
      OthersUntouched(g, a, c, r);
    } else if a.Arrive? {
      NotThere(g, a);
      ArrivalReportsNothing(g, a, c, id);
      StaysThere(g, a, c);
      NothingYet(Step(g, a, c).requests[r]);
    } else {
      There(g, a);
      OwnStepReports(g, a, c);
    }
  }

  lemma {:induction false} FirstReportedInv(gateways: seq<Gateway>, actions: seq<Action>, c: Config, k: nat,
                                            r: RequestId, id: ProviderId)
    requires IsRun(gateways, actions, c) && k <= |actions|
    requires r in gateways[k].requests ==>
      gateways[k].requests[r].candidates != [] && gateways[k].requests[r].candidates[0] == id
    ensures ReportedBy(gateways, actions, c, k, r, id) <==>
      r in gateways[k].requests && FirstReported(gateways[k].requests[r])
  {
    if k > 0 {
      hide Step, EventsOf, FirstReported, Enabled, HasReport, IsRun;
      RunStep(gateways, actions, c, k - 1);
      if r in gateways[k - 1].requests {
        StepCandidates(gateways[k - 1], actions[k - 1], c, r);
      }
      FirstReportedInv(gateways, actions, c, k - 1, r, id);
      FirstReportedStep(gateways[k - 1], actions[k - 1], c, r, id);
    } else {
      StartsEmpty(gateways, actions, c);
    }
  }

  lemma StartsEmpty(gateways: seq<Gateway>, actions: seq<Action>, c: Config)
    requires IsRun(gateways, actions, c)
    ensures gateways[0] == Gateway(EMPTY, map[])
  {
  }

  lemma RunStep(gateways: seq<Gateway>, actions: seq<Action>, c: Config, k: nat)
    requires IsRun(gateways, actions, c) && k < |actions|
    ensures |gateways| == |actions| + 1
    ensures Enabled(gateways[k], actions[k]) && gateways[k + 1] == Step(gateways[k], actions[k], c)
  {
  }

  lemma NotThere(g: Gateway, a: Action)
    requires Enabled(g, a) && a.Arrive?
    ensures a.r !in g.requests
  {
  }

  lemma There(g: Gateway, a: Action)
    requires Enabled(g, a) && !a.Arrive?
    ensures a.r in g.requests && g.requests[a.r].candidates != []
  {
  }

  lemma NothingYet(q: Request)
    requires q.at == 0 && !q.phase.Serving?
    ensures !FirstReported(q)
  {
  }

  lemma {:induction false} CandidatesKept(gateways: seq<Gateway>, actions: seq<Action>, c: Config, i: nat, k: nat,
                                          r: RequestId)
    requires IsRun(gateways, actions, c) && i <= k <= |actions| && r in gateways[i].requests
    ensures r in gateways[k].requests && gateways[k].requests[r].candidates == gateways[i].requests[r].candidates
    decreases k
  {
    if i < k {
      hide Step, EventsOf, Enabled, IsRun;
      CandidatesKept(gateways, actions, c, i, k - 1, r);
      RunStep(gateways, actions, c, k - 1);
      StepCandidates(gateways[k - 1], actions[k - 1], c, r);
    }
  }

  lemma StaysThere(g: Gateway, a: Action, c: Config)
    requires Enabled(g, a)
    ensures a.r in Step(g, a, c).requests
  {
    hide Order, Members, Apply;
  }

  // A request is done when it was refused, or its answer has been read and judged.
  predicate Done(q: Request) {
    q.phase.Exhausted? || (q.phase.Serving? && q.phase.reported)
  }

  // The request that took a member's trial reports on the member before it is done, unless the trial
  // itself answered with a status that says nothing of its health, such as a 4xx: then no report of its
  // own ends the trial, and without one of another request it lasts until it expires.
  lemma TrialUnreportedIff(gateways: seq<Gateway>, actions: seq<Action>, c: Config, i: nat, k: nat, id: ProviderId)
    requires IsRun(gateways, actions, c) && i < k <= |actions| && TakesTrial(gateways[i], actions[i], id, c)
    requires var r := actions[i].r;
      && r in gateways[k].requests
      && var phase := gateways[k].requests[r].phase; phase.Exhausted? || (phase.Serving? && phase.reported)
    ensures var q := gateways[k].requests[actions[i].r];
      && q.candidates != [] && q.candidates[0] == id
      && (!ReportedBy(gateways, actions, c, k, actions[i].r, id) <==>
            q.phase.Serving? && q.at == 0 && Neutral(q.phase.status))
  {
    hide Step, EventsOf, Enabled, Claimed, Order, Members;
    var g, a := gateways[i], actions[i];
    var r := a.r;
    TrialLeads(g.pool, a.provider, a.eff, a.now, c, id);
    ArrivalReportsNothing(g, a, c, id);
    StaysThere(g, a, c);
    CandidatesKept(gateways, actions, c, i + 1, k, r);
    FirstReportedInv(gateways, actions, c, k, r, id);
    RunKeepsInv(gateways, actions, c, k);
    DoneBooks(gateways[k], r);
  }

  lemma DoneBooks(g: Gateway, r: RequestId)
    requires Inv(g) && r in g.requests && g.requests[r].candidates != []
    ensures var q := g.requests[r];
      (q.phase.Exhausted? ==> q.at > 0) && (q.phase.Serving? ==> q.at < |q.candidates|)
  {
  }

  // ---- A trial that only expiry ends ------------------------------------------------------------------------

  // A pool of one member, with a breaker that opens at the first failure.
  const LONE := ProviderId("p")
  const LONE_POOL: Effective := Snapshot([LONE], map[LONE := Provider("u", "pool", false)])
  const BRITTLE: Config := Tuning(1, 30000)

  lemma LoneMember()
    ensures PoolOf(LONE, LONE_POOL) == Some(PoolName("pool"))
    ensures Members(LONE, LONE_POOL) == [LONE] && Live(LONE, LONE_POOL) == [LONE]
  {
    assert Filter([LONE], InPool(PoolOf(LONE, LONE_POOL), LONE_POOL)) == [LONE];
    assert Sort([LONE], Precedes()) == [LONE];
    assert Filter([LONE], Accepting(LONE_POOL)) == [LONE];
  }

  lemma LoneOrder(p: Pool, now: nat)
    ensures Order(p, LONE, LONE_POOL, now, BRITTLE) == [LONE]
    ensures Claimed(p, LONE, LONE_POOL, now, BRITTLE)
      == if Claimable(At(p.board, LONE), now, BRITTLE) then Some(LONE) else None
  {
    hide Order, Live, PoolOf, Claim;
    LoneMember();
    ClaimOfOne(p.board, LONE, now, BRITTLE);
    OrderPermutesLive(p, LONE, LONE_POOL, now, BRITTLE);
    OnlyOne(Order(p, LONE, LONE_POOL, now, BRITTLE), LONE);
  }

  lemma ClaimOfOne(board: Board, id: ProviderId, now: nat, c: Config)
    ensures Claim(board, [id], now, c) == if Claimable(At(board, id), now, c) then Some(id) else None
  {
    assert [id][1..] == [];
  }

  lemma OnlyOne(s: seq<ProviderId>, x: ProviderId)
    requires multiset(s) == multiset([x])
    ensures s == [x]
  {
    assert |multiset(s)| == 1;
    assert s[0] in multiset(s);
  }

  lemma LoneArrival(g: Gateway, r: RequestId, now: nat)
    requires r !in g.requests
    ensures Enabled(g, Arrive(r, LONE, LONE_POOL, now))
    ensures var g' := Step(g, Arrive(r, LONE, LONE_POOL, now), BRITTLE); var m := At(g.pool.board, LONE);
      var claims := Claimable(m, now, BRITTLE);
      && g'.requests == g.requests[r := Request([LONE], false, 0, Fetching, [], 1, 0)]
      && At(g'.pool.board, LONE) ==
           m.(inFlight := m.inFlight + 1, trialUntil := if claims then now + TRIAL_MS else m.trialUntil)
  {
    hide Order, Claimed, Members;
    LoneMember();
    LoneOrder(g.pool, now);
  }

  // One failed fetch opens the breaker; the trial after the cooldown is answered 400. The request is done
  // and has reported nothing, and nobody gets another trial until this one expires, a minute after it began.
  lemma BadRequestKeepsTrial() returns (gateways: seq<Gateway>, actions: seq<Action>)
    ensures IsRun(gateways, actions, BRITTLE) && |actions| == 5
    ensures TakesTrial(gateways[2], actions[2], LONE, BRITTLE) && actions[2].r == 1 && actions[2].now == 30000
    ensures 1 in gateways[5].requests && Done(gateways[5].requests[1])
    ensures !ReportedBy(gateways, actions, BRITTLE, 5, 1, LONE)
    ensures forall now: nat :: 30000 <= now ==>
      && Recovering(At(gateways[5].pool.board, LONE), now, BRITTLE)
      && (Claimed(gateways[5].pool, LONE, LONE_POOL, now, BRITTLE) == Some(LONE) <==> now >= 30000 + TRIAL_MS)
  {
    hide Claimed, ReportedBy, Step, Enabled, Order, IsRun, Neutral;
    var g0 := Gateway(EMPTY, map[]);
    actions := [Arrive(0, LONE, LONE_POOL, 0), FetchFails(0, 0), Arrive(1, LONE, LONE_POOL, 30000),
                FetchAnswers(1, 400, 30000), Judge(1, true, 30000)];
    LoneArrival(g0, 0, 0);
    var g1 := Step(g0, actions[0], BRITTLE);
    LoneFailure(g1);
    var g2 := Step(g1, actions[1], BRITTLE);
    LoneArrival(g2, 1, 30000);
    LoneOrder(g2.pool, 30000);
    var g3 := Step(g2, actions[2], BRITTLE);
    LoneBadAnswer(g3);
    var g4 := Step(g3, actions[3], BRITTLE);
    var g5 := Step(g4, actions[4], BRITTLE);
    gateways := [g0, g1, g2, g3, g4, g5];
    LoneRun(g0, g1, g2, g3, g4, g5, actions);
    assert TakesTrial(g2, actions[2], LONE, BRITTLE);
    NeutralBadRequest();
    TrialUnreportedIff(gateways, actions, BRITTLE, 2, 5, LONE);
    forall now: nat | 30000 <= now
      ensures Recovering(At(g5.pool.board, LONE), now, BRITTLE)
      ensures Claimed(g5.pool, LONE, LONE_POOL, now, BRITTLE) == Some(LONE) <==> now >= 30000 + TRIAL_MS
    {
      LoneOrder(g5.pool, now);
    }
  }

  lemma NeutralBadRequest()
    ensures Neutral(400)
  {
  }

  lemma LoneRun(g0: Gateway, g1: Gateway, g2: Gateway, g3: Gateway, g4: Gateway, g5: Gateway, actions: seq<Action>)
    requires |actions| == 5 && g0 == Gateway(EMPTY, map[])
    requires Enabled(g0, actions[0]) && g1 == Step(g0, actions[0], BRITTLE)
    requires Enabled(g1, actions[1]) && g2 == Step(g1, actions[1], BRITTLE)
    requires Enabled(g2, actions[2]) && g3 == Step(g2, actions[2], BRITTLE)
    requires Enabled(g3, actions[3]) && g4 == Step(g3, actions[3], BRITTLE)
    requires Enabled(g4, actions[4]) && g5 == Step(g4, actions[4], BRITTLE)
    ensures IsRun([g0, g1, g2, g3, g4, g5], actions, BRITTLE)
  {
    hide Enabled, Step;
  }

  lemma LoneFailure(g: Gateway)
    requires g.requests == map[0 := Request([LONE], false, 0, Fetching, [], 1, 0)]
    requires At(g.pool.board, LONE) == FRESH.(inFlight := 1)
    ensures Enabled(g, FetchFails(0, 0))
    ensures var g' := Step(g, FetchFails(0, 0), BRITTLE);
      && At(g'.pool.board, LONE) == FRESH.(fails := 1, failed := 1, downUntil := 30000)
      && g'.requests.Keys == {0}
  {
  }

  lemma LoneBadAnswer(g: Gateway)
    requires 1 in g.requests && g.requests[1] == Request([LONE], false, 0, Fetching, [], 1, 0)
    ensures Enabled(g, FetchAnswers(1, 400, 30000))
    ensures var g' := Step(g, FetchAnswers(1, 400, 30000), BRITTLE); var judge := Judge(1, true, 30000);
      && Enabled(g', judge) && Step(g', judge, BRITTLE).pool == g.pool
      && 1 in Step(g', judge, BRITTLE).requests
      && Step(g', judge, BRITTLE).requests[1] == Request([LONE], false, 0, Serving(400, false, true), [], 1, 0)
  {
  }

  // ---- The stretches as written --------------------------------------------------------------------------

  // One process: its pool and its requests, each method one stretch between two awaits.
  class Server {
    const pool: Dispatcher
    var requests: map<RequestId, Request>

    function State(): Gateway
      reads this, pool
    {
      Gateway(pool.State(), requests)
    }

    constructor (pool: Dispatcher)
      ensures this.pool == pool && requests == map[]
    {
      this.pool := pool;
      requests := map[];
    }

    method TakeSlot(r: RequestId, q: Request, now: nat)
      requires q.at < |q.candidates|
      modifies this, pool
      ensures State() == Take(old(State()), r, q, now, pool.config)
    {
      pool.Acquire(Current(q));
      requests := requests[r := q.(phase := Fetching, acquired := q.acquired + 1)];
    }

    // The head of the loop: nobody left, a probe first, or straight to the fetch.
    method TurnTo(r: RequestId, q: Request, now: nat)
      modifies this, pool
      ensures State() == Proceed(old(State()), r, q, now, pool.config)
    {
      if q.at >= |q.candidates| {
        requests := requests[r := q.(phase := Exhausted)];
      } else if q.pooled {
        requests := requests[r := q.(phase := Probing)];
      } else {
        TakeSlot(r, q, now);
      }
    }

    // reportFailure and continue
    method NextCandidate(r: RequestId, q: Request, now: nat)
      requires q.at < |q.candidates|
      modifies this, pool
      ensures State() == MoveOn(old(State()), r, q, now, pool.config)
    {
      pool.ReportFailure(Current(q), now);
      TurnTo(r, q.(at := q.at + 1, failed := q.failed + [Current(q)]), now);
    }

    method OnArrival(r: RequestId, provider: ProviderId, eff: Effective, now: nat)
      requires Enabled(State(), Arrive(r, provider, eff, now))
      modifies this, pool
      ensures State() == Step(old(State()), Arrive(r, provider, eff, now), pool.config)
    {
      hide Order, Members, Apply;
      var candidates := pool.NextOrder(provider, eff, now);
      TurnTo(r, Request(candidates, |Members(provider, eff)| > 1, 0, Probing, [], 0, 0), now);
    }

    method OnProbe(r: RequestId, ok: bool, now: nat)
      requires Enabled(State(), Probe(r, ok, now))
      modifies this, pool
      ensures State() == Step(old(State()), Probe(r, ok, now), pool.config)
    {
      hide Apply;
      if ok {
        TakeSlot(r, requests[r], now);
      } else {
        NextCandidate(r, requests[r], now);
      }
    }

    method OnFetchFailure(r: RequestId, now: nat)
      requires Enabled(State(), FetchFails(r, now))
      modifies this, pool
      ensures State() == Step(old(State()), FetchFails(r, now), pool.config)
    {
      hide Apply;
      var q := requests[r];
      pool.Release(Current(q));
      NextCandidate(r, q.(returned := q.returned + 1), now);
    }

    method OnAnswer(r: RequestId, status: nat, now: nat)
      requires Enabled(State(), FetchAnswers(r, status, now))
      modifies this, pool
      ensures State() == Step(old(State()), FetchAnswers(r, status, now), pool.config)
    {
      var q := requests[r];
      if q.at < |q.candidates| - 1 && Retryable(status) {
        requests := requests[r := q.(phase := Cancelling)];
      } else {
        requests := requests[r := q.(phase := Serving(status, false, false))];
      }
    }

    method OnCancelled(r: RequestId, now: nat)
      requires Enabled(State(), CancelSettles(r, now))
      modifies this, pool
      ensures State() == Step(old(State()), CancelSettles(r, now), pool.config)
    {
      hide Apply;
      var q := requests[r];
      pool.Release(Current(q));
      NextCandidate(r, q.(returned := q.returned + 1), now);
    }

    // releaseSlot, registered for both "finish" and "close"
    method OnResponseEnd(r: RequestId, now: nat)
      requires Enabled(State(), ResponseEnds(r, now))
      modifies this, pool
      ensures State() == Step(old(State()), ResponseEnds(r, now), pool.config)
    {
      hide Apply;
      var q := requests[r];
      if !q.phase.released {
        pool.Release(Current(q));
        requests := requests[r := q.(phase := q.phase.(released := true), returned := q.returned + 1)];
      }
    }

    method OnBodyRead(r: RequestId, good: bool, now: nat)
      requires Enabled(State(), Judge(r, good, now))
      modifies this, pool
      ensures State() == Step(old(State()), Judge(r, good, now), pool.config)
    {
      hide Apply;
      var q := requests[r];
      if good && UpstreamOk(q.phase.status) {
        pool.ReportSuccess(Current(q), now);
      } else if UpstreamOk(q.phase.status) || Retryable(q.phase.status) {
        pool.ReportFailure(Current(q), now);
      }
      requests := requests[r := q.(phase := q.phase.(reported := true))];
    }
  }

  // ---- The loop of one request ---------------------------------------------------------------------

  // How probes and fetches turn out for the k-th candidate (None: the fetch fails), and when.
  datatype Weather = Weather(probe: nat -> bool, fetch: nat -> Option<nat>, clock: nat -> nat)

  predicate Underway(g: Gateway, r: RequestId) {
    && r in g.requests && g.requests[r].at < |g.requests[r].candidates|
    && (g.requests[r].phase.Probing? || g.requests[r].phase.Fetching?)
  }

  // The action that ends the await a request is in.
  function NextAction(g: Gateway, r: RequestId, w: Weather): Action
    requires Underway(g, r)
  {
    var k := g.requests[r].at;
    if g.requests[r].phase.Probing? then Probe(r, w.probe(k), w.clock(k))
    else if w.fetch(k).None? then FetchFails(r, w.clock(k))
    else FetchAnswers(r, w.fetch(k).value, w.clock(k))
  }

  // One stretch; a retryable answer is cancelled at once.
  function Stretch(g: Gateway, r: RequestId, w: Weather, c: Config): Gateway
    requires Underway(g, r)
  {
    var next := Step(g, NextAction(g, r, w), c);
    if next.requests[r].phase.Cancelling? then Step(next, CancelSettles(r, w.clock(g.requests[r].at)), c) else next
  }

  lemma StretchAdvances(g: Gateway, r: RequestId, w: Weather, c: Config)
    requires Underway(g, r)
    ensures var q := g.requests[r]; var next := Stretch(g, r, w, c);
      && r in next.requests && next.requests[r].candidates == q.candidates && next.requests[r].pooled == q.pooled
      && (Underway(next, r) ==>
            || next.requests[r].at > q.at
            || (next.requests[r].at == q.at && q.phase.Probing? && next.requests[r].phase.Fetching?))
  {
  }

  // The machine's run when no other request moves: to the relayed answer, or to exhaustion.
  function Alone(g: Gateway, r: RequestId, w: Weather, c: Config): Gateway
    decreases if Underway(g, r) then |g.requests[r].candidates| - g.requests[r].at else 0,
              if Underway(g, r) && g.requests[r].phase.Probing? then 1 else 0
  {
    if !Underway(g, r) then g
    else
      StretchAdvances(g, r, w, c);
      Alone(Stretch(g, r, w, c), r, w, c)
  }

  // The k-th candidate's answer is the one relayed.
  predicate Relays(candidates: seq<ProviderId>, pooled: bool, w: Weather, k: nat) {
    && (pooled ==> w.probe(k)) && w.fetch(k).Some?
    && (k + 1 >= |candidates| || (w.fetch(k).value != 429 && w.fetch(k).value < 500))
  }

  // The current candidate's answer is one to relay.
  predicate Answered(q: Request, w: Weather) {
    w.fetch(q.at).Some? && (q.at + 1 >= |q.candidates| || !Retryable(w.fetch(q.at).value))
  }

  lemma StretchOutcome(g: Gateway, r: RequestId, w: Weather, c: Config)
    requires Underway(g, r) && (g.requests[r].phase.Probing? ==> g.requests[r].pooled)
    ensures var q := g.requests[r]; var q' := Stretch(g, r, w, c).requests[r];
      if q.phase.Probing? && w.probe(q.at) then q'.phase == Fetching && q'.at == q.at
      else if q.phase.Fetching? && Answered(q, w) then
        q'.phase == Serving(w.fetch(q.at).value, false, false) && q'.at == q.at
      else
        && q'.at == q.at + 1
        && q'.phase == if q'.at >= |q.candidates| then Exhausted else if q.pooled then Probing else Fetching
  {
  }

  // Left to itself a request relays the answer of the first candidate that gives one, and is refused
  // exactly when none does.
  lemma {:induction false} AloneFindsFirst(g: Gateway, r: RequestId, w: Weather, c: Config)
    requires r in g.requests && g.requests[r].at < |g.requests[r].candidates|
    requires g.requests[r].phase.Probing? || g.requests[r].phase.Fetching?
    requires (g.requests[r].phase.Probing? ==> g.requests[r].pooled)
    requires g.requests[r].phase.Fetching? && g.requests[r].pooled ==> w.probe(g.requests[r].at)
    ensures var q := g.requests[r]; var end := Alone(g, r, w, c);
      && r in end.requests && end.requests[r].candidates == q.candidates
      && (if end.requests[r].phase.Serving? then
            var k := end.requests[r].at;
            && q.at <= k < |q.candidates| && Relays(q.candidates, q.pooled, w, k)
            && end.requests[r].phase == Serving(w.fetch(k).value, false, false)
            && forall j :: q.at <= j < k ==> !Relays(q.candidates, q.pooled, w, j)
          else
            && end.requests[r].phase.Exhausted?
            && forall j :: q.at <= j < |q.candidates| ==> !Relays(q.candidates, q.pooled, w, j))
    decreases |g.requests[r].candidates| - g.requests[r].at, if g.requests[r].phase.Probing? then 1 else 0
  {
    hide Stretch;
    StretchAdvances(g, r, w, c);
    StretchOutcome(g, r, w, c);
    var next := Stretch(g, r, w, c);
    if Underway(next, r) {
      AloneFindsFirst(next, r, w, c);
    }
  }

  // acquire() of candidate `at` where no probe comes first.
  function Unprobed(p: Pool, candidates: seq<ProviderId>, pooled: bool, at: nat, now: nat, c: Config): Pool {
    if !pooled && at < |candidates| then Apply(p, Acquired(candidates[at], now), c) else p
  }

  // What a stretch does to the pool.
  lemma StretchPool(g: Gateway, r: RequestId, w: Weather, c: Config)
    requires Underway(g, r) && (g.requests[r].phase.Probing? ==> g.requests[r].pooled)
    ensures var q := g.requests[r]; var now := w.clock(q.at); var p := Stretch(g, r, w, c).pool;
      if q.phase.Probing? then
        p == Apply(g.pool, if w.probe(q.at) then Acquired(Current(q), now) else Failed(Current(q), now), c)
      else if Answered(q, w) then p == g.pool
      else
        p == Unprobed(Apply(Apply(g.pool, Released(Current(q), now), c), Failed(Current(q), now), c),
                      q.candidates, q.pooled, q.at + 1, now, c)
  {
    hide Apply;
  }

  lemma ArriveOutcome(g: Gateway, r: RequestId, provider: ProviderId, eff: Effective, now: nat, c: Config)
    requires r !in g.requests
    ensures var g' := Step(g, Arrive(r, provider, eff, now), c); var candidates := Order(g.pool, provider, eff, now, c);
      var pooled := |Members(provider, eff)| > 1;
      && r in g'.requests && g'.requests[r].candidates == candidates && g'.requests[r].pooled == pooled
      && g'.requests[r].at == 0
      && g'.requests[r].phase == (if |candidates| == 0 then Exhausted else if pooled then Probing else Fetching)
      && g'.pool == Unprobed(Apply(g.pool, Ordered(provider, eff, now), c), candidates, pooled, 0, now, c)
  {
    hide Order, Members, Apply;
  }

  // The failover loop as written, on the pool object. `g` follows it through the state machine.
  method Proxy(pool: Dispatcher, provider: ProviderId, eff: Effective, w: Weather, ghost before: Gateway,
               ghost r: RequestId)
    returns (member: Option<ProviderId>, status: nat, ghost g: Gateway)
    requires pool.State() == before.pool && r !in before.requests
    modifies pool
    ensures g == Alone(Step(before, Arrive(r, provider, eff, w.clock(0)), pool.config), r, w, pool.config)
    ensures pool.State() == g.pool && r in g.requests
    ensures member.Some? ==>
      && g.requests[r].phase == Serving(status, false, false)
      && g.requests[r].at < |g.requests[r].candidates| && Current(g.requests[r]) == member.value
    ensures member.None? ==> g.requests[r].phase == Exhausted
  {
    hide Order, Members, Alone, Stretch, Step, Apply;
    var pooled := |Members(provider, eff)| > 1;
    var candidates := pool.NextOrder(provider, eff, w.clock(0));
    g := Step(before, Arrive(r, provider, eff, w.clock(0)), pool.config);
    ghost var start := g;
    ArriveOutcome(before, r, provider, eff, w.clock(0), pool.config);
    var i := 0;
    if !pooled && i < |candidates| {
      pool.Acquire(candidates[i]);
    }
    while i < |candidates|
      invariant i <= |candidates| && r in g.requests
      invariant g.requests[r].candidates == candidates && g.requests[r].pooled == pooled && g.requests[r].at == i
      invariant g.requests[r].phase == if i == |candidates| then Exhausted else if pooled then Probing else Fetching
      invariant pool.State() == g.pool
      invariant Alone(g, r, w, pool.config) == Alone(start, r, w, pool.config)
    {
      var now := w.clock(i);
      Unroll(g, r, w, pool.config);
      StretchFacts(g, r, w, pool.config);
      if pooled {
        if !w.probe(i) {
          pool.ReportFailure(candidates[i], now);
          g := Stretch(g, r, w, pool.config);
          i := i + 1;
          continue;
        }
        pool.Acquire(candidates[i]);
        g := Stretch(g, r, w, pool.config);
        Unroll(g, r, w, pool.config);
        StretchFacts(g, r, w, pool.config);
      }
      g := Stretch(g, r, w, pool.config);
      var answer := w.fetch(i);
      if answer.Some? && !(i < |candidates| - 1 && Retryable(answer.value)) {
        Unroll(g, r, w, pool.config);
        return Some(candidates[i]), answer.value, g;
      }
      pool.Release(candidates[i]);
      pool.ReportFailure(candidates[i], now);
      i := i + 1;
      if !pooled && i < |candidates| {
        pool.Acquire(candidates[i]);
      }
    }
    Unroll(g, r, w, pool.config);
    member, status := None, 0;
  }

  lemma StretchFacts(g: Gateway, r: RequestId, w: Weather, c: Config)
    requires Underway(g, r) && (g.requests[r].phase.Probing? ==> g.requests[r].pooled)
    ensures var q := g.requests[r]; var next := Stretch(g, r, w, c); var now := w.clock(q.at);
      && r in next.requests && next.requests[r].candidates == q.candidates && next.requests[r].pooled == q.pooled
      && (q.phase.Probing? && w.probe(q.at) ==>
            && next.requests[r].phase == Fetching && next.requests[r].at == q.at
            && next.pool == Apply(g.pool, Acquired(Current(q), now), c))
      && (q.phase.Probing? && !w.probe(q.at) ==>
            && Passed(next, r) && next.requests[r].at == q.at + 1
            && next.pool == Apply(g.pool, Failed(Current(q), now), c))
      && (q.phase.Fetching? ==>
            if Answered(q, w) then
              && next.requests[r].phase == Serving(w.fetch(q.at).value, false, false)
              && next.requests[r].at == q.at && next.pool == g.pool
            else
              && Passed(next, r) && next.requests[r].at == q.at + 1
              && next.pool == Unprobed(Apply(Apply(g.pool, Released(Current(q), now), c), Failed(Current(q), now), c),
                                       q.candidates, q.pooled, q.at + 1, now, c))
  {
    hide Stretch, Apply;
    StretchAdvances(g, r, w, c);
    StretchOutcome(g, r, w, c);
    StretchPool(g, r, w, c);
  }

  // A request that has just moved on.
  predicate Passed(g: Gateway, r: RequestId) {
    && r in g.requests
    && var q := g.requests[r];
       q.phase == if q.at >= |q.candidates| then Exhausted else if q.pooled then Probing else Fetching
  }

  lemma Unroll(g: Gateway, r: RequestId, w: Weather, c: Config)
    ensures Alone(g, r, w, c) == if Underway(g, r) then Alone(Stretch(g, r, w, c), r, w, c) else g
  {
  }
}
