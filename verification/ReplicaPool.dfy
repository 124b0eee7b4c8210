// server/src/gateway/replicaPool.js: the per-process circuit breaker of a replica pool and the
// order in which one request tries the pool's members.
module ReplicaPool {
  import opened Options
  import opened Seqs
  import opened Providers
  import Strings

  datatype PoolName = PoolName(name: string)

  // One entry of the module-level `state` map. `entry(id)` creates FRESH on first use; a lookup
  // that does not insert reads the same values, so the model never inserts on a read.
  datatype Member = Member(inFlight: nat, fails: nat, downUntil: nat, served: nat, failed: nat,
                           lastOk: nat, trialUntil: nat)
  const FRESH := Member(0, 0, 0, 0, 0, 0, 0)
  const TRIAL_MS: nat := 60000

  datatype Tuning = Tuning(failThreshold: nat, cooldownMs: nat)
  type Config = c: Tuning | c.failThreshold > 0 && c.cooldownMs > 0 witness Tuning(1, 30000)

  // The part of an effective() snapshot that pools read. "" stands for an absent baseURL or pool.
  datatype Provider = Provider(baseURL: string, pool: string, draining: bool)
  datatype Snapshot = Snapshot(ids: seq<ProviderId>, providers: map<ProviderId, Provider>)
  type Effective = e: Snapshot | Distinct(e.ids) && forall id :: id in e.ids <==> id in e.providers
    witness Snapshot([], map[])

  type Board = map<ProviderId, Member>
  datatype Pool = Pool(board: Board, rotation: map<PoolName, nat>)
  const EMPTY := Pool(map[], map[])

  function At(board: Board, id: ProviderId): Member {
    if id in board then board[id] else FRESH
  }

  // None: the provider is not replicated.
  function PoolOf(id: ProviderId, eff: Effective): Option<PoolName> {
    if id in eff.providers && eff.providers[id].baseURL != "" && eff.providers[id].pool != ""
    then Some(PoolName(eff.providers[id].pool)) else None
  }

  function InPool(pool: Option<PoolName>, eff: Effective): ProviderId -> bool {
    id => PoolOf(id, eff) == pool
  }

  function Precedes(): (ProviderId, ProviderId) -> bool {
    (a: ProviderId, b: ProviderId) => Strings.Less(a.name, b.name)
  }

  function Members(id: ProviderId, eff: Effective): seq<ProviderId> {
    var pool := PoolOf(id, eff);
    if pool.None? then [id] else Sort(Filter(eff.ids, InPool(pool, eff)), Precedes())
  }

  function Accepting(eff: Effective): ProviderId -> bool {
    id => id in eff.providers && !eff.providers[id].draining
  }

  function Live(id: ProviderId, eff: Effective): seq<ProviderId> {
    Filter(Members(id, eff), Accepting(eff))
  }

  lemma LiveMembers(id: ProviderId, eff: Effective)
    requires PoolOf(id, eff).Some?
    ensures Distinct(Live(id, eff))
    ensures forall m :: m in Live(id, eff) <==>
      m in eff.providers && PoolOf(m, eff) == PoolOf(id, eff) && !eff.providers[m].draining
  {
    var same := Filter(eff.ids, InPool(PoolOf(id, eff), eff));
    FilterDistinct(eff.ids, InPool(PoolOf(id, eff), eff));
    FilterMembers(eff.ids, InPool(PoolOf(id, eff), eff));
    SameMultisetDistinct(same, Members(id, eff));
    forall m ensures m in same <==> m in Members(id, eff) {
      assert m in multiset(same) <==> m in multiset(Members(id, eff));
    }
    FilterDistinct(Members(id, eff), Accepting(eff));
    FilterMembers(Members(id, eff), Accepting(eff));
  }

  // A provider belongs to a pool exactly where it is a custom endpoint with a pool name; the members of a
  // pool that accept requests come in the order of their ids, and any other provider stands for itself.
  lemma PoolInFields(id: ProviderId, eff: Effective)
    ensures var pooled := id in eff.providers && eff.providers[id].baseURL != "" && eff.providers[id].pool != "";
      && (PoolOf(id, eff).Some? <==> pooled)
      && (pooled ==>
            && (forall m :: m in Live(id, eff) <==>
                  && m in eff.providers && eff.providers[m].baseURL != "" && !eff.providers[m].draining
                  && eff.providers[m].pool == eff.providers[id].pool)
            && (forall m :: m in Members(id, eff) <==>
                  && m in eff.providers && eff.providers[m].baseURL != ""
                  && eff.providers[m].pool == eff.providers[id].pool)
            && Distinct(Live(id, eff)) && Distinct(Members(id, eff))
            && (forall i, j :: 0 <= i < j < |Live(id, eff)| ==>
                  !Strings.Less(Live(id, eff)[j].name, Live(id, eff)[i].name)))
      && (!pooled ==> Members(id, eff) == [id])
  {
    if PoolOf(id, eff).Some? {
      LiveMembers(id, eff);
      MembersSorted(id, eff);
      hide Live;
    }
  }

  lemma MembersSorted(id: ProviderId, eff: Effective)
    requires PoolOf(id, eff).Some?
    ensures Distinct(Members(id, eff))
    ensures forall m :: m in Members(id, eff) <==> m in eff.providers && PoolOf(m, eff) == PoolOf(id, eff)
    ensures forall i, j :: 0 <= i < j < |Live(id, eff)| ==>
      !Strings.Less(Live(id, eff)[j].name, Live(id, eff)[i].name)
  {
    var same := Filter(eff.ids, InPool(PoolOf(id, eff), eff));
    FilterDistinct(eff.ids, InPool(PoolOf(id, eff), eff));
    FilterMembers(eff.ids, InPool(PoolOf(id, eff), eff));
    SameMultisetDistinct(same, Members(id, eff));
    SameElements(Members(id, eff), same);
    assert Comparator(Precedes(), Everyone()) by {
      forall a: ProviderId, b: ProviderId, c: ProviderId
        ensures (Precedes()(a, b) ==> !Precedes()(b, a))
             && (!Precedes()(b, a) && !Precedes()(c, b) ==> !Precedes()(c, a))
      {
        NamesOrder(a.name, b.name, c.name);
      }
    }
    SortSorted(same, Precedes(), Everyone());
    forall i, j | 0 <= i < j < |Live(id, eff)|
      ensures !Strings.Less(Live(id, eff)[j].name, Live(id, eff)[i].name)
    {
      var x, y := FilterInOrder(Members(id, eff), Accepting(eff), i, j);
      assert !Precedes()(Members(id, eff)[y], Members(id, eff)[x]);
    }
  }

  lemma NamesOrder(a: string, b: string, c: string)
    ensures !(Strings.Less(a, b) && Strings.Less(b, a))
    ensures !Strings.Less(b, a) && !Strings.Less(c, b) ==> !Strings.Less(c, a)
  {
    Strings.LessTotal(a, b);
    Strings.LessTotal(b, c);
    if Strings.Less(a, b) && Strings.Less(b, c) {
      Strings.LessTransitive(a, b, c);
      Strings.LessTotal(a, c);
    }
  }

  lemma LiveDistinct(id: ProviderId, eff: Effective)
    requires PoolOf(id, eff).Some?
    ensures Distinct(Live(id, eff))
  {
    LiveMembers(id, eff);
  }

  // ---- One member's state -------------------------------------------------------------------

  predicate Recovering(m: Member, now: nat, c: Config) {
    m.downUntil > 0 && m.downUntil <= now && m.fails >= c.failThreshold
  }

  predicate Healthy(m: Member, now: nat, c: Config) {
    m.downUntil <= now && !Recovering(m, now, c)
  }

  predicate Claimable(m: Member, now: nat, c: Config) {
    Recovering(m, now, c) && m.trialUntil <= now
  }

  function Succeed(m: Member, now: nat): Member {
    m.(fails := 0, downUntil := 0, trialUntil := 0, served := m.served + 1, lastOk := now)
  }

  function Fail(m: Member, now: nat, c: Config): Member {
    m.(fails := m.fails + 1, failed := m.failed + 1, trialUntil := 0,
       downUntil := if m.fails + 1 >= c.failThreshold then now + c.cooldownMs else m.downUntil)
  }

  // Math.max(0, inFlight - 1)
  function Drop(m: Member): Member {
    m.(inFlight := if m.inFlight >= 1 then m.inFlight - 1 else 0)
  }

  // ---- order() ------------------------------------------------------------------------------

  // The member whose single trial this request takes: the first recovering one not on trial.
  function Claim(board: Board, live: seq<ProviderId>, now: nat, c: Config): Option<ProviderId> {
    if live == [] then None
    else if Claimable(At(board, live[0]), now, c) then Some(live[0])
    else Claim(board, live[1..], now, c)
  }

  function IndexOf(live: seq<ProviderId>, id: ProviderId): (k: nat)
    ensures id in live ==> k < |live| && live[k] == id
  {
    if live == [] || live[0] == id then 0 else 1 + IndexOf(live[1..], id)
  }

  function Rank(live: seq<ProviderId>, turn: nat, id: ProviderId): int
    requires live != []
  {
    (IndexOf(live, id) - turn % |live| + |live|) % |live|
  }

  function IsHealthy(board: Board, now: nat, c: Config): ProviderId -> bool {
    id => Healthy(At(board, id), now, c)
  }

  function IsCooling(board: Board, now: nat, c: Config, claim: Option<ProviderId>): ProviderId -> bool {
    id => At(board, id).downUntil > now || (Recovering(At(board, id), now, c) && claim != Some(id))
  }

  function LessLoaded(board: Board, live: seq<ProviderId>, turn: nat): (ProviderId, ProviderId) -> bool {
    (a, b) =>
      live != [] &&
      (At(board, a).inFlight < At(board, b).inFlight ||
       (At(board, a).inFlight == At(board, b).inFlight && Rank(live, turn, a) < Rank(live, turn, b)))
  }

  function SoonerUp(board: Board): (ProviderId, ProviderId) -> bool {
    (a, b) => At(board, a).downUntil < At(board, b).downUntil
  }

  function Trial(claim: Option<ProviderId>): seq<ProviderId> {
    if claim.Some? then [claim.value] else []
  }

  function Candidates(board: Board, live: seq<ProviderId>, turn: nat, now: nat, c: Config): seq<ProviderId> {
    var claim := Claim(board, live, now, c);
    Trial(claim)
    + Sort(Filter(live, IsHealthy(board, now, c)), LessLoaded(board, live, turn))
    + Sort(Filter(live, IsCooling(board, now, c, claim)), SoonerUp(board))
  }

  function TakeTrial(board: Board, claim: Option<ProviderId>, now: nat): Board {
    if claim.None? then board
    else board[claim.value := At(board, claim.value).(trialUntil := now + TRIAL_MS)]
  }

  function Turn(p: Pool, pool: PoolName): nat {
    if pool in p.rotation then p.rotation[pool] else 0
  }

  function Order(p: Pool, id: ProviderId, eff: Effective, now: nat, c: Config): seq<ProviderId> {
    var pool := PoolOf(id, eff);
    if pool.None? then [id] else Candidates(p.board, Live(id, eff), Turn(p, pool.value), now, c)
  }

  function Claimed(p: Pool, id: ProviderId, eff: Effective, now: nat, c: Config): Option<ProviderId> {
    if PoolOf(id, eff).None? then None else Claim(p.board, Live(id, eff), now, c)
  }

  function AfterOrder(p: Pool, id: ProviderId, eff: Effective, now: nat, c: Config): Pool {
    var pool := PoolOf(id, eff);
    if pool.None? then p
    else Pool(TakeTrial(p.board, Claimed(p, id, eff, now, c), now), p.rotation[pool.value := Turn(p, pool.value) + 1])
  }

  lemma {:induction false} ClaimIsFirst(board: Board, live: seq<ProviderId>, now: nat, c: Config)
    ensures var claim := Claim(board, live, now, c);
      && (claim.Some? ==> claim.value in live && Claimable(At(board, claim.value), now, c))
      && (claim.None? ==> forall m :: m in live ==> !Claimable(At(board, m), now, c))
  {
    if live != [] && !Claimable(At(board, live[0]), now, c) {
      ClaimIsFirst(board, live[1..], now, c);
    }
  }

  function IsClaimed(claim: Option<ProviderId>): ProviderId -> bool {
    id => claim == Some(id)
  }

  // Trial, healthy and cooling members split the live ones.
  lemma SectionsPartition(board: Board, live: seq<ProviderId>, now: nat, c: Config)
    requires Distinct(live)
    ensures var claim := Claim(board, live, now, c);
      multiset(live) == multiset(Trial(claim)) + multiset(Filter(live, IsHealthy(board, now, c)))
                        + multiset(Filter(live, IsCooling(board, now, c, claim)))
  {
    var claim := Claim(board, live, now, c);
    ClaimIsFirst(board, live, now, c);
    FilterPartition(live, IsClaimed(claim), IsHealthy(board, now, c), IsCooling(board, now, c, claim));
    if claim.Some? {
      FilterSingle(live, IsClaimed(claim), claim.value);
    } else {
      FilterNone(live, IsClaimed(claim));
    }
  }

  lemma CandidatesPermute(board: Board, live: seq<ProviderId>, turn: nat, now: nat, c: Config)
    requires Distinct(live)
    ensures multiset(Candidates(board, live, turn, now, c)) == multiset(live)
    ensures Distinct(Candidates(board, live, turn, now, c))
  {
    SectionsPartition(board, live, now, c);
    SameMultisetDistinct(live, Candidates(board, live, turn, now, c));
  }

  // Every member accepting requests is a candidate exactly once; nothing else is. At most one trial is
  // handed out and it comes first; any other recovering member comes after the healthy ones.
  lemma OrderPermutesLive(p: Pool, id: ProviderId, eff: Effective, now: nat, c: Config)
    requires PoolOf(id, eff).Some?
    ensures multiset(Order(p, id, eff, now, c)) == multiset(Live(id, eff))
    ensures Distinct(Order(p, id, eff, now, c))
    ensures var o := Order(p, id, eff, now, c); var claim := Claimed(p, id, eff, now, c);
      && (claim.Some? ==> o != [] && o[0] == claim.value && Recovering(At(p.board, o[0]), now, c))
      && TrialsLast(p.board, o, claim, now, c)
  {
    hide Live, Candidates, Recovering, TrialsLast;
    LiveDistinct(id, eff);
    CandidatesPermute(p.board, Live(id, eff), Turn(p, PoolOf(id, eff).value), now, c);
    TrialInFront(p.board, Live(id, eff), Turn(p, PoolOf(id, eff).value), now, c);
  }

  // No recovering member stands before a healthy one, except the one on trial.
  ghost predicate TrialsLast(board: Board, o: seq<ProviderId>, claim: Option<ProviderId>, now: nat, c: Config) {
    forall i, j :: 0 <= i < j < |o| && Recovering(At(board, o[i]), now, c) && Healthy(At(board, o[j]), now, c) ==>
      claim == Some(o[i])
  }

  lemma TrialInFront(board: Board, live: seq<ProviderId>, turn: nat, now: nat, c: Config)
    ensures var o := Candidates(board, live, turn, now, c); var claim := Claim(board, live, now, c);
      && (claim.Some? ==> o != [] && o[0] == claim.value && Recovering(At(board, o[0]), now, c))
      && TrialsLast(board, o, claim, now, c)
  {
    hide Candidates;
    ClaimIsFirst(board, live, now, c);
    ClaimLeads(board, live, turn, now, c);
    CandidatesFollowPriority(board, live, turn, now, c);
    var o, claim := Candidates(board, live, turn, now, c), Claim(board, live, now, c);
    forall i, j | 0 <= i < j < |o| && Recovering(At(board, o[i]), now, c) && Healthy(At(board, o[j]), now, c)
      ensures claim == Some(o[i])
    {
      assert !Outranks(board, live, turn, now, c, o[j], o[i]);
    }
  }

  lemma ClaimLeads(board: Board, live: seq<ProviderId>, turn: nat, now: nat, c: Config)
    ensures var o := Candidates(board, live, turn, now, c); var claim := Claim(board, live, now, c);
      claim.Some? ==> o != [] && o[0] == claim.value
  {
    hide Claim, Sort, Filter;
  }

  lemma TrialLeads(p: Pool, provider: ProviderId, eff: Effective, now: nat, c: Config, id: ProviderId)
    requires Claimed(p, provider, eff, now, c) == Some(id)
    ensures Order(p, provider, eff, now, c) != [] && Order(p, provider, eff, now, c)[0] == id
  {
    hide Live;
    ClaimLeads(p.board, Live(provider, eff), Turn(p, PoolOf(provider, eff).value), now, c);
  }

  // The promise of the comment above order(): the claimed trial, then healthy members by load and
  // rotation, then the rest by the end of their cooldown.
  predicate Outranks(board: Board, live: seq<ProviderId>, turn: nat, now: nat, c: Config, a: ProviderId,
                     b: ProviderId) {
    var claim := Claim(board, live, now, c);
    var ha, hb := IsHealthy(board, now, c)(a), IsHealthy(board, now, c)(b);
    if claim == Some(a) || claim == Some(b) then claim == Some(a) && claim != Some(b)
    else if ha && hb then LessLoaded(board, live, turn)(a, b)
    else if ha || hb then ha
    else SoonerUp(board)(a, b)
  }

  lemma OrderFollowsPriority(p: Pool, id: ProviderId, eff: Effective, now: nat, c: Config)
    requires PoolOf(id, eff).Some?
    ensures var o := Order(p, id, eff, now, c);
      forall i, j :: 0 <= i < j < |o| ==>
        !Outranks(p.board, Live(id, eff), Turn(p, PoolOf(id, eff).value), now, c, o[j], o[i])
  {
    CandidatesFollowPriority(p.board, Live(id, eff), Turn(p, PoolOf(id, eff).value), now, c);
  }

  // How far around the ring place k lies from the place whose turn it is.
  function TurnsAway(k: nat, turn: nat, n: nat): int
    requires n > 0
  {
    if k >= turn % n then k - turn % n else k - turn % n + n
  }

  lemma RankIs(live: seq<ProviderId>, turn: nat, k: nat)
    requires k < |live| && Distinct(live)
    ensures Rank(live, turn, live[k]) == TurnsAway(k, turn, |live|)
  {
    var n, t := |live|, turn % |live|;
    IndexUnique(live, k);
    QuotientUnique(k - t + n, if k >= t then 1 else 0, TurnsAway(k, turn, n), n);
  }

  // The same in the members' own fields: past the trial, which is the first recovering member whose trial
  // is free, members that are up come before the others, fewer in flight first and of equals the one
  // whose turn is nearer; the others come by the end of their cooldown.
  lemma OrderInFields(p: Pool, id: ProviderId, eff: Effective, now: nat, c: Config, x: nat, y: nat)
    requires PoolOf(id, eff).Some?
    requires var live := Live(id, eff); x < |live| && y < |live|
    requires var o, live := Order(p, id, eff, now, c), Live(id, eff);
      exists i, j :: 0 <= i < j < |o| && o[i] == live[x] && o[j] == live[y]
    ensures var live, turn := Live(id, eff), Turn(p, PoolOf(id, eff).value);
      var a, b, n := At(p.board, live[x]), At(p.board, live[y]), |live|;
      var aDue, bDue := a.downUntil > 0 && a.fails >= c.failThreshold, b.downUntil > 0 && b.fails >= c.failThreshold;
      var aUp, bUp := a.downUntil <= now && !aDue, b.downUntil <= now && !bDue;
      var onTrial := a.downUntil <= now && aDue && a.trialUntil <= now && Order(p, id, eff, now, c)[0] == live[x];
      && (!onTrial && bUp ==> aUp && a.inFlight <= b.inFlight)
      && (aUp && bUp && a.inFlight == b.inFlight ==> TurnsAway(x, turn, n) <= TurnsAway(y, turn, n))
      && (!onTrial && !aUp && !bUp ==> a.downUntil <= b.downUntil)
      && (b.downUntil <= now && bDue && b.trialUntil <= now ==>
            exists k :: 0 <= k <= y && Order(p, id, eff, now, c)[0] == live[k]
                        && Recovering(At(p.board, live[k]), now, c) && At(p.board, live[k]).trialUntil <= now)
  {
    hide Live, Candidates, Outranks;
    var live, turn := Live(id, eff), Turn(p, PoolOf(id, eff).value);
    var o := Order(p, id, eff, now, c);
    var i, j :| 0 <= i < j < |o| && o[i] == live[x] && o[j] == live[y];
    LiveDistinct(id, eff);
    ClaimIsFirst(p.board, live, now, c);
    ClaimStandsFirst(p.board, live, now, c);
    ClaimLeads(p.board, live, turn, now, c);
    CandidatesPermute(p.board, live, turn, now, c);
    CandidatesFollowPriority(p.board, live, turn, now, c);
    assert !Outranks(p.board, live, turn, now, c, o[j], o[i]);
    PriorityInFields(p.board, live, turn, now, c, x, y);
    if Claimable(At(p.board, live[y]), now, c) {
      var k :| 0 <= k <= y && Claim(p.board, live, now, c) == Some(live[k]);
      assert o[0] == live[k];
    }
  }

  lemma PriorityInFields(board: Board, live: seq<ProviderId>, turn: nat, now: nat, c: Config, x: nat, y: nat)
    requires x < |live| && y < |live| && Distinct(live)
    requires !Outranks(board, live, turn, now, c, live[y], live[x])
    requires Claim(board, live, now, c) != Some(live[y])
    ensures var a, b, n, claim := At(board, live[x]), At(board, live[y]), |live|, Claim(board, live, now, c);
      var aDue, bDue := a.downUntil > 0 && a.fails >= c.failThreshold, b.downUntil > 0 && b.fails >= c.failThreshold;
      var aUp, bUp := a.downUntil <= now && !aDue, b.downUntil <= now && !bDue;
      && (claim != Some(live[x]) && bUp ==> aUp && a.inFlight <= b.inFlight)
      && (aUp && bUp && a.inFlight == b.inFlight ==> TurnsAway(x, turn, n) <= TurnsAway(y, turn, n))
      && (claim != Some(live[x]) && !aUp && !bUp ==> a.downUntil <= b.downUntil)
  {
    hide Rank, TurnsAway;
    RankIs(live, turn, x);
    RankIs(live, turn, y);
    ClaimIsFirst(board, live, now, c);
  }

  lemma {:induction false} ClaimStandsFirst(board: Board, live: seq<ProviderId>, now: nat, c: Config)
    ensures forall y :: 0 <= y < |live| && Claimable(At(board, live[y]), now, c) ==>
      exists k :: 0 <= k <= y && Claim(board, live, now, c) == Some(live[k])
  {
    if live != [] {
      ClaimStandsFirst(board, live[1..], now, c);
      forall y | 0 <= y < |live| && Claimable(At(board, live[y]), now, c)
        ensures exists k :: 0 <= k <= y && Claim(board, live, now, c) == Some(live[k])
      {
        if Claimable(At(board, live[0]), now, c) {
          assert Claim(board, live, now, c) == Some(live[0]);
        } else {
          assert live[1..][y - 1] == live[y];
          var k :| 0 <= k <= y - 1 && Claim(board, live[1..], now, c) == Some(live[1..][k]);
          assert live[k + 1] == live[1..][k];
        }
      }
    }
  }

  lemma CandidatesFollowPriority(board: Board, live: seq<ProviderId>, turn: nat, now: nat, c: Config)
    ensures var o := Candidates(board, live, turn, now, c);
      forall i, j :: 0 <= i < j < |o| ==> !Outranks(board, live, turn, now, c, o[j], o[i])
  {
    var claim := Claim(board, live, now, c);
    ClaimIsFirst(board, live, now, c);
    var healthy := SortedSection(live, IsHealthy(board, now, c), LessLoaded(board, live, turn));
    var cooling := SortedSection(live, IsCooling(board, now, c, claim), SoonerUp(board));
    var o := Candidates(board, live, turn, now, c);
    assert o == Trial(claim) + healthy + cooling;
    forall i, j | 0 <= i < j < |o| ensures !Outranks(board, live, turn, now, c, o[j], o[i]) {
      PriorityAt(board, live, turn, now, c, claim, healthy, cooling, i);
      PriorityAt(board, live, turn, now, c, claim, healthy, cooling, j);
    }
  }

  ghost function Everyone(): iset<ProviderId> {
    iset id: ProviderId {:trigger id.name} | true
  }

  lemma SortedSection(live: seq<ProviderId>, p: ProviderId -> bool, lt: (ProviderId, ProviderId) -> bool)
    returns (r: seq<ProviderId>)
    requires Comparator(lt, Everyone())
    ensures r == Sort(Filter(live, p), lt) && SortedBy(r, lt)
    ensures forall m :: m in r <==> m in live && p(m)
  {
    r := Sort(Filter(live, p), lt);
    FilterMembers(live, p);
    SortSorted(Filter(live, p), lt, Everyone());
    forall m ensures m in r <==> m in Filter(live, p) {
      assert m in multiset(r) <==> m in multiset(Filter(live, p));
    }
  }

  // Which section of the order position i falls in.
  lemma PriorityAt(board: Board, live: seq<ProviderId>, turn: nat, now: nat, c: Config,
                   claim: Option<ProviderId>, healthy: seq<ProviderId>, cooling: seq<ProviderId>, i: nat)
    requires i < |Trial(claim) + healthy + cooling|
    requires forall m :: m in healthy ==> IsHealthy(board, now, c)(m)
    requires forall m :: m in cooling ==> IsCooling(board, now, c, claim)(m)
    requires claim.Some? ==> Recovering(At(board, claim.value), now, c)
    ensures var o := Trial(claim) + healthy + cooling; var t := |Trial(claim)|;
      && (i < t ==> claim == Some(o[i]))
      && (t <= i < t + |healthy| ==> o[i] == healthy[i - t] && IsHealthy(board, now, c)(o[i]) && claim != Some(o[i]))
      && (t + |healthy| <= i ==>
          o[i] == cooling[i - t - |healthy|] && !IsHealthy(board, now, c)(o[i]) && claim != Some(o[i]))
  {
    var o := Trial(claim) + healthy + cooling;
    var t := |Trial(claim)|;
    if t <= i < t + |healthy| {
      assert o[i] in healthy;
    } else if t + |healthy| <= i {
      assert o[i] in cooling;
    }
  }

  // ---- Even spreading -----------------------------------------------------------------------

  ghost predicate AllHealthy(board: Board, live: seq<ProviderId>, now: nat, c: Config) {
    forall m :: m in live ==> Healthy(At(board, m), now, c)
  }

  lemma HealthyPoolHead(board: Board, live: seq<ProviderId>, turn: nat, now: nat, c: Config)
    requires live != [] && Distinct(live) && AllHealthy(board, live, now, c)
    ensures var o := Candidates(board, live, turn, now, c);
      && o != [] && o[0] in live
      && (forall m :: m in live ==> !LessLoaded(board, live, turn)(m, o[0]))
      && (forall m :: m in live ==> At(board, o[0]).inFlight <= At(board, m).inFlight)
  {
    ClaimIsFirst(board, live, now, c);
    CandidatesPermute(board, live, turn, now, c);
    CandidatesFollowPriority(board, live, turn, now, c);
    var o := Candidates(board, live, turn, now, c);
    SameElements(o, live);
    forall m | m in live
      ensures !LessLoaded(board, live, turn)(m, o[0]) && At(board, o[0]).inFlight <= At(board, m).inFlight
    {
      HeadNotOutranked(board, live, turn, now, c, o, m);
    }
  }

  lemma SameElements(s: seq<ProviderId>, t: seq<ProviderId>)
    requires multiset(s) == multiset(t)
    ensures |s| == |t| && forall m :: m in s <==> m in t
  {
    assert |multiset(s)| == |multiset(t)|;
    forall m ensures m in s <==> m in t {
      assert m in multiset(s) <==> m in multiset(t);
    }
  }

  lemma HeadNotOutranked(board: Board, live: seq<ProviderId>, turn: nat, now: nat, c: Config, o: seq<ProviderId>,
                         m: ProviderId)
    requires o != [] && m in o && o[0] in live && m in live
    requires AllHealthy(board, live, now, c) && Claim(board, live, now, c) == None
    requires forall i, j :: 0 <= i < j < |o| ==> !Outranks(board, live, turn, now, c, o[j], o[i])
    ensures !LessLoaded(board, live, turn)(m, o[0]) && At(board, o[0]).inFlight <= At(board, m).inFlight
  {
    var k :| 0 <= k < |o| && o[k] == m;
    assert k > 0 ==> !Outranks(board, live, turn, now, c, o[k], o[0]);
  }

  // With equal load, call number `turn` puts member (turn mod n) first, so any n consecutive calls
  // put each of the n members first exactly once.
  lemma EqualLoadRotates(board: Board, live: seq<ProviderId>, turn: nat, now: nat, c: Config)
    requires live != [] && Distinct(live) && AllHealthy(board, live, now, c)
    requires forall a, b :: a in live && b in live ==> At(board, a).inFlight == At(board, b).inFlight
    ensures Candidates(board, live, turn, now, c) != []
    ensures Candidates(board, live, turn, now, c)[0] == live[turn % |live|]
  {
    HealthyPoolHead(board, live, turn, now, c);
    var head := Candidates(board, live, turn, now, c)[0];
    TurnedRank(live, turn);
    assert !LessLoaded(board, live, turn)(live[turn % |live|], head);
    LeastRank(board, live, turn, live[turn % |live|], head);
    ZeroRank(live, turn, head);
  }

  lemma LeastRank(board: Board, live: seq<ProviderId>, turn: nat, a: ProviderId, b: ProviderId)
    requires live != [] && !LessLoaded(board, live, turn)(a, b) && At(board, a).inFlight <= At(board, b).inFlight
    ensures Rank(live, turn, b) <= Rank(live, turn, a)
  {
  }

  lemma TurnedRank(live: seq<ProviderId>, turn: nat)
    requires live != [] && Distinct(live)
    ensures turn % |live| < |live| && Rank(live, turn, live[turn % |live|]) == 0
  {
    var k := turn % |live|;
    IndexUnique(live, k);
    QuotientUnique(k - k + |live|, 1, 0, |live|);
  }

  lemma ZeroRank(live: seq<ProviderId>, turn: nat, id: ProviderId)
    requires id in live && Rank(live, turn, id) <= 0
    ensures id == live[turn % |live|]
  {
    var n, k, i := |live|, turn % |live|, IndexOf(live, id);
    if i >= k {
      QuotientUnique(i - k + n, 1, i - k, n);
    } else {
      QuotientUnique(i - k + n, 0, i - k + n, n);
    }
  }

  lemma {:induction false} IndexUnique(live: seq<ProviderId>, k: nat)
    requires k < |live| && Distinct(live)
    ensures IndexOf(live, live[k]) == k
  {
    if k > 0 {
      IndexUnique(live[1..], k - 1);
    }
  }

  lemma ResidueWalk(start: nat, t: nat, n: nat)
    requires n > 0 && start <= t < start + n
    ensures t % n == (if start % n + (t - start) < n then start % n + (t - start) else start % n + (t - start) - n)
  {
    var q, s := start / n, start % n;
    assert start == q * n + s;
    if s + (t - start) < n {
      QuotientUnique(t, q, s + (t - start), n);
    } else {
      assert t == (q + 1) * n + (s + (t - start) - n);
      QuotientUnique(t, q + 1, s + (t - start) - n, n);
    }
  }

  lemma QuotientUnique(t: int, q: int, r: int, n: nat)
    requires n > 0 && 0 <= r < n && t == q * n + r
    ensures t % n == r
  {
    var q', r' := t / n, t % n;
    assert (q - q') * n == r' - r;
    if q > q' {
      StretchedGap(q - q', n);
    } else if q < q' {
      StretchedGap(q' - q, n);
    }
  }

  lemma StretchedGap(gap: nat, n: nat)
    requires gap >= 1
    ensures gap * n >= n
  {
    assert gap * n == n + (gap - 1) * n;
  }

  ghost predicate WithinOne(board: Board, live: seq<ProviderId>, base: nat) {
    forall m :: m in live ==> base <= At(board, m).inFlight <= base + 1
  }

  // ---- Runs ---------------------------------------------------------------------------------

  datatype Event =
    | Ordered(id: ProviderId, eff: Effective, now: nat)
    | Acquired(id: ProviderId, now: nat)
    | Released(id: ProviderId, now: nat)
    | Succeeded(id: ProviderId, now: nat)
    | Failed(id: ProviderId, now: nat)

  function Put(p: Pool, id: ProviderId, m: Member): Pool {
    p.(board := p.board[id := m])
  }

  function Apply(p: Pool, e: Event, c: Config): Pool {
    match e
    case Ordered(id, eff, now) => AfterOrder(p, id, eff, now, c)
    case Acquired(id, _) => Put(p, id, At(p.board, id).(inFlight := At(p.board, id).inFlight + 1))
    case Released(id, _) => Put(p, id, Drop(At(p.board, id)))
    case Succeeded(id, now) => Put(p, id, Succeed(At(p.board, id), now))
    case Failed(id, now) => Put(p, id, Fail(At(p.board, id), now, c))
  }

  // What each call leaves in its member's fields: either report ends the trial, a success closes the
  // breaker, and a failure opens it from the threshold on. No other member is touched.
  lemma CallsInFields(p: Pool, id: ProviderId, now: nat, c: Config)
    ensures var m := At(p.board, id);
      var ok, bad := At(Apply(p, Succeeded(id, now), c).board, id), At(Apply(p, Failed(id, now), c).board, id);
      && ok == Member(m.inFlight, 0, 0, m.served + 1, m.failed, now, 0)
      && bad.inFlight == m.inFlight && bad.fails == m.fails + 1 && bad.failed == m.failed + 1 && bad.trialUntil == 0
      && bad.served == m.served && bad.lastOk == m.lastOk
      && (bad.fails >= c.failThreshold ==> bad.downUntil == now + c.cooldownMs)
      && (bad.fails < c.failThreshold ==> bad.downUntil == m.downUntil)
      && At(Apply(p, Acquired(id, now), c).board, id) == m.(inFlight := m.inFlight + 1)
      && At(Apply(p, Released(id, now), c).board, id) == m.(inFlight := if m.inFlight > 0 then m.inFlight - 1 else 0)
    ensures forall e :: (e == Succeeded(id, now) || e == Failed(id, now) || e == Acquired(id, now)
                         || e == Released(id, now)) ==>
      Apply(p, e, c).rotation == p.rotation
      && forall other :: other != id ==> At(Apply(p, e, c).board, other) == At(p.board, other)
  {
  }

  // order() writes the end of the trial it hands out and the pool's turn, and nothing else.
  lemma OrderWrites(p: Pool, id: ProviderId, eff: Effective, now: nat, c: Config, m: ProviderId)
    ensures var q := Apply(p, Ordered(id, eff, now), c); var was, now' := At(p.board, m), At(q.board, m);
      && now' == was.(trialUntil := now'.trialUntil)
      && now'.trialUntil ==
           (if PoolOf(id, eff).Some? && Order(p, id, eff, now, c) != [] && Order(p, id, eff, now, c)[0] == m
               && 0 < was.downUntil <= now && was.fails >= c.failThreshold && was.trialUntil <= now
            then now + 60000 else was.trialUntil)
      && forall name :: Turn(q, name) == Turn(p, name) + if PoolOf(id, eff) == Some(name) then 1 else 0
    ensures forall name :: Turn(EMPTY, name) == 0
  {
    hide Live, Candidates;
    if PoolOf(id, eff).Some? {
      ClaimIsFirst(p.board, Live(id, eff), now, c);
      ClaimLeads(p.board, Live(id, eff), Turn(p, PoolOf(id, eff).value), now, c);
      LiveDistinct(id, eff);
      CandidatesPermute(p.board, Live(id, eff), Turn(p, PoolOf(id, eff).value), now, c);
      SameElements(Order(p, id, eff, now, c), Live(id, eff));
    }
  }

  function After(events: seq<Event>, k: nat, c: Config): Pool
    requires k <= |events|
  {
    if k == 0 then EMPTY else Apply(After(events, k - 1, c), events[k - 1], c)
  }

  function ApplyAll(p: Pool, events: seq<Event>, c: Config): Pool {
    if events == [] then p else Apply(ApplyAll(p, events[..|events| - 1], c), events[|events| - 1], c)
  }

  lemma ApplyOne(p: Pool, e: Event, c: Config)
    ensures ApplyAll(p, [e], c) == Apply(p, e, c)
  {
    assert [e][..0] == [];
  }

  lemma {:induction false} ApplyAppend(p: Pool, a: seq<Event>, b: seq<Event>, c: Config)
    ensures ApplyAll(p, a + b, c) == ApplyAll(ApplyAll(p, a, c), b, c)
    decreases |b|
  {
    if b == [] {
      assert a + b == a;
    } else {
      assert (a + b)[..|a + b| - 1] == a + b[..|b| - 1];
      ApplyAppend(p, a, b[..|b| - 1], c);
    }
  }

  lemma ApplyNone(p: Pool, c: Config)
    ensures ApplyAll(p, [], c) == p
  {
  }

  lemma {:induction false} AfterIsApplyAll(events: seq<Event>, k: nat, c: Config)
    requires k <= |events|
    ensures After(events, k, c) == ApplyAll(EMPTY, events[..k], c)
  {
    if k > 0 {
      AfterIsApplyAll(events, k - 1, c);
      assert events[..k][..k - 1] == events[..k - 1];
    }
  }

  // What the breaker is meant to count: failures reported since the last success.
  function FailureStreak(events: seq<Event>, k: nat, id: ProviderId): nat
    requires k <= |events|
  {
    if k == 0 then 0
    else if events[k - 1] == Succeeded(id, events[k - 1].now) then 0
    else FailureStreak(events, k - 1, id) + if events[k - 1] == Failed(id, events[k - 1].now) then 1 else 0
  }

  // The clock at the last failure of the current streak.
  function LastFailure(events: seq<Event>, k: nat, id: ProviderId): nat
    requires k <= |events| && FailureStreak(events, k, id) > 0
  {
    if events[k - 1] == Failed(id, events[k - 1].now) then events[k - 1].now else LastFailure(events, k - 1, id)
  }

  ghost predicate CountsStreak(p: Pool, events: seq<Event>, k: nat, id: ProviderId, c: Config)
    requires k <= |events|
  {
    var m := At(p.board, id); var streak := FailureStreak(events, k, id);
    && m.fails == streak
    && m.downUntil == (if streak >= c.failThreshold then LastFailure(events, k, id) + c.cooldownMs else 0)
  }

  lemma StepCountsStreak(p: Pool, events: seq<Event>, k: nat, id: ProviderId, c: Config)
    requires k < |events| && CountsStreak(p, events, k, id, c)
    ensures CountsStreak(Apply(p, events[k], c), events, k + 1, id, c)
  {
  }

  lemma {:induction false} BreakerCountsStreak(events: seq<Event>, k: nat, id: ProviderId, c: Config)
    requires k <= |events|
    ensures CountsStreak(After(events, k, c), events, k, id, c)
  {
    if k > 0 {
      BreakerCountsStreak(events, k - 1, id, c);
      StepCountsStreak(After(events, k - 1, c), events, k - 1, id, c);
    }
  }

  // In every reachable state a member is healthy exactly while fewer than `failThreshold` failures
  // were reported since its last success, `downUntil` is set exactly when the threshold is
  // reached, and it is recovering exactly when the cooldown after the last failure has passed.
  lemma BreakerVerdict(events: seq<Event>, k: nat, id: ProviderId, now: nat, c: Config)
    requires k <= |events|
    ensures var m := At(After(events, k, c).board, id); var streak := FailureStreak(events, k, id);
      && (m.downUntil > 0 <==> m.fails >= c.failThreshold)
      && (Healthy(m, now, c) <==> streak < c.failThreshold)
      && (Recovering(m, now, c) <==>
          streak >= c.failThreshold && LastFailure(events, k, id) + c.cooldownMs <= now)
  {
    BreakerCountsStreak(events, k, id, c);
  }

  predicate ClaimsTrial(events: seq<Event>, k: nat, id: ProviderId, c: Config)
    requires k < |events|
  {
    events[k].Ordered? &&
    Claimed(After(events, k, c), events[k].id, events[k].eff, events[k].now, c) == Some(id)
  }

  predicate Reports(e: Event, id: ProviderId) {
    (e.Succeeded? || e.Failed?) && e.id == id
  }

  ghost predicate Chronological(events: seq<Event>) {
    forall i, j :: 0 <= i < j < |events| ==> events[i].now <= events[j].now
  }

  // ---- Even spreading over runs ----------------------------------------------------------------

  // Calls of order() for one pool, through whichever of its members.
  ghost predicate AsksPool(events: seq<Event>, eff: Effective, pool: PoolName) {
    forall k :: 0 <= k < |events| ==>
      events[k].Ordered? && events[k].eff == eff && PoolOf(events[k].id, eff) == Some(pool)
  }

  lemma LiveOfPool(a: ProviderId, b: ProviderId, eff: Effective)
    requires PoolOf(a, eff).Some? && PoolOf(a, eff) == PoolOf(b, eff)
    ensures Live(a, eff) == Live(b, eff)
  {
  }

  lemma StaysHealthy(board: Board, live: seq<ProviderId>, now: nat, later: nat, c: Config)
    requires AllHealthy(board, live, now, c) && now <= later
    ensures AllHealthy(board, live, later, c) && Claim(board, live, later, c) == None
  {
    ClaimIsFirst(board, live, later, c);
  }

  // With every member healthy a call moves nothing but the pool's turn.
  lemma OrderOnlyTurns(p: Pool, id: ProviderId, eff: Effective, now: nat, c: Config, pool: PoolName)
    requires PoolOf(id, eff) == Some(pool) && AllHealthy(p.board, Live(id, eff), now, c)
    ensures var q := Apply(p, Ordered(id, eff, now), c);
      q.board == p.board && Turn(q, pool) == Turn(p, pool) + 1
  {
    hide Live;
    StaysHealthy(p.board, Live(id, eff), now, now, c);
  }

  lemma {:induction false} OrdersOnlyTurn(p: Pool, events: seq<Event>, k: nat, eff: Effective, pool: PoolName,
                                          live: seq<ProviderId>, c: Config)
    requires k <= |events| && AsksPool(events, eff, pool) && Chronological(events)
    requires forall j :: 0 <= j < |events| ==> Live(events[j].id, eff) == live
    requires events != [] ==> AllHealthy(p.board, live, events[0].now, c)
    ensures var q := ApplyAll(p, events[..k], c); q.board == p.board && Turn(q, pool) == Turn(p, pool) + k
  {
    hide Apply, Live, AllHealthy, PoolOf, Turn;
    if k > 0 {
      OrdersOnlyTurn(p, events, k - 1, eff, pool, live, c);
      assert events[..k][..k - 1] == events[..k - 1] && events[..k][k - 1] == events[k - 1];
      StaysHealthy(p.board, live, events[0].now, events[k - 1].now, c);
      OrderOnlyTurns(ApplyAll(p, events[..k - 1], c), events[k - 1].id, eff, events[k - 1].now, c, pool);
    }
  }

  // In a pool of n members, all healthy and equally loaded, n calls of order() in a row put member k
  // first on exactly one of them.
  lemma EachFirstOnce(p: Pool, events: seq<Event>, eff: Effective, pool: PoolName, c: Config, k: nat) returns (at: nat)
    requires events != [] && AsksPool(events, eff, pool) && Chronological(events)
    requires var live := Live(events[0].id, eff);
      && |events| == |live| && k < |live| && AllHealthy(p.board, live, events[0].now, c)
      && forall a, b :: a in live && b in live ==> At(p.board, a).inFlight == At(p.board, b).inFlight
    ensures at < |events|
    ensures forall j :: 0 <= j < |events| ==>
      var o := Order(ApplyAll(p, events[..j], c), events[j].id, eff, events[j].now, c);
      o != [] && (o[0] == Live(events[0].id, eff)[k] <==> j == at)
  {
    hide Candidates, ApplyAll, Live, AllHealthy;
    var live := Live(events[0].id, eff);
    var n, start := |live|, Turn(p, pool);
    var s := start % n;
    at := if k >= s then k - s else k - s + n;
    LiveDistinct(events[0].id, eff);
    forall j | 0 <= j < |events| ensures Live(events[j].id, eff) == live {
      LiveOfPool(events[0].id, events[j].id, eff);
    }
    forall j | 0 <= j < |events|
      ensures var o := Order(ApplyAll(p, events[..j], c), events[j].id, eff, events[j].now, c);
        o != [] && (o[0] == live[k] <==> j == at)
    {
      OrdersOnlyTurn(p, events, j, eff, pool, live, c);
      StaysHealthy(p.board, live, events[0].now, events[j].now, c);
      EqualLoadRotates(p.board, live, start + j, events[j].now, c);
      ResidueWalk(start, start + j, n);
      assert live[(start + j) % n] == live[k] <==> (start + j) % n == k;
    }
  }

  // Requests dispatched one at a time, each to the first candidate it is given.
  function Dispatched(p: Pool, calls: seq<Event>, c: Config): seq<Event>
    requires forall k :: 0 <= k < |calls| ==> calls[k].Ordered?
  {
    if calls == [] then []
    else
      var before, e := Dispatched(p, calls[..|calls| - 1], c), calls[|calls| - 1];
      var o := Order(ApplyAll(p, before, c), e.id, e.eff, e.now, c);
      before + [e] + if o == [] then [] else [Acquired(o[0], e.now)]
  }

  lemma SendStaysEven(board: Board, after: Board, live: seq<ProviderId>, head: ProviderId, base: nat, now: nat,
                      c: Config)
    returns (base': nat)
    requires head in live && WithinOne(board, live, base) && AllHealthy(board, live, now, c)
    requires forall m :: m in live ==> At(board, head).inFlight <= At(board, m).inFlight
    requires after == board[head := At(board, head).(inFlight := At(board, head).inFlight + 1)]
    ensures WithinOne(after, live, base') && AllHealthy(after, live, now, c)
  {
    base' := if At(board, head).inFlight == base then base else base + 1;
  }

  lemma DispatchOne(p: Pool, e: Event, eff: Effective, pool: PoolName, live: seq<ProviderId>, c: Config, base: nat)
    returns (base': nat)
    requires e.Ordered? && e.eff == eff && PoolOf(e.id, eff) == Some(pool) && live == Live(e.id, eff) && live != []
    requires AllHealthy(p.board, live, e.now, c) && WithinOne(p.board, live, base)
    ensures var o := Order(p, e.id, eff, e.now, c);
      && o != []
      && var q := Apply(Apply(p, e, c), Acquired(o[0], e.now), c);
         AllHealthy(q.board, live, e.now, c) && WithinOne(q.board, live, base')
  {
    hide Candidates, Live, AllHealthy, WithinOne;
    LiveDistinct(e.id, eff);
    HealthyPoolHead(p.board, live, Turn(p, pool), e.now, c);
    OrderOnlyTurns(p, e.id, eff, e.now, c, pool);
    var o := Order(p, e.id, eff, e.now, c);
    base' := SendStaysEven(p.board, Apply(Apply(p, e, c), Acquired(o[0], e.now), c).board, live, o[0], base, e.now, c);
  }

  lemma {:induction false} DispatchStaysEven(p: Pool, calls: seq<Event>, eff: Effective, pool: PoolName,
                                             live: seq<ProviderId>, c: Config, base: nat) returns (base': nat)
    requires AsksPool(calls, eff, pool) && Chronological(calls) && live != []
    requires forall j :: 0 <= j < |calls| ==> Live(calls[j].id, eff) == live
    requires WithinOne(p.board, live, base) && (calls != [] ==> AllHealthy(p.board, live, calls[0].now, c))
    ensures var q := ApplyAll(p, Dispatched(p, calls, c), c);
      && WithinOne(q.board, live, base')
      && (calls != [] ==> AllHealthy(q.board, live, calls[|calls| - 1].now, c))
  {
    hide Apply, Order, Live, AllHealthy, WithinOne, PoolOf;
    base' := base;
    if calls == [] {
      ApplyNone(p, c);
    } else {
      var front, e := calls[..|calls| - 1], calls[|calls| - 1];
      base' := DispatchStaysEven(p, front, eff, pool, live, c, base);
      var before := Dispatched(p, front, c);
      var q := ApplyAll(p, before, c);
      if front == [] {
        ApplyNone(p, c);
      } else {
        StaysHealthy(q.board, live, front[|front| - 1].now, e.now, c);
      }
      base' := DispatchOne(q, e, eff, pool, live, c, base');
      var o := Order(q, e.id, e.eff, e.now, c);
      ApplyAppend(p, before, [e], c);
      ApplyOne(q, e, c);
      ApplyAppend(p, before + [e], [Acquired(o[0], e.now)], c);
      ApplyOne(Apply(q, e, c), Acquired(o[0], e.now), c);
    }
  }

  // From equal load, all members healthy, dispatching any number of requests to the first candidate
  // with nothing released leaves no two members more than one request apart.
  lemma LoadStaysEven(p: Pool, calls: seq<Event>, eff: Effective, pool: PoolName, c: Config, base: nat)
    requires calls != [] && AsksPool(calls, eff, pool) && Chronological(calls)
    requires var live := Live(calls[0].id, eff);
      && live != [] && AllHealthy(p.board, live, calls[0].now, c)
      && forall m :: m in live ==> At(p.board, m).inFlight == base
    ensures var after := ApplyAll(p, Dispatched(p, calls, c), c).board; var live := Live(calls[0].id, eff);
      forall a, b :: a in live && b in live ==> At(after, a).inFlight <= At(after, b).inFlight + 1
  {
    hide Live, Dispatched, ApplyAll;
    var live := Live(calls[0].id, eff);
    forall j | 0 <= j < |calls| ensures Live(calls[j].id, eff) == live {
      LiveOfPool(calls[0].id, calls[j].id, eff);
    }
    var base' := DispatchStaysEven(p, calls, eff, pool, live, c, base);
  }

  // ---- Trials --------------------------------------------------------------------------------------

  // Without a report on it, a member's trial never ends earlier than it was to end.
  lemma TrialKept(p: Pool, e: Event, id: ProviderId, until: nat, c: Config)
    requires At(p.board, id).trialUntil >= until && e.now + TRIAL_MS >= until && !Reports(e, id)
    ensures At(Apply(p, e, c).board, id).trialUntil >= until
  {
  }

  lemma TrialStarts(p: Pool, e: Event, id: ProviderId, c: Config)
    requires e.Ordered? && Claimed(p, e.id, e.eff, e.now, c) == Some(id)
    ensures At(Apply(p, e, c).board, id).trialUntil == e.now + TRIAL_MS
  {
  }

  function TrialEnd(events: seq<Event>, k: nat, id: ProviderId, c: Config): nat
    requires k <= |events|
  {
    At(After(events, k, c).board, id).trialUntil
  }

  lemma {:induction false} TrialHeld(events: seq<Event>, i: nat, k: nat, id: ProviderId, c: Config, until: nat)
    requires i < k <= |events|
    requires TrialEnd(events, i + 1, id, c) >= until
    requires forall j :: i < j < k ==> !Reports(events[j], id) && events[j].now + TRIAL_MS >= until
    ensures TrialEnd(events, k, id, c) >= until
    decreases k
  {
    if k > i + 1 {
      TrialHeld(events, i, k - 1, id, c, until);
      TrialKept(After(events, k - 1, c), events[k - 1], id, until, c);
    }
  }

  // Half-open: two trial claims on one member have a report on that member between them, or lie at
  // least TRIAL_MS apart.
  lemma TrialsSeparated(events: seq<Event>, i: nat, j: nat, id: ProviderId, c: Config)
    requires i < j < |events| && Chronological(events)
    requires ClaimsTrial(events, i, id, c) && ClaimsTrial(events, j, id, c)
    ensures events[j].now >= events[i].now + TRIAL_MS ||
      exists k :: i < k < j && (events[k] == Succeeded(id, events[k].now) || events[k] == Failed(id, events[k].now))
  {
    if k :| i < k < j && Reports(events[k], id) {
      assert events[k] == Succeeded(id, events[k].now) || events[k] == Failed(id, events[k].now);
    } else {
      TrialStarts(After(events, i, c), events[i], id, c);
      TrialHeld(events, i, j, id, c, events[i].now + TRIAL_MS);
      ClaimIsFirst(After(events, j, c).board, Live(events[j].id, events[j].eff), events[j].now, c);
    }
  }

  // ---- The module's functions over its mutable state -----------------------------------------

  class Dispatcher {
    const config: Config
    var board: Board
    var rotation: map<PoolName, nat>

    function State(): Pool
      reads this
    {
      Pool(board, rotation)
    }

    constructor (config: Config)
      ensures State() == EMPTY && this.config == config
    {
      this.config := config;
      board, rotation := map[], map[];
    }

    // The loop of order() that hands this request at most one trial.
    method TakeOneTrial(live: seq<ProviderId>, now: nat) returns (trial: seq<ProviderId>, waiting: seq<ProviderId>)
      requires Distinct(live)
      modifies this`board
      ensures trial == Trial(Claim(old(board), live, now, config))
      ensures board == TakeTrial(old(board), Claim(old(board), live, now, config), now)
      ensures forall m :: m in waiting <==>
        m in live && Recovering(At(old(board), m), now, config) && Claim(old(board), live, now, config) != Some(m)
    {
      trial, waiting := [], [];
      ghost var claim := Claim(board, live, now, config);
      var k := 0;
      while k < |live|
        invariant 0 <= k <= |live|
        invariant trial == [] ==> board == old(board) && claim == Claim(old(board), live[k..], now, config)
        invariant trial == [] || (claim.Some? && trial == [claim.value] && claim.value in live[..k])
        invariant trial != [] ==> board == TakeTrial(old(board), claim, now)
        invariant forall m :: m in waiting <==>
          m in live[..k] && Recovering(At(old(board), m), now, config) && claim != Some(m)
      {
        var id := live[k];
        var s := At(board, id);
        assert live[..k + 1] == live[..k] + [id];
        assert trial != [] ==> id != claim.value;
        ClaimFromTail(old(board), live, k, now, config);
        if trial == [] && claim == Some(id) {
          ClaimIsFirst(old(board), live[k..], now, config);
        }
        if Recovering(s, now, config) {
          if s.trialUntil > now {
            waiting := waiting + [id];
          } else if trial == [] {
            board := board[id := s.(trialUntil := now + TRIAL_MS)];
            trial := [id];
          } else {
            waiting := waiting + [id];
          }
        }
        k := k + 1;
      }
      assert live[..k] == live;
    }

    // order() once the pool, its live members and its turn are known.
    method OrderLive(live: seq<ProviderId>, turn: nat, now: nat) returns (candidates: seq<ProviderId>)
      requires Distinct(live)
      modifies this`board
      ensures candidates == Candidates(old(board), live, turn, now, config)
      ensures board == TakeTrial(old(board), Claim(old(board), live, now, config), now)
    {
      var trial, waiting := TakeOneTrial(live, now);
      candidates := Sections(trial, waiting, board, live, turn, now, config);
      SameSections(old(board), board, live, turn, now, config, waiting);
    }

    method NextOrder(providerId: ProviderId, eff: Effective, now: nat) returns (candidates: seq<ProviderId>)
      modifies this
      ensures candidates == Order(old(State()), providerId, eff, now, config)
      ensures State() == Apply(old(State()), Ordered(providerId, eff, now), config)
    {
      hide Candidates, Live, Claim;
      var pool := PoolOf(providerId, eff);
      if pool.None? {
        return [providerId];
      }
      LiveDistinct(providerId, eff);
      var turn := if pool.value in rotation then rotation[pool.value] else 0;
      rotation := rotation[pool.value := turn + 1];
      candidates := OrderLive(Live(providerId, eff), turn, now);
    }

    method Acquire(id: ProviderId)
      modifies this`board
      ensures forall now :: State() == Apply(old(State()), Acquired(id, now), config)
    {
      board := board[id := At(board, id).(inFlight := At(board, id).inFlight + 1)];
    }

    method Release(id: ProviderId)
      modifies this`board
      ensures forall now :: State() == Apply(old(State()), Released(id, now), config)
    {
      var s := At(board, id);
      board := board[id := s.(inFlight := if s.inFlight - 1 > 0 then s.inFlight - 1 else 0)];
    }

    method ReportSuccess(id: ProviderId, now: nat)
      modifies this`board
      ensures State() == Apply(old(State()), Succeeded(id, now), config)
    {
      var s := At(board, id);
      s := s.(fails := 0);
      s := s.(downUntil := 0);
      s := s.(trialUntil := 0);
      s := s.(served := s.served + 1);
      s := s.(lastOk := now);
      board := board[id := s];
    }

    method ReportFailure(id: ProviderId, now: nat)
      modifies this`board
      ensures State() == Apply(old(State()), Failed(id, now), config)
    {
      var s := At(board, id);
      s := s.(fails := s.fails + 1);
      s := s.(failed := s.failed + 1);
      s := s.(trialUntil := 0);
      if s.fails >= config.failThreshold {
        s := s.(downUntil := now + config.cooldownMs);
      }
      board := board[id := s];
    }
  }

  // The two filters as order() writes them, reading the board after the trial was taken.
  function HealthyTest(board: Board, now: nat, c: Config): ProviderId -> bool {
    id => At(board, id).downUntil <= now && !Recovering(At(board, id), now, c)
  }

  function CoolingTest(board: Board, now: nat, waiting: seq<ProviderId>): ProviderId -> bool {
    id => At(board, id).downUntil > now || id in waiting
  }

  // Taking the trial changes nothing that the two sections are filtered or sorted by.
  function Sections(trial: seq<ProviderId>, waiting: seq<ProviderId>, board: Board, live: seq<ProviderId>,
                    turn: nat, now: nat, c: Config): seq<ProviderId> {
    trial
    + Sort(Filter(live, HealthyTest(board, now, c)), LessLoaded(board, live, turn))
    + Sort(Filter(live, CoolingTest(board, now, waiting)), SoonerUp(board))
  }

  lemma SameSections(before: Board, after: Board, live: seq<ProviderId>, turn: nat, now: nat, c: Config,
                     waiting: seq<ProviderId>)
    requires after == TakeTrial(before, Claim(before, live, now, c), now)
    requires forall m :: m in waiting <==>
      m in live && Recovering(At(before, m), now, c) && Claim(before, live, now, c) != Some(m)
    ensures Sections(Trial(Claim(before, live, now, c)), waiting, after, live, turn, now, c)
         == Candidates(before, live, turn, now, c)
  {
    assert SameHealth(before, after);
    SameHealthSection(before, after, live, turn, now, c);
    SameCoolingSection(before, after, live, now, c, waiting);
  }

  ghost predicate SameHealth(before: Board, after: Board) {
    forall m :: At(after, m) == At(before, m).(trialUntil := At(after, m).trialUntil)
  }

  lemma SameHealthSection(before: Board, after: Board, live: seq<ProviderId>, turn: nat, now: nat, c: Config)
    requires SameHealth(before, after)
    ensures Sort(Filter(live, HealthyTest(after, now, c)), LessLoaded(after, live, turn))
         == Sort(Filter(live, IsHealthy(before, now, c)), LessLoaded(before, live, turn))
  {
    SameSection(live, HealthyTest(after, now, c), IsHealthy(before, now, c),
                LessLoaded(after, live, turn), LessLoaded(before, live, turn));
  }

  lemma SameCoolingSection(before: Board, after: Board, live: seq<ProviderId>, now: nat, c: Config,
                           waiting: seq<ProviderId>)
    requires SameHealth(before, after)
    requires forall m :: m in waiting <==>
      m in live && Recovering(At(before, m), now, c) && Claim(before, live, now, c) != Some(m)
    ensures Sort(Filter(live, CoolingTest(after, now, waiting)), SoonerUp(after))
         == Sort(Filter(live, IsCooling(before, now, c, Claim(before, live, now, c))), SoonerUp(before))
  {
    SameSection(live, CoolingTest(after, now, waiting), IsCooling(before, now, c, Claim(before, live, now, c)),
                SoonerUp(after), SoonerUp(before));
  }

  lemma SameSection(live: seq<ProviderId>, p: ProviderId -> bool, q: ProviderId -> bool,
                    f: (ProviderId, ProviderId) -> bool, g: (ProviderId, ProviderId) -> bool)
    requires forall m :: m in live ==> p(m) == q(m)
    requires forall a, b :: f(a, b) == g(a, b)
    ensures Sort(Filter(live, p), f) == Sort(Filter(live, q), g)
  {
    FilterExt(live, p, q);
    SortExt(Filter(live, q), f, g);
  }

  lemma ClaimFromTail(board: Board, live: seq<ProviderId>, k: nat, now: nat, c: Config)
    requires k < |live|
    ensures Claim(board, live[k..], now, c) ==
      if Claimable(At(board, live[k]), now, c) then Some(live[k]) else Claim(board, live[k + 1..], now, c)
  {
    assert live[k..][1..] == live[k + 1..];
  }

  lemma {:induction false} SortExt(s: seq<ProviderId>, f: (ProviderId, ProviderId) -> bool,
                                   g: (ProviderId, ProviderId) -> bool)
    requires forall a, b :: f(a, b) == g(a, b)
    ensures Sort(s, f) == Sort(s, g)
  {
    if s != [] {
      SortExt(s[1..], f, g);
      InsertExt(s[0], Sort(s[1..], f), f, g);
    }
  }

  lemma {:induction false} InsertExt(x: ProviderId, s: seq<ProviderId>, f: (ProviderId, ProviderId) -> bool,
                                     g: (ProviderId, ProviderId) -> bool)
    requires forall a, b :: f(a, b) == g(a, b)
    ensures Insert(x, s, f) == Insert(x, s, g)
  {
    if s != [] {
      InsertExt(x, s[1..], f, g);
    }
  }
}
