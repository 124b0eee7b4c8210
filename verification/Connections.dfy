// server/src/providers/connections.js: which key of a provider is used. A provider can hold several
// stored keys, one of them its default, and a key from the environment that outranks them all.
module Connections {
  import opened Options
  import opened Seqs
  import opened Providers
  import Strings

  datatype Alias = Alias(name: string)
  datatype Secret = Secret(value: string)

  const PLAIN := Alias("default")
  const ENV := Alias("env")

  // ---- The effective snapshot ---------------------------------------------------------------------------

  datatype Entry = Entry(credential: Secret, defaultAlias: Option<Alias>, credentials: map<Alias, Secret>)
  type Effective = map<ProviderId, Entry>

  datatype Resolved = Resolved(credential: Secret, alias: Option<Alias>, fellBack: bool)

  // An unknown alias falls back to the provider's default key.
  function CredentialFor(eff: Effective, provider: ProviderId, alias: Option<Alias>): Option<Resolved> {
    if provider !in eff then None
    else if alias.Some? && alias.value in eff[provider].credentials
    then Some(Resolved(eff[provider].credentials[alias.value], alias, false))
    else Some(Resolved(eff[provider].credential, eff[provider].defaultAlias, alias.Some?))
  }

  ghost predicate Owns(eff: Effective, provider: ProviderId, key: Secret) {
    provider in eff && (key == eff[provider].credential || key in eff[provider].credentials.Values)
  }

  // ---- Stored keys --------------------------------------------------------------------------------------

  // `usable`: the decrypted credential has every field the provider requires.
  datatype Row = Row(id: string, alias: Alias, isDefault: bool, createdAt: nat, secret: Secret, usable: bool)

  function DefaultRow(): Row -> bool {
    (r: Row) => r.isDefault
  }

  function Defaults(rows: seq<Row>): nat {
    |Filter(rows, DefaultRow())|
  }

  ghost predicate DistinctAliases(rows: seq<Row>) {
    forall i, j :: 0 <= i < j < |rows| ==> rows[i].alias != rows[j].alias && rows[i].id != rows[j].id
  }

  // Exactly one default whenever there is any key.
  ghost predicate OneDefault(rows: seq<Row>) {
    Defaults(rows) == if rows == [] then 0 else 1
  }

  // updateMany({provider}, {isDefault: false})
  function Unset(rows: seq<Row>): (r: seq<Row>)
    ensures |r| == |rows| && forall i :: 0 <= i < |rows| ==> r[i] == rows[i].(isDefault := false)
  {
    if rows == [] then [] else [rows[0].(isDefault := false)] + Unset(rows[1..])
  }

  function Find(rows: seq<Row>, alias: Alias): (k: nat)
    ensures k <= |rows| && (k < |rows| ==> rows[k].alias == alias)
    ensures forall i :: 0 <= i < k ==> rows[i].alias != alias
  {
    if rows == [] || rows[0].alias == alias then 0 else 1 + Find(rows[1..], alias)
  }

  // findOneAndUpdate({provider, alias}, ..., {upsert: true}); `row` is used when none exists.
  function Upsert(rows: seq<Row>, row: Row, makeDefault: bool): seq<Row> {
    var k := Find(rows, row.alias);
    if k < |rows|
    then rows[k := rows[k].(secret := row.secret, usable := row.usable, isDefault := makeDefault || rows[k].isDefault)]
    else rows + [row.(isDefault := makeDefault)]
  }

  function SetKey(rows: seq<Row>, row: Row, asked: bool): seq<Row> {
    var makeDefault := asked || rows == [];
    Upsert(if makeDefault then Unset(rows) else rows, row, makeDefault)
  }

  // byDefaultPreference: the flag, then the alias "default", then age, then the row id.
  predicate Preferred(a: Row, b: Row) {
    if a.isDefault != b.isDefault then a.isDefault
    else if (a.alias == PLAIN) != (b.alias == PLAIN) then a.alias == PLAIN
    else if a.createdAt != b.createdAt then a.createdAt < b.createdAt
    else Strings.Less(a.id, b.id)
  }

  function ByPreference(): (Row, Row) -> bool {
    (a: Row, b: Row) => Preferred(a, b)
  }

  function RemoveAt(rows: seq<Row>, k: nat): seq<Row>
    requires k < |rows|
  {
    rows[..k] + rows[k + 1..]
  }

  function Promote(rows: seq<Row>): seq<Row> {
    if rows == [] then []
    else
      var next := Sort(rows, ByPreference())[0];
      var k := Find(rows, next.alias);
      if k < |rows| then rows[k := rows[k].(isDefault := true)] else rows
  }

  // None when there is no such key.
  function RemoveKey(rows: seq<Row>, alias: Alias): Option<seq<Row>> {
    var k := Find(rows, alias);
    if k == |rows| then None
    else if rows[k].isDefault then Some(Promote(RemoveAt(rows, k)))
    else Some(RemoveAt(rows, k))
  }

  function SetDefaultKey(rows: seq<Row>, alias: Alias): Option<seq<Row>> {
    var k := Find(rows, alias);
    if k == |rows| then None else Some(Unset(rows)[k := rows[k].(isDefault := true)])
  }

  // ---- Counting defaults ---------------------------------------------------------------------------------

  lemma {:induction false} DefaultsSplit(a: seq<Row>, b: seq<Row>)
    ensures Defaults(a + b) == Defaults(a) + Defaults(b)
  {
    FilterAppend(a, b, DefaultRow());
  }

  lemma DefaultsOne(r: Row)
    ensures Defaults([r]) == if r.isDefault then 1 else 0
  {
  }

  lemma DefaultsAt(rows: seq<Row>, k: nat)
    requires k < |rows|
    ensures Defaults(rows) == Defaults(RemoveAt(rows, k)) + if rows[k].isDefault then 1 else 0
  {
    hide Defaults;
    assert rows == (rows[..k] + [rows[k]]) + rows[k + 1..];
    DefaultsSplit(rows[..k] + [rows[k]], rows[k + 1..]);
    DefaultsSplit(rows[..k], [rows[k]]);
    DefaultsSplit(rows[..k], rows[k + 1..]);
    DefaultsOne(rows[k]);
  }

  lemma DefaultsUpdate(rows: seq<Row>, k: nat, r: Row)
    requires k < |rows|
    ensures Defaults(rows[k := r]) ==
      Defaults(rows) - (if rows[k].isDefault then 1 else 0) + (if r.isDefault then 1 else 0)
  {
    hide Defaults;
    DefaultsAt(rows, k);
    DefaultsAt(rows[k := r], k);
    assert RemoveAt(rows[k := r], k) == RemoveAt(rows, k);
  }

  lemma {:induction false} UnsetNone(rows: seq<Row>)
    ensures Defaults(Unset(rows)) == 0
  {
    FilterNone(Unset(rows), DefaultRow());
  }

  // ---- The operations keep exactly one default -----------------------------------------------------------

  lemma UpsertKeepsDistinct(rows: seq<Row>, row: Row, makeDefault: bool)
    requires DistinctAliases(rows) && forall i :: 0 <= i < |rows| ==> rows[i].id != row.id
    ensures DistinctAliases(Upsert(rows, row, makeDefault)) && Upsert(rows, row, makeDefault) != []
  {
  }

  lemma UpsertCounts(rows: seq<Row>, row: Row, makeDefault: bool)
    requires makeDefault ==> Defaults(rows) == 0
    ensures Defaults(Upsert(rows, row, makeDefault)) == if makeDefault then 1 else Defaults(rows)
  {
    hide Defaults;
    var k := Find(rows, row.alias);
    if k < |rows| {
      if makeDefault {
        NotDefault(rows, k);
      }
      DefaultsUpdate(rows, k,
                     rows[k].(secret := row.secret, usable := row.usable,
                              isDefault := makeDefault || rows[k].isDefault));
    } else {
      DefaultsSplit(rows, [row.(isDefault := makeDefault)]);
      DefaultsOne(row.(isDefault := makeDefault));
    }
  }

  lemma SetKeyKeepsOne(rows: seq<Row>, row: Row, asked: bool)
    requires DistinctAliases(rows) && OneDefault(rows) && forall i :: 0 <= i < |rows| ==> rows[i].id != row.id
    ensures var rows' := SetKey(rows, row, asked);
      DistinctAliases(rows') && OneDefault(rows') && rows' != []
  {
    hide Defaults, Upsert;
    var makeDefault := asked || rows == [];
    var base := if makeDefault then Unset(rows) else rows;
    UnsetNone(rows);
    UpsertKeepsDistinct(base, row, makeDefault);
    UpsertCounts(base, row, makeDefault);
  }

  lemma PromotePicks(rows: seq<Row>)
    requires rows != []
    ensures exists k :: 0 <= k < |rows| && Promote(rows) == rows[k := rows[k].(isDefault := true)]
  {
    hide Sort, Preferred;
    var sorted := Sort(rows, ByPreference());
    assert sorted[0] in multiset(sorted);
    assert sorted[0] in rows;
    var at :| 0 <= at < |rows| && rows[at] == sorted[0];
    var k := Find(rows, sorted[0].alias);
    assert k <= at;
  }

  lemma PromoteOne(rows: seq<Row>)
    requires DistinctAliases(rows) && Defaults(rows) == 0
    ensures DistinctAliases(Promote(rows)) && OneDefault(Promote(rows)) && |Promote(rows)| == |rows|
  {
    hide Defaults, Promote;
    if rows == [] {
      PromoteNothing();
    } else {
      PromotePicks(rows);
      var k :| 0 <= k < |rows| && Promote(rows) == rows[k := rows[k].(isDefault := true)];
      NotDefault(rows, k);
      DefaultsUpdate(rows, k, rows[k].(isDefault := true));
    }
  }

  lemma PromoteNothing()
    ensures Promote([]) == [] && Defaults([]) == 0
  {
  }

  lemma NotDefault(rows: seq<Row>, k: nat)
    requires Defaults(rows) == 0 && k < |rows|
    ensures !rows[k].isDefault
  {
    DefaultsAt(rows, k);
  }

  lemma RemoveKeyKeepsOne(rows: seq<Row>, alias: Alias)
    requires DistinctAliases(rows) && OneDefault(rows) && RemoveKey(rows, alias).Some?
    ensures var rows' := RemoveKey(rows, alias).value; DistinctAliases(rows') && OneDefault(rows')
  {
    hide Defaults, Promote;
    var k := Find(rows, alias);
    DefaultsAt(rows, k);
    if rows[k].isDefault {
      PromoteOne(RemoveAt(rows, k));
    } else if RemoveAt(rows, k) == [] {
      NoDefaults();
    }
  }

  lemma NoDefaults()
    ensures Defaults([]) == 0
  {
  }

  // Setting the default repairs any stored state, even one with several defaults or none.
  lemma SetDefaultRepairs(rows: seq<Row>, alias: Alias)
    requires DistinctAliases(rows) && exists r :: r in rows && r.alias == alias
    ensures SetDefaultKey(rows, alias).Some?
    ensures var rows' := SetDefaultKey(rows, alias).value;
      && DistinctAliases(rows') && OneDefault(rows') && |rows'| == |rows|
      && forall i :: 0 <= i < |rows| ==> rows'[i] == rows[i].(isDefault := rows[i].alias == alias)
  {
    hide Defaults;
    var k := Find(rows, alias);
    UnsetNone(rows);
    DefaultsUpdate(Unset(rows), k, rows[k].(isDefault := true));
  }

  // ---- Runs of operations over all providers ---------------------------------------------------------------

  datatype Operation =
    | Set(provider: ProviderId, row: Row, makeDefault: bool)
    | Remove(provider: ProviderId, alias: Alias)
    | Disconnect(provider: ProviderId)
    | SetDefault(provider: ProviderId, alias: Alias)

  type Stored = map<ProviderId, seq<Row>>

  function RowsOf(s: Stored, p: ProviderId): seq<Row> {
    if p in s then s[p] else []
  }

  function Or(o: Option<seq<Row>>, rows: seq<Row>): seq<Row> {
    if o.Some? then o.value else rows
  }

  function NextRows(rows: seq<Row>, op: Operation): seq<Row> {
    match op
    case Set(_, row, makeDefault) => SetKey(rows, row, makeDefault)
    case Remove(_, alias) => Or(RemoveKey(rows, alias), rows)
    case Disconnect(_) => []
    case SetDefault(_, alias) => Or(SetDefaultKey(rows, alias), rows)
  }

  function Perform(s: Stored, op: Operation): Stored {
    s[op.provider := NextRows(RowsOf(s, op.provider), op)]
  }

  function PerformAll(s: Stored, ops: seq<Operation>): Stored {
    if ops == [] then s else Perform(PerformAll(s, ops[..|ops| - 1]), ops[|ops| - 1])
  }

  // A run is its operations in order, each on its own provider's keys alone.
  lemma RunInOrder(s: Stored, ops: seq<Operation>, op: Operation, p: ProviderId)
    ensures PerformAll(s, []) == s
    ensures var before, after := PerformAll(s, ops), PerformAll(s, ops + [op]);
      RowsOf(after, p) == if p == op.provider then NextRows(RowsOf(before, p), op) else RowsOf(before, p)
  {
    hide NextRows;
    assert (ops + [op])[..|ops|] == ops;
  }

  // New rows get ids of their own.
  ghost predicate FreshIds(s: Stored, ops: seq<Operation>) {
    forall k :: 0 <= k < |ops| && ops[k].Set? ==>
      forall r :: r in RowsOf(PerformAll(s, ops[..k]), ops[k].provider) ==> r.id != ops[k].row.id
  }

  lemma NextKeepsOne(rows: seq<Row>, op: Operation)
    requires DistinctAliases(rows) && OneDefault(rows)
    requires op.Set? ==> forall r :: r in rows ==> r.id != op.row.id
    ensures DistinctAliases(NextRows(rows, op)) && OneDefault(NextRows(rows, op))
  {
    hide SetKey, RemoveKey, SetDefaultKey, OneDefault;
    match op {
      case Set(_, row, makeDefault) => SetKeyKeepsOne(rows, row, makeDefault);
      case Remove(_, alias) => if RemoveKey(rows, alias).Some? { RemoveKeyKeepsOne(rows, alias); }
      case Disconnect(_) => EmptyIsFine();
      case SetDefault(_, alias) =>
        UnknownAlias(rows, alias);
        if exists r :: r in rows && r.alias == alias { SetDefaultRepairs(rows, alias); }
    }
  }

  // What each operation makes of the keys it is for; one on a key that is not there leaves them.
  lemma NextIs(rows: seq<Row>, op: Operation)
    ensures op.Set? ==> NextRows(rows, op) == SetKey(rows, op.row, op.makeDefault)
    ensures op.Disconnect? ==> NextRows(rows, op) == []
    ensures op.Remove? && (exists r :: r in rows && r.alias == op.alias) ==>
      Some(NextRows(rows, op)) == RemoveKey(rows, op.alias)
    ensures op.SetDefault? && (exists r :: r in rows && r.alias == op.alias) ==>
      Some(NextRows(rows, op)) == SetDefaultKey(rows, op.alias)
    ensures (op.Remove? || op.SetDefault?) && (forall r :: r in rows ==> r.alias != op.alias) ==>
      NextRows(rows, op) == rows
  {
    if op.Remove? || op.SetDefault? {
      UnknownAlias(rows, op.alias);
    }
  }

  lemma UnknownAlias(rows: seq<Row>, alias: Alias)
    ensures (forall r :: r in rows ==> r.alias != alias) ==>
      RemoveKey(rows, alias) == None && SetDefaultKey(rows, alias) == None
  {
    var k := Find(rows, alias);
    if k < |rows| {
      assert rows[k] in rows;
    }
  }

  lemma PerformKeepsOne(s: Stored, op: Operation, p: ProviderId)
    requires forall q :: DistinctAliases(RowsOf(s, q)) && OneDefault(RowsOf(s, q))
    requires op.Set? ==> forall r :: r in RowsOf(s, op.provider) ==> r.id != op.row.id
    ensures DistinctAliases(RowsOf(Perform(s, op), p)) && OneDefault(RowsOf(Perform(s, op), p))
  {
    hide NextRows, OneDefault, DistinctAliases;
    assert DistinctAliases(RowsOf(s, op.provider)) && DistinctAliases(RowsOf(s, p));
    NextKeepsOne(RowsOf(s, op.provider), op);
  }

  lemma EmptyIsFine()
    ensures OneDefault([])
  {
  }

  // Any run of set, remove, disconnect and set-default keeps exactly one default among a provider's
  // stored keys whenever it has any.
  lemma {:induction false} RunKeepsOneDefault(ops: seq<Operation>, p: ProviderId)
    requires FreshIds(map[], ops)
    ensures DistinctAliases(RowsOf(PerformAll(map[], ops), p)) && OneDefault(RowsOf(PerformAll(map[], ops), p))
  {
    if ops == [] {
      EmptyIsFine();
    } else {
      hide Perform, OneDefault, DistinctAliases;
      var front := ops[..|ops| - 1];
      assert FreshIds(map[], front) by {
        assert forall k :: 0 <= k < |front| ==> front[..k] == ops[..k] && front[k] == ops[k];
      }
      forall q
        ensures DistinctAliases(RowsOf(PerformAll(map[], front), q)) && OneDefault(RowsOf(PerformAll(map[], front), q))
      {
        RunKeepsOneDefault(front, q);
      }
      PerformKeepsOne(PerformAll(map[], front), ops[|ops| - 1], p);
    }
  }

  // The guarantee needs each operation to run alone. Two first keys whose counts and resets both
  // come before either write are both stored as the default.
  lemma RacingFirstKeysLeaveTwo(a: Row, b: Row)
    requires a.alias != b.alias
    ensures Defaults(Upsert(Upsert(Unset(Unset([])), a, true), b, true)) == 2
  {
    assert Upsert([], a, true) == [a.(isDefault := true)];
    var two := Upsert([a.(isDefault := true)], b, true);
    assert two == [a.(isDefault := true)] + [b.(isDefault := true)];
    DefaultsSplit([a.(isDefault := true)], [b.(isDefault := true)]);
  }

  // ---- The default that serves ---------------------------------------------------------------------------

  // compute(): the keys that can serve. Rows come most preferred first, each complete one under its
  // alias; the environment's key, when complete, is merged last.
  function Keys(sorted: seq<Row>): (keys: map<Alias, Secret>) {
    if sorted == [] then map[]
    else
      var last := sorted[|sorted| - 1];
      var keys := Keys(sorted[..|sorted| - 1]);
      if last.usable then keys[last.alias := last.secret] else keys
  }

  // The first row whose alias names a key, or |rows|.
  function FirstKeyed(rows: seq<Row>, keys: map<Alias, Secret>): (k: nat)
    ensures k <= |rows| && (k < |rows| ==> rows[k].alias in keys)
    ensures forall i :: 0 <= i < k ==> rows[i].alias !in keys
  {
    if rows == [] || rows[0].alias in keys then 0 else 1 + FirstKeyed(rows[1..], keys)
  }

  function SnapshotOf(sorted: seq<Row>, env: Option<Secret>): Option<Entry> {
    var keys := if env.Some? then Keys(sorted)[ENV := env.value] else Keys(sorted);
    var k := FirstKeyed(sorted, keys);
    if ENV in keys then Some(Entry(keys[ENV], Some(ENV), keys))
    else if k < |sorted| then Some(Entry(keys[sorted[k].alias], Some(sorted[k].alias), keys))
    else None
  }

  function Snapshot(rows: seq<Row>, env: Option<Secret>): Option<Entry> {
    SnapshotOf(Sort(rows, ByPreference()), env)
  }

  // A user-added provider: one key, under the alias "default".
  function CustomEntry(key: Secret): Entry {
    Entry(key, Some(PLAIN), map[PLAIN := key])
  }

  // The whole snapshot; a user-added provider replaces a built-in one of the same id.
  function Compute(stored: Stored, env: map<ProviderId, Secret>, builtin: set<ProviderId>,
                   custom: map<ProviderId, Secret>): Effective {
    map p | p in builtin + custom.Keys && (p in custom || Snapshot(RowsOf(stored, p), EnvOf(env, p)).Some?)
      :: if p in custom then CustomEntry(custom[p]) else Snapshot(RowsOf(stored, p), EnvOf(env, p)).value
  }

  function EnvOf(env: map<ProviderId, Secret>, p: ProviderId): Option<Secret> {
    if p in env then Some(env[p]) else None
  }

  // The default key is one of the provider's keys, filed under the default alias.
  ghost predicate WellFormed(e: Entry) {
    e.defaultAlias.Some? && e.defaultAlias.value in e.credentials && e.credentials[e.defaultAlias.value] == e.credential
  }

  lemma {:induction false} KeysFrom(rows: seq<Row>, a: Alias)
    ensures a in Keys(rows) ==> exists r :: r in rows && r.usable && r.alias == a && r.secret == Keys(rows)[a]
    ensures (exists r :: r in rows && r.usable && r.alias == a) ==> a in Keys(rows)
  {
    if rows != [] {
      KeysFrom(rows[..|rows| - 1], a);
      assert rows == rows[..|rows| - 1] + [rows[|rows| - 1]];
    }
  }

  lemma SnapshotFrom(sorted: seq<Row>, env: Option<Secret>, a: Alias)
    requires SnapshotOf(sorted, env).Some?
    ensures WellFormed(SnapshotOf(sorted, env).value)
    ensures var keys := SnapshotOf(sorted, env).value.credentials;
      a in keys ==> (env == Some(keys[a]) || exists r :: r in sorted && r.usable && r.secret == keys[a])
  {
    hide Keys;
    KeysFrom(sorted, a);
  }

  // Every snapshot is well formed; a key of a provider comes from its own rows, its own environment
  // or, when a user-added provider shadows it, from that one alone.
  lemma SnapshotKeys(stored: Stored, env: map<ProviderId, Secret>, builtin: set<ProviderId>,
                     custom: map<ProviderId, Secret>, p: ProviderId, key: Secret)
    requires var eff := Compute(stored, env, builtin, custom); p in eff && Owns(eff, p, key)
    ensures WellFormed(Compute(stored, env, builtin, custom)[p])
    ensures if p in custom then key == custom[p] else
      (p in env && key == env[p]) || exists r :: r in RowsOf(stored, p) && r.usable && r.secret == key
  {
    if p !in custom {
      hide Sort, SnapshotOf;
      var rows := RowsOf(stored, p);
      var sorted := Sort(rows, ByPreference());
      var entry := SnapshotOf(sorted, EnvOf(env, p)).value;
      SnapshotFrom(sorted, EnvOf(env, p), PLAIN);
      var a :| a in entry.credentials && entry.credentials[a] == key;
      SnapshotFrom(sorted, EnvOf(env, p), a);
      FromRows(rows, sorted);
    }
  }

  lemma PreferenceOrders(a: Row, b: Row, c: Row)
    ensures !(Preferred(a, b) && Preferred(b, a))
    ensures a.id != b.id ==> Preferred(a, b) || Preferred(b, a)
    ensures !Preferred(b, a) && !Preferred(c, b) ==> !Preferred(c, a)
  {
    Strings.LessTotal(a.id, b.id);
    Strings.LessTotal(b.id, c.id);
    Strings.LessTotal(a.id, c.id);
    if Strings.Less(c.id, a.id) && Strings.Less(a.id, b.id) {
      Strings.LessTransitive(c.id, a.id, b.id);
    }
    if Strings.Less(b.id, c.id) && Strings.Less(c.id, a.id) {
      Strings.LessTransitive(b.id, c.id, a.id);
    }
  }

  lemma SortedByPreference(rows: seq<Row>)
    ensures SortedBy(Sort(rows, ByPreference()), ByPreference())
  {
    var dom := iset r: Row {:trigger r.id} | true;
    assert Comparator(ByPreference(), dom) by {
      forall a: Row, b: Row, c: Row
        ensures (Preferred(a, b) ==> !Preferred(b, a)) && (!Preferred(b, a) && !Preferred(c, b) ==> !Preferred(c, a))
      {
        PreferenceOrders(a, b, c);
      }
    }
    SortSorted(rows, ByPreference(), dom);
  }

  // Every replica computes the same snapshot: the order the database returns the rows in is irrelevant.
  lemma SnapshotIgnoresOrder(rows: seq<Row>, others: seq<Row>, env: Option<Secret>)
    requires multiset(rows) == multiset(others) && forall a, b :: a in rows && b in rows && a.id == b.id ==> a == b
    ensures Snapshot(rows, env) == Snapshot(others, env)
  {
    hide Sort, Preferred, SnapshotOf;
    SortedByPreference(rows);
    SortedByPreference(others);
    var a, b := Sort(rows, ByPreference()), Sort(others, ByPreference());
    forall x, y | x in a && y in a && !Preferred(x, y) && !Preferred(y, x) ensures x == y {
      assert x in multiset(a) && y in multiset(a);
      assert x in rows && y in rows;
      PreferenceOrders(x, y, y);
    }
    SortedUnique(a, b, ByPreference());
  }

  lemma DefaultComesFirst(rows: seq<Row>, k: nat)
    requires OneDefault(rows) && k < |rows| && rows[k].isDefault
    ensures Sort(rows, ByPreference())[0] == rows[k]
  {
    hide Sort, Defaults;
    var s := Sort(rows, ByPreference());
    SortedByPreference(rows);
    assert rows[k] in multiset(rows);
    assert rows[k] in multiset(s);
    var at :| 0 <= at < |s| && s[at] == rows[k];
    if at > 0 {
      assert !Preferred(s[at], s[0]);
      TwoDefaults(s, 0, at);
      SameDefaults(rows, s);
    }
  }

  // With one default among the stored keys, a usable one is what unpinned traffic gets, unless the
  // environment provides a key.
  lemma StoredDefaultServes(rows: seq<Row>, k: nat, env: Option<Secret>)
    requires DistinctAliases(rows) && OneDefault(rows) && k < |rows| && rows[k].isDefault && rows[k].usable
    requires forall r :: r in rows ==> r.alias != ENV
    ensures Snapshot(rows, env).Some?
    ensures Snapshot(rows, env).value.credential == if env.Some? then env.value else rows[k].secret
    ensures Snapshot(rows, env).value.defaultAlias == Some(if env.Some? then ENV else rows[k].alias)
  {
    hide Sort, Keys, Preferred, OneDefault, DistinctAliases;
    DefaultComesFirst(rows, k);
    var sorted := Sort(rows, ByPreference());
    KeysFrom(sorted, rows[k].alias);
    KeysFrom(sorted, ENV);
    FromRows(rows, sorted);
    var keys := Keys(sorted);
    assert FirstKeyed(sorted, keys) == 0;
    var r :| r in rows && r.alias == rows[k].alias && r.secret == keys[rows[k].alias];
    OneRowPerAlias(rows, r, rows[k]);
  }

  lemma FromRows(rows: seq<Row>, sorted: seq<Row>)
    requires multiset(rows) == multiset(sorted)
    ensures forall r :: r in sorted <==> r in rows
  {
    assert forall r :: r in rows <==> r in multiset(rows);
    assert forall r :: r in sorted <==> r in multiset(sorted);
  }

  // In fields: the marked key, then the one named "default", then the older, then the smaller id.
  ghost predicate Outdoes(a: Row, b: Row) {
    && (b.isDefault ==> a.isDefault)
    && (a.isDefault == b.isDefault && b.alias == Alias("default") ==> a.alias == Alias("default"))
    && (a.isDefault == b.isDefault && (a.alias == Alias("default") <==> b.alias == Alias("default")) ==>
          && a.createdAt <= b.createdAt
          && (a.createdAt == b.createdAt ==> !Strings.Less(b.id, a.id)))
  }

  lemma NotPreferredOutdone(a: Row, b: Row)
    requires !Preferred(b, a)
    ensures Outdoes(a, b)
  {
  }

  lemma PromoteOutdoes(rows: seq<Row>) returns (at: nat)
    requires DistinctAliases(rows) && rows != []
    ensures at < |rows| && Promote(rows) == rows[at := rows[at].(isDefault := true)]
    ensures forall o :: o in rows ==> Outdoes(rows[at], o)
  {
    hide Sort, Preferred, Outdoes, Unset;
    SortedByPreference(rows);
    var sorted := Sort(rows, ByPreference());
    FromRows(rows, sorted);
    var r := sorted[0];
    assert r in rows;
    at := Find(rows, r.alias);
    OneRowPerAlias(rows, rows[at], r);
    forall o | o in rows ensures Outdoes(r, o) {
      var j :| 0 <= j < |sorted| && sorted[j] == o;
      assert j > 0 ==> !ByPreference()(sorted[j], sorted[0]);
      if j == 0 { OutdoesItself(r); } else { NotPreferredOutdone(r, o); }
    }
  }

  // When the default key is removed, the one promoted outdoes every other that is left; when another is,
  // the rest stay as they are.
  lemma PromotedOutdoes(rows: seq<Row>, alias: Alias, k: nat) returns (at: nat)
    requires DistinctAliases(rows) && k < |rows| && rows[k].alias == alias
    ensures RemoveKey(rows, alias).Some?
    ensures var left, rows' := rows[..k] + rows[k + 1..], RemoveKey(rows, alias).value;
      if rows[k].isDefault && left != [] then
        && at < |left| && rows' == left[at := left[at].(isDefault := true)]
        && forall o :: o in left ==> Outdoes(left[at], o)
      else rows' == left
  {
    hide Promote, Outdoes;
    at := 0;
    assert Find(rows, alias) == k;
    if rows[k].isDefault && RemoveAt(rows, k) != [] {
      at := PromoteOutdoes(RemoveAt(rows, k));
    } else {
      PromoteNothing();
    }
  }

  lemma OutdoesItself(r: Row)
    ensures Outdoes(r, r)
  {
    Strings.LessTotal(r.id, r.id);
  }

  // Adding a key replaces or appends that key alone, and takes the mark from the others only when it is
  // made the default: when that was asked for, or when there was no key before.
  lemma SetKeyInFields(rows: seq<Row>, row: Row, asked: bool) returns (k: nat)
    requires DistinctAliases(rows)
    ensures var rows' := SetKey(rows, row, asked); var makes := asked || rows == [];
      && k < |rows'| && rows'[k].alias == row.alias && rows'[k].secret == row.secret && rows'[k].usable == row.usable
      && (rows'[k].isDefault <==> makes || (k < |rows| && rows[k].isDefault))
      && (k < |rows| ==> rows[k].alias == row.alias && rows'[k].id == rows[k].id
                         && rows'[k].createdAt == rows[k].createdAt)
      && |rows'| == (if k < |rows| then |rows| else |rows| + 1)
      && (k == |rows| ==> forall i :: 0 <= i < |rows| ==> rows[i].alias != row.alias)
      && forall i :: 0 <= i < |rows| && i != k ==>
           rows'[i] == if makes then rows[i].(isDefault := false) else rows[i]
  {
    k := Find(rows, row.alias);
    UnsetFinds(rows, row.alias);
  }

  lemma {:induction false} UnsetFinds(rows: seq<Row>, alias: Alias)
    ensures Find(Unset(rows), alias) == Find(rows, alias)
  {
    if rows != [] && rows[0].alias != alias {
      assert Unset(rows)[1..] == Unset(rows[1..]);
      UnsetFinds(rows[1..], alias);
    }
  }

  // The keys of a snapshot, alias by alias.
  lemma KeysInFields(rows: seq<Row>, env: Option<Secret>, a: Alias)
    requires DistinctAliases(rows) && forall r :: r in rows ==> r.alias != ENV
    ensures var usable := exists r :: r in rows && r.alias == a && r.usable; var e := Snapshot(rows, env);
      && (e.Some? <==> env.Some? || exists r :: r in rows && r.usable)
      && (e.Some? ==>
            && (a in e.value.credentials <==> usable || (a == ENV && env.Some?))
            && (a == ENV && env.Some? ==> e.value.credentials[a] == env.value)
            && forall r :: r in rows && r.alias == a && r.usable ==> e.value.credentials[a] == r.secret)
  {
    hide Sort, Keys, Preferred;
    var sorted := Sort(rows, ByPreference());
    FromRows(rows, sorted);
    KeysFrom(sorted, a);
    forall b ensures b in Keys(sorted) <==> exists r :: r in rows && r.alias == b && r.usable {
      KeysFrom(sorted, b);
    }
    forall r | r in rows && r.alias == a && r.usable ensures Keys(sorted)[a] == r.secret {
      var o :| o in sorted && o.usable && o.alias == a && o.secret == Keys(sorted)[a];
      OneRowPerAlias(rows, o, r);
    }
  }

  // Without a key from the environment, unpinned traffic gets the usable key that outdoes every other
  // usable one, marked or not.
  lemma ServingOutdoes(rows: seq<Row>) returns (r: Row)
    requires DistinctAliases(rows) && Snapshot(rows, None).Some? && forall o :: o in rows ==> o.alias != ENV
    ensures r in rows && r.usable && Snapshot(rows, None).value.defaultAlias == Some(r.alias)
    ensures Snapshot(rows, None).value.credential == r.secret
    ensures forall o :: o in rows && o.usable ==> Outdoes(r, o)
  {
    hide Sort, Keys, Preferred, Outdoes;
    var sorted := Sort(rows, ByPreference());
    SortedByPreference(rows);
    FromRows(rows, sorted);
    forall b ensures b in Keys(sorted) <==> exists r :: r in rows && r.alias == b && r.usable {
      KeysFrom(sorted, b);
    }
    var k := FirstKeyed(sorted, Keys(sorted));
    KeysFrom(sorted, sorted[k].alias);
    r :| r in sorted && r.usable && r.alias == sorted[k].alias && r.secret == Keys(sorted)[sorted[k].alias];
    OneRowPerAlias(rows, r, sorted[k]);
    forall o | o in rows && o.usable ensures Outdoes(r, o) {
      var j :| 0 <= j < |sorted| && sorted[j] == o;
      assert o.alias in Keys(sorted) && j >= k;
      assert j > k ==> !ByPreference()(sorted[j], sorted[k]);
      if j == k { OutdoesItself(r); } else { NotPreferredOutdone(r, o); }
    }
  }

  // Which providers are connected at all.
  lemma ConnectedIff(stored: Stored, env: map<ProviderId, Secret>, builtin: set<ProviderId>,
                     custom: map<ProviderId, Secret>, p: ProviderId)
    requires DistinctAliases(RowsOf(stored, p)) && forall o :: o in RowsOf(stored, p) ==> o.alias != ENV
    ensures var eff := Compute(stored, env, builtin, custom);
      && (p in eff <==> p in custom
                        || (p in builtin && (p in env || exists r :: r in RowsOf(stored, p) && r.usable)))
      && (p in custom ==> eff[p] == Entry(custom[p], Some(Alias("default")), map[Alias("default") := custom[p]]))
      && (p in eff && p !in custom ==>
            Some(eff[p]) == Snapshot(RowsOf(stored, p), if p in env then Some(env[p]) else None))
  {
    hide Snapshot;
    KeysInFields(RowsOf(stored, p), EnvOf(env, p), PLAIN);
  }

  lemma OneRowPerAlias(rows: seq<Row>, a: Row, b: Row)
    requires DistinctAliases(rows) && a in rows && b in rows && a.alias == b.alias
    ensures a == b
  {
  }

  lemma TwoDefaults(s: seq<Row>, i: nat, j: nat)
    requires i < j < |s| && s[i].isDefault && s[j].isDefault
    ensures Defaults(s) >= 2
  {
    hide Defaults;
    DefaultsAt(s, j);
    assert RemoveAt(s, j)[i] == s[i];
    DefaultsAt(RemoveAt(s, j), i);
  }

  lemma SameDefaults(a: seq<Row>, b: seq<Row>)
    requires multiset(a) == multiset(b)
    ensures Defaults(a) == Defaults(b)
  {
    FilterMultiset(a, DefaultRow());
    FilterMultiset(b, DefaultRow());
    assert multiset(Filter(a, DefaultRow())) == multiset(Filter(b, DefaultRow()));
    assert |multiset(Filter(a, DefaultRow()))| == |multiset(Filter(b, DefaultRow()))|;
  }

  // ---- The collection -------------------------------------------------------------------------------------

  class CredentialStore {
    var stored: Stored

    constructor ()
      ensures stored == map[]
    {
      stored := map[];
    }

    method SetCredential(provider: ProviderId, row: Row, makeDefaultAsked: bool)
      modifies this
      ensures stored == Perform(old(stored), Set(provider, row, makeDefaultAsked))
    {
      var rows := RowsOf(stored, provider);
      var existing := |rows|;
      var makeDefault := makeDefaultAsked || existing == 0;
      if makeDefault {
        rows := Unset(rows);
      }
      stored := stored[provider := Upsert(rows, row, makeDefault)];
    }

    method RemoveCredential(provider: ProviderId, alias: Option<Alias>) returns (found: bool)
      modifies this
      ensures stored ==
        Perform(old(stored), if alias.None? then Disconnect(provider) else Remove(provider, alias.value))
      ensures found <==> alias.None? || exists r :: r in RowsOf(old(stored), provider) && r.alias == alias.value
    {
      var rows := RowsOf(stored, provider);
      if alias.None? {
        stored := stored[provider := []];
        return true;
      }
      var k := Find(rows, alias.value);
      if k == |rows| {
        stored := stored[provider := rows];
        return false;
      }
      assert rows[k] in rows;
      var rest := RemoveAt(rows, k);
      if rows[k].isDefault {
        rest := Promote(rest);
      }
      stored := stored[provider := rest];
      return true;
    }

    method SetDefaultCredential(provider: ProviderId, alias: Alias) returns (found: bool)
      modifies this
      ensures stored == Perform(old(stored), SetDefault(provider, alias))
      ensures found <==> exists r :: r in RowsOf(old(stored), provider) && r.alias == alias
    {
      var rows := RowsOf(stored, provider);
      var k := Find(rows, alias);
      found := k < |rows|;
      if found {
        assert rows[k] in rows;
        rows := Unset(rows)[k := rows[k].(isDefault := true)];
      }
      stored := stored[provider := rows];
    }
  }
}
