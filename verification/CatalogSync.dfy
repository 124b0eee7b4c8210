// server/src/litellm/sync.js: one sync discovers the catalogue's chat models, removes stale ones
// and refreshes the rest, over a registry whose only unique key is the model id.
module CatalogSync {
  import opened Options
  import Strings

  datatype Provider = Provider(text: string)
  datatype Id = Id(text: string)
  datatype Key = Key(text: string)
  datatype Tier = Light | Mid | Premium
  datatype Flag = Vision | Reasoning | FunctionCalling | PdfInput | PromptCaching | ResponseSchema | VideoInput

  // A catalogue entry after number parsing: rates are per million tokens, None when the source
  // value is missing or not positive; limits are None when they do not parse to a nonzero number.
  datatype Entry = Entry(input: Option<real>, output: Option<real>, cacheRead: Option<real>, cacheWrite: Option<real>,
                         maxInput: Option<int>, maxOutput: Option<int>, flags: map<Flag, bool>)

  // A registry row without its timestamps.
  datatype Row = Row(id: Id, provider: Provider, caption: string, tier: Tier, builtIn: bool, enabled: bool,
                     input: real, output: real, cacheRead: Option<real>, cacheWrite: Option<real>,
                     contextWindow: Option<int>, maxOutput: Option<int>, flags: map<Flag, bool>, chatCapable: bool)

  type Table = map<Id, Row>

  ghost predicate IsTable(t: Table) {
    forall i :: i in t ==> t[i].id == i
  }

  // ---- Composite keys: "provider:id", split again at the first colon ------------------------------

  function ColonAt(s: string): nat {
    Strings.IndexOf(s, ':')
  }

  predicate HasColon(k: Key) {
    ColonAt(k.text) < |k.text|
  }

  predicate ColonFree(p: Provider) {
    ':' !in p.text
  }

  function KeyOf(p: Provider, i: Id): Key {
    Key(p.text + ":" + i.text)
  }

  function ProviderOf(k: Key): Provider
    requires HasColon(k)
  {
    Provider(k.text[..ColonAt(k.text)])
  }

  function IdOf(k: Key): Id
    requires HasColon(k)
  {
    Id(k.text[ColonAt(k.text) + 1..])
  }

  lemma JoinSplit(k: Key)
    requires HasColon(k)
    ensures KeyOf(ProviderOf(k), IdOf(k)) == k && ColonFree(ProviderOf(k))
  {
    var c := ColonAt(k.text);
    assert k.text == k.text[..c] + [':'] + k.text[c + 1..];
  }

  lemma SplitJoin(p: Provider, i: Id)
    requires ColonFree(p)
    ensures HasColon(KeyOf(p, i)) && ProviderOf(KeyOf(p, i)) == p && IdOf(KeyOf(p, i)) == i
  {
    Strings.CutAt(p.text, ':', i.text);
  }

  // ---- The index -----------------------------------------------------------------------------------

  datatype Listed = Listed(key: Key, entry: Entry)
  datatype Index = Index(byKey: seq<Listed>, byProvider: map<Provider, set<Id>>)

  ghost predicate IsIndex(x: Index) {
    forall l :: l in x.byKey ==> HasColon(l.key)
  }

  // Every listed key is one of the ids its provider offers.
  ghost predicate Consistent(x: Index) {
    && IsIndex(x)
    && forall l :: l in x.byKey ==>
         ProviderOf(l.key) in x.byProvider && IdOf(l.key) in x.byProvider[ProviderOf(l.key)]
  }

  // One line of the catalogue, with the verdicts of the name patterns that buildIndex tests.
  datatype Raw = Raw(provider: Provider, id: Id, chat: bool, skipped: bool, entry: Entry)

  predicate HasKey(byKey: seq<Listed>, k: Key) {
    exists l :: l in byKey && l.key == k
  }

  ghost predicate DistinctKeys(byKey: seq<Listed>) {
    forall i, j :: 0 <= i < j < |byKey| ==> byKey[i].key != byKey[j].key
  }

  predicate Wanted(r: Raw) {
    r.chat && !r.skipped
  }

  ghost predicate Complete(byKey: seq<Listed>, data: seq<Raw>) {
    forall r :: r in data && r.chat && !r.skipped ==> HasKey(byKey, KeyOf(r.provider, r.id))
  }

  // l is the first catalogue line of its key that is wanted.
  ghost predicate ComesFrom(l: Listed, data: seq<Raw>) {
    exists n :: && 0 <= n < |data| && data[n].chat && !data[n].skipped
                && l == Listed(KeyOf(data[n].provider, data[n].id), data[n].entry)
                && forall m :: 0 <= m < n && Wanted(data[m]) ==> KeyOf(data[m].provider, data[m].id) != l.key
  }

  ghost predicate Sound(byKey: seq<Listed>, data: seq<Raw>) {
    forall l :: l in byKey ==> ComesFrom(l, data)
  }

  ghost predicate PlainPrefixes(data: seq<Raw>) {
    forall r :: r in data ==> ColonFree(r.provider)
  }

  // A provider offers nothing that is not listed under it.
  ghost predicate OffersListed(x: Index) {
    forall p, i :: p in x.byProvider && i in x.byProvider[p] ==> HasKey(x.byKey, KeyOf(p, i))
  }

  // buildIndex: `skipped` stands for the bare-name, noise, deprecation and snapshot filters.
  method BuildIndex(data: seq<Raw>) returns (x: Index)
    ensures IsIndex(x) && DistinctKeys(x.byKey) && Complete(x.byKey, data) && Sound(x.byKey, data)
    ensures PlainPrefixes(data) ==> Consistent(x)
    ensures OffersListed(x)
  {
    hide KeyOf, HasColon, ProviderOf, IdOf, ColonFree;
    var byKey: seq<Listed> := [];
    var byProvider: map<Provider, set<Id>> := map[];
    for n := 0 to |data|
      invariant IsIndex(Index(byKey, byProvider)) && DistinctKeys(byKey)
      invariant Complete(byKey, data[..n]) && Sound(byKey, data)
      invariant PlainPrefixes(data) ==> Consistent(Index(byKey, byProvider))
      invariant OffersListed(Index(byKey, byProvider))
    {
      var raw := data[n];
      assert data[..n + 1] == data[..n] + [raw];
      if raw.chat && !raw.skipped {
        var key := KeyOf(raw.provider, raw.id);
        if !HasKey(byKey, key) {
          var ids := if raw.provider in byProvider then byProvider[raw.provider] else {};
          AddListed(byKey, byProvider, data, n);
          AddOffered(byKey, byProvider, raw.provider, raw.id, raw.entry);
          byKey := byKey + [Listed(key, raw.entry)];
          byProvider := byProvider[raw.provider := ids + {raw.id}];
        }
      }
    }
    assert data[..|data|] == data;
    x := Index(byKey, byProvider);
  }

  lemma AddListed(byKey: seq<Listed>, byProvider: map<Provider, set<Id>>, data: seq<Raw>, n: nat)
    requires n < |data| && Wanted(data[n]) && !HasKey(byKey, KeyOf(data[n].provider, data[n].id))
    requires IsIndex(Index(byKey, byProvider)) && DistinctKeys(byKey)
    requires Complete(byKey, data[..n]) && Sound(byKey, data)
    requires PlainPrefixes(data) ==> Consistent(Index(byKey, byProvider))
    ensures var raw := data[n]; var key := KeyOf(raw.provider, raw.id);
      var more := byKey + [Listed(key, raw.entry)];
      var ids := if raw.provider in byProvider then byProvider[raw.provider] else {};
      var x := Index(more, byProvider[raw.provider := ids + {raw.id}]);
      && IsIndex(x) && DistinctKeys(more) && Complete(more, data[..n + 1]) && Sound(more, data)
      && (PlainPrefixes(data) ==> Consistent(x))
  {
    hide KeyOf, HasColon, ProviderOf, IdOf, ColonFree;
    var raw := data[n];
    var key := KeyOf(raw.provider, raw.id);
    var more := byKey + [Listed(key, raw.entry)];
    KeyHasColon(raw.provider, raw.id);
    assert raw in data;
    assert more[|byKey|] == Listed(key, raw.entry);
    if PlainPrefixes(data) {
      SplitJoin(raw.provider, raw.id);
    }
    assert data[..n + 1] == data[..n] + [raw];
    forall m | 0 <= m < n && Wanted(data[m]) ensures KeyOf(data[m].provider, data[m].id) != key {
      assert data[m] in data[..n];
    }
    assert ComesFrom(Listed(key, raw.entry), data);
    forall r | r in data[..n + 1] && Wanted(r) ensures HasKey(more, KeyOf(r.provider, r.id)) {
      if r in data[..n] {
        var l :| l in byKey && l.key == KeyOf(r.provider, r.id);
        assert l in more;
      } else {
        assert Listed(key, raw.entry) in more;
      }
    }
  }

  lemma AddOffered(byKey: seq<Listed>, byProvider: map<Provider, set<Id>>, p: Provider, i: Id, e: Entry)
    requires OffersListed(Index(byKey, byProvider))
    ensures var ids := if p in byProvider then byProvider[p] else {};
      OffersListed(Index(byKey + [Listed(KeyOf(p, i), e)], byProvider[p := ids + {i}]))
  {
    hide KeyOf;
    var ids := if p in byProvider then byProvider[p] else {};
    var more := byKey + [Listed(KeyOf(p, i), e)];
    var offers := byProvider[p := ids + {i}];
    forall q, j | q in offers && j in offers[q] ensures HasKey(more, KeyOf(q, j)) {
      if q == p && j == i {
        assert more[|byKey|] == Listed(KeyOf(p, i), e);
      } else {
        var l :| l in byKey && l.key == KeyOf(q, j);
        assert l in more;
      }
    }
  }

  lemma KeyHasColon(p: Provider, i: Id)
    ensures HasColon(KeyOf(p, i))
  {
    var s := p.text + ":" + i.text;
    assert s[|p.text|] == ':';
  }

  // ---- The three passes ------------------------------------------------------------------------------

  function DeriveTier(input: real, output: real): Tier {
    var avg := (input + output) / 2.0;
    if avg >= 8.0 then Premium else if avg >= 0.8 then Mid else Light
  }

  function Or<T>(o: Option<T>, d: T): T {
    if o.Some? then o.value else d
  }

  function NewRow(l: Listed, caption: Id -> string): Row
    requires HasColon(l.key)
  {
    var e := l.entry;
    Row(IdOf(l.key), ProviderOf(l.key), caption(IdOf(l.key)), DeriveTier(Or(e.input, 0.0), Or(e.output, 0.0)),
        false, true, Or(e.input, 0.0), Or(e.output, 0.0), e.cacheRead, e.cacheWrite, e.maxInput, e.maxOutput,
        e.flags, true)
  }

  function Keys(t: Table): set<Key> {
    set i | i in t :: KeyOf(t[i].provider, t[i].id)
  }

  // The rows discovery builds: one per listed key the registry does not have yet.
  function Missing(byKey: seq<Listed>, existing: set<Key>, caption: Id -> string): seq<Row>
    requires forall l :: l in byKey ==> HasColon(l.key)
  {
    if byKey == [] then []
    else
      (if byKey[0].key in existing then [] else [NewRow(byKey[0], caption)]) + Missing(byKey[1..], existing, caption)
  }

  lemma MissingFrom(byKey: seq<Listed>, existing: set<Key>, caption: Id -> string, k: nat)
    requires (forall l :: l in byKey ==> HasColon(l.key)) && k < |byKey|
    ensures Missing(byKey[k..], existing, caption) ==
      (if byKey[k].key in existing then [] else [NewRow(byKey[k], caption)])
      + Missing(byKey[k + 1..], existing, caption)
  {
    hide NewRow, HasColon;
    assert byKey[k..][0] == byKey[k] && byKey[k..][1..] == byKey[k + 1..];
  }

  lemma MissingNone(byKey: seq<Listed>, existing: set<Key>, caption: Id -> string)
    requires forall l :: l in byKey ==> HasColon(l.key)
    ensures byKey[0..] == byKey && Missing(byKey[|byKey|..], existing, caption) == []
  {
  }

  // insertMany with ordered: false, errors ignored: a row whose id is taken is dropped.
  function InsertMany(t: Table, rows: seq<Row>): Table
    decreases |rows|
  {
    if rows == [] then t
    else InsertMany(if rows[0].id in t then t else t[rows[0].id := rows[0]], rows[1..])
  }

  predicate Stale(x: Index, r: Row) {
    !r.builtIn && r.provider in x.byProvider && r.id !in x.byProvider[r.provider]
  }

  function Cleanup(x: Index, t: Table): Table {
    map i | i in t && !Stale(x, t[i]) :: t[i]
  }

  function Lookup(byKey: seq<Listed>, k: Key): Option<Entry> {
    if byKey == [] then None else if byKey[0].key == k then Some(byKey[0].entry) else Lookup(byKey[1..], k)
  }

  function Positive(limit: Option<int>, was: Option<int>): Option<int> {
    if limit.Some? && limit.value > 0 then limit else was
  }

  // Arguments of a sync besides the index: label text and the chat-model name heuristic.
  datatype Naming = Naming(caption: Id -> string, chatLikely: Id -> bool)

  function RefreshRow(x: Index, n: Naming, r: Row): Row {
    var e := Lookup(x.byKey, KeyOf(r.provider, r.id));
    var r' := r.(chatCapable := n.chatLikely(r.id));
    if e.None? then r'
    else
      var v := e.value;
      r'.(input := Or(v.input, r.input), output := Or(v.output, r.output),
          cacheRead := if v.cacheRead.Some? then v.cacheRead else r.cacheRead,
          cacheWrite := if v.cacheWrite.Some? then v.cacheWrite else r.cacheWrite,
          contextWindow := Positive(v.maxInput, r.contextWindow), maxOutput := Positive(v.maxOutput, r.maxOutput),
          flags := r.flags + v.flags)
  }

  function Refresh(x: Index, n: Naming, t: Table): Table {
    map i | i in t :: RefreshRow(x, n, t[i])
  }

  function Discover(x: Index, n: Naming, t: Table): Table
    requires IsIndex(x)
  {
    InsertMany(t, Missing(x.byKey, Keys(t), n.caption))
  }

  function Sync(x: Index, n: Naming, t: Table): Table
    requires IsIndex(x)
  {
    Refresh(x, n, Cleanup(x, Discover(x, n, t)))
  }

  class Registry {
    var rows: Table

    constructor (rows: Table)
      ensures this.rows == rows
    {
      this.rows := rows;
    }

    method Run(x: Index, n: Naming)
      requires IsIndex(x) && IsTable(rows)
      modifies this
      ensures rows == Sync(x, n, old(rows)) && IsTable(rows)
    {
      RunDiscover(x, n);
      RunCleanup(x);
      RunRefresh(x, n);
    }

    method RunDiscover(x: Index, n: Naming)
      requires IsIndex(x) && IsTable(rows)
      modifies this
      ensures rows == Discover(x, n, old(rows)) && IsTable(rows)
    {
      var toInsert := FindMissing(x, n);
      for k := 0 to |toInsert|
        invariant InsertMany(rows, toInsert[k..]) == InsertMany(old(rows), toInsert) && IsTable(rows)
      {
        assert toInsert[k..][0] == toInsert[k] && toInsert[k..][1..] == toInsert[k + 1..];
        if toInsert[k].id !in rows {
          rows := rows[toInsert[k].id := toInsert[k]];
        }
      }
    }

    method FindMissing(x: Index, n: Naming) returns (toInsert: seq<Row>)
      requires IsIndex(x)
      ensures toInsert == Missing(x.byKey, Keys(rows), n.caption)
    {
      hide Keys, NewRow, HasColon, Missing;
      MissingNone(x.byKey, Keys(rows), n.caption);
      var existing := Keys(rows);
      toInsert := [];
      for k := 0 to |x.byKey|
        invariant toInsert + Missing(x.byKey[k..], existing, n.caption) == Missing(x.byKey, existing, n.caption)
      {
        MissingFrom(x.byKey, existing, n.caption, k);
        if x.byKey[k].key !in existing {
          toInsert := toInsert + [NewRow(x.byKey[k], n.caption)];
        }
      }
    }

    method RunCleanup(x: Index)
      requires IsTable(rows)
      modifies this
      ensures rows == Cleanup(x, old(rows)) && IsTable(rows)
    {
      var toDelete: set<Id> := {};
      var todo := x.byProvider.Keys;
      while todo != {}
        invariant todo <= x.byProvider.Keys && rows == old(rows)
        invariant forall i ::
          i in toDelete <==>
          i in rows && rows[i].provider in x.byProvider.Keys - todo && i !in x.byProvider[rows[i].provider]
        decreases |todo|
      {
        var provider :| provider in todo;
        toDelete := toDelete + set i | i in rows && rows[i].provider == provider && i !in x.byProvider[provider];
        todo := todo - {provider};
      }
      rows := map i | i in rows && !(i in toDelete && !rows[i].builtIn) :: rows[i];
    }

    method RunRefresh(x: Index, n: Naming)
      requires IsTable(rows)
      modifies this
      ensures rows == Refresh(x, n, old(rows)) && IsTable(rows)
    {
      var todo := rows.Keys;
      while todo != {}
        invariant todo <= rows.Keys == old(rows).Keys && IsTable(rows)
        invariant forall i :: i in rows ==>
          rows[i] == if i in todo then old(rows)[i] else RefreshRow(x, n, old(rows)[i])
        decreases |todo|
      {
        hide RefreshRow;
        var i :| i in todo;
        RefreshKeeps(x, n, rows[i]);
        rows := rows[i := RefreshRow(x, n, rows[i])];
        todo := todo - {i};
      }
    }
  }

  // ---- What a run keeps -------------------------------------------------------------------------------

  lemma RefreshKeeps(x: Index, n: Naming, r: Row)
    ensures var r' := RefreshRow(x, n, r);
      && r'.id == r.id && r'.provider == r.provider && r'.builtIn == r.builtIn
      && r'.tier == r.tier && r'.caption == r.caption && r'.enabled == r.enabled
  {
  }

  lemma {:induction false} InsertManyKeeps(t: Table, rows: seq<Row>)
    requires IsTable(t)
    ensures var t' := InsertMany(t, rows);
      && IsTable(t')
      && (forall i :: i in t ==> i in t' && t'[i] == t[i])
      && (forall i :: i in t' && i !in t ==> t'[i] in rows)
    decreases |rows|
  {
    if rows != [] {
      InsertManyKeeps(if rows[0].id in t then t else t[rows[0].id := rows[0]], rows[1..]);
    }
  }

  // A row outlives a run exactly when it is not stale; built-in rows are never stale. What Arbr
  // owns of a surviving row is unchanged.
  lemma RunKeeps(x: Index, n: Naming, t: Table, i: Id)
    requires IsIndex(x) && IsTable(t) && i in t
    ensures var t' := Sync(x, n, t);
      && (i in t' <==> t[i].builtIn || t[i].provider !in x.byProvider || i in x.byProvider[t[i].provider])
      && (i in t' ==> t'[i].provider == t[i].provider && t'[i].tier == t[i].tier && t'[i].caption == t[i].caption
                      && t'[i].builtIn == t[i].builtIn && t'[i].enabled == t[i].enabled)
  {
    InsertManyKeeps(t, Missing(x.byKey, Keys(t), n.caption));
    RefreshKeeps(x, n, t[i]);
  }

  lemma {:induction false} LookupListed(byKey: seq<Listed>, l: Listed)
    requires DistinctKeys(byKey) && l in byKey
    ensures Lookup(byKey, l.key) == Some(l.entry)
  {
    if byKey[0] != l {
      LookupListed(byKey[1..], l);
    }
  }

  predicate Shows<T(==)>(known: Option<T>, shown: T) {
    known.Some? ==> shown == known.value
  }

  // What the catalogue knows of a listed model is what its row shows after a run; what it does not
  // know stays. A row the run added is enabled and has the tier of its prices.
  lemma RunPublishes(x: Index, n: Naming, t: Table, l: Listed, i: Id)
    requires IsIndex(x) && DistinctKeys(x.byKey) && IsTable(t) && l in x.byKey
    requires i in Sync(x, n, t) && KeyOf(Sync(x, n, t)[i].provider, i) == l.key
    ensures var r := Sync(x, n, t)[i]; var e := l.entry;
      && Shows(e.input, r.input) && Shows(e.output, r.output)
      && (e.cacheRead.Some? ==> r.cacheRead == e.cacheRead) && (e.cacheWrite.Some? ==> r.cacheWrite == e.cacheWrite)
      && (e.maxInput.Some? && e.maxInput.value > 0 ==> r.contextWindow == e.maxInput)
      && (e.maxOutput.Some? && e.maxOutput.value > 0 ==> r.maxOutput == e.maxOutput)
      && (forall f :: f in e.flags ==> f in r.flags && r.flags[f] == e.flags[f])
      && (i in t ==>
            && (e.input.None? ==> r.input == t[i].input) && (e.output.None? ==> r.output == t[i].output)
            && (e.cacheRead.None? ==> r.cacheRead == t[i].cacheRead)
            && (e.cacheWrite.None? ==> r.cacheWrite == t[i].cacheWrite)
            && (e.maxInput.None? || e.maxInput.value <= 0 ==> r.contextWindow == t[i].contextWindow)
            && (e.maxOutput.None? || e.maxOutput.value <= 0 ==> r.maxOutput == t[i].maxOutput)
            && (forall f :: f !in e.flags ==> (f in r.flags <==> f in t[i].flags)
                                              && (f in r.flags ==> r.flags[f] == t[i].flags[f])))
      && (i !in t ==>
            && r.enabled && !r.builtIn && r.caption == n.caption(i)
            && r.input == Or(e.input, 0.0) && r.output == Or(e.output, 0.0)
            && r.cacheRead == e.cacheRead && r.cacheWrite == e.cacheWrite
            && r.contextWindow == e.maxInput && r.maxOutput == e.maxOutput && r.flags == e.flags
            && (r.tier == Premium <==> r.input + r.output >= 16.0)
            && (r.tier == Mid <==> 1.6 <= r.input + r.output < 16.0)
            && (r.tier == Light <==> r.input + r.output < 1.6))
      && r.chatCapable == n.chatLikely(i)
  {
    hide Sync, KeyOf, HasColon, ProviderOf, IdOf, Stale, Offer, Lookup, DistinctKeys;
    SyncAt(x, n, t, i);
    LookupListed(x.byKey, l);
    if i in t {
      RefreshKeeps(x, n, t[i]);
    } else {
      AddedRow(x, n, t, i);
      var r := RunOffer(x, n, t, i).value;
      RefreshKeeps(x, n, r);
      assert Carries(r, l.entry, n.caption(i));
      assert r.flags + l.entry.flags == l.entry.flags;
    }
  }

  lemma AddedRow(x: Index, n: Naming, t: Table, i: Id)
    requires IsIndex(x) && DistinctKeys(x.byKey) && RunOffer(x, n, t, i).Some?
    ensures var r := RunOffer(x, n, t, i).value;
      && r.id == i
      && forall l :: l in x.byKey && l.key == KeyOf(r.provider, i) ==> Carries(r, l.entry, n.caption(i))
  {
    hide KeyOf, NewRow, DistinctKeys, Carries;
    OfferFrom(x.byKey, Keys(t), n.caption, i);
    var m :| m in x.byKey && IdOf(m.key) == i && RunOffer(x, n, t, i).value == NewRow(m, n.caption);
    NewRowCarries(m, n.caption);
    forall l | l in x.byKey && l.key == m.key ensures l == m {
      OneListing(x.byKey, l, m);
    }
  }

  // A row as discovery writes it from a catalogue entry.
  predicate Carries(r: Row, e: Entry, caption: string) {
    && r.enabled && !r.builtIn && r.caption == caption
    && r.input == (if e.input.Some? then e.input.value else 0.0)
    && r.output == (if e.output.Some? then e.output.value else 0.0)
    && r.cacheRead == e.cacheRead && r.cacheWrite == e.cacheWrite
    && r.contextWindow == e.maxInput && r.maxOutput == e.maxOutput && r.flags == e.flags
    && r.tier == if r.input + r.output < 1.6 then Light else if r.input + r.output < 16.0 then Mid else Premium
  }

  lemma NewRowCarries(l: Listed, caption: Id -> string)
    requires HasColon(l.key)
    ensures var r := NewRow(l, caption);
      KeyOf(r.provider, r.id) == l.key && r.id == IdOf(l.key) && Carries(r, l.entry, caption(r.id))
  {
    JoinSplit(l.key);
  }

  lemma OneListing(byKey: seq<Listed>, l: Listed, m: Listed)
    requires DistinctKeys(byKey) && l in byKey && m in byKey && l.key == m.key
    ensures l == m
  {
  }

  // ---- Convergence ------------------------------------------------------------------------------------

  ghost predicate Clean(x: Index, t: Table) {
    forall i :: i in t ==> !Stale(x, t[i])
  }

  // The row discovery would store under id i, if the id is free: the first missing key naming it.
  function Offer(byKey: seq<Listed>, existing: set<Key>, caption: Id -> string, i: Id): Option<Row>
    requires forall l :: l in byKey ==> HasColon(l.key)
  {
    if byKey == [] then None
    else if byKey[0].key !in existing && IdOf(byKey[0].key) == i then Some(NewRow(byKey[0], caption))
    else Offer(byKey[1..], existing, caption, i)
  }

  lemma {:induction false} InsertedIsOffer(t: Table, byKey: seq<Listed>, existing: set<Key>, caption: Id -> string,
                                           i: Id)
    requires forall l :: l in byKey ==> HasColon(l.key)
    ensures var t' := InsertMany(t, Missing(byKey, existing, caption));
      if i in t then i in t' && t'[i] == t[i]
      else (i in t' <==> Offer(byKey, existing, caption, i).Some?) &&
           (i in t' ==> Offer(byKey, existing, caption, i) == Some(t'[i]))
    decreases |byKey|
  {
    if byKey != [] {
      var l := byKey[0];
      hide IdOf, ProviderOf, HasColon, KeyOf;
      if l.key in existing {
        assert Missing(byKey, existing, caption) == Missing(byKey[1..], existing, caption);
        InsertedIsOffer(t, byKey[1..], existing, caption, i);
      } else {
        var row := NewRow(l, caption);
        assert row.id == IdOf(l.key);
        var rest := Missing(byKey[1..], existing, caption);
        assert Missing(byKey, existing, caption) == [row] + rest;
        assert ([row] + rest)[1..] == rest;
        InsertedIsOffer(if row.id in t then t else t[row.id := row], byKey[1..], existing, caption, i);
      }
    }
  }

  lemma {:induction false} OfferFrom(byKey: seq<Listed>, existing: set<Key>, caption: Id -> string, i: Id)
    requires forall l :: l in byKey ==> HasColon(l.key)
    ensures var o := Offer(byKey, existing, caption, i);
      && (o.Some? ==> exists l :: l in byKey && l.key !in existing && IdOf(l.key) == i && o.value == NewRow(l, caption))
      && (o.None? ==> forall l :: l in byKey && IdOf(l.key) == i ==> l.key in existing)
  {
    hide IdOf, ProviderOf, HasColon, KeyOf;
    if byKey != [] && !(byKey[0].key !in existing && IdOf(byKey[0].key) == i) {
      OfferFrom(byKey[1..], existing, caption, i);
    }
  }

  // Only the keys that name i matter to what is offered for i.
  lemma {:induction false} OfferSame(byKey: seq<Listed>, e1: set<Key>, e2: set<Key>, caption: Id -> string, i: Id)
    requires forall l :: l in byKey ==> HasColon(l.key)
    requires forall l :: l in byKey && IdOf(l.key) == i ==> (l.key in e1 <==> l.key in e2)
    ensures Offer(byKey, e1, caption, i) == Offer(byKey, e2, caption, i)
  {
    hide IdOf, ProviderOf, HasColon, KeyOf;
    if byKey != [] {
      OfferSame(byKey[1..], e1, e2, caption, i);
    }
  }

  function RunOffer(x: Index, n: Naming, t: Table, i: Id): Option<Row>
    requires IsIndex(x)
  {
    Offer(x.byKey, Keys(t), n.caption, i)
  }

  // One run, id by id: rows that are not stale are refreshed, free ids take a fresh offer.
  lemma SyncAt(x: Index, n: Naming, t: Table, i: Id)
    requires IsIndex(x)
    ensures var t' := Sync(x, n, t);
      if i in t then (i in t' <==> !Stale(x, t[i])) && (i in t' ==> t'[i] == RefreshRow(x, n, t[i]))
      else
        var o := RunOffer(x, n, t, i);
        (i in t' <==> o.Some? && !Stale(x, o.value)) && (i in t' ==> t'[i] == RefreshRow(x, n, o.value))
  {
    hide Stale, RefreshRow, Offer, Missing;
    InsertedIsOffer(t, x.byKey, Keys(t), n.caption, i);
  }

  lemma RefreshTwice(x: Index, n: Naming, r: Row)
    ensures RefreshRow(x, n, RefreshRow(x, n, r)) == RefreshRow(x, n, r)
  {
    RefreshKeeps(x, n, r);
    var e := Lookup(x.byKey, KeyOf(r.provider, r.id));
    if e.Some? {
      assert r.flags + e.value.flags + e.value.flags == r.flags + e.value.flags;
    }
  }

  lemma StaleKept(x: Index, n: Naming, r: Row)
    ensures Stale(x, RefreshRow(x, n, r)) == Stale(x, r)
  {
    RefreshKeeps(x, n, r);
  }

  lemma RunCleans(x: Index, n: Naming, t: Table)
    requires IsIndex(x) && IsTable(t)
    ensures Clean(x, Sync(x, n, t)) && IsTable(Sync(x, n, t))
  {
    hide Stale, RefreshRow, Sync, RunOffer;
    var t' := Sync(x, n, t);
    forall i | i in t' ensures !Stale(x, t'[i]) && t'[i].id == i {
      SyncAt(x, n, t, i);
      if i in t {
        StaleKept(x, n, t[i]);
        RefreshKeeps(x, n, t[i]);
      } else {
        OfferNamed(x, n, t, i);
        StaleKept(x, n, RunOffer(x, n, t, i).value);
        RefreshKeeps(x, n, RunOffer(x, n, t, i).value);
      }
    }
  }

  // An offer for i is built from a listed key naming i; its row carries exactly that key.
  lemma OfferNamed(x: Index, n: Naming, t: Table, i: Id)
    requires IsIndex(x) && RunOffer(x, n, t, i).Some?
    ensures var r := RunOffer(x, n, t, i).value;
      && r.id == i && ColonFree(r.provider)
      && exists l :: l in x.byKey && l.key == KeyOf(r.provider, r.id) && l.key !in Keys(t)
  {
    hide KeyOf, Keys, ColonFree, HasColon;
    OfferFrom(x.byKey, Keys(t), n.caption, i);
    var l :| l in x.byKey && l.key !in Keys(t) && IdOf(l.key) == i
      && RunOffer(x, n, t, i).value == NewRow(l, n.caption);
    JoinSplit(l.key);
  }

  // A row of the table after a run, seen as the keys it occupies.
  lemma KeysAfter(x: Index, n: Naming, t: Table, l: Listed, i: Id)
    requires IsIndex(x) && IsTable(t) && Clean(x, t) && l in x.byKey && IdOf(l.key) == i
    requires i !in Sync(x, n, t)
    ensures l.key in Keys(t) <==> l.key in Keys(Sync(x, n, t))
  {
    hide KeyOf, Stale, RefreshRow, Sync, RunOffer, HasColon, IdOf, ColonFree;
    var t' := Sync(x, n, t);
    if l.key in Keys(t) {
      var j :| j in t && KeyOf(t[j].provider, t[j].id) == l.key;
      SyncAt(x, n, t, j);
      RefreshKeeps(x, n, t[j]);
      assert KeyOf(t'[j].provider, t'[j].id) == l.key;
    }
    if l.key in Keys(t') {
      var j :| j in t' && KeyOf(t'[j].provider, t'[j].id) == l.key;
      SyncAt(x, n, t, j);
      if j in t {
        RefreshKeeps(x, n, t[j]);
      } else {
        OfferNamed(x, n, t, j);
        RefreshKeeps(x, n, RunOffer(x, n, t, j).value);
        SplitJoin(t'[j].provider, j);
        assert false;
      }
    }
  }

  lemma TableExt(a: Table, b: Table)
    requires forall i :: (i in a <==> i in b) && (i in a ==> a[i] == b[i])
    ensures a == b
  {
    assert a.Keys == b.Keys;
  }

  // A sync that starts without stale rows reaches a state that further syncs leave alone.
  lemma CleanRunIsFinal(x: Index, n: Naming, t: Table)
    requires IsIndex(x) && IsTable(t) && Clean(x, t)
    ensures Sync(x, n, Sync(x, n, t)) == Sync(x, n, t)
  {
    hide Stale, RefreshRow, Sync, Offer, Keys, IdOf, HasColon;
    var t' := Sync(x, n, t);
    RunCleans(x, n, t);
    forall i ensures (i in Sync(x, n, t') <==> i in t') && (i in t' ==> Sync(x, n, t')[i] == t'[i]) {
      SyncAt(x, n, t, i);
      SyncAt(x, n, t', i);
      if i in t' {
        if i in t { RefreshTwice(x, n, t[i]); } else { RefreshTwice(x, n, RunOffer(x, n, t, i).value); }
      } else {
        forall l | l in x.byKey && IdOf(l.key) == i ensures l.key in Keys(t) <==> l.key in Keys(t') {
          KeysAfter(x, n, t, l, i);
        }
        OfferSame(x.byKey, Keys(t), Keys(t'), n.caption, i);
      }
    }
    TableExt(Sync(x, n, t'), t');
  }

  // Two runs always reach the fixed point, whatever the catalogue and the registry.
  lemma TwoRunsSuffice(x: Index, n: Naming, t: Table)
    requires IsIndex(x) && IsTable(t)
    ensures Sync(x, n, Sync(x, n, Sync(x, n, t))) == Sync(x, n, Sync(x, n, t))
  {
    hide Sync;
    RunCleans(x, n, t);
    CleanRunIsFinal(x, n, Sync(x, n, t));
  }

  predicate Offered(x: Index, i: Id)
    requires IsIndex(x)
  {
    exists l :: l in x.byKey && IdOf(l.key) == i
  }

  ghost predicate StaleBlocks(x: Index, t: Table, i: Id)
    requires IsIndex(x)
  {
    i in t && Stale(x, t[i]) && Offered(x, i)
  }

  ghost predicate ColonFreeRows(t: Table) {
    forall i :: i in t ==> ColonFree(t[i].provider)
  }

  // A stale row holding an id the catalogue offers under another provider is deleted by the first
  // run, and its id is filled only by the second.
  lemma BlockedIdFilledLate(x: Index, n: Naming, t: Table, i: Id)
    requires Consistent(x) && IsTable(t) && ColonFreeRows(t) && StaleBlocks(x, t, i)
    ensures i !in Sync(x, n, t) && i in Sync(x, n, Sync(x, n, t))
  {
    hide Sync, Offer, RefreshRow, KeyOf, HasColon;
    var t' := Sync(x, n, t);
    SyncAt(x, n, t, i);
    SyncAt(x, n, t', i);
    RunColonFree(x, n, t);
    RunCleans(x, n, t);
    var l :| l in x.byKey && IdOf(l.key) == i;
    if l.key in Keys(t') {
      var j :| j in t' && KeyOf(t'[j].provider, t'[j].id) == l.key;
      SplitJoin(t'[j].provider, j);
      assert false;
    }
    OfferFrom(x.byKey, Keys(t'), n.caption, i);
    OfferNotStale(x, n, t', i);
  }

  lemma OfferNotStale(x: Index, n: Naming, t: Table, i: Id)
    requires Consistent(x) && RunOffer(x, n, t, i).Some?
    ensures !Stale(x, RunOffer(x, n, t, i).value)
  {
    hide KeyOf, Keys, HasColon;
    OfferFrom(x.byKey, Keys(t), n.caption, i);
  }

  lemma RunColonFree(x: Index, n: Naming, t: Table)
    requires IsIndex(x) && IsTable(t) && ColonFreeRows(t)
    ensures ColonFreeRows(Sync(x, n, t))
  {
    hide Sync, RefreshRow, KeyOf, Stale, ColonFree, RunOffer;
    var t' := Sync(x, n, t);
    forall i | i in t' ensures ColonFree(t'[i].provider) {
      SyncAt(x, n, t, i);
      if i in t {
        RefreshKeeps(x, n, t[i]);
      } else {
        OfferNamed(x, n, t, i);
        RefreshKeeps(x, n, RunOffer(x, n, t, i).value);
      }
    }
  }

  // Without such a row nothing new can turn up in the second run.
  lemma UnblockedRunIsFinal(x: Index, n: Naming, t: Table)
    requires Consistent(x) && IsTable(t) && ColonFreeRows(t)
    requires forall i :: !StaleBlocks(x, t, i)
    ensures Sync(x, n, Sync(x, n, t)) == Sync(x, n, t)
  {
    hide Stale, RefreshRow, Sync, Offer, Keys, IdOf, HasColon, Offered, ColonFree;
    var t' := Sync(x, n, t);
    RunCleans(x, n, t);
    RunColonFree(x, n, t);
    forall i ensures (i in Sync(x, n, t') <==> i in t') && (i in t' ==> Sync(x, n, t')[i] == t'[i]) {
      SyncAt(x, n, t, i);
      SyncAt(x, n, t', i);
      if i in t' {
        if i in t { RefreshTwice(x, n, t[i]); } else { RefreshTwice(x, n, RunOffer(x, n, t, i).value); }
      } else {
        NothingOfferedAgain(x, n, t, i);
      }
    }
    TableExt(Sync(x, n, t'), t');
  }

  lemma NothingOfferedAgain(x: Index, n: Naming, t: Table, i: Id)
    requires Consistent(x) && IsTable(t) && ColonFreeRows(t) && ColonFreeRows(Sync(x, n, t)) && IsTable(Sync(x, n, t))
    requires i !in Sync(x, n, t) && !StaleBlocks(x, t, i)
    ensures RunOffer(x, n, Sync(x, n, t), i).None?
  {
    hide Sync, RefreshRow, KeyOf, HasColon, Offer, NewRow;
    var t' := Sync(x, n, t);
    SyncAt(x, n, t, i);
    OfferFrom(x.byKey, Keys(t'), n.caption, i);
    if RunOffer(x, n, t', i).Some? {
      assert Offered(x, i);
      assert i !in t;
      OfferFrom(x.byKey, Keys(t), n.caption, i);
      if RunOffer(x, n, t, i).Some? {
        OfferNotStale(x, n, t, i);
      } else {
        var l :| l in x.byKey && l.key !in Keys(t') && IdOf(l.key) == i;
        var j :| j in t && KeyOf(t[j].provider, t[j].id) == l.key;
        SplitJoin(t[j].provider, j);
      }
    }
  }

  // One run is enough exactly when no stale row holds an id the catalogue offers.
  lemma OneRunSufficesIff(x: Index, n: Naming, t: Table)
    requires Consistent(x) && IsTable(t) && ColonFreeRows(t)
    ensures Sync(x, n, Sync(x, n, t)) == Sync(x, n, t) <==> forall i :: !StaleBlocks(x, t, i)
  {
    hide Sync, StaleBlocks;
    if forall i :: !StaleBlocks(x, t, i) {
      UnblockedRunIsFinal(x, n, t);
    } else {
      var i :| StaleBlocks(x, t, i);
      BlockedIdFilledLate(x, n, t, i);
    }
  }

  // A registry that one run does not settle: "m" is still listed under provider a, which no longer
  // offers it, while the catalogue now offers it under provider b.
  lemma OneRunNotEnough(n: Naming, e: Entry) returns (x: Index, t: Table)
    ensures Consistent(x) && IsTable(t) && Sync(x, n, Sync(x, n, t)) != Sync(x, n, t)
  {
    var a, b, m, other := Provider("a"), Provider("b"), Id("m"), Id("o");
    SplitJoin(a, other);
    SplitJoin(b, m);
    x := Index([Listed(KeyOf(a, other), e), Listed(KeyOf(b, m), e)], map[a := {other}, b := {m}]);
    t := map[m := Row(m, a, "M", Light, false, true, 0.0, 0.0, None, None, None, None, map[], true)];
    assert x.byKey[1] in x.byKey;
    assert StaleBlocks(x, t, m);
    BlockedIdFilledLate(x, n, t, m);
  }
}
