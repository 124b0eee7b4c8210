// The writers of server/src/providers/connections.js with their awaits: each database call of
// setCredential, removeCredential and setDefaultCredential is one atomic step, and any number of them
// run at once on one provider's stored keys.
module KeyWrites {
  import opened Options
  import opened Seqs
  import opened Connections

  type Client = nat

  // The database call a writer makes next.
  datatype Phase =
    | Counting(row: Row, asked: bool)         // setCredential: countDocuments
    | Resetting(row: Row)                     //   updateMany, when the key becomes the default
    | Writing(row: Row, makeDefault: bool)    //   findOneAndUpdate with upsert
    | Finding(alias: Alias)                   // removeCredential: findOne
    | Deleting(id: string, wasDefault: bool)  //   deleteOne
    | Looking                                 //   find, when the default went
    | Promoting(id: string)                   //   updateOne
    | Wiping                                  // removeCredential without an alias: deleteMany
    | Seeking(alias: Alias)                   // setDefaultCredential: findOne
    | Clearing(id: string)                    //   updateMany
    | Marking(id: string)                     //   updateOne
    | Finished

  datatype Store = Store(rows: seq<Row>, clients: map<Client, Phase>)

  // Where the row with this id is, or |rows|.
  function IdAt(rows: seq<Row>, id: string): (k: nat)
    ensures k <= |rows| && (k < |rows| ==> rows[k].id == id)
    ensures forall i :: 0 <= i < k ==> rows[i].id != id
  {
    if rows == [] || rows[0].id == id then 0 else 1 + IdAt(rows[1..], id)
  }

  function MarkId(rows: seq<Row>, id: string): seq<Row> {
    var k := IdAt(rows, id);
    if k < |rows| then rows[k := rows[k].(isDefault := true)] else rows
  }

  function DeleteId(rows: seq<Row>, id: string): seq<Row> {
    var k := IdAt(rows, id);
    if k < |rows| then RemoveAt(rows, k) else rows
  }

  function RowsAfter(rows: seq<Row>, phase: Phase): seq<Row> {
    match phase
    case Resetting(_) => Unset(rows)
    case Writing(row, makeDefault) => Upsert(rows, row, makeDefault)
    case Deleting(id, _) => DeleteId(rows, id)
    case Promoting(id) => MarkId(rows, id)
    case Wiping => []
    case Clearing(_) => Unset(rows)
    case Marking(id) => MarkId(rows, id)
    case _ => rows
  }

  function PhaseAfter(rows: seq<Row>, phase: Phase): Phase {
    match phase
    case Counting(row, asked) => if asked || rows == [] then Resetting(row) else Writing(row, false)
    case Resetting(row) => Writing(row, true)
    case Finding(alias) =>
      var k := Find(rows, alias);
      if k < |rows| then Deleting(rows[k].id, rows[k].isDefault) else Finished
    case Deleting(_, wasDefault) => if wasDefault then Looking else Finished
    case Looking => if rows == [] then Finished else Promoting(Sort(rows, ByPreference())[0].id)
    case Seeking(alias) =>
      var k := Find(rows, alias);
      if k < |rows| then Clearing(rows[k].id) else Finished
    case Clearing(id) => Marking(id)
    case _ => Finished
  }

  function Step(s: Store, c: Client): Store {
    if c !in s.clients then s
    else Store(RowsAfter(s.rows, s.clients[c]), s.clients[c := PhaseAfter(s.rows, s.clients[c])])
  }

  // The store after n steps of a schedule.
  function After(s: Store, schedule: seq<Client>, n: nat): Store
    requires n <= |schedule|
  {
    if n == 0 then s else Step(After(s, schedule, n - 1), schedule[n - 1])
  }

  function Started(op: Operation): Phase {
    match op
    case Set(_, row, makeDefault) => Counting(row, makeDefault)
    case Remove(_, alias) => Finding(alias)
    case Disconnect(_) => Wiping
    case SetDefault(_, alias) => Seeking(alias)
  }

  // ---- One writer alone ----------------------------------------------------------------------------------

  function Alone(rows: seq<Row>, phase: Phase, steps: nat): (seq<Row>, Phase)
    decreases steps
  {
    if steps == 0 then (rows, phase) else Alone(RowsAfter(rows, phase), PhaseAfter(rows, phase), steps - 1)
  }

  // A writer that nobody interrupts does what the operation says: four calls are always enough.
  lemma UninterruptedIsAtomic(rows: seq<Row>, op: Operation)
    requires DistinctAliases(rows)
    ensures Alone(rows, Started(op), 4) == (NextRows(rows, op), Finished)
  {
    hide Alone, SetKey, RemoveKey, SetDefaultKey;
    match op {
      case Set(_, row, makeDefault) => SetAlone(rows, row, makeDefault);
      case Remove(_, alias) => RemoveAlone(rows, alias);
      case Disconnect(_) => FourCalls(rows, Wiping);
      case SetDefault(_, alias) => SetDefaultAlone(rows, alias);
    }
  }

  lemma SetAlone(rows: seq<Row>, row: Row, asked: bool)
    ensures Alone(rows, Counting(row, asked), 4) == (SetKey(rows, row, asked), Finished)
  {
    hide Alone, Unset, Upsert;
    FourCalls(rows, Counting(row, asked));
  }

  lemma RemoveAlone(rows: seq<Row>, alias: Alias)
    requires DistinctAliases(rows)
    ensures Alone(rows, Finding(alias), 4) == (Or(RemoveKey(rows, alias), rows), Finished)
  {
    hide Alone, Sort, Promote, MarkId, DeleteId, RemoveAt;
    FourCalls(rows, Finding(alias));
    var k := Find(rows, alias);
    if k < |rows| {
      IdIsOwn(rows, k);
      DeletesAt(rows, k);
      RemovedDistinct(rows, k);
      PromotedIsMarked(RemoveAt(rows, k));
    }
  }

  lemma DeletesAt(rows: seq<Row>, k: nat)
    requires k < |rows| && IdAt(rows, rows[k].id) == k
    ensures DeleteId(rows, rows[k].id) == RemoveAt(rows, k)
  {
  }

  lemma RemovedDistinct(rows: seq<Row>, k: nat)
    requires k < |rows| && DistinctAliases(rows)
    ensures DistinctAliases(RemoveAt(rows, k))
  {
  }

  lemma SetDefaultAlone(rows: seq<Row>, alias: Alias)
    requires DistinctAliases(rows)
    ensures Alone(rows, Seeking(alias), 4) == (Or(SetDefaultKey(rows, alias), rows), Finished)
  {
    hide Alone, Find, Unset, MarkId, Sort, Upsert, DeleteId;
    FourCalls(rows, Seeking(alias));
    var k := Find(rows, alias);
    if k < |rows| {
      ClearedThenMarked(rows, k);
      SeekThenMark(rows, alias);
    }
  }

  lemma SeekThenMark(rows: seq<Row>, alias: Alias)
    requires Find(rows, alias) < |rows|
    ensures var id := rows[Find(rows, alias)].id; var p1 := PhaseAfter(rows, Seeking(alias));
      && p1 == Clearing(id) && RowsAfter(rows, Seeking(alias)) == rows
      && PhaseAfter(rows, p1) == Marking(id) && RowsAfter(rows, p1) == Unset(rows)
      && PhaseAfter(Unset(rows), Marking(id)) == Finished
      && RowsAfter(Unset(rows), Marking(id)) == MarkId(Unset(rows), id)
      && PhaseAfter(MarkId(Unset(rows), id), Finished) == Finished
      && RowsAfter(MarkId(Unset(rows), id), Finished) == MarkId(Unset(rows), id)
  {
    hide Find, Unset, MarkId, Sort, Upsert, DeleteId;
  }

  lemma ClearedThenMarked(rows: seq<Row>, k: nat)
    requires k < |rows| && DistinctAliases(rows)
    ensures MarkId(Unset(rows), rows[k].id) == Unset(rows)[k := rows[k].(isDefault := true)]
  {
    IdIsOwn(Unset(rows), k);
  }

  lemma FourCalls(rows: seq<Row>, p0: Phase)
    ensures var p1, r1 := PhaseAfter(rows, p0), RowsAfter(rows, p0);
      var p2, r2 := PhaseAfter(r1, p1), RowsAfter(r1, p1);
      var p3, r3 := PhaseAfter(r2, p2), RowsAfter(r2, p2);
      Alone(rows, p0, 4) == (RowsAfter(r3, p3), PhaseAfter(r3, p3))
  {
    hide RowsAfter, PhaseAfter;
    var p1, r1 := PhaseAfter(rows, p0), RowsAfter(rows, p0);
    var p2, r2 := PhaseAfter(r1, p1), RowsAfter(r1, p1);
    var p3, r3 := PhaseAfter(r2, p2), RowsAfter(r2, p2);
    assert Alone(r3, p3, 1) == Alone(RowsAfter(r3, p3), PhaseAfter(r3, p3), 0);
    assert Alone(r2, p2, 2) == Alone(r3, p3, 1);
    assert Alone(r1, p1, 3) == Alone(r2, p2, 2);
  }

  lemma IdIsOwn(rows: seq<Row>, k: nat)
    requires k < |rows| && forall i, j :: 0 <= i < j < |rows| ==> rows[i].id != rows[j].id
    ensures IdAt(rows, rows[k].id) == k
  {
  }

  lemma PromotedIsMarked(rows: seq<Row>)
    requires DistinctAliases(rows)
    ensures Promote(rows) == if rows == [] then [] else MarkId(rows, Sort(rows, ByPreference())[0].id)
  {
    hide Sort, Preferred;
    if rows == [] { return; }
    var sorted := Sort(rows, ByPreference());
    assert sorted[0] in multiset(sorted);
    assert sorted[0] in rows;
    var at :| 0 <= at < |rows| && rows[at] == sorted[0];
    assert Find(rows, sorted[0].alias) == at;
    IdIsOwn(rows, at);
  }

  // ---- Which keys are default after any interleaving --------------------------------------------------

  predicate Pending(p: Phase) {
    p.Counting? || p.Resetting? || p.Writing?
  }

  // Keys are distinct, and the rows still to be inserted bring ids of their own.
  ghost predicate Fresh(s: Store) {
    && DistinctAliases(s.rows)
    && (forall c, r :: c in s.clients && Pending(s.clients[c]) && r in s.rows ==> s.clients[c].row.id != r.id)
    && (forall c, d :: c in s.clients && d in s.clients && c != d && Pending(s.clients[c]) && Pending(s.clients[d]) ==>
          s.clients[c].row.id != s.clients[d].row.id)
  }

  ghost predicate IsDefaultAlias(rows: seq<Row>, a: Alias) {
    exists k :: 0 <= k < |rows| && rows[k].alias == a && rows[k].isDefault
  }

  ghost predicate Named(rows: seq<Row>, id: string, a: Alias) {
    exists k :: 0 <= k < |rows| && rows[k].id == id && rows[k].alias == a
  }

  // The call makes the key a default.
  ghost predicate Marks(rows: seq<Row>, p: Phase, a: Alias) {
    || (p.Writing? && p.makeDefault && p.row.alias == a)
    || ((p.Promoting? || p.Marking?) && Named(rows, p.id, a))
  }

  // The call takes the flag, or the key, away.
  ghost predicate Clears(rows: seq<Row>, p: Phase, a: Alias) {
    p.Resetting? || p.Clearing? || p.Wiping? || (p.Deleting? && Named(rows, p.id, a))
  }

  lemma MarkIdEffect(rows: seq<Row>, id: string, a: Alias)
    requires DistinctAliases(rows)
    ensures IsDefaultAlias(MarkId(rows, id), a) <==> Named(rows, id, a) || IsDefaultAlias(rows, a)
    ensures DistinctAliases(MarkId(rows, id))
  {
    var k, after := IdAt(rows, id), MarkId(rows, id);
    if k < |rows| {
      assert Named(rows, id, rows[k].alias);
      if Named(rows, id, a) {
        assert after[k].alias == a && after[k].isDefault;
      } else if IsDefaultAlias(rows, a) {
        var i :| 0 <= i < |rows| && rows[i].alias == a && rows[i].isDefault;
        assert after[i] == rows[i];
      }
      if IsDefaultAlias(after, a) {
        var i :| 0 <= i < |after| && after[i].alias == a && after[i].isDefault;
        assert i != k ==> rows[i] == after[i];
      }
    }
  }

  lemma RemovedFrom(rows: seq<Row>, k: nat)
    requires k < |rows|
    ensures forall r :: r in RemoveAt(rows, k) ==> r in rows
    ensures forall i :: 0 <= i < |rows| && i != k ==> rows[i] in RemoveAt(rows, k)
  {
    var after := RemoveAt(rows, k);
    forall i | 0 <= i < |rows| && i != k ensures rows[i] in after {
      assert after[if i < k then i else i - 1] == rows[i];
    }
  }

  lemma IsDefaultIn(rows: seq<Row>, a: Alias)
    ensures IsDefaultAlias(rows, a) <==> exists r :: r in rows && r.alias == a && r.isDefault
  {
  }

  lemma OneRowPerKey(rows: seq<Row>, k: nat)
    requires DistinctAliases(rows) && k < |rows|
    ensures forall r :: r in rows && r != rows[k] ==> r.alias != rows[k].alias
    ensures forall a :: Named(rows, rows[k].id, a) <==> rows[k].alias == a
    ensures rows[k] !in RemoveAt(rows, k)
  {
  }

  lemma DeleteIdEffect(rows: seq<Row>, id: string, a: Alias)
    requires DistinctAliases(rows)
    ensures IsDefaultAlias(DeleteId(rows, id), a) <==> !Named(rows, id, a) && IsDefaultAlias(rows, a)
    ensures DistinctAliases(DeleteId(rows, id))
    ensures forall r :: r in DeleteId(rows, id) ==> r in rows
  {
    var k, after := IdAt(rows, id), DeleteId(rows, id);
    if k < |rows| {
      hide DistinctAliases, IsDefaultAlias, Named, RemoveAt;
      RemovedFrom(rows, k);
      RemovedDistinct(rows, k);
      OneRowPerKey(rows, k);
      IsDefaultIn(rows, a);
      IsDefaultIn(after, a);
    }
  }

  lemma UnsetEffect(rows: seq<Row>, a: Alias)
    ensures !IsDefaultAlias(Unset(rows), a)
    ensures DistinctAliases(rows) ==> DistinctAliases(Unset(rows))
  {
  }

  lemma UpsertEffect(rows: seq<Row>, row: Row, makeDefault: bool, a: Alias)
    requires DistinctAliases(rows) && forall r :: r in rows ==> r.id != row.id
    ensures IsDefaultAlias(Upsert(rows, row, makeDefault), a) <==>
      (makeDefault && row.alias == a) || IsDefaultAlias(rows, a)
    ensures DistinctAliases(Upsert(rows, row, makeDefault))
  {
    UpsertKeepsDistinct(rows, row, makeDefault);
    var k, after := Find(rows, row.alias), Upsert(rows, row, makeDefault);
    if makeDefault && row.alias == a {
      assert after[k].alias == a && after[k].isDefault;
    } else if IsDefaultAlias(rows, a) {
      var i :| 0 <= i < |rows| && rows[i].alias == a && rows[i].isDefault;
      assert after[i].alias == a && after[i].isDefault;
    }
    if IsDefaultAlias(after, a) {
      var i :| 0 <= i < |after| && after[i].alias == a && after[i].isDefault;
      if !(makeDefault && row.alias == a) {
        assert i < |rows| && rows[i].alias == a && rows[i].isDefault;
      }
    }
  }

  // One call, one key.
  lemma CallEffect(rows: seq<Row>, p: Phase, a: Alias)
    requires DistinctAliases(rows) && (Pending(p) ==> forall r :: r in rows ==> r.id != p.row.id)
    ensures IsDefaultAlias(RowsAfter(rows, p), a) <==>
      Marks(rows, p, a) || (IsDefaultAlias(rows, a) && !Clears(rows, p, a))
    ensures DistinctAliases(RowsAfter(rows, p))
  {
    hide IsDefaultAlias, Named, Unset, Upsert, MarkId, DeleteId, DistinctAliases;
    match p {
      case Resetting(_) => UnsetEffect(rows, a);
      case Clearing(_) => UnsetEffect(rows, a);
      case Writing(row, makeDefault) => UpsertEffect(rows, row, makeDefault, a);
      case Deleting(id, _) => DeleteIdEffect(rows, id, a);
      case Promoting(id) => MarkIdEffect(rows, id, a);
      case Marking(id) => MarkIdEffect(rows, id, a);
      case Wiping => NoKeys(a);
      case _ =>
    }
  }

  lemma NoKeys(a: Alias)
    ensures !IsDefaultAlias([], a) && DistinctAliases([])
  {
  }

  // Where the ids of the stored rows come from.
  lemma IdsAfter(rows: seq<Row>, p: Phase)
    ensures forall r :: r in RowsAfter(rows, p) ==>
      (exists q :: q in rows && q.id == r.id) || (p.Writing? && r.id == p.row.id)
  {
    hide Find, IdAt;
    var after := RowsAfter(rows, p);
    forall r | r in after ensures (exists q :: q in rows && q.id == r.id) || (p.Writing? && r.id == p.row.id) {
      var i :| 0 <= i < |after| && after[i] == r;
      if i < |rows| { assert rows[i] in rows; }
      if i + 1 < |rows| { assert rows[i + 1] in rows; }
    }
  }

  lemma StepKeepsFresh(s: Store, c: Client)
    requires Fresh(s)
    ensures Fresh(Step(s, c))
  {
    if c in s.clients {
      hide RowsAfter, DistinctAliases;
      var p := s.clients[c];
      IdsAfter(s.rows, p);
      PendingAfter(s.rows, p);
      CallEffect(s.rows, p, PLAIN);
    }
  }

  lemma PendingAfter(rows: seq<Row>, p: Phase)
    ensures Pending(PhaseAfter(rows, p)) ==> Pending(p) && !p.Writing? && PhaseAfter(rows, p).row == p.row
  {
    hide Sort, Find;
  }

  lemma {:induction false} RunKeepsFresh(s: Store, schedule: seq<Client>, n: nat)
    requires Fresh(s) && n <= |schedule|
    ensures Fresh(After(s, schedule, n))
  {
    if n > 0 {
      hide Fresh, Step;
      RunKeepsFresh(s, schedule, n - 1);
      StepKeepsFresh(After(s, schedule, n - 1), schedule[n - 1]);
    }
  }

  // The call the n-th step of a schedule makes.
  function CallAt(s: Store, schedule: seq<Client>, n: nat): Phase
    requires n < |schedule|
  {
    var before := After(s, schedule, n);
    if schedule[n] in before.clients then before.clients[schedule[n]] else Finished
  }

  ghost predicate MarksAt(s: Store, schedule: seq<Client>, n: nat, a: Alias)
    requires n < |schedule|
  {
    Marks(After(s, schedule, n).rows, CallAt(s, schedule, n), a)
  }

  ghost predicate ClearsAt(s: Store, schedule: seq<Client>, n: nat, a: Alias)
    requires n < |schedule|
  {
    Clears(After(s, schedule, n).rows, CallAt(s, schedule, n), a)
  }

  // Some call marked the key, or it was default to begin with, and nothing has cleared it since.
  ghost predicate Stands(s: Store, schedule: seq<Client>, n: nat, a: Alias)
    requires n <= |schedule|
  {
    || (exists i :: 0 <= i < n && MarksAt(s, schedule, i, a) && forall j :: i < j < n ==> !ClearsAt(s, schedule, j, a))
    || (IsDefaultAlias(s.rows, a) && forall j :: 0 <= j < n ==> !ClearsAt(s, schedule, j, a))
  }

  lemma StandsOn(s: Store, schedule: seq<Client>, n: nat, a: Alias)
    requires n < |schedule|
    requires MarksAt(s, schedule, n, a) || (Stands(s, schedule, n, a) && !ClearsAt(s, schedule, n, a))
    ensures Stands(s, schedule, n + 1, a)
  {
    hide MarksAt, ClearsAt, IsDefaultAlias;
    if !MarksAt(s, schedule, n, a) {
      if i :| 0 <= i < n && MarksAt(s, schedule, i, a) && forall j :: i < j < n ==> !ClearsAt(s, schedule, j, a) {
        assert MarksAt(s, schedule, i, a);
      }
    }
  }

  lemma StoodBefore(s: Store, schedule: seq<Client>, n: nat, a: Alias)
    requires n < |schedule| && Stands(s, schedule, n + 1, a)
    ensures MarksAt(s, schedule, n, a) || (Stands(s, schedule, n, a) && !ClearsAt(s, schedule, n, a))
  {
    hide MarksAt, ClearsAt, IsDefaultAlias;
    if !MarksAt(s, schedule, n, a) {
      var end := n + 1;
      if i :| 0 <= i < end && MarksAt(s, schedule, i, a) && forall j :: i < j < end ==> !ClearsAt(s, schedule, j, a) {
        assert i < n;
      }
    }
  }

  lemma {:induction false} DefaultIffStands(s: Store, schedule: seq<Client>, n: nat, a: Alias)
    requires Fresh(s) && n <= |schedule|
    ensures IsDefaultAlias(After(s, schedule, n).rows, a) <==> Stands(s, schedule, n, a)
  {
    hide MarksAt, ClearsAt, IsDefaultAlias, Fresh;
    if n > 0 {
      hide After, Stands;
      DefaultIffStands(s, schedule, n - 1, a);
      StepEffect(s, schedule, n - 1, a);
      if IsDefaultAlias(After(s, schedule, n).rows, a) {
        StandsOn(s, schedule, n - 1, a);
      }
      if Stands(s, schedule, n, a) {
        StoodBefore(s, schedule, n - 1, a);
      }
    }
  }

  lemma StepEffect(s: Store, schedule: seq<Client>, n: nat, a: Alias)
    requires Fresh(s) && n < |schedule|
    ensures IsDefaultAlias(After(s, schedule, n + 1).rows, a) <==>
      MarksAt(s, schedule, n, a) || (IsDefaultAlias(After(s, schedule, n).rows, a) && !ClearsAt(s, schedule, n, a))
  {
    hide Marks, Clears, RowsAfter, PhaseAfter, IsDefaultAlias;
    RunKeepsFresh(s, schedule, n);
    var before := After(s, schedule, n);
    if schedule[n] in before.clients {
      CallEffect(before.rows, before.clients[schedule[n]], a);
    } else {
      IdleCall(before.rows, a);
    }
  }

  lemma IdleCall(rows: seq<Row>, a: Alias)
    ensures !Marks(rows, Finished, a) && !Clears(rows, Finished, a)
  {
  }

  ghost predicate OnlyAlias(rows: seq<Row>, a: Alias) {
    IsDefaultAlias(rows, a) && forall b :: IsDefaultAlias(rows, b) ==> b == a
  }

  lemma {:induction false} OneIsOnly(rows: seq<Row>)
    requires DistinctAliases(rows)
    ensures Defaults(rows) == 0 <==> forall a :: !IsDefaultAlias(rows, a)
    ensures Defaults(rows) == 1 <==> exists a :: OnlyAlias(rows, a)
  {
    hide Defaults;
    if k :| 0 <= k < |rows| && rows[k].isDefault {
      assert IsDefaultAlias(rows, rows[k].alias);
      DefaultsAt(rows, k);
      if j :| 0 <= j < |rows| && j != k && rows[j].isDefault {
        assert IsDefaultAlias(rows, rows[j].alias);
        TwoDefaults(rows, if j < k then j else k, if j < k then k else j);
      } else {
        OnlyOneFlag(rows, k);
        assert OnlyAlias(rows, rows[k].alias);
      }
    } else {
      NoFlags(rows);
    }
  }

  lemma NoFlags(rows: seq<Row>)
    requires forall k :: 0 <= k < |rows| ==> !rows[k].isDefault
    ensures Defaults(rows) == 0
  {
    FilterNone(rows, DefaultRow());
  }

  lemma OnlyOneFlag(rows: seq<Row>, k: nat)
    requires k < |rows| && rows[k].isDefault && forall j :: 0 <= j < |rows| && j != k ==> !rows[j].isDefault
    ensures Defaults(rows) == 1
  {
    hide Defaults;
    DefaultsAt(rows, k);
    NoFlags(RemoveAt(rows, k));
  }

  ghost predicate StandsAlone(s: Store, schedule: seq<Client>, a: Alias) {
    Stands(s, schedule, |schedule|, a) && forall b :: Stands(s, schedule, |schedule|, b) ==> b == a
  }

  // Exactly which interleavings of any writers keep one default: those after which exactly one key was
  // marked, or was default at the start, with no reset, removal or disconnection of it since.
  lemma InterleavingKeepsOneIff(s: Store, schedule: seq<Client>)
    requires Fresh(s)
    ensures var rows := After(s, schedule, |schedule|).rows;
      OneDefault(rows) <==> rows == [] || exists a :: StandsAlone(s, schedule, a)
  {
    hide Stands, IsDefaultAlias, Defaults;
    var rows := After(s, schedule, |schedule|).rows;
    RunKeepsFresh(s, schedule, |schedule|);
    OneIsOnly(rows);
    forall a ensures IsDefaultAlias(rows, a) <==> Stands(s, schedule, |schedule|, a) {
      DefaultIffStands(s, schedule, |schedule|, a);
    }
    assert forall a :: OnlyAlias(rows, a) <==> StandsAlone(s, schedule, a);
    NoKeysNoDefault();
  }

  lemma NoKeysNoDefault()
    ensures OneDefault([])
  {
  }

  // ---- Many setCredential and setDefaultCredential calls at once -------------------------------------------

  // The key a writer writes.
  function OwnAlias(s: Store, c: Client): Alias {
    if c !in s.clients then PLAIN
    else if Pending(s.clients[c]) then s.clients[c].row.alias
    else if s.clients[c].Seeking? then s.clients[c].alias
    else PLAIN
  }

  // Writers of different keys, none of which has begun.
  ghost predicate AllSetting(s: Store) {
    && (forall c :: c in s.clients ==> s.clients[c].Counting? || s.clients[c].Seeking?)
    && (forall c, d :: c in s.clients && d in s.clients && c != d ==> OwnAlias(s, c) != OwnAlias(s, d))
  }

  ghost predicate AllDone(s: Store) {
    forall c :: c in s.clients ==> s.clients[c].Finished?
  }

  predicate IsReset(p: Phase) {
    p.Resetting? || p.Clearing?
  }

  // A call that makes its key the default.
  predicate IsMark(p: Phase) {
    (p.Writing? && p.makeDefault) || p.Marking?
  }

  ghost predicate ResetsAt(s: Store, schedule: seq<Client>, n: nat, c: Client) {
    n < |schedule| && schedule[n] == c && IsReset(CallAt(s, schedule, n))
  }

  ghost predicate WritesAt(s: Store, schedule: seq<Client>, n: nat, c: Client) {
    n < |schedule| && schedule[n] == c && IsMark(CallAt(s, schedule, n))
  }

  // A writer that has not reset anything yet.
  predicate Early(p: Phase) {
    p.Counting? || p.Resetting? || p.Seeking? || p.Clearing?
  }

  // What a writer's phase says of its past.
  ghost predicate OnTrack(s: Store, schedule: seq<Client>, n: nat, c: Client)
    requires n <= |schedule|
  {
    var now := After(s, schedule, n).clients;
    && c in s.clients && (s.clients[c].Counting? || s.clients[c].Seeking?) && c in now && Settable(now[c])
    && (Pending(now[c]) ==> s.clients[c].Counting? && now[c].row == s.clients[c].row)
    && (now[c].Seeking? ==> now[c] == s.clients[c])
    && (now[c].Clearing? || now[c].Marking? ==> s.clients[c].Seeking?)
    && (Early(now[c]) ==> forall i :: 0 <= i < n ==> !ResetsAt(s, schedule, i, c) && !WritesAt(s, schedule, i, c))
    && (now[c].Writing? || now[c].Marking? ==> forall i :: 0 <= i < n ==> !WritesAt(s, schedule, i, c))
    && (IsMark(now[c]) ==> exists i :: 0 <= i < n && ResetsAt(s, schedule, i, c))
    && (now[c].Writing? && !now[c].makeDefault ==> forall i :: 0 <= i < n ==> !ResetsAt(s, schedule, i, c))
    && (now[c].Finished? ==>
          forall i :: 0 <= i < n && ResetsAt(s, schedule, i, c) ==>
            exists j :: i < j < n && WritesAt(s, schedule, j, c))
  }

  predicate Settable(p: Phase) {
    Pending(p) || p.Seeking? || p.Clearing? || p.Marking? || p.Finished?
  }

  lemma {:induction false} StaysOnTrack(s: Store, schedule: seq<Client>, n: nat, c: Client)
    requires AllSetting(s) && n <= |schedule| && c in s.clients
    ensures OnTrack(s, schedule, n, c)
    ensures After(s, schedule, n).clients.Keys == s.clients.Keys
  {
    if n > 0 {
      hide RowsAfter, Pending;
      StaysOnTrack(s, schedule, n - 1, c);
      TrackStep(s, schedule, n - 1, c);
    } else {
      StartsOnTrack(s, schedule, c);
    }
  }

  lemma StartsOnTrack(s: Store, schedule: seq<Client>, c: Client)
    requires AllSetting(s) && c in s.clients
    ensures OnTrack(s, schedule, 0, c)
  {
  }

  lemma TrackStep(s: Store, schedule: seq<Client>, n: nat, c: Client)
    requires n < |schedule| && c in s.clients && OnTrack(s, schedule, n, c)
    requires After(s, schedule, n).clients.Keys == s.clients.Keys
    ensures OnTrack(s, schedule, n + 1, c)
    ensures After(s, schedule, n + 1).clients.Keys == s.clients.Keys
  {
    hide RowsAfter, ResetsAt, WritesAt, Find;
    var before := After(s, schedule, n);
    if schedule[n] == c {
      CallIs(s, schedule, n, c);
    } else {
      NotItsCall(s, schedule, n, c);
    }
  }

  lemma CallIs(s: Store, schedule: seq<Client>, n: nat, c: Client)
    requires n < |schedule| && schedule[n] == c && c in After(s, schedule, n).clients
    ensures ResetsAt(s, schedule, n, c) <==> IsReset(After(s, schedule, n).clients[c])
    ensures WritesAt(s, schedule, n, c) <==> IsMark(After(s, schedule, n).clients[c])
  {
  }

  lemma NotItsCall(s: Store, schedule: seq<Client>, n: nat, c: Client)
    requires n < |schedule| && schedule[n] != c
    ensures !ResetsAt(s, schedule, n, c) && !WritesAt(s, schedule, n, c)
  {
  }

  lemma WriteAfterReset(s: Store, schedule: seq<Client>, j: nat, c: Client) returns (i: nat)
    requires AllSetting(s) && WritesAt(s, schedule, j, c)
    ensures i < j && ResetsAt(s, schedule, i, c) && c in s.clients
  {
    Scheduled(s, schedule, j, c);
    StaysOnTrack(s, schedule, j, c);
    i :| 0 <= i < j && ResetsAt(s, schedule, i, c);
  }

  lemma Scheduled(s: Store, schedule: seq<Client>, n: nat, c: Client)
    requires AllSetting(s) && (ResetsAt(s, schedule, n, c) || WritesAt(s, schedule, n, c))
    ensures c in s.clients && After(s, schedule, n).clients.Keys == s.clients.Keys
  {
    KeysKept(s, schedule, n);
  }

  lemma {:induction false} KeysKept(s: Store, schedule: seq<Client>, n: nat)
    requires n <= |schedule|
    ensures After(s, schedule, n).clients.Keys == s.clients.Keys
  {
    if n > 0 {
      hide RowsAfter, PhaseAfter;
      KeysKept(s, schedule, n - 1);
    }
  }

  lemma WriteFollowsReset(s: Store, schedule: seq<Client>, i: nat, c: Client) returns (j: nat)
    requires AllSetting(s) && AllDone(After(s, schedule, |schedule|)) && ResetsAt(s, schedule, i, c)
    ensures i < j && WritesAt(s, schedule, j, c)
  {
    Scheduled(s, schedule, i, c);
    StaysOnTrack(s, schedule, |schedule|, c);
    j :| i < j < |schedule| && WritesAt(s, schedule, j, c);
  }

  lemma OneResetEach(s: Store, schedule: seq<Client>, i: nat, l: nat, c: Client)
    requires AllSetting(s) && ResetsAt(s, schedule, i, c) && ResetsAt(s, schedule, l, c)
    ensures i == l
  {
    Scheduled(s, schedule, i, c);
    StaysOnTrack(s, schedule, i, c);
    StaysOnTrack(s, schedule, l, c);
  }

  lemma OwnAliasesDiffer(s: Store, c: Client, d: Client)
    requires AllSetting(s) && c in s.clients && d in s.clients && c != d
    ensures OwnAlias(s, c) != OwnAlias(s, d)
  {
  }

  // None of these writers takes a key away or changes its alias.
  lemma NamedKept(rows: seq<Row>, p: Phase, id: string, a: Alias)
    requires Settable(p) && Named(rows, id, a)
    ensures Named(RowsAfter(rows, p), id, a)
  {
    hide Find, IdAt;
    var k :| 0 <= k < |rows| && rows[k].id == id && rows[k].alias == a;
    assert RowsAfter(rows, p)[k].id == id && RowsAfter(rows, p)[k].alias == a;
  }

  // A change of default holds the id of its own key.
  lemma {:induction false} HoldsTarget(s: Store, schedule: seq<Client>, n: nat, c: Client)
    requires AllSetting(s) && n <= |schedule| && c in s.clients
    ensures var now := After(s, schedule, n);
      c in now.clients && (now.clients[c].Clearing? || now.clients[c].Marking? ==>
                             Named(now.rows, now.clients[c].id, OwnAlias(s, c)))
  {
    KeysKept(s, schedule, n);
    if n > 0 {
      hide RowsAfter, Named, AllSetting, OnTrack;
      HoldsTarget(s, schedule, n - 1, c);
      KeysKept(s, schedule, n - 1);
      var before := After(s, schedule, n - 1);
      var d := schedule[n - 1];
      if d in s.clients {
        StaysOnTrack(s, schedule, n - 1, d);
        TrackSays(s, schedule, n - 1, d);
        StaysOnTrack(s, schedule, n - 1, c);
        TrackSays(s, schedule, n - 1, c);
        TargetStep(s, before, d, c);
      }
    }
  }

  lemma TrackSays(s: Store, schedule: seq<Client>, n: nat, c: Client)
    requires n <= |schedule| && OnTrack(s, schedule, n, c)
    ensures var now := After(s, schedule, n).clients;
      c in now && c in s.clients && Settable(now[c]) && (now[c].Seeking? ==> now[c].alias == OwnAlias(s, c))
  {
  }

  lemma TargetStep(s: Store, before: Store, d: Client, c: Client)
    requires c in before.clients && d in before.clients && Settable(before.clients[d])
    requires before.clients[c].Seeking? ==> before.clients[c].alias == OwnAlias(s, c)
    requires before.clients[c].Clearing? || before.clients[c].Marking? ==>
      Named(before.rows, before.clients[c].id, OwnAlias(s, c))
    ensures var now := Step(before, d);
      now.clients[c].Clearing? || now.clients[c].Marking? ==> Named(now.rows, now.clients[c].id, OwnAlias(s, c))
  {
    hide RowsAfter, Sort, OwnAlias;
    var p, a := before.clients[c], OwnAlias(s, c);
    if p.Clearing? || p.Marking? {
      NamedKept(before.rows, before.clients[d], p.id, a);
    } else if p.Seeking? && d == c {
      var k := Find(before.rows, p.alias);
      if k < |before.rows| {
        assert Named(before.rows, before.rows[k].id, a);
        NamedKept(before.rows, p, before.rows[k].id, a);
      }
    }
  }

  lemma OneName(rows: seq<Row>, id: string, a: Alias, b: Alias)
    requires DistinctAliases(rows) && Named(rows, id, a)
    ensures Named(rows, id, b) <==> b == a
  {
  }

  // In this company only writes mark a key, their own, and only resets clear one.
  lemma CallsAreSets(s: Store, schedule: seq<Client>, n: nat, a: Alias)
    requires Fresh(s) && AllSetting(s) && n < |schedule|
    ensures MarksAt(s, schedule, n, a) <==> WritesAt(s, schedule, n, schedule[n]) && OwnAlias(s, schedule[n]) == a
    ensures ClearsAt(s, schedule, n, a) <==> ResetsAt(s, schedule, n, schedule[n])
  {
    hide Named, Fresh;
    KeysKept(s, schedule, n);
    if schedule[n] in s.clients {
      StaysOnTrack(s, schedule, n, schedule[n]);
      HoldsTarget(s, schedule, n, schedule[n]);
      RunKeepsFresh(s, schedule, n);
      FreshIsDistinct(After(s, schedule, n));
      var p := CallAt(s, schedule, n);
      if p.Marking? {
        OneName(After(s, schedule, n).rows, p.id, OwnAlias(s, schedule[n]), a);
      }
    }
  }

  // The section of writer c between its reset and its write begins after all the other writes.
  ghost predicate LastSection(s: Store, schedule: seq<Client>, c: Client, i: nat) {
    ResetsAt(s, schedule, i, c) && forall d, j: nat :: d != c && WritesAt(s, schedule, j, d) ==> j < i
  }

  lemma LastSectionStands(s: Store, schedule: seq<Client>, c: Client, i: nat)
    requires Fresh(s) && AllSetting(s) && AllDone(After(s, schedule, |schedule|)) && LastSection(s, schedule, c, i)
    ensures c in s.clients && StandsAlone(s, schedule, OwnAlias(s, c))
  {
    hide ResetsAt, WritesAt, MarksAt, ClearsAt, IsDefaultAlias, AllSetting, AllDone, Fresh, OwnAlias;
    var n := |schedule|;
    var at := WriteFollowsReset(s, schedule, i, c);
    Within(s, schedule, i, c);
    Within(s, schedule, at, c);
    var a := OwnAlias(s, c);
    CallsAreSets(s, schedule, at, a);
    forall l | at < l < n ensures !ClearsAt(s, schedule, l, a) {
      CallsAreSets(s, schedule, l, a);
      if ResetsAt(s, schedule, l, schedule[l]) {
        NoLaterReset(s, schedule, c, i, l);
      }
    }
    assert MarksAt(s, schedule, at, a);
    assert Stands(s, schedule, n, a);
    forall b | Stands(s, schedule, n, b) ensures b == a {
      CallsAreSets(s, schedule, i, b);
      assert ClearsAt(s, schedule, i, b);
      var w :| 0 <= w < n && MarksAt(s, schedule, w, b) && forall j :: w < j < n ==> !ClearsAt(s, schedule, j, b);
      assert i <= w;
      CallsAreSets(s, schedule, w, b);
      assert schedule[w] != c ==> w < i;
    }
  }

  lemma Within(s: Store, schedule: seq<Client>, n: nat, c: Client)
    requires AllSetting(s) && (ResetsAt(s, schedule, n, c) || WritesAt(s, schedule, n, c))
    ensures n < |schedule| && schedule[n] == c && c in s.clients
  {
    Scheduled(s, schedule, n, c);
  }

  lemma NoLaterReset(s: Store, schedule: seq<Client>, c: Client, i: nat, l: nat)
    requires AllSetting(s) && AllDone(After(s, schedule, |schedule|)) && LastSection(s, schedule, c, i)
    requires i < l < |schedule|
    ensures !ResetsAt(s, schedule, l, schedule[l])
  {
    hide ResetsAt, WritesAt, AllSetting, AllDone;
    if ResetsAt(s, schedule, l, schedule[l]) {
      if schedule[l] == c {
        OneResetEach(s, schedule, i, l, c);
      } else {
        var j := WriteFollowsReset(s, schedule, l, schedule[l]);
      }
    }
  }

  // Behind a section that is not the last, someone always writes once more.
  lemma {:induction false} LaterWriteStands(s: Store, schedule: seq<Client>, c: Client, i: nat, d: Client, p: nat)
    requires Fresh(s) && AllSetting(s) && AllDone(After(s, schedule, |schedule|)) && ResetsAt(s, schedule, i, c)
    requires d != c && i < p && WritesAt(s, schedule, p, d)
    ensures exists b :: Stands(s, schedule, |schedule|, b) && b != OwnAlias(s, c)
    decreases |schedule| - p
  {
    hide ResetsAt, WritesAt, MarksAt, ClearsAt, IsDefaultAlias, AllDone, CallAt, AllSetting, OwnAlias, Fresh;
    Within(s, schedule, i, c);
    Within(s, schedule, p, d);
    var b := OwnAlias(s, d);
    OwnAliasesDiffer(s, c, d);
    CallsAreSets(s, schedule, p, b);
    assert MarksAt(s, schedule, p, b);
    if l :| p < l < |schedule| && ClearsAt(s, schedule, l, b) {
      CallsAreSets(s, schedule, l, b);
      if schedule[l] == c {
        OneResetEach(s, schedule, i, l, c);
      } else {
        var q := WriteFollowsReset(s, schedule, l, schedule[l]);
        Within(s, schedule, q, schedule[l]);
        LaterWriteStands(s, schedule, c, i, schedule[l], q);
      }
    } else {
      assert Stands(s, schedule, |schedule|, b);
    }
  }

  lemma AloneIsLast(s: Store, schedule: seq<Client>, a: Alias, l: nat) returns (c: Client, i: nat)
    requires Fresh(s) && AllSetting(s) && AllDone(After(s, schedule, |schedule|)) && StandsAlone(s, schedule, a)
    requires l < |schedule| && ResetsAt(s, schedule, l, schedule[l])
    ensures LastSection(s, schedule, c, i)
  {
    hide ResetsAt, WritesAt, MarksAt, ClearsAt, IsDefaultAlias, AllDone, CallAt, AllSetting, OwnAlias, Fresh;
    var n := |schedule|;
    CallsAreSets(s, schedule, l, a);
    var j :| 0 <= j < n && MarksAt(s, schedule, j, a) && forall m :: j < m < n ==> !ClearsAt(s, schedule, m, a);
    CallsAreSets(s, schedule, j, a);
    c := schedule[j];
    i := WriteAfterReset(s, schedule, j, c);
    forall d, p: nat | d != c && WritesAt(s, schedule, p, d) ensures p < i {
      Within(s, schedule, p, d);
      Within(s, schedule, i, c);
      if p > i {
        LaterWriteStands(s, schedule, c, i, d, p);
      }
    }
  }

  ghost predicate NoReset(s: Store, schedule: seq<Client>) {
    forall n :: 0 <= n < |schedule| ==> !ResetsAt(s, schedule, n, schedule[n])
  }

  lemma NoResetNoWrite(s: Store, schedule: seq<Client>, n: nat)
    requires AllSetting(s) && NoReset(s, schedule) && n < |schedule|
    ensures !WritesAt(s, schedule, n, schedule[n])
  {
    if WritesAt(s, schedule, n, schedule[n]) {
      var i := WriteAfterReset(s, schedule, n, schedule[n]);
    }
  }

  lemma NoResetStands(s: Store, schedule: seq<Client>)
    requires AllSetting(s) && NoReset(s, schedule) && Fresh(s) && OneDefault(s.rows) && s.rows != []
    ensures exists a :: StandsAlone(s, schedule, a)
  {
    hide ResetsAt, WritesAt, MarksAt, ClearsAt, IsDefaultAlias, Defaults, Fresh, CallAt;
    RunKeepsFresh(s, schedule, 0);
    FreshIsDistinct(s);
    OneIsOnly(s.rows);
    var a :| OnlyAlias(s.rows, a);
    forall n: nat, b | n < |schedule| ensures !MarksAt(s, schedule, n, b) && !ClearsAt(s, schedule, n, b) {
      CallsAreSets(s, schedule, n, b);
      NoResetNoWrite(s, schedule, n);
    }
    assert StandsAlone(s, schedule, a);
  }

  lemma FreshIsDistinct(s: Store)
    requires Fresh(s)
    ensures DistinctAliases(s.rows)
  {
  }

  // Until the first reset an empty provider stays empty: nobody has got further than asking for one.
  lemma {:induction false} EmptyUntilReset(s: Store, schedule: seq<Client>, n: nat)
    requires AllSetting(s) && s.rows == [] && n <= |schedule|
    requires forall i :: 0 <= i < n ==> !ResetsAt(s, schedule, i, schedule[i])
    ensures var now := After(s, schedule, n);
      now.rows == [] && forall c :: c in now.clients ==> Waiting(now.clients[c])
  {
    if n > 0 {
      EmptyUntilReset(s, schedule, n - 1);
      assert !ResetsAt(s, schedule, n - 1, schedule[n - 1]);
    }
  }

  predicate Waiting(p: Phase) {
    p.Counting? || p.Resetting? || p.Seeking? || p.Finished?
  }

  lemma StepGrows(rows: seq<Row>, p: Phase)
    requires Settable(p)
    ensures |RowsAfter(rows, p)| >= |rows|
    ensures p.Writing? || rows != [] ==> RowsAfter(rows, p) != []
  {
  }

  lemma OneStepGrows(s: Store, schedule: seq<Client>, n: nat)
    requires AllSetting(s) && n < |schedule|
    ensures |After(s, schedule, n + 1).rows| >= |After(s, schedule, n).rows|
    ensures WritesAt(s, schedule, n, schedule[n]) ==> After(s, schedule, n + 1).rows != []
  {
    hide RowsAfter, PhaseAfter;
    KeysKept(s, schedule, n);
    if schedule[n] in s.clients {
      StaysOnTrack(s, schedule, n, schedule[n]);
      HoldsTarget(s, schedule, n, schedule[n]);
      StepGrows(After(s, schedule, n).rows, CallAt(s, schedule, n));
    }
  }

  lemma {:induction false} RowsGrow(s: Store, schedule: seq<Client>, k: nat, n: nat)
    requires AllSetting(s) && k <= n <= |schedule|
    ensures |After(s, schedule, n).rows| >= |After(s, schedule, k).rows|
    decreases n
  {
    if k < n {
      hide Step, AllSetting;
      RowsGrow(s, schedule, k, n - 1);
      OneStepGrows(s, schedule, n - 1);
    }
  }

  // Any number of setCredential and setDefaultCredential calls for different keys at once, from a good
  // state: exactly one default is left if and only if nobody had to reset, or some writer's section
  // between its reset and its mark began after every other writer had marked. With two first keys, one
  // must have written before the other resets.
  lemma ConcurrentSetsKeepOneIff(s: Store, schedule: seq<Client>)
    requires Fresh(s) && AllSetting(s) && OneDefault(s.rows)
    requires AllDone(After(s, schedule, |schedule|))
    ensures OneDefault(After(s, schedule, |schedule|).rows) <==>
      NoReset(s, schedule) || exists c, i: nat :: LastSection(s, schedule, c, i)
  {
    hide OneDefault, Fresh, ResetsAt, WritesAt, StandsAlone, LastSection, AllSetting, AllDone;
    InterleavingKeepsOneIff(s, schedule);
    if NoReset(s, schedule) {
      if s.rows == [] {
        EmptyUntilReset(s, schedule, |schedule|);
      } else {
        NoResetStands(s, schedule);
      }
    } else {
      SomeKeyIsLeft(s, schedule);
      StandsIffLast(s, schedule);
    }
  }

  // Two first keys stored at the same time: both count none, both reset, both write.
  function Racing(a: Row, b: Row): Store {
    Store([], map[0 := Counting(a, false), 1 := Counting(b, false)])
  }

  const RACE: seq<Client> := [0, 1, 0, 1, 0, 1]

  lemma RaceUnfolds(a: Row, b: Row)
    ensures After(Racing(a, b), RACE, 4) == Store(Unset(Unset([])), map[0 := Writing(a, true), 1 := Writing(b, true)])
  {
    var s := Racing(a, b);
    assert After(s, RACE, 1) == Store([], map[0 := Resetting(a), 1 := Counting(b, false)]);
    assert After(s, RACE, 2) == Store([], map[0 := Resetting(a), 1 := Resetting(b)]);
    assert After(s, RACE, 3) == Store(Unset([]), map[0 := Writing(a, true), 1 := Resetting(b)]);
  }

  // They leave two defaults, although each was right about being first.
  lemma RacingLeavesTwo(a: Row, b: Row)
    requires a.alias != b.alias && a.id != b.id
    ensures Fresh(Racing(a, b)) && AllSetting(Racing(a, b)) && OneDefault(Racing(a, b).rows)
    ensures AllDone(After(Racing(a, b), RACE, 6)) && Defaults(After(Racing(a, b), RACE, 6).rows) == 2
  {
    hide Upsert, Unset, Defaults;
    var s := Racing(a, b);
    RaceUnfolds(a, b);
    NoKeysNoDefault();
    var rows := Unset(Unset([]));
    assert After(s, RACE, 5) == Store(Upsert(rows, a, true), map[0 := Finished, 1 := Writing(b, true)]);
    assert After(s, RACE, 6) == Store(Upsert(Upsert(rows, a, true), b, true), map[0 := Finished, 1 := Finished]);
    RacingFirstKeysLeaveTwo(a, b);
  }

  lemma SomeKeyIsLeft(s: Store, schedule: seq<Client>)
    requires AllSetting(s) && AllDone(After(s, schedule, |schedule|)) && !NoReset(s, schedule)
    ensures After(s, schedule, |schedule|).rows != []
  {
    hide AllSetting, AllDone, ResetsAt;
    var l: nat :| l < |schedule| && ResetsAt(s, schedule, l, schedule[l]);
    var w := WriteFollowsReset(s, schedule, l, schedule[l]);
    Within(s, schedule, w, schedule[l]);
    OneStepGrows(s, schedule, w);
    RowsGrow(s, schedule, w + 1, |schedule|);
  }

  lemma StandsIffLast(s: Store, schedule: seq<Client>)
    requires Fresh(s) && AllSetting(s) && AllDone(After(s, schedule, |schedule|)) && !NoReset(s, schedule)
    ensures (exists a :: StandsAlone(s, schedule, a)) <==> exists c, i: nat :: LastSection(s, schedule, c, i)
  {
    hide AllSetting, AllDone, ResetsAt, StandsAlone, LastSection, Fresh;
    var l: nat :| l < |schedule| && ResetsAt(s, schedule, l, schedule[l]);
    if a :| StandsAlone(s, schedule, a) {
      var c, i := AloneIsLast(s, schedule, a, l);
    }
    if c, i: nat :| LastSection(s, schedule, c, i) {
      LastSectionStands(s, schedule, c, i);
    }
  }
}
