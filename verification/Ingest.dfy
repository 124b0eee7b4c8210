// server/src/gateway/ingest.js and logging/logger.js: reported events become records, deduplicated
// by a unique request id, and a record is counted against the caps only once it was created.
module Ingest {
  import opened Options
  import opened Seqs
  import Strings
  import Caps = CapEngine

  const MAX_BATCH_SIZE: nat := 500

  // A JSON field of an event: a string, empty ones included, a falsy value of another type or none at all,
  // or something else.
  datatype Field = Falsy | Text(s: string) | OtherValue

  predicate IsText(f: Field) {
    f.Text? && f.s != ""
  }

  datatype Tokens = Tokens(prompt: nat, completion: nat)

  // Optional fields are None when the event's value is falsy.
  datatype Event =
    | NotAnObject
    | Event(requestId: Field, model: Field, status: Field, application: Option<Caps.Label>,
            provider: Option<Caps.Label>, user: Option<Caps.Label>, department: Option<Caps.Label>,
            workflow: Option<Caps.Label>, tokens: Tokens)

  datatype ApiKey = ApiKey(id: string, application: Option<Caps.Label>)

  // What the price registry knows of a model, and which records the database schema accepts.
  datatype Listing = Listing(provider: Option<Caps.Label>, cost: Tokens -> real)
  datatype Rules = Rules(pricing: string -> Option<Listing>, storable: Record -> bool)

  datatype RequestId = RequestId(text: string)
  datatype Record = Record(requestId: RequestId, scope: Caps.Scope, success: bool, totalCost: real, status: string,
                           tokens: Tokens)

  datatype Reason = EventMustBeAnObject | RequestIdRequired | ModelRequired | BadStatus | NotStorable
  datatype Rejection = Rejection(requestId: Option<string>, reason: Reason)

  function NamespacedRequestId(keyId: string, externalId: string): RequestId {
    RequestId("ingest:" + keyId + ":" + externalId)
  }

  function ValidateEvent(e: Event): Option<Reason> {
    if e.NotAnObject? then Some(EventMustBeAnObject)
    else if !IsText(e.requestId) then Some(RequestIdRequired)
    else if !IsText(e.model) then Some(ModelRequired)
    else if e.status.OtherValue? then Some(BadStatus)
    else if IsText(e.status) && e.status.s !in ["success", "failure", "blocked"] then Some(BadStatus)
    else None
  }

  function ExternalId(e: Event): Option<string> {
    if e.Event? && e.requestId.Text? then Some(e.requestId.s) else None
  }

  function OrElse<T>(a: Option<T>, b: Option<T>): Option<T> {
    if a.Some? then a else b
  }

  // The record logger.writeOrThrow stores for a valid event.
  function MakeRecord(rules: Rules, key: ApiKey, e: Event): Record
    requires ValidateEvent(e).None?
  {
    var known := rules.pricing(e.model.s);
    var provider := OrElse(e.provider, if known.Some? then known.value.provider else None);
    var status := if IsText(e.status) then e.status.s else "success";
    Record(NamespacedRequestId(key.id, e.requestId.s),
           Caps.Scope(OrElse(e.application, key.application), provider, e.user, e.department, e.workflow,
                      Some(Caps.Label(e.model.s)), false),
           status == "success", if known.Some? then known.value.cost(e.tokens) else 0.0, status, e.tokens)
  }

  // What an event must carry, checked in this order.
  lemma ValidInFields(e: Event)
    ensures var id := e.Event? && e.requestId.Text? && e.requestId.s != "";
      var model := e.Event? && e.model.Text? && e.model.s != "";
      var status := e.Event? && (e.status.Falsy?
                                 || (e.status.Text? && e.status.s in ["", "success", "failure", "blocked"]));
      && (ValidateEvent(e) == None <==> id && model && status)
      && (ValidateEvent(e) == Some(EventMustBeAnObject) <==> e.NotAnObject?)
      && (ValidateEvent(e) == Some(RequestIdRequired) <==> e.Event? && !id)
      && (ValidateEvent(e) == Some(ModelRequired) <==> id && !model)
      && (ValidateEvent(e) == Some(BadStatus) <==> id && model && !status)
      && ExternalId(e) == if e.Event? && e.requestId.Text? then Some(e.requestId.s) else None
  {
  }

  // A record carries the event's own labels, its application before the key's and its provider before the
  // registered one; without a status it is a success, and without a price it costs nothing.
  lemma RecordInFields(rules: Rules, key: ApiKey, e: Event)
    requires ValidateEvent(e).None?
    ensures var r, known := MakeRecord(rules, key, e), rules.pricing(e.model.s);
      && r.requestId == RequestId("ingest:" + key.id + ":" + e.requestId.s)
      && r.scope.application == (if e.application.Some? then e.application else key.application)
      && (e.provider.Some? ==> r.scope.provider == e.provider)
      && (e.provider.None? ==> r.scope.provider == if known.Some? then known.value.provider else None)
      && r.scope.user == e.user && r.scope.department == e.department && r.scope.workflow == e.workflow
      && r.scope.model == Some(Caps.Label(e.model.s)) && !r.scope.internalKind && r.tokens == e.tokens
      && (r.status == "failure" <==> e.status == Text("failure"))
      && (r.status == "blocked" <==> e.status == Text("blocked"))
      && (r.success <==> r.status == "success") && (r.success <==> r.status !in ["failure", "blocked"])
      && r.totalCost == if known.Some? then known.value.cost(e.tokens) else 0.0
  {
  }

  // ---- One submission against the record collection -------------------------------------------------

  datatype Submission = Submission(key: ApiKey, event: Event)
  datatype Outcome = Accepted(record: Record) | Duplicate | Rejected(reason: Reason)

  predicate Taken(log: seq<Record>, id: RequestId) {
    exists r :: r in log && r.requestId == id
  }

  // Valid and storable: the submission that a unique-key check alone decides.
  predicate Creatable(rules: Rules, s: Submission) {
    ValidateEvent(s.event).None? && rules.storable(MakeRecord(rules, s.key, s.event))
  }

  function RecordOf(rules: Rules, s: Submission): Record
    requires Creatable(rules, s)
  {
    MakeRecord(rules, s.key, s.event)
  }

  function Submit(rules: Rules, log: seq<Record>, s: Submission): Outcome {
    var error := ValidateEvent(s.event);
    if error.Some? then Rejected(error.value)
    else if !Creatable(rules, s) then Rejected(NotStorable)
    else if Taken(log, RecordOf(rules, s).requestId) then Duplicate
    else Accepted(RecordOf(rules, s))
  }

  function Extend(log: seq<Record>, o: Outcome): seq<Record> {
    if o.Accepted? then log + [o.record] else log
  }

  // The collection after a sequence of submissions, oldest record first.
  function LogAfter(rules: Rules, subs: seq<Submission>): seq<Record> {
    if subs == [] then []
    else
      var log := LogAfter(rules, subs[..|subs| - 1]);
      Extend(log, Submit(rules, log, subs[|subs| - 1]))
  }

  // What becomes of a submission: invalid, refused by the database, taken already, or stored as it is.
  lemma OutcomeIff(rules: Rules, log: seq<Record>, s: Submission)
    ensures var o, reason := Submit(rules, log, s), ValidateEvent(s.event);
      && (reason.Some? ==> o == Rejected(reason.value))
      && (reason.None? ==>
            var r := MakeRecord(rules, s.key, s.event);
            var taken := exists q :: q in log && q.requestId == r.requestId;
            && (o == Rejected(NotStorable) <==> !rules.storable(r))
            && (o == Duplicate <==> rules.storable(r) && taken)
            && (o == Accepted(r) <==> rules.storable(r) && !taken))
  {
  }

  // ---- Replay ------------------------------------------------------------------------------------------

  ghost predicate UniqueIds(log: seq<Record>) {
    forall i, j :: 0 <= i < j < |log| ==> log[i].requestId != log[j].requestId
  }

  // Whoever reports the same request id reports the same thing.
  ghost predicate Consistent(rules: Rules, subs: seq<Submission>) {
    forall s, t ::
      s in subs && t in subs && Creatable(rules, s) && Creatable(rules, t) &&
      RecordOf(rules, s).requestId == RecordOf(rules, t).requestId ==>
      RecordOf(rules, s) == RecordOf(rules, t)
  }

  ghost predicate Reported(rules: Rules, subs: seq<Submission>, r: Record) {
    exists s :: s in subs && Creatable(rules, s) && RecordOf(rules, s) == r
  }

  lemma {:induction false} LogSound(rules: Rules, subs: seq<Submission>)
    ensures UniqueIds(LogAfter(rules, subs))
    ensures forall r :: r in LogAfter(rules, subs) ==> Reported(rules, subs, r)
    ensures forall s :: s in subs && Creatable(rules, s) ==> Taken(LogAfter(rules, subs), RecordOf(rules, s).requestId)
  {
    if subs != [] {
      hide Creatable, RecordOf, ValidateEvent;
      var front, last := subs[..|subs| - 1], subs[|subs| - 1];
      LogSound(rules, front);
      assert subs == front + [last];
      var log, log' := LogAfter(rules, front), LogAfter(rules, subs);
      SubmitFacts(rules, log, last);
      forall r | r in log' ensures Reported(rules, subs, r) {
        if r in log {
          var s :| s in front && Creatable(rules, s) && RecordOf(rules, s) == r;
          assert s in subs;
        } else {
          assert last in subs;
        }
      }
      forall s | s in subs && Creatable(rules, s) ensures Taken(log', RecordOf(rules, s).requestId) {
        if Taken(log, RecordOf(rules, s).requestId) {
          var r :| r in log && r.requestId == RecordOf(rules, s).requestId;
          assert r in log';
        } else {
          assert s == last;
          assert log'[|log|] == RecordOf(rules, s);
        }
      }
    }
  }

  lemma SubmitFacts(rules: Rules, log: seq<Record>, s: Submission)
    ensures var o := Submit(rules, log, s);
      && (o.Accepted? <==> Creatable(rules, s) && !Taken(log, RecordOf(rules, s).requestId))
      && (o.Accepted? ==> o.record == RecordOf(rules, s))
      && (o.Duplicate? <==> Creatable(rules, s) && Taken(log, RecordOf(rules, s).requestId))
  {
  }

  // With consistent reports the collection holds exactly the reported records.
  lemma LogComplete(rules: Rules, subs: seq<Submission>, r: Record)
    requires Consistent(rules, subs)
    ensures r in LogAfter(rules, subs) <==> Reported(rules, subs, r)
  {
    hide Creatable, RecordOf, LogAfter;
    LogSound(rules, subs);
    if Reported(rules, subs, r) {
      var s :| s in subs && Creatable(rules, s) && RecordOf(rules, s) == r;
      var q :| q in LogAfter(rules, subs) && q.requestId == r.requestId;
      assert Reported(rules, subs, q);
    }
  }

  ghost predicate SameSubmissions(a: seq<Submission>, b: seq<Submission>) {
    forall s :: s in a <==> s in b
  }

  lemma {:induction false} SameMembersSameMultiset(a: seq<Record>, b: seq<Record>)
    requires Distinct(a) && Distinct(b) && forall r :: r in a <==> r in b
    ensures multiset(a) == multiset(b)
  {
    forall r ensures multiset(a)[r] == multiset(b)[r] {
      DistinctMultiplicity(a, r);
      DistinctMultiplicity(b, r);
      assert r in a <==> r in multiset(a);
      assert r in b <==> r in multiset(b);
    }
  }

  // Replaying the same events in any order and any number of times leaves the same records.
  lemma ReplayKeepsRecords(rules: Rules, a: seq<Submission>, b: seq<Submission>)
    requires Consistent(rules, a) && SameSubmissions(a, b)
    ensures multiset(LogAfter(rules, a)) == multiset(LogAfter(rules, b))
  {
    hide Creatable, RecordOf, LogAfter;
    LogSound(rules, a);
    LogSound(rules, b);
    assert Consistent(rules, b);
    forall r ensures r in LogAfter(rules, a) <==> r in LogAfter(rules, b) {
      LogComplete(rules, a, r);
      LogComplete(rules, b, r);
    }
    SameMembersSameMultiset(LogAfter(rules, a), LogAfter(rules, b));
  }

  lemma {:induction false} FirstReportWins(rules: Rules, s: Submission, rest: seq<Submission>)
    requires Creatable(rules, s)
    ensures RecordOf(rules, s) in LogAfter(rules, [s] + rest)
  {
    hide Creatable, RecordOf;
    var subs := [s] + rest;
    if rest == [] {
      assert subs[..|subs| - 1] == [] && subs[|subs| - 1] == s;
      SubmitFacts(rules, [], s);
    } else {
      FirstReportWins(rules, s, rest[..|rest| - 1]);
      assert subs[..|subs| - 1] == [s] + rest[..|rest| - 1];
    }
  }

  // Order and repetition are harmless exactly when equal request ids carry equal reports.
  lemma ReplaySafeIffConsistent(rules: Rules, subs: seq<Submission>)
    ensures Consistent(rules, subs) <==>
      forall a, b :: SameSubmissions(subs, a) && SameSubmissions(subs, b) ==>
        multiset(LogAfter(rules, a)) == multiset(LogAfter(rules, b))
  {
    hide Creatable, RecordOf, LogAfter;
    if Consistent(rules, subs) {
      forall a, b | SameSubmissions(subs, a) && SameSubmissions(subs, b)
        ensures multiset(LogAfter(rules, a)) == multiset(LogAfter(rules, b))
      {
        ReplayKeepsRecords(rules, subs, a);
        ReplayKeepsRecords(rules, subs, b);
      }
    } else {
      var s, t :| s in subs && t in subs && Creatable(rules, s) && Creatable(rules, t)
        && RecordOf(rules, s).requestId == RecordOf(rules, t).requestId && RecordOf(rules, s) != RecordOf(rules, t);
      var a, b := [s] + subs, [t] + subs;
      assert SameSubmissions(subs, a) && SameSubmissions(subs, b);
      FirstReportWins(rules, s, subs);
      FirstReportWins(rules, t, subs);
      LogSound(rules, a);
      assert RecordOf(rules, t) in multiset(LogAfter(rules, b));
      assert RecordOf(rules, t) !in multiset(LogAfter(rules, a));
    }
  }

  // One key reports the id "r" twice, as a success and as a failure.
  lemma ConflictingReports(app: Caps.Label)
    ensures var rules := Rules(m => None, r => true); var key := ApiKey("k", None);
      var e := Event(Text("r"), Text("m"), Falsy, Some(app), None, None, None, None, Tokens(1, 1));
      !Consistent(rules, [Submission(key, e), Submission(key, e.(status := Text("failure")))])
  {
    var rules, key := Rules(m => None, r => true), ApiKey("k", None);
    var e := Event(Text("r"), Text("m"), Falsy, Some(app), None, None, None, None, Tokens(1, 1));
    var s, t := Submission(key, e), Submission(key, e.(status := Text("failure")));
    var subs := [s, t];
    assert subs[0] == s && subs[1] == t;
    assert RecordOf(rules, s).success && !RecordOf(rules, t).success;
  }

  // ---- Namespaces ------------------------------------------------------------------------------------

  // Two integrations cannot collide: with colon-free key ids the namespaced id tells both parts.
  lemma NamespaceInjective(k1: string, x1: string, k2: string, x2: string)
    requires ':' !in k1 && ':' !in k2
    ensures NamespacedRequestId(k1, x1) == NamespacedRequestId(k2, x2) <==> k1 == k2 && x1 == x2
  {
    if NamespacedRequestId(k1, x1) == NamespacedRequestId(k2, x2) {
      var a, b := "ingest:" + k1 + ":" + x1, "ingest:" + k2 + ":" + x2;
      assert a == b;
      assert a[7..] == k1 + ":" + x1 && b[7..] == k2 + ":" + x2;
      Strings.CutAt(k1, ':', x1);
      Strings.CutAt(k2, ':', x2);
    }
  }

  // b is a followed by a colon and anything.
  predicate Extends(a: string, b: string) {
    |a| < |b| && b[..|a|] == a && b[|a|] == ':'
  }

  // Two different key ids can collide exactly when one of them is the other followed by a colon and more.
  lemma KeysCollideIff(k1: string, k2: string)
    requires k1 != k2
    ensures (exists x1, x2 :: NamespacedRequestId(k1, x1) == NamespacedRequestId(k2, x2)) <==>
      Extends(k1, k2) || Extends(k2, k1)
  {
    if Extends(k1, k2) {
      ExtensionCollides(k1, k2);
    } else if Extends(k2, k1) {
      ExtensionCollides(k2, k1);
    } else {
      forall x1, x2 ensures NamespacedRequestId(k1, x1) != NamespacedRequestId(k2, x2) {
        NoExtensionNoCollision(k1, x1, k2, x2);
      }
    }
  }

  lemma ExtensionCollides(a: string, b: string)
    requires Extends(a, b)
    ensures NamespacedRequestId(a, b[|a| + 1..] + ":") == NamespacedRequestId(b, "")
  {
    assert b == a + ":" + b[|a| + 1..];
    assert "ingest:" + b + ":" + "" == "ingest:" + a + ":" + (b[|a| + 1..] + ":");
  }

  lemma NoExtensionNoCollision(k1: string, x1: string, k2: string, x2: string)
    requires k1 != k2 && !Extends(k1, k2) && !Extends(k2, k1)
    ensures NamespacedRequestId(k1, x1) != NamespacedRequestId(k2, x2)
  {
    var a, b := "ingest:" + k1 + ":" + x1, "ingest:" + k2 + ":" + x2;
    if a == b {
      var s, t := k1 + ":" + x1, k2 + ":" + x2;
      assert a[7..] == s && b[7..] == t;
      PrefixBeforeColon(k1, x1, k2, x2);
    }
  }

  lemma PrefixBeforeColon(k1: string, x1: string, k2: string, x2: string)
    requires k1 + ":" + x1 == k2 + ":" + x2
    ensures k1 == k2 || Extends(k1, k2) || Extends(k2, k1)
  {
    var s, t := k1 + ":" + x1, k2 + ":" + x2;
    assert s[..|k1|] == k1 && s[|k1|] == ':';
    assert t[..|k2|] == k2 && t[|k2|] == ':';
    if |k1| < |k2| {
      assert k2[..|k1|] == t[..|k1|] && k2[|k1|] == t[|k1|];
    } else if |k2| < |k1| {
      assert k1[..|k2|] == s[..|k2|] && k1[|k2|] == s[|k2|];
    }
  }

  predicate SameExternalId(a: Event, b: Event) {
    a.Event? && b.Event? && a.requestId == b.requestId && a.requestId.Text? && a.requestId.s != ""
  }

  // So consistency is each integration's own business.
  lemma ConsistentPerKey(rules: Rules, subs: seq<Submission>)
    requires forall s :: s in subs ==> ':' !in s.key.id
    requires forall s, t ::
      s in subs && t in subs && s.key.id == t.key.id && SameExternalId(s.event, t.event) ==> s == t
    ensures Consistent(rules, subs)
  {
    hide NamespacedRequestId;
    forall s, t | s in subs && t in subs && Creatable(rules, s) && Creatable(rules, t)
      && RecordOf(rules, s).requestId == RecordOf(rules, t).requestId
      ensures RecordOf(rules, s) == RecordOf(rules, t)
    {
      NamespaceInjective(s.key.id, s.event.requestId.s, t.key.id, t.event.requestId.s);
    }
  }

  // ---- Counting ----------------------------------------------------------------------------------------

  // The cap counters after the records of a log were counted, each when it was created.
  function Counted(counters: Caps.Counters, caps: seq<Caps.Cap>, r: Record, now: nat,
                   months: Caps.Calendar): Caps.Counters {
    if !r.success then counters else Caps.Log(counters, caps, r.scope, r.totalCost, now, months)
  }

  function ChargeOf(cap: Caps.Cap, r: Record): real {
    if r.success then Caps.Charge(cap, r.scope, r.totalCost) else 0.0
  }

  // Only a success is charged: its cost to the spend caps it is in scope of, and one to the request caps.
  lemma ChargeInFields(cap: Caps.Cap, r: Record)
    requires !r.scope.internalKind
    ensures var d := cap.dimension; var inScope := d.None? || match d.value
        case Application => r.scope.application == cap.value
        case ByProvider => r.scope.provider == cap.value
        case User => r.scope.user == cap.value
        case Department => r.scope.department == cap.value
        case Workflow => r.scope.workflow == cap.value
        case ByModel => r.scope.model == cap.value
        case OtherDimension => false;
      && (ChargeOf(cap, r) > 0.0 <==> r.success && inScope && (cap.metric == Caps.Requests || r.totalCost > 0.0))
      && (ChargeOf(cap, r) == 0.0 || ChargeOf(cap, r) == if cap.metric == Caps.Requests then 1.0 else r.totalCost)
  {
  }

  function TotalCharge(cap: Caps.Cap, log: seq<Record>): real {
    if log == [] then 0.0 else TotalCharge(cap, log[..|log| - 1]) + ChargeOf(cap, log[|log| - 1])
  }

  lemma {:induction false} TotalChargeSplit(cap: Caps.Cap, a: seq<Record>, b: seq<Record>)
    ensures TotalCharge(cap, a + b) == TotalCharge(cap, a) + TotalCharge(cap, b)
  {
    if b == [] {
      assert a + b == a;
    } else {
      TotalChargeSplit(cap, a, b[..|b| - 1]);
      assert (a + b)[..|a + b| - 1] == a + b[..|b| - 1];
    }
  }

  lemma TotalChargeRemove(cap: Caps.Cap, b: seq<Record>, k: nat)
    requires k < |b|
    ensures TotalCharge(cap, b) == TotalCharge(cap, b[..k] + b[k + 1..]) + ChargeOf(cap, b[k])
  {
    assert b == b[..k + 1] + b[k + 1..] && b[..k + 1][..k] == b[..k];
    TotalChargeSplit(cap, b[..k + 1], b[k + 1..]);
    TotalChargeSplit(cap, b[..k], b[k + 1..]);
  }

  lemma {:induction false} TotalChargePermutes(cap: Caps.Cap, a: seq<Record>, b: seq<Record>)
    requires multiset(a) == multiset(b)
    ensures TotalCharge(cap, a) == TotalCharge(cap, b)
  {
    assert |multiset(a)| == |multiset(b)|;
    if a != [] {
      hide ChargeOf;
      var last := |a| - 1;
      assert a[last] in multiset(b);
      var k :| 0 <= k < |b| && b[k] == a[last];
      MultisetRemove(a, last);
      MultisetRemove(b, k);
      CancelHead(a[last], multiset(a[..last] + a[last + 1..]), multiset(b[..k] + b[k + 1..]));
      TotalChargeRemove(cap, a, last);
      TotalChargeRemove(cap, b, k);
      TotalChargePermutes(cap, a[..last] + a[last + 1..], b[..k] + b[k + 1..]);
    }
  }

  // Whatever was replayed, within one window a cap's counter is what each distinct reported success
  // charges once: two endpoints that saw the same events agree on every counter.
  lemma ReplayKeepsCharges(rules: Rules, a: seq<Submission>, b: seq<Submission>, cap: Caps.Cap)
    requires Consistent(rules, a) && SameSubmissions(a, b)
    ensures TotalCharge(cap, LogAfter(rules, a)) == TotalCharge(cap, LogAfter(rules, b))
  {
    ReplayKeepsRecords(rules, a, b);
    TotalChargePermutes(cap, LogAfter(rules, a), LogAfter(rules, b));
  }

  // ---- Records and counters over time ---------------------------------------------------------------------

  datatype Timed = Timed(submission: Submission, now: nat)

  datatype Books = Books(log: seq<Record>, counters: Caps.Counters)

  // Each submission in turn: create, and count at that moment what was created.
  function BooksAfter(rules: Rules, caps: seq<Caps.Cap>, months: Caps.Calendar, run: seq<Timed>): Books {
    if run == [] then Books([], map[])
    else
      var b, t := BooksAfter(rules, caps, months, run[..|run| - 1]), run[|run| - 1];
      var o := Submit(rules, b.log, t.submission);
      Books(Extend(b.log, o), if o.Accepted? then Counted(b.counters, caps, o.record, t.now, months) else b.counters)
  }

  function Submissions(run: seq<Timed>): seq<Submission> {
    if run == [] then [] else Submissions(run[..|run| - 1]) + [run[|run| - 1].submission]
  }

  // The records created while w was the cap's window.
  function CreatedIn(rules: Rules, months: Caps.Calendar, run: seq<Timed>, w: Caps.Window): seq<Record> {
    if run == [] then []
    else
      var front, t := run[..|run| - 1], run[|run| - 1];
      var o := Submit(rules, LogAfter(rules, Submissions(front)), t.submission);
      CreatedIn(rules, months, front, w)
      + if o.Accepted? && Caps.WindowAt(w.period, t.now, months) == w then [o.record] else []
  }

  lemma SubmissionsSnoc(run: seq<Timed>)
    requires run != []
    ensures var s := Submissions(run); s != [] && s[..|s| - 1] == Submissions(run[..|run| - 1])
  {
  }

  lemma {:induction false} BooksLog(rules: Rules, caps: seq<Caps.Cap>, months: Caps.Calendar, run: seq<Timed>)
    ensures BooksAfter(rules, caps, months, run).log == LogAfter(rules, Submissions(run))
  {
    if run != [] {
      hide Submit, Extend, Counted;
      BooksLog(rules, caps, months, run[..|run| - 1]);
      SubmissionsSnoc(run);
    }
  }

  lemma CountedCharge(counters: Caps.Counters, caps: seq<Caps.Cap>, cap: Caps.Cap, r: Record, now: nat,
                      months: Caps.Calendar, w: Caps.Window)
    requires Caps.DistinctCaps(caps) && cap in caps
    ensures Caps.Count(Counted(counters, caps, r, now, months), Caps.Key(cap.id, w)) ==
      Caps.Count(counters, Caps.Key(cap.id, w))
      + if Caps.WindowAt(cap.period, now, months) == w then ChargeOf(cap, r) else 0.0
  {
    if r.success {
      Caps.RecordedCharge(counters, caps, cap, r.scope, r.totalCost, now, months, w);
    }
  }

  // Exactly once: in every window, past or current, a cap's counter is the total charge of the records
  // created in that window.
  lemma {:induction false} CountersAreCharges(rules: Rules, caps: seq<Caps.Cap>, months: Caps.Calendar, run: seq<Timed>,
                                              cap: Caps.Cap, w: Caps.Window)
    requires Caps.DistinctCaps(caps) && cap in caps && w.period == cap.period
    ensures Caps.Count(BooksAfter(rules, caps, months, run).counters, Caps.Key(cap.id, w))
      == TotalCharge(cap, CreatedIn(rules, months, run, w))
  {
    if run != [] {
      hide Submit, Extend, Counted, ChargeOf, Caps.WindowAt, TotalCharge;
      var front, t := run[..|run| - 1], run[|run| - 1];
      CountersAreCharges(rules, caps, months, front, cap, w);
      BooksLog(rules, caps, months, front);
      var b := BooksAfter(rules, caps, months, front);
      var o := Submit(rules, b.log, t.submission);
      if o.Accepted? {
        CountedCharge(b.counters, caps, cap, o.record, t.now, months, w);
        TotalChargeSnoc(cap, CreatedIn(rules, months, front, w), o.record);
      }
      if !(o.Accepted? && Caps.WindowAt(w.period, t.now, months) == w) {
        assert CreatedIn(rules, months, run, w) == CreatedIn(rules, months, front, w);
      }
    } else {
      NoCharge(cap);
    }
  }

  lemma NoCharge(cap: Caps.Cap)
    ensures TotalCharge(cap, []) == 0.0
  {
  }

  lemma TotalChargeSnoc(cap: Caps.Cap, log: seq<Record>, r: Record)
    ensures TotalCharge(cap, log + [r]) == TotalCharge(cap, log) + ChargeOf(cap, r)
  {
    assert (log + [r])[..|log|] == log;
  }

  ghost predicate Within(run: seq<Timed>, period: Caps.Period, months: Caps.Calendar, ws: seq<Caps.Window>) {
    forall k :: 0 <= k < |run| ==> Caps.WindowAt(period, run[k].now, months) in ws
  }

  // A cap's counters added up over some windows.
  function SumOver(counters: Caps.Counters, cap: Caps.Cap, ws: seq<Caps.Window>): real {
    if ws == [] then 0.0
    else SumOver(counters, cap, ws[..|ws| - 1]) + Caps.Count(counters, Caps.Key(cap.id, ws[|ws| - 1]))
  }

  lemma {:induction false} SumMoves(before: Caps.Counters, after: Caps.Counters, cap: Caps.Cap, ws: seq<Caps.Window>,
                                    at: Caps.Window, charge: real)
    requires Distinct(ws)
    requires forall w :: w in ws ==>
      Caps.Count(after, Caps.Key(cap.id, w))
      == Caps.Count(before, Caps.Key(cap.id, w)) + if w == at then charge else 0.0
    ensures SumOver(after, cap, ws) == SumOver(before, cap, ws) + if at in ws then charge else 0.0
  {
    if ws != [] {
      hide Caps.Count;
      var front, last := ws[..|ws| - 1], ws[|ws| - 1];
      assert ws == front + [last];
      SumMoves(before, after, cap, front, at, charge);
    }
  }

  // Over all the windows of a run the counters add up to what each created record charges once.
  lemma {:induction false} CountersAddUp(rules: Rules, caps: seq<Caps.Cap>, months: Caps.Calendar, run: seq<Timed>,
                                         cap: Caps.Cap, ws: seq<Caps.Window>)
    requires Caps.DistinctCaps(caps) && cap in caps && Distinct(ws) && Within(run, cap.period, months, ws)
    ensures SumOver(BooksAfter(rules, caps, months, run).counters, cap, ws)
      == TotalCharge(cap, LogAfter(rules, Submissions(run)))
  {
    if run == [] {
      NothingSummed(cap, ws);
      NoCharge(cap);
    } else {
      hide Submit, Counted, ChargeOf, Caps.WindowAt, TotalCharge, SumOver;
      var front, t := run[..|run| - 1], run[|run| - 1];
      assert forall k :: 0 <= k < |front| ==> front[k] == run[k];
      CountersAddUp(rules, caps, months, front, cap, ws);
      BooksLog(rules, caps, months, front);
      SubmissionsSnoc(run);
      var b := BooksAfter(rules, caps, months, front);
      var o := Submit(rules, b.log, t.submission);
      if o.Accepted? {
        var after := Counted(b.counters, caps, o.record, t.now, months);
        forall w | w in ws
          ensures Caps.Count(after, Caps.Key(cap.id, w)) == Caps.Count(b.counters, Caps.Key(cap.id, w))
            + if w == Caps.WindowAt(cap.period, t.now, months) then ChargeOf(cap, o.record) else 0.0
        {
          CountedCharge(b.counters, caps, cap, o.record, t.now, months, w);
        }
        SumMoves(b.counters, after, cap, ws, Caps.WindowAt(cap.period, t.now, months), ChargeOf(cap, o.record));
        TotalChargeSnoc(cap, b.log, o.record);
      }
    }
  }

  lemma {:induction false} NothingSummed(cap: Caps.Cap, ws: seq<Caps.Window>)
    ensures SumOver(map[], cap, ws) == 0.0
  {
    if ws != [] {
      NothingSummed(cap, ws[..|ws| - 1]);
    }
  }

  // Replaying reports in any order and number, at whatever times: over all windows together every cap is
  // charged the same. Within one window that is the counter itself.
  lemma ReplayKeepsCounters(rules: Rules, caps: seq<Caps.Cap>, months: Caps.Calendar, a: seq<Timed>, b: seq<Timed>,
                            cap: Caps.Cap, ws: seq<Caps.Window>)
    requires Caps.DistinctCaps(caps) && cap in caps && Distinct(ws)
    requires Within(a, cap.period, months, ws) && Within(b, cap.period, months, ws)
    requires Consistent(rules, Submissions(a)) && SameSubmissions(Submissions(a), Submissions(b))
    ensures var x, y := BooksAfter(rules, caps, months, a).counters, BooksAfter(rules, caps, months, b).counters;
      && SumOver(x, cap, ws) == SumOver(y, cap, ws)
      && forall w :: ws == [w] ==> Caps.Count(x, Caps.Key(cap.id, w)) == Caps.Count(y, Caps.Key(cap.id, w))
  {
    hide BooksAfter, LogAfter, TotalCharge, Consistent, SameSubmissions;
    CountersAddUp(rules, caps, months, a, cap, ws);
    CountersAddUp(rules, caps, months, b, cap, ws);
    ReplayKeepsCharges(rules, Submissions(a), Submissions(b), cap);
    if |ws| == 1 {
      assert ws[..0] == [];
    }
  }

  // What is left out of the counters: nothing outside the windows of the run.
  lemma OtherWindowsUntouched(rules: Rules, caps: seq<Caps.Cap>, months: Caps.Calendar, run: seq<Timed>,
                              cap: Caps.Cap, w: Caps.Window)
    requires Caps.DistinctCaps(caps) && cap in caps && w.period == cap.period
    requires forall k :: 0 <= k < |run| ==> Caps.WindowAt(cap.period, run[k].now, months) != w
    ensures Caps.Count(BooksAfter(rules, caps, months, run).counters, Caps.Key(cap.id, w)) == 0.0
  {
    CountersAreCharges(rules, caps, months, run, cap, w);
    NoneCreated(rules, months, run, w);
    NoCharge(cap);
  }

  lemma {:induction false} NoneCreated(rules: Rules, months: Caps.Calendar, run: seq<Timed>, w: Caps.Window)
    requires forall k :: 0 <= k < |run| ==> Caps.WindowAt(w.period, run[k].now, months) != w
    ensures CreatedIn(rules, months, run, w) == []
  {
    if run != [] {
      hide Submit, Caps.WindowAt;
      NoneCreated(rules, months, run[..|run| - 1], w);
    }
  }

  // ---- The endpoint over its stores ---------------------------------------------------------------------

  datatype Response =
    | Unauthorized
    | BadBatch
    | Done(accepted: seq<Option<string>>, duplicates: seq<Option<string>>, rejected: seq<Rejection>)

  // How the events of one batch sort into the three lists.
  function Sorted(rules: Rules, log: seq<Record>, key: ApiKey, events: seq<Event>): (r: Response)
    ensures r.Done?
  {
    if events == [] then Done([], [], [])
    else
      var front, e := events[..|events| - 1], events[|events| - 1];
      var before := Sorted(rules, log, key, front);
      File(before, e, Submit(rules, LogFrom(rules, log, key, front), Submission(key, e)))
  }

  function LogFrom(rules: Rules, log: seq<Record>, key: ApiKey, events: seq<Event>): seq<Record> {
    if events == [] then log
    else
      var before := LogFrom(rules, log, key, events[..|events| - 1]);
      Extend(before, Submit(rules, before, Submission(key, events[|events| - 1])))
  }

  // One more event of the batch.
  function File(r: Response, e: Event, o: Outcome): Response
    requires r.Done?
  {
    match o
    case Accepted(_) => r.(accepted := r.accepted + [ExternalId(e)])
    case Duplicate => r.(duplicates := r.duplicates + [ExternalId(e)])
    case Rejected(why) => r.(rejected := r.rejected + [Rejection(ExternalId(e), why)])
  }

  lemma NextEvent(rules: Rules, log: seq<Record>, key: ApiKey, events: seq<Event>, k: nat)
    requires k < |events|
    ensures var before := LogFrom(rules, log, key, events[..k]);
      var o := Submit(rules, before, Submission(key, events[k]));
      && LogFrom(rules, log, key, events[..k + 1]) == Extend(before, o)
      && Sorted(rules, log, key, events[..k + 1]) == File(Sorted(rules, log, key, events[..k]), events[k], o)
  {
    hide Submit, Extend, File;
    assert events[..k + 1][..k] == events[..k];
  }

  datatype List = AcceptedList | DuplicateList | RejectedList

  function ListOf(o: Outcome): List {
    match o
    case Accepted(_) => AcceptedList
    case Duplicate => DuplicateList
    case Rejected(_) => RejectedList
  }

  // The events of a batch that end in one list, in order.
  function Filed(rules: Rules, log: seq<Record>, key: ApiKey, events: seq<Event>, list: List): seq<Event> {
    if events == [] then []
    else
      var front, e := events[..|events| - 1], events[|events| - 1];
      var o := Submit(rules, LogFrom(rules, log, key, front), Submission(key, e));
      Filed(rules, log, key, front, list) + if ListOf(o) == list then [e] else []
  }

  function Ids(events: seq<Event>): seq<Option<string>> {
    if events == [] then [] else Ids(events[..|events| - 1]) + [ExternalId(events[|events| - 1])]
  }

  function RejectedIds(rejected: seq<Rejection>): seq<Option<string>> {
    if rejected == [] then [] else RejectedIds(rejected[..|rejected| - 1]) + [rejected[|rejected| - 1].requestId]
  }

  lemma IdsSnoc(events: seq<Event>, e: Event)
    ensures Ids(events + [e]) == Ids(events) + [ExternalId(e)]
  {
    assert (events + [e])[..|events|] == events;
  }

  lemma RejectedSnoc(rejected: seq<Rejection>, r: Rejection)
    ensures RejectedIds(rejected + [r]) == RejectedIds(rejected) + [r.requestId]
  {
    assert (rejected + [r])[..|rejected|] == rejected;
  }

  ghost predicate RecordsFrom(rules: Rules, key: ApiKey, events: seq<Event>, records: seq<Record>) {
    |records| == |events| && forall i :: 0 <= i < |events| ==>
      Creatable(rules, Submission(key, events[i])) && records[i] == RecordOf(rules, Submission(key, events[i]))
  }

  lemma FiledNext(rules: Rules, log: seq<Record>, key: ApiKey, events: seq<Event>, list: List)
    requires events != []
    ensures var front, e := events[..|events| - 1], events[|events| - 1];
      var o := Submit(rules, LogFrom(rules, log, key, front), Submission(key, e));
      && Filed(rules, log, key, events, list) ==
           (if ListOf(o) == list then Filed(rules, log, key, front, list) + [e]
            else Filed(rules, log, key, front, list))
      && Sorted(rules, log, key, events) == File(Sorted(rules, log, key, front), e, o)
  {
    hide Submit, LogFrom, File;
  }

  lemma {:induction false} FiledIds(rules: Rules, log: seq<Record>, key: ApiKey, events: seq<Event>)
    ensures var r := Sorted(rules, log, key, events);
      && r.accepted == Ids(Filed(rules, log, key, events, AcceptedList))
      && r.duplicates == Ids(Filed(rules, log, key, events, DuplicateList))
      && RejectedIds(r.rejected) == Ids(Filed(rules, log, key, events, RejectedList))
  {
    if events != [] {
      hide Submit, Ids, RejectedIds, ExternalId, LogFrom, Filed, Sorted;
      var front, e := events[..|events| - 1], events[|events| - 1];
      FiledIds(rules, log, key, front);
      FiledNext(rules, log, key, events, AcceptedList);
      FiledNext(rules, log, key, events, DuplicateList);
      FiledNext(rules, log, key, events, RejectedList);
      match Submit(rules, LogFrom(rules, log, key, front), Submission(key, e)) {
        case Accepted(_) => IdsSnoc(Filed(rules, log, key, front, AcceptedList), e);
        case Duplicate => IdsSnoc(Filed(rules, log, key, front, DuplicateList), e);
        case Rejected(why) =>
          IdsSnoc(Filed(rules, log, key, front, RejectedList), e);
          RejectedSnoc(Sorted(rules, log, key, front).rejected, Rejection(ExternalId(e), why));
      }
    }
  }

  // a, b and c hold the elements of s between them.
  ghost predicate Splits<T>(s: seq<T>, a: seq<T>, b: seq<T>, c: seq<T>) {
    multiset(s) == multiset(a) + multiset(b) + multiset(c)
  }

  lemma SplitsNext<T>(s: seq<T>, a: seq<T>, b: seq<T>, c: seq<T>, a': seq<T>, b': seq<T>, c': seq<T>)
    requires s != [] && Splits(s[..|s| - 1], a, b, c)
    requires var last := [s[|s| - 1]];
      || (a' == a + last && b' == b && c' == c)
      || (a' == a && b' == b + last && c' == c)
      || (a' == a && b' == b && c' == c + last)
    ensures Splits(s, a', b', c')
  {
    assert s == s[..|s| - 1] + [s[|s| - 1]];
  }

  lemma SplitsNothing<T>()
    ensures Splits<T>([], [], [], [])
  {
  }

  lemma {:induction false} FiledPartition(rules: Rules, log: seq<Record>, key: ApiKey, events: seq<Event>)
    ensures Splits(events, Filed(rules, log, key, events, AcceptedList), Filed(rules, log, key, events, DuplicateList),
                   Filed(rules, log, key, events, RejectedList))
  {
    hide Splits;
    if events == [] {
      SplitsNothing<Event>();
    } else {
      hide Submit, LogFrom, Filed, Sorted, File;
      var front, e := events[..|events| - 1], events[|events| - 1];
      FiledPartition(rules, log, key, front);
      FiledNext(rules, log, key, events, AcceptedList);
      FiledNext(rules, log, key, events, DuplicateList);
      FiledNext(rules, log, key, events, RejectedList);
      SplitsNext(events, Filed(rules, log, key, front, AcceptedList), Filed(rules, log, key, front, DuplicateList),
                 Filed(rules, log, key, front, RejectedList), Filed(rules, log, key, events, AcceptedList),
                 Filed(rules, log, key, events, DuplicateList), Filed(rules, log, key, events, RejectedList));
    }
  }

  lemma {:induction false} FiledRecords(rules: Rules, log: seq<Record>, key: ApiKey, events: seq<Event>)
    ensures var after := LogFrom(rules, log, key, events);
      && |log| <= |after| && after[..|log|] == log
      && RecordsFrom(rules, key, Filed(rules, log, key, events, AcceptedList), after[|log|..])
  {
    if events != [] {
      hide Submit, Creatable, RecordOf, RecordsFrom;
      var front, e := events[..|events| - 1], events[|events| - 1];
      FiledRecords(rules, log, key, front);
      var before := LogFrom(rules, log, key, front);
      AcceptedIsCreatable(rules, before, Submission(key, e));
      var o := Submit(rules, before, Submission(key, e));
      if o.Accepted? {
        RecordsSnoc(rules, key, Filed(rules, log, key, front, AcceptedList), before[|log|..], e);
        assert (before + [o.record])[|log|..] == before[|log|..] + [o.record];
      } else {
        assert Filed(rules, log, key, events, AcceptedList) == Filed(rules, log, key, front, AcceptedList);
      }
    } else {
      NoRecords(rules, key, log);
    }
  }

  lemma NoRecords(rules: Rules, key: ApiKey, log: seq<Record>)
    ensures log[|log|..] == [] && RecordsFrom(rules, key, [], [])
  {
  }

  lemma RecordsSnoc(rules: Rules, key: ApiKey, events: seq<Event>, records: seq<Record>, e: Event)
    requires RecordsFrom(rules, key, events, records) && Creatable(rules, Submission(key, e))
    ensures RecordsFrom(rules, key, events + [e], records + [RecordOf(rules, Submission(key, e))])
  {
    hide Creatable, RecordOf;
  }

  lemma {:induction false} IdsLength(events: seq<Event>)
    ensures |Ids(events)| == |events|
  {
    if events != [] {
      IdsLength(events[..|events| - 1]);
    }
  }

  lemma {:induction false} RejectedLength(rejected: seq<Rejection>)
    ensures |RejectedIds(rejected)| == |rejected|
  {
    if rejected != [] {
      RejectedLength(rejected[..|rejected| - 1]);
    }
  }

  // Every event lands in exactly one list: the three lists are the ids of a partition of the batch, each
  // in order, and the collection grows by exactly the records of the accepted events, in order.
  lemma SortedAccountsForAll(rules: Rules, log: seq<Record>, key: ApiKey, events: seq<Event>)
    ensures var r := Sorted(rules, log, key, events);
      && r.accepted == Ids(Filed(rules, log, key, events, AcceptedList))
      && r.duplicates == Ids(Filed(rules, log, key, events, DuplicateList))
      && RejectedIds(r.rejected) == Ids(Filed(rules, log, key, events, RejectedList))
      && |r.accepted| + |r.duplicates| + |r.rejected| == |events|
    ensures Splits(events, Filed(rules, log, key, events, AcceptedList), Filed(rules, log, key, events, DuplicateList),
                   Filed(rules, log, key, events, RejectedList))
    ensures var after := LogFrom(rules, log, key, events);
      && |log| <= |after| && after[..|log|] == log
      && RecordsFrom(rules, key, Filed(rules, log, key, events, AcceptedList), after[|log|..])
  {
    hide Sorted, Filed, LogFrom, Ids, RejectedIds, RecordsFrom;
    FiledIds(rules, log, key, events);
    FiledPartition(rules, log, key, events);
    FiledRecords(rules, log, key, events);
    var a := Filed(rules, log, key, events, AcceptedList);
    var d := Filed(rules, log, key, events, DuplicateList);
    var x := Filed(rules, log, key, events, RejectedList);
    IdsLength(a);
    IdsLength(d);
    IdsLength(x);
    RejectedLength(Sorted(rules, log, key, events).rejected);
    assert |multiset(events)| == |multiset(a) + multiset(d) + multiset(x)|;
  }

  lemma AcceptedIsCreatable(rules: Rules, log: seq<Record>, s: Submission)
    ensures var o := Submit(rules, log, s); o.Accepted? ==> Creatable(rules, s) && o.record == RecordOf(rules, s)
  {
  }

  function AsSubmissions(key: ApiKey, events: seq<Event>): (r: seq<Submission>)
    ensures |r| == |events| && forall i :: 0 <= i < |events| ==> r[i] == Submission(key, events[i])
  {
    seq(|events|, i requires 0 <= i < |events| => Submission(key, events[i]))
  }

  // A batch extends the run of submissions so far.
  lemma {:induction false} LogFromIsRun(rules: Rules, subs: seq<Submission>, key: ApiKey, events: seq<Event>)
    ensures LogFrom(rules, LogAfter(rules, subs), key, events) == LogAfter(rules, subs + AsSubmissions(key, events))
  {
    var all := subs + AsSubmissions(key, events);
    if events == [] {
      assert all == subs;
    } else {
      hide Submit, Extend;
      var front := events[..|events| - 1];
      LogFromIsRun(rules, subs, key, front);
      assert all[..|all| - 1] == subs + AsSubmissions(key, front);
    }
  }

  function AtOnce(key: ApiKey, events: seq<Event>, now: nat): seq<Timed> {
    if events == [] then []
    else AtOnce(key, events[..|events| - 1], now) + [Timed(Submission(key, events[|events| - 1]), now)]
  }

  class Endpoint {
    const rules: Rules
    const caps: seq<Caps.Cap>
    const months: Caps.Calendar
    var log: seq<Record>
    var counters: Caps.Counters
    ghost var history: seq<Timed>

    // Records and counters are what the submissions so far make of empty ones, so that
    // CountersAreCharges and ReplayKeepsCounters speak about every state of the endpoint.
    ghost predicate Valid()
      reads this
    {
      Caps.DistinctCaps(caps) && Books(log, counters) == BooksAfter(rules, caps, months, history)
    }

    constructor (rules: Rules, caps: seq<Caps.Cap>, months: Caps.Calendar)
      requires Caps.DistinctCaps(caps)
      ensures Valid() && history == [] && log == [] && counters == map[]
      ensures this.rules == rules && this.caps == caps && this.months == months
    {
      this.rules, this.caps, this.months := rules, caps, months;
      log, counters, history := [], map[], [];
    }

    // writeOrThrow: create first; a duplicate key or an invalid record is never counted.
    method WriteOrThrow(s: Submission, now: nat) returns (o: Outcome)
      requires Valid()
      modifies this
      ensures Valid() && history == old(history) + [Timed(s, now)]
      ensures o == Submit(rules, old(log), s) && log == Extend(old(log), o)
      ensures counters == if o.Accepted? then Counted(old(counters), caps, o.record, now, months) else old(counters)
    {
      o := Submit(rules, log, s);
      history := history + [Timed(s, now)];
      assert history[..|history| - 1] == old(history);
      if o.Accepted? {
        log := log + [o.record];
        counters := Counted(counters, caps, o.record, now, months);
      }
    }

    method HandleIngest(key: Option<ApiKey>, events: seq<Event>, now: nat) returns (r: Response)
      requires Valid()
      modifies this
      ensures Valid()
      ensures r.Unauthorized? <==> key.None?
      ensures r.BadBatch? <==> key.Some? && (events == [] || |events| > 500)
      ensures !r.Done? ==> log == old(log) && counters == old(counters) && history == old(history)
      ensures r.Done? ==> r == Sorted(rules, old(log), key.value, events)
      ensures r.Done? ==> log == LogFrom(rules, old(log), key.value, events)
      ensures r.Done? ==> history == old(history) + AtOnce(key.value, events, now)
    {
      if key.None? {
        return Unauthorized;
      }
      if events == [] || |events| > MAX_BATCH_SIZE {
        return BadBatch;
      }
      var accepted: seq<Option<string>>, duplicates: seq<Option<string>>, rejected: seq<Rejection> := [], [], [];
      assert events[..0] == [];
      for k := 0 to |events|
        invariant Valid() && history == old(history) + AtOnce(key.value, events[..k], now)
        invariant log == LogFrom(rules, old(log), key.value, events[..k])
        invariant Done(accepted, duplicates, rejected) == Sorted(rules, old(log), key.value, events[..k])
      {
        hide Submit, Extend, AtOnce, Sorted, LogFrom, Valid, Counted, BooksAfter, AsSubmissions, ExternalId;
        NextEvent(rules, old(log), key.value, events, k);
        AtOnceNext(key.value, events, k, now);
        var o := WriteOrThrow(Submission(key.value, events[k]), now);
        match o {
          case Accepted(_) => accepted := accepted + [ExternalId(events[k])];
          case Duplicate => duplicates := duplicates + [ExternalId(events[k])];
          case Rejected(why) => rejected := rejected + [Rejection(ExternalId(events[k]), why)];
        }
      }
      assert events[..|events|] == events;
      r := Done(accepted, duplicates, rejected);
    }
  }

  lemma AtOnceNext(key: ApiKey, events: seq<Event>, k: nat, now: nat)
    requires k < |events|
    ensures AtOnce(key, events[..k + 1], now)
      == AtOnce(key, events[..k], now) + [Timed(Submission(key, events[k]), now)]
  {
    assert events[..k + 1][..k] == events[..k];
  }
}
