// server/src/gateway/openaiCompat.js, the streaming relay: upstream text arrives in arbitrary
// chunks, is relayed as it is and parsed for usage on the way. clients/cli/src/wrap.js parses the
// same kind of stream as one whole text.
module SseRelay {
  import opened Options
  import Strings

  // ---- Text ------------------------------------------------------------------------------------------

  // What String.prototype.trim removes.
  predicate IsSpace(c: char) {
    c in " \t\n\r\U{000B}\U{000C}\U{00A0}\U{1680}\U{2028}\U{2029}\U{202F}\U{205F}\U{3000}\U{FEFF}"
    || '\U{2000}' <= c <= '\U{200A}'
  }

  // By code unit: tab to carriage return, the space, and the other separators of the language.
  lemma SpaceCodes(c: char)
    ensures IsSpace(c) <==>
      var n := c as int;
      9 <= n <= 13 || 8192 <= n <= 8202 || n in {32, 160, 5760, 8232, 8233, 8239, 8287, 12288, 65279}
  {
  }

  function TrimStart(s: string): string {
    if s != [] && IsSpace(s[0]) then TrimStart(s[1..]) else s
  }

  function TrimEnd(s: string): string {
    if s != [] && IsSpace(s[|s| - 1]) then TrimEnd(s[..|s| - 1]) else s
  }

  function Trim(s: string): string {
    TrimEnd(TrimStart(s))
  }

  predicate IsData(s: string) {
    "data:" <= s
  }

  // The complete lines of a text, without their newline, and what follows the last newline.
  function Lines(text: string): seq<string>
    decreases |text|
  {
    var nl := Strings.IndexOf(text, '\n');
    if nl == |text| then [] else [text[..nl]] + Lines(text[nl + 1..])
  }

  function Rest(text: string): string
    decreases |text|
  {
    var nl := Strings.IndexOf(text, '\n');
    if nl == |text| then text else Rest(text[nl + 1..])
  }

  function Flatten(chunks: seq<string>): string {
    if chunks == [] then [] else Flatten(chunks[..|chunks| - 1]) + chunks[|chunks| - 1]
  }

  // ---- Events ------------------------------------------------------------------------------------------

  // JSON.parse of one payload. Token counts are 0 when missing; `piece` is delta.content.
  datatype Usage = Usage(prompt: nat, completion: nat, cached: nat)
  datatype Parsed = NotJson | JsonNull | Message(usage: Usage, piece: string)
  type Json = string -> Parsed

  datatype Totals = Totals(prompt: nat, completion: nat, cached: nat, text: string)
  const ZERO := Totals(0, 0, 0, "")

  function Or(a: nat, b: nat): nat {
    if a != 0 then a else b
  }

  function AddMessage(t: Totals, m: Parsed): Totals {
    if m.Message? then
      Totals(Or(m.usage.prompt, t.prompt), Or(m.usage.completion, t.completion), Or(m.usage.cached, t.cached),
             t.text + m.piece)
    else t
  }

  // The relay's treatment of one line; anything that does not parse is skipped.
  function RelayLine(json: Json, t: Totals, line: string): Totals {
    var l := Trim(line);
    if !IsData(l) then t
    else
      var payload := Trim(l[5..]);
      if payload == "[DONE]" then t else AddMessage(t, json(payload))
  }

  function Fold(json: Json, t: Totals, lines: seq<string>): Totals
    decreases |lines|
  {
    if lines == [] then t else Fold(json, RelayLine(json, t, lines[0]), lines[1..])
  }

  lemma {:induction false} FoldAppend(json: Json, t: Totals, a: seq<string>, b: seq<string>)
    ensures Fold(json, t, a + b) == Fold(json, Fold(json, t, a), b)
    decreases |a|
  {
    hide RelayLine;
    if a == [] {
      assert a + b == b;
    } else {
      assert (a + b)[1..] == a[1..] + b;
      FoldAppend(json, RelayLine(json, t, a[0]), a[1..], b);
    }
  }

  lemma LinesStep(text: string, nl: nat)
    requires nl < |text| && text[nl] == '\n' && forall i :: 0 <= i < nl ==> text[i] != '\n'
    ensures Lines(text) == [text[..nl]] + Lines(text[nl + 1..]) && Rest(text) == Rest(text[nl + 1..])
  {
    Strings.IndexIs(text, '\n', nl);
  }

  lemma NoLine(text: string)
    requires Strings.IndexOf(text, '\n') == |text|
    ensures Lines(text) == [] && Rest(text) == text
  {
  }

  // Cutting a text in two: the second part completes the line the first left open.
  lemma {:induction false} LinesAppend(a: string, b: string)
    ensures Lines(a + b) == Lines(a) + Lines(Rest(a) + b)
    ensures Rest(a + b) == Rest(Rest(a) + b)
    decreases |a|
  {
    hide Lines, Rest;
    var nl := Strings.IndexOf(a, '\n');
    if nl < |a| {
      LinesStep(a, nl);
      LinesStep(a + b, nl);
      assert (a + b)[..nl] == a[..nl] && (a + b)[nl + 1..] == a[nl + 1..] + b;
      LinesAppend(a[nl + 1..], b);
    } else {
      NoLine(a);
    }
  }

  // However the upstream text is cut into chunks, the client gets exactly that text, and the usage
  // and response text are those of its complete lines.
  method Relay(json: Json, chunks: seq<string>) returns (written: string, totals: Totals)
    ensures written == Flatten(chunks)
    ensures totals == Fold(json, ZERO, Lines(Flatten(chunks)))
  {
    written, totals := "", ZERO;
    var buf := "";
    for k := 0 to |chunks|
      invariant written == Flatten(chunks[..k])
      invariant buf == Rest(written) && totals == Fold(json, ZERO, Lines(written))
    {
      hide RelayLine, Lines, Rest, Fold;
      assert chunks[..k + 1][..k] == chunks[..k];
      LinesAppend(written, chunks[k]);
      FoldAppend(json, ZERO, Lines(written), Lines(buf + chunks[k]));
      written := written + chunks[k];
      totals, buf := Drain(json, totals, buf + chunks[k]);
    }
    assert chunks[..|chunks|] == chunks;
  }

  // The inner loop: take complete lines off the buffer.
  method Drain(json: Json, t: Totals, buffered: string) returns (totals: Totals, buf: string)
    ensures totals == Fold(json, t, Lines(buffered)) && buf == Rest(buffered)
  {
    totals, buf := t, buffered;
    var nl := Strings.IndexOf(buf, '\n');
    while nl < |buf|
      invariant nl == Strings.IndexOf(buf, '\n')
      invariant Fold(json, totals, Lines(buf)) == Fold(json, t, Lines(buffered)) && Rest(buf) == Rest(buffered)
      decreases |buf|
    {
      hide RelayLine;
      assert ([buf[..nl]] + Lines(buf[nl + 1..]))[1..] == Lines(buf[nl + 1..]);
      totals := RelayLine(json, totals, buf[..nl]);
      buf := buf[nl + 1..];
      nl := Strings.IndexOf(buf, '\n');
    }
  }

  // ---- What a line means, without trimming ---------------------------------------------------------------

  ghost predicate Blank(s: string) {
    forall k :: 0 <= k < |s| ==> IsSpace(s[k])
  }

  ghost predicate Tight(s: string) {
    s != [] ==> !IsSpace(s[0]) && !IsSpace(s[|s| - 1])
  }

  // "data:" and the payload p, with white space around either.
  ghost predicate Carries(line: string, p: string) {
    Tight(p) && exists a, b, c :: Around(line, a, b, p, c)
  }

  ghost predicate Around(line: string, a: string, b: string, p: string, c: string) {
    Blank(a) && Blank(b) && Blank(c) && line == a + "data:" + b + p + c
  }

  lemma {:induction false} TrimStartDrops(a: string, t: string)
    requires Blank(a) && (t == [] || !IsSpace(t[0]))
    ensures TrimStart(a + t) == t
  {
    if a == [] {
      assert a + t == t;
    } else {
      assert (a + t)[1..] == a[1..] + t && (a + t)[0] == a[0];
      TrimStartDrops(a[1..], t);
    }
  }

  lemma {:induction false} TrimEndDrops(t: string, c: string)
    requires Blank(c) && (t == [] || !IsSpace(t[|t| - 1]))
    ensures TrimEnd(t + c) == t
  {
    if c == [] {
      assert t + c == t;
    } else {
      assert (t + c)[..|t + c| - 1] == t + c[..|c| - 1] && (t + c)[|t + c| - 1] == c[|c| - 1];
      TrimEndDrops(t, c[..|c| - 1]);
    }
  }

  lemma TrimDrops(a: string, t: string, c: string)
    requires Blank(a) && Blank(c) && Tight(t)
    ensures Trim(a + t + c) == t
  {
    if t == [] {
      assert a + t + c == (a + c) + [];
      TrimStartDrops(a + c, []);
    } else {
      assert a + t + c == a + (t + c);
      assert (t + c)[0] == t[0];
      TrimStartDrops(a, t + c);
      TrimEndDrops(t, c);
    }
  }

  lemma {:induction false} TrimStartSplits(s: string) returns (a: string)
    ensures Blank(a) && s == a + TrimStart(s)
    ensures TrimStart(s) == [] || !IsSpace(TrimStart(s)[0])
  {
    hide IsSpace;
    if s != [] && IsSpace(s[0]) {
      a := TrimStartSplits(s[1..]);
      a := [s[0]] + a;
    } else {
      a := "";
    }
  }

  lemma {:induction false} TrimEndSplits(s: string) returns (c: string)
    ensures Blank(c) && s == TrimEnd(s) + c
    ensures TrimEnd(s) == [] || !IsSpace(TrimEnd(s)[|TrimEnd(s)| - 1])
  {
    hide IsSpace;
    if s != [] && IsSpace(s[|s| - 1]) {
      var front := s[..|s| - 1];
      var d := TrimEndSplits(front);
      c := d + [s[|s| - 1]];
      assert s == front + [s[|s| - 1]] && TrimEnd(s) == TrimEnd(front);
      assert TrimEnd(front) + d + [s[|s| - 1]] == TrimEnd(front) + c;
    } else {
      c := "";
    }
  }

  lemma TrimSplits(s: string) returns (a: string, c: string)
    ensures Blank(a) && Blank(c) && Tight(Trim(s)) && s == a + Trim(s) + c
  {
    hide IsSpace, TrimStart, TrimEnd;
    a := TrimStartSplits(s);
    c := TrimEndSplits(TrimStart(s));
    if Trim(s) != [] {
      assert TrimStart(s)[0] == Trim(s)[0];
    }
  }

  lemma PayloadIff(line: string, p: string)
    ensures IsData(Trim(line)) && Trim(Trim(line)[5..]) == p <==> Carries(line, p)
  {
    hide Around, Trim, Tight;
    if Carries(line, p) {
      var a, b, c :| Around(line, a, b, p, c);
      TrimCarried(line, a, b, p, c);
    }
    if IsData(Trim(line)) && Trim(Trim(line)[5..]) == p {
      TrimmedCarries(line);
    }
  }

  lemma TrimCarried(line: string, a: string, b: string, p: string, c: string)
    requires Tight(p) && Around(line, a, b, p, c)
    ensures IsData(Trim(line)) && Trim(Trim(line)[5..]) == p
  {
    hide Trim, IsSpace;
    NoSpace();
    if p == [] {
      assert line == a + "data:" + (b + c);
      TrimDrops(a, "data:", b + c);
      assert Trim(line)[5..] == "" + "" + "";
      TrimDrops("", "", "");
    } else {
      var t := "data:" + b + p;
      assert line == a + t + c;
      assert t[0] == 'd' && t[|t| - 1] == p[|p| - 1];
      TrimDrops(a, t, c);
      assert Trim(line)[5..] == b + p + "";
      TrimDrops(b, p, "");
    }
  }

  lemma NoSpace()
    ensures !IsSpace('d') && !IsSpace(':')
  {
  }

  lemma TrimmedCarries(line: string)
    requires IsData(Trim(line))
    ensures Carries(line, Trim(Trim(line)[5..]))
  {
    hide Trim, IsSpace;
    var a, c := TrimSplits(line);
    var rest := Trim(line)[5..];
    var b, d := TrimSplits(rest);
    assert Trim(line) == "data:" + rest;
    assert line == a + "data:" + b + Trim(rest) + (d + c);
    assert Around(line, a, b, Trim(rest), d + c);
  }

  // The message a line carries, if any: "[DONE]" and what does not parse carry none.
  ghost predicate Says(json: Json, line: string, m: Option<Parsed>) {
    match m
    case Some(e) => e.Message? && exists p :: Carries(line, p) && p != "[DONE]" && json(p) == e
    case None => forall p :: Carries(line, p) && p != "[DONE]" ==> !json(p).Message?
  }

  lemma OnePayload(line: string, p: string, q: string)
    requires Carries(line, p) && Carries(line, q)
    ensures p == q
  {
    PayloadIff(line, p);
    PayloadIff(line, q);
  }

  lemma LineAdds(json: Json, t: Totals, line: string, m: Option<Parsed>)
    requires Says(json, line, m)
    ensures var t' := RelayLine(json, t, line);
      match m
      case None => t' == t
      case Some(e) =>
        && t'.text == t.text + e.piece
        && t'.prompt == (if e.usage.prompt > 0 then e.usage.prompt else t.prompt)
        && t'.completion == (if e.usage.completion > 0 then e.usage.completion else t.completion)
        && t'.cached == (if e.usage.cached > 0 then e.usage.cached else t.cached)
  {
    hide Trim, Carries;
    var l := Trim(line);
    if IsData(l) {
      PayloadIff(line, Trim(l[5..]));
    }
    if m.Some? {
      var p :| Carries(line, p) && p != "[DONE]" && json(p) == m.value;
      PayloadIff(line, p);
    }
  }

  // The last positive one of the counts, or 0.
  ghost predicate LastOf(counts: seq<nat>, n: nat) {
    if forall k :: 0 <= k < |counts| ==> counts[k] == 0 then n == 0
    else exists k :: 0 <= k < |counts| && counts[k] == n > 0 && forall j :: k < j < |counts| ==> counts[j] == 0
  }

  lemma LastOfSnoc(counts: seq<nat>, n: nat, x: nat)
    requires LastOf(counts, n)
    ensures LastOf(counts + [x], if x > 0 then x else n)
  {
    var more := counts + [x];
    if x > 0 {
      assert more[|counts|] == x;
    } else if k :| 0 <= k < |counts| && counts[k] != 0 {
      var j :| 0 <= j < |counts| && counts[j] == n > 0 && forall i :: j < i < |counts| ==> counts[i] == 0;
      assert more[j] == n && more[k] != 0;
    }
  }

  function Counted(ms: seq<Option<Parsed>>, f: Usage -> nat): (r: seq<nat>)
    ensures |r| == |ms|
    ensures forall k :: 0 <= k < |ms| ==>
      r[k] == if ms[k].Some? && ms[k].value.Message? then f(ms[k].value.usage) else 0
  {
    if ms == [] then []
    else
      var last := ms[|ms| - 1];
      Counted(ms[..|ms| - 1], f) + [if last.Some? && last.value.Message? then f(last.value.usage) else 0]
  }

  function Pieces(ms: seq<Option<Parsed>>): (r: seq<string>)
    ensures |r| == |ms|
    ensures forall k :: 0 <= k < |ms| ==> r[k] == if ms[k].Some? && ms[k].value.Message? then ms[k].value.piece else ""
  {
    if ms == [] then []
    else
      var last := ms[|ms| - 1];
      Pieces(ms[..|ms| - 1]) + [if last.Some? && last.value.Message? then last.value.piece else ""]
  }

  // The text is the pieces of the messages in order, and each count the last positive one of theirs.
  ghost predicate Totalled(t: Totals, ms: seq<Option<Parsed>>) {
    && t.text == Flatten(Pieces(ms))
    && LastOf(Counted(ms, (u: Usage) => u.prompt), t.prompt)
    && LastOf(Counted(ms, (u: Usage) => u.completion), t.completion)
    && LastOf(Counted(ms, (u: Usage) => u.cached), t.cached)
  }

  // What the relay logs of a stream, by the messages its lines carry.
  lemma {:induction false} StreamTotals(json: Json, lines: seq<string>, ms: seq<Option<Parsed>>)
    requires |ms| == |lines| && forall k :: 0 <= k < |lines| ==> Says(json, lines[k], ms[k])
    ensures Totalled(Fold(json, ZERO, lines), ms)
    decreases |lines|
  {
    hide Says, RelayLine, Totalled, Fold;
    if lines == [] {
      NoTotals(json);
    } else {
      var k := |lines| - 1;
      StreamTotals(json, lines[..k], ms[..k]);
      assert lines == lines[..k] + [lines[k]] && ms == ms[..k] + [ms[k]];
      FoldAppend(json, ZERO, lines[..k], [lines[k]]);
      var t := Fold(json, ZERO, lines[..k]);
      OneLine(json, t, lines[k]);
      LineAdds(json, t, lines[k], ms[k]);
      OnlyMessages(json, lines[k], ms[k]);
      StreamSnoc(ms[..k], t, RelayLine(json, t, lines[k]), ms[k]);
    }
  }

  lemma NoTotals(json: Json)
    ensures Totalled(Fold(json, ZERO, []), [])
  {
  }

  lemma OneLine(json: Json, t: Totals, line: string)
    ensures Fold(json, t, [line]) == RelayLine(json, t, line)
  {
    hide RelayLine;
    assert [line][1..] == [];
  }

  lemma OnlyMessages(json: Json, line: string, m: Option<Parsed>)
    requires Says(json, line, m)
    ensures m.Some? ==> m.value.Message?
  {
  }

  lemma StreamSnoc(ms: seq<Option<Parsed>>, t: Totals, t': Totals, m: Option<Parsed>)
    requires m.Some? ==> m.value.Message?
    requires Totalled(t, ms)
    requires match m
      case None => t' == t
      case Some(e) =>
        && t'.text == t.text + e.piece
        && t'.prompt == (if e.usage.prompt > 0 then e.usage.prompt else t.prompt)
        && t'.completion == (if e.usage.completion > 0 then e.usage.completion else t.completion)
        && t'.cached == (if e.usage.cached > 0 then e.usage.cached else t.cached)
    ensures Totalled(t', ms + [m])
  {
    hide LastOf, Flatten, Pieces, Counted;
    CountSnoc(ms, m, (u: Usage) => u.prompt, t.prompt);
    CountSnoc(ms, m, (u: Usage) => u.completion, t.completion);
    CountSnoc(ms, m, (u: Usage) => u.cached, t.cached);
    PiecesSnoc(ms, m);
  }

  lemma CountSnoc(ms: seq<Option<Parsed>>, m: Option<Parsed>, f: Usage -> nat, n: nat)
    requires (m.Some? ==> m.value.Message?) && LastOf(Counted(ms, f), n)
    ensures LastOf(Counted(ms + [m], f), if m.Some? && f(m.value.usage) > 0 then f(m.value.usage) else n)
  {
    hide LastOf;
    assert (ms + [m])[..|ms|] == ms;
    LastOfSnoc(Counted(ms, f), n, if m.Some? then f(m.value.usage) else 0);
  }

  lemma PiecesSnoc(ms: seq<Option<Parsed>>, m: Option<Parsed>)
    ensures Flatten(Pieces(ms + [m])) ==
      Flatten(Pieces(ms)) + if m.Some? && m.value.Message? then m.value.piece else ""
  {
    assert (ms + [m])[..|ms|] == ms;
    assert Pieces(ms + [m])[..|ms|] == Pieces(ms);
  }

  // ---- The whole-text parser of the command line tool ----------------------------------------------------

  datatype Counts = Crashed | Counts(prompt: nat, completion: nat)

  // text.split("\n")
  function Split(text: string): seq<string> {
    Lines(text) + [Rest(text)]
  }

  // A payload of `null` parses, and reading its usage throws.
  function WrapLine(json: Json, c: Counts, line: string): Counts {
    if c.Crashed? || !IsData(line) then c
    else
      var payload := Trim(line[5..]);
      if payload == "" || payload == "[DONE]" then c
      else
        match json(payload)
        case NotJson => c
        case JsonNull => Crashed
        case Message(u, _) => Counts(Or(u.prompt, c.prompt), Or(u.completion, c.completion))
  }

  function WrapFold(json: Json, c: Counts, lines: seq<string>): Counts
    decreases |lines|
  {
    if lines == [] then c else WrapFold(json, WrapLine(json, c, lines[0]), lines[1..])
  }

  method ParseOpenAISSE(json: Json, text: string) returns (c: Counts)
    ensures c == WrapFold(json, Counts(0, 0), Split(text))
  {
    hide WrapLine, Lines, Rest;
    c := Counts(0, 0);
    var lines := Split(text);
    for k := 0 to |lines|
      invariant WrapFold(json, c, lines[k..]) == WrapFold(json, Counts(0, 0), lines)
    {
      assert lines[k..][0] == lines[k] && lines[k..][1..] == lines[k + 1..];
      c := WrapLine(json, c, lines[k]);
    }
  }

  // A line on which the two parsers cannot disagree: data lines carry no leading white space and
  // no `null`, and the empty string is not JSON.
  ghost predicate Plain(json: Json, line: string) {
    && (IsData(Trim(line)) ==> IsData(line))
    && (IsData(line) ==> json(Trim(line[5..])) != JsonNull)
    && json("") == NotJson
  }

  lemma {:induction false} TrimEndAfter(p: string, x: string)
    requires p != [] && !IsSpace(p[|p| - 1])
    ensures TrimEnd(p + x) == p + TrimEnd(x)
  {
    if x == [] {
      assert p + x == p;
    } else if IsSpace(x[|x| - 1]) {
      TrimEndAfter(p, x[..|x| - 1]);
      assert (p + x)[..|p + x| - 1] == p + x[..|x| - 1];
    }
  }

  lemma {:induction false} TrimEndCons(c: char, y: string)
    ensures TrimEnd([c] + y) ==
      if TrimEnd(y) == [] then (if IsSpace(c) then [] else [c]) else [c] + TrimEnd(y)
  {
    var s := [c] + y;
    if y == [] {
      assert s[..|s| - 1] == [];
    } else if IsSpace(y[|y| - 1]) {
      assert s[..|s| - 1] == [c] + y[..|y| - 1];
      TrimEndCons(c, y[..|y| - 1]);
    }
  }

  lemma {:induction false} TrimEndTwice(x: string)
    ensures TrimEnd(TrimEnd(x)) == TrimEnd(x)
  {
    if x != [] && IsSpace(x[|x| - 1]) {
      TrimEndTwice(x[..|x| - 1]);
    }
  }

  lemma {:induction false} TrimOfTrimEnd(x: string)
    ensures Trim(TrimEnd(x)) == Trim(x)
  {
    if x == [] {
    } else if IsSpace(x[0]) {
      assert x == [x[0]] + x[1..];
      TrimEndCons(x[0], x[1..]);
      TrimOfTrimEnd(x[1..]);
      if TrimEnd(x[1..]) != [] {
        assert ([x[0]] + TrimEnd(x[1..]))[1..] == TrimEnd(x[1..]);
      }
    } else {
      assert x == [x[0]] + x[1..];
      TrimEndCons(x[0], x[1..]);
      TrimEndTwice(x);
    }
  }

  // On a line that starts with "data:", trimming the line first does not change the payload.
  lemma SamePayload(line: string)
    requires IsData(line)
    ensures IsData(Trim(line)) && Trim(Trim(line)[5..]) == Trim(line[5..])
  {
    assert line == "data:" + line[5..];
    assert TrimStart(line) == line;
    TrimEndAfter("data:", line[5..]);
    assert Trim(line) == "data:" + TrimEnd(line[5..]);
    assert Trim(line)[5..] == TrimEnd(line[5..]);
    TrimOfTrimEnd(line[5..]);
  }

  lemma PlainAgrees(json: Json, t: Totals, line: string)
    requires Plain(json, line)
    ensures var t' := RelayLine(json, t, line);
      WrapLine(json, Counts(t.prompt, t.completion), line) == Counts(t'.prompt, t'.completion)
  {
    hide Trim;
    if IsData(line) {
      SamePayload(line);
    }
  }

  lemma {:induction false} PlainLinesAgree(json: Json, t: Totals, lines: seq<string>)
    requires forall l :: l in lines ==> Plain(json, l)
    ensures var t' := Fold(json, t, lines);
      WrapFold(json, Counts(t.prompt, t.completion), lines) == Counts(t'.prompt, t'.completion)
    decreases |lines|
  {
    hide RelayLine, WrapLine, Plain;
    if lines != [] {
      PlainAgrees(json, t, lines[0]);
      PlainLinesAgree(json, RelayLine(json, t, lines[0]), lines[1..]);
    }
  }

  lemma {:induction false} WrapFoldSnoc(json: Json, c: Counts, lines: seq<string>, last: string)
    ensures WrapFold(json, c, lines + [last]) == WrapLine(json, WrapFold(json, c, lines), last)
    decreases |lines|
  {
    hide WrapLine;
    if lines == [] {
      assert lines + [last] == [last];
    } else {
      assert (lines + [last])[1..] == lines[1..] + [last];
      WrapFoldSnoc(json, WrapLine(json, c, lines[0]), lines[1..], last);
    }
  }

  // On plain lines the two parsers differ by the unterminated tail and by nothing else: the whole-text
  // parser reads it, the relay never does.
  lemma WrapIsRelayPlusTail(json: Json, text: string)
    requires forall l :: l in Lines(text) ==> Plain(json, l)
    ensures var t := Fold(json, ZERO, Lines(text));
      WrapFold(json, Counts(0, 0), Split(text)) == WrapLine(json, Counts(t.prompt, t.completion), Rest(text))
  {
    hide WrapLine, Plain, Lines, Rest;
    PlainLinesAgree(json, ZERO, Lines(text));
    WrapFoldSnoc(json, Counts(0, 0), Lines(text), Rest(text));
  }

  // So on a stream of plain, newline-terminated lines, cut anywhere, both count the same tokens.
  lemma TerminatedStreamsAgree(json: Json, chunks: seq<string>)
    requires Rest(Flatten(chunks)) == "" && forall l :: l in Lines(Flatten(chunks)) ==> Plain(json, l)
    ensures var t := Fold(json, ZERO, Lines(Flatten(chunks)));
      WrapFold(json, Counts(0, 0), Split(Flatten(chunks))) == Counts(t.prompt, t.completion)
  {
    hide Plain, Lines, Rest;
    WrapIsRelayPlusTail(json, Flatten(chunks));
  }

  // Without the final newline they can disagree: the relay drops a last data line.
  lemma UnterminatedLineIsLost(json: Json)
    requires json("u").Message? && json("u").usage.prompt > 0
    ensures Fold(json, ZERO, Lines("data:u")).prompt == 0
    ensures WrapFold(json, Counts(0, 0), Split("data:u")) == Counts(json("u").usage.prompt, json("u").usage.completion)
  {
    var s := "data:u";
    NoLine(s);
    assert s[5..] == "u";
    NotSpaced("u");
    assert Split(s) == [s] && [s][1..] == [];
    assert WrapFold(json, Counts(0, 0), [s]) == WrapLine(json, Counts(0, 0), s);
  }

  lemma NotSpaced(s: string)
    requires s != [] && !IsSpace(s[0]) && !IsSpace(s[|s| - 1])
    ensures Trim(s) == s
  {
  }
}
