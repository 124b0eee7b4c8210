// parseJsonBlock in server/src/classify/classifier.js: the last brace block of a model's answer that
// parses as JSON. A single scan from the right keeps a depth counter and the end of the current block.
module JsonBlock {
  import opened Options

  // Closing braces less opening braces from position i on.
  function Depth(text: string, i: nat): int
    decreases |text| - i
  {
    if i >= |text| then 0
    else Depth(text, i + 1) + (if text[i] == '}' then 1 else if text[i] == '{' then -1 else 0)
  }

  // A span the scan stops at: it opens at i, closes at e, and the text after it balances out.
  ghost predicate Block(text: string, i: nat, e: nat) {
    && i < e < |text| && text[i] == '{'
    && Depth(text, i) == 0 && Depth(text, e + 1) == 0
    && forall j :: i < j <= e ==> Depth(text, j) > 0
  }

  datatype Span = Span(start: nat, end: nat)

  function Slice(text: string, i: nat, e: nat): string
    requires i <= e < |text|
  {
    text[i..e + 1]
  }

  // r is what the rightmost block that parses yields, and None when no block does.
  ghost predicate IsAnswer<J(!new)>(text: string, parse: string -> Option<J>, r: Option<J>) {
    if r.Some? then
      exists i, e ::
        && Block(text, i, e) && parse(Slice(text, i, e)) == r
        && forall a, b :: a > i && Block(text, a, b) ==> parse(Slice(text, a, b)).None?
    else
      forall a, b :: Block(text, a, b) ==> parse(Slice(text, a, b)).None?
  }

  // The blocks from position i on, right to left, none missing.
  ghost predicate AllFrom(text: string, i: nat, tried: seq<Span>) {
    && (forall k :: 0 <= k < |tried| ==> i <= tried[k].start && Block(text, tried[k].start, tried[k].end))
    && (forall j, k :: 0 <= j < k < |tried| ==> tried[k].start < tried[j].start)
    && (forall a, b :: i <= a && Block(text, a, b) ==> Span(a, b) in tried)
  }

  ghost predicate Rejects<J(!new)>(text: string, parse: string -> Option<J>, tried: seq<Span>) {
    forall k :: 0 <= k < |tried| && tried[k].start <= tried[k].end < |text| ==>
      parse(Slice(text, tried[k].start, tried[k].end)).None?
  }

  // The end of the block being scanned: the text after it balances out, nothing from i to it does.
  ghost predicate Open(text: string, i: nat, end: int) {
    i <= end < |text| && Depth(text, end + 1) == 0 && forall j :: i <= j <= end ==> Depth(text, j) > 0
  }

  lemma NoneHere(text: string, i: nat, tried: seq<Span>)
    requires AllFrom(text, i + 1, tried) && forall e :: !Block(text, i, e)
    ensures AllFrom(text, i, tried)
  {
    hide Block;
  }

  lemma OneHere(text: string, i: nat, e: nat, tried: seq<Span>)
    requires AllFrom(text, i + 1, tried) && Block(text, i, e)
    ensures AllFrom(text, i, tried + [Span(i, e)])
  {
    var all := tried + [Span(i, e)];
    forall a, b | i <= a && Block(text, a, b) ensures Span(a, b) in all {
      if a == i {
        BlockEndsOnce(text, i, b, e);
        assert all[|tried|] == Span(a, b);
      } else {
        var k :| 0 <= k < |tried| && tried[k] == Span(a, b);
        assert all[k] == Span(a, b);
      }
    }
  }

  lemma NothingParsed<J(!new)>(text: string, parse: string -> Option<J>, i: nat, tried: seq<Span>)
    requires AllFrom(text, i, tried) && Rejects(text, parse, tried)
    ensures forall a, b :: i <= a && Block(text, a, b) ==> parse(Slice(text, a, b)).None?
  {
  }

  // `tried` is every span handed to the parser, in order: all the blocks from the right end to the one
  // that parsed, or all there are.
  method ParseJsonBlock<J(!new)>(text: string, parse: string -> Option<J>)
    returns (r: Option<J>, ghost tried: seq<Span>)
    ensures IsAnswer(text, parse, r)
    ensures if r.Some? then tried != [] && AllFrom(text, tried[|tried| - 1].start, tried) else AllFrom(text, 0, tried)
  {
    hide AllFrom, Rejects, Block;
    var depth, end := 0, -1;
    tried := [];
    assert AllFrom(text, |text|, []) && Rejects(text, parse, []) by { NoBlocksAtEnd(text, parse); }
    var i := |text|;
    while i > 0
      invariant 0 <= i <= |text|
      invariant depth == Depth(text, i)
      invariant depth > 0 ==> Open(text, i, end)
      invariant AllFrom(text, i, tried) && Rejects(text, parse, tried)
    {
      i := i - 1;
      var ch := text[i];
      ghost var stops := ch == '{' && depth == 1;
      if stops {
        BlockHere(text, i, end);
        OneHere(text, i, end, tried);
        NothingParsed(text, parse, i + 1, tried);
      } else {
        NoBlockHere(text, i);
        NoneHere(text, i, tried);
      }
      if ch == '}' {
        if depth == 0 { end := i; }
        depth := depth + 1;
      } else if ch == '{' {
        depth := depth - 1;
        if depth == 0 && end != -1 {
          assert stops;
          var value := parse(Slice(text, i, end));
          RejectsSnoc(text, parse, tried, Span(i, end));
          tried := tried + [Span(i, end)];
          if value.Some? {
            return value, tried;
          }
          end := -1;
          depth := 0;
        }
      }
    }
    NothingParsed(text, parse, 0, tried);
    r := None;
  }

  lemma NoBlocksAtEnd<J(!new)>(text: string, parse: string -> Option<J>)
    ensures AllFrom(text, |text|, []) && Rejects(text, parse, [])
  {
  }

  lemma RejectsSnoc<J(!new)>(text: string, parse: string -> Option<J>, tried: seq<Span>, s: Span)
    requires Rejects(text, parse, tried) && s.start <= s.end < |text|
    ensures Rejects(text, parse, tried + [s]) <==> parse(Slice(text, s.start, s.end)).None?
  {
    if parse(Slice(text, s.start, s.end)).Some? {
      assert (tried + [s])[|tried|] == s;
    }
  }

  lemma BlockHere(text: string, i: nat, end: int)
    requires i < |text| && text[i] == '{' && Depth(text, i) == 0 && Open(text, i + 1, end)
    ensures Block(text, i, end)
  {
  }

  lemma NoBlockHere(text: string, i: nat)
    requires i < |text| && !(text[i] == '{' && Depth(text, i + 1) == 1)
    ensures forall e :: !Block(text, i, e)
  {
  }

  lemma BlockEndsOnce(text: string, i: nat, e: nat, f: nat)
    requires Block(text, i, e) && Block(text, i, f)
    ensures e == f
  {
    var low, high := if e < f then e else f, if e < f then f else e;
    assert Depth(text, low + 1) == 0;
    assert forall j :: i < j <= high ==> Depth(text, j) > 0;
  }

  lemma AnswerIsUnique<J(!new)>(text: string, parse: string -> Option<J>, r: Option<J>, s: Option<J>)
    requires IsAnswer(text, parse, r) && IsAnswer(text, parse, s)
    ensures r == s
  {
    if r.Some? && s.Some? {
      var i, e :| Block(text, i, e) && parse(Slice(text, i, e)) == r
        && forall a, b :: a > i && Block(text, a, b) ==> parse(Slice(text, a, b)).None?;
      var j, f :| Block(text, j, f) && parse(Slice(text, j, f)) == s
        && forall a, b :: a > j && Block(text, a, b) ==> parse(Slice(text, a, b)).None?;
      if i == j {
        BlockEndsOnce(text, i, e, f);
      }
    }
  }

  // ---- Balanced text ---------------------------------------------------------------------------------------

  // Opening braces less closing braces before position k.
  function Level(text: string, k: nat): int
    requires k <= |text|
  {
    if k == 0 then 0 else Level(text, k - 1) + (if text[k - 1] == '{' then 1 else if text[k - 1] == '}' then -1 else 0)
  }

  lemma {:induction false} LevelCounts(text: string, k: nat)
    requires k <= |text|
    ensures Level(text, k) == multiset(text[..k])['{'] as int - multiset(text[..k])['}'] as int
  {
    if k > 0 {
      LevelCounts(text, k - 1);
      assert text[..k] == text[..k - 1] + [text[k - 1]];
    }
  }

  ghost predicate Balanced(text: string) {
    Level(text, |text|) == 0 && forall k :: 0 <= k <= |text| ==> Level(text, k) >= 0
  }

  // Opens outside every brace, and e is where the level first returns there.
  ghost predicate TopLevel(text: string, i: nat, e: nat) {
    && i < e < |text| && text[i] == '{'
    && Level(text, i) == 0 && Level(text, e + 1) == 0
    && forall j :: i < j <= e ==> Level(text, j) > 0
  }

  lemma {:induction false} LevelMeetsDepth(text: string, k: nat)
    requires k <= |text|
    ensures Level(text, k) == Level(text, |text|) + Depth(text, k)
    decreases |text| - k
  {
    if k < |text| {
      LevelMeetsDepth(text, k + 1);
    }
  }

  // On balanced text the scan tries exactly the top-level blocks.
  lemma TriesTopLevelBlocks(text: string, i: nat, e: nat)
    requires Balanced(text)
    ensures Block(text, i, e) <==> TopLevel(text, i, e)
  {
    forall k | 0 <= k <= |text| ensures Level(text, k) == Depth(text, k) {
      LevelMeetsDepth(text, k);
    }
  }

  // Every brace that opens outside all others starts a block.
  lemma OpeningStartsBlock(text: string, i: nat)
    requires Balanced(text) && i < |text| && text[i] == '{' && Level(text, i) == 0
    ensures exists e :: TopLevel(text, i, e)
  {
    var e := i + 1;
    while Level(text, e + 1) > 0
      invariant i < e < |text|
      invariant forall j :: i < j <= e ==> Level(text, j) > 0
      decreases |text| - e
    {
      e := e + 1;
    }
    assert TopLevel(text, i, e);
  }

  // ---- Any text ------------------------------------------------------------------------------------------------

  lemma {:induction false} DepthInside(before: string, block: string, after: string, k: nat)
    requires k <= |block|
    ensures Depth(before + block + after, |before| + k) == Depth(block, k) + Depth(after, 0)
    decreases |block| - k
  {
    var text := before + block + after;
    if k < |block| {
      DepthInside(before, block, after, k + 1);
      assert text[|before| + k] == block[k];
    } else {
      DepthTail(before + block, after, 0);
    }
  }

  lemma {:induction false} DepthTail(before: string, after: string, k: nat)
    requires k <= |after|
    ensures Depth(before + after, |before| + k) == Depth(after, k)
    decreases |after| - k
  {
    if k < |after| {
      DepthTail(before, after, k + 1);
      assert (before + after)[|before| + k] == after[k];
    }
  }

  // Whatever comes before it, a block is tried if and only if the braces after it cancel out.
  lemma BlockIsTriedIff(before: string, block: string, after: string)
    requires |block| > 1 && Block(block, 0, |block| - 1)
    ensures Block(before + block + after, |before|, |before| + |block| - 1) <==> Depth(after, 0) == 0
  {
    var text := before + block + after;
    forall k | 0 <= k <= |block| ensures Depth(text, |before| + k) == Depth(block, k) + Depth(after, 0) {
      DepthInside(before, block, after, k);
    }
    assert text[|before|] == block[0];
    if Depth(after, 0) == 0 {
      forall j | |before| < j <= |before| + |block| - 1 ensures Depth(text, j) > 0 {
        var k := j - |before|;
        assert Depth(text, |before| + k) == Depth(block, k) + Depth(after, 0);
      }
    }
  }

  ghost predicate Plain(text: string) {
    '{' !in text && '}' !in text
  }

  lemma {:induction false} PlainDepth(text: string, k: nat)
    requires Plain(text)
    ensures Depth(text, k) == 0
    decreases |text| - k
  {
    if k < |text| {
      PlainDepth(text, k + 1);
    }
  }

  // An answer with prose around its last block yields that block, whatever braces the prose before it has.
  lemma LastBlockIsFound<J(!new)>(before: string, block: string, after: string, parse: string -> Option<J>,
                                  r: Option<J>)
    requires |block| > 1 && Block(block, 0, |block| - 1) && Plain(after) && parse(block).Some?
    requires IsAnswer(before + block + after, parse, r)
    ensures r == parse(block)
  {
    var text := before + block + after;
    var i, e := |before|, |before| + |block| - 1;
    PlainDepth(after, 0);
    BlockIsTriedIff(before, block, after);
    assert Slice(text, i, e) == block;
    forall a: nat, b: nat ensures a > i ==> !Block(text, a, b) {
      if i < a < |text| {
        NothingFurther(before, block, after, a);
      }
    }
    AnswerIsUnique(text, parse, r, parse(block));
  }

  lemma NothingFurther(before: string, block: string, after: string, a: nat)
    requires |block| > 1 && Block(block, 0, |block| - 1) && Plain(after) && |before| < a < |before + block + after|
    ensures (before + block + after)[a] != '{' || Depth(before + block + after, a) != 0
  {
    var text := before + block + after;
    PlainDepth(after, 0);
    if a < |before| + |block| {
      DepthInside(before, block, after, a - |before|);
      assert Depth(block, a - |before|) > 0;
    } else {
      assert text[a] == after[a - |before| - |block|];
    }
  }

  // A stray closing brace after a good block hides it.
  lemma StrayBraceHides(before: string, block: string)
    requires |block| > 1 && Block(block, 0, |block| - 1)
    ensures !Block(before + block + "}", |before|, |before| + |block| - 1)
  {
    BlockIsTriedIff(before, block, "}");
    assert Depth("}", 0) == Depth("}", 1) + 1;
  }
}
