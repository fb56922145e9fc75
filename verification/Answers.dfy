/** Recovering the JSON object from an agent's final answer, and folding it into the outgoing data. */
module Answers {
  import opened Types
  import opened Environment

  /** The JSON decoder as a parameter: what it yields for a text, `null` being an object without fields. */
  type Parser = string -> Option<Data>

  /** What the JSON grammar (RFC 8259, sections 3 and 4) says of a trimmed text that decodes to an object or null. */
  ghost predicate ParsesObjectsOnly(parse: Parser) {
    forall s :: parse(s).Some? && Trimmed(s) ==> s == "null" || (|s| >= 2 && s[0] == '{' && s[|s| - 1] == '}')
  }

  // ---------- String operations ----------

  const FENCE := "```"

  predicate FenceAt(s: string, i: int) {
    0 <= i <= |s| - 3 && s[i] == '`' && s[i + 1] == '`' && s[i + 2] == '`'
  }

  /** Where the first fence is, at or after `from`. */
  function FirstFence(s: string, from: nat): (r: Option<nat>)
    ensures r.Some? ==> from <= r.value && FenceAt(s, r.value) && forall i :: from <= i < r.value ==> !FenceAt(s, i)
    ensures r.None? ==> forall i :: from <= i ==> !FenceAt(s, i)
    decreases |s| - from
  {
    if from + 3 > |s| then None else if FenceAt(s, from) then Some(from) else FirstFence(s, from + 1)
  }

  /** The position after `prefix`, if it stands at `from`. */
  function SkipPrefix(s: string, from: nat, prefix: string): (r: nat)
    requires from <= |s|
    ensures from <= r <= |s| && (r == from || s[from..r] == prefix)
  {
    if from + |prefix| <= |s| && s[from..from + |prefix|] == prefix then from + |prefix| else from
  }

  function FirstOf(s: string, c: char, from: nat): (r: Option<nat>)
    ensures r.Some? ==> from <= r.value < |s| && s[r.value] == c && forall i :: from <= i < r.value ==> s[i] != c
    ensures r.None? ==> forall i :: from <= i < |s| ==> s[i] != c
    decreases |s| - from
  {
    if from >= |s| then None else if s[from] == c then Some(from) else FirstOf(s, c, from + 1)
  }

  function LastOf(s: string, c: char): (r: Option<nat>)
    ensures r.Some? ==> r.value < |s| && s[r.value] == c && forall i :: r.value < i < |s| ==> s[i] != c
    ensures r.None? ==> c !in s
  {
    if s == "" then None else if s[|s| - 1] == c then Some(|s| - 1) else LastOf(s[..|s| - 1], c)
  }

  // ---------- The three strategies ----------

  function TryUnmarshalObject(parse: Parser, s: string): Option<Data> {
    parse(Trim(s))
  }

  /** Between the first fence and the next, less a "json" tag and one line break; as a pair of positions. */
  function FencedBlock(content: string): (r: Option<(nat, nat)>)
    ensures r.Some? ==> r.value.0 <= r.value.1 <= |content| && FenceAt(content, r.value.1)
  {
    match FirstFence(content, 0)
    case None => None
    case Some(open) =>
      var start := SkipPrefix(content, SkipPrefix(content, open + 3, "json"), "\n");
      match FirstFence(content, start)
      case None => None
      case Some(close) => Some((start, close))
  }

  function TryFenced(parse: Parser, content: string): Option<Data> {
    match FencedBlock(content)
    case None => None
    case Some(b) => TryUnmarshalObject(parse, content[b.0..b.1])
  }

  function TryBraces(parse: Parser, content: string): Option<Data> {
    match FirstOf(content, '{', 0)
    case None => None
    case Some(start) =>
      match LastOf(content, '}')
      case None => None
      case Some(end) => if end > start then TryUnmarshalObject(parse, content[start..end + 1]) else None
  }

  function ExtractJSONObject(parse: Parser, content: string): Option<Data> {
    if TryUnmarshalObject(parse, content).Some? then TryUnmarshalObject(parse, content)
    else if TryFenced(parse, content).Some? then TryFenced(parse, content)
    else TryBraces(parse, content)
  }

  // ---------- Soundness ----------

  lemma SliceOfSlice(s: string, a: nat, b: nat, x: nat, y: nat)
    requires a <= b <= |s| && x <= y <= b - a
    ensures s[a..b][x..y] == s[a + x..a + y]
  {
    assert forall k :: 0 <= k < y - x ==> s[a..b][x..y][k] == s[a + x + k];
  }

  lemma PieceOf(content: string, a: nat, b: nat) returns (i: nat, j: nat)
    requires a <= b <= |content|
    ensures a <= i <= j <= b && Trim(content[a..b]) == content[i..j] && Trimmed(content[i..j])
    ensures forall k :: a <= k < i || j <= k < b ==> IsSpace(content[k])
  {
    var x, y := TrimIsInfix(content[a..b]);
    i, j := a + x, a + y;
    SliceOfSlice(content, a, b, x, y);
    assert forall k :: a <= k < b ==> content[k] == content[a..b][k - a];
  }

  /** Whatever is extracted was parsed, as it stands, from a trimmed contiguous piece of the answer. */
  lemma ExtractionIsSound(parse: Parser, content: string) returns (i: nat, j: nat)
    requires ExtractJSONObject(parse, content).Some?
    ensures i <= j <= |content| && Trimmed(content[i..j]) && parse(content[i..j]) == ExtractJSONObject(parse, content)
  {
    assert content[0..|content|] == content;
    if TryUnmarshalObject(parse, content).Some? {
      i, j := PieceOf(content, 0, |content|);
    } else if TryFenced(parse, content).Some? {
      var b := FencedBlock(content).value;
      i, j := PieceOf(content, b.0, b.1);
    } else {
      i, j := PieceOf(content, FirstOf(content, '{', 0).value, LastOf(content, '}').value + 1);
    }
  }

  // ---------- Completeness ----------

  predicate NoBraces(s: string) {
    '{' !in s && '}' !in s
  }

  ghost predicate Contains(s: string, t: string) {
    exists i :: HasAt(s, t, i)
  }

  predicate HasAt(s: string, t: string, i: int) {
    0 <= i <= |s| - |t| && s[i..i + |t|] == t
  }

  /** content[l..r] is an object text holding no fence; nothing opens before it and nothing closes after it. */
  ghost predicate Wraps(content: string, l: nat, r: nat) {
    && l + 2 <= r <= |content| && content[l] == '{' && content[r - 1] == '}'
    && (forall i :: l <= i <= r - 3 ==> !FenceAt(content, i))
    && (forall i :: 0 <= i < l ==> content[i] != '{')
    && forall i :: r <= i < |content| ==> content[i] != '}'
  }

  /** The first fenced block holds the word null and nothing else. */
  predicate NullFenced(content: string) {
    FencedBlock(content).Some? && Trim(content[FencedBlock(content).value.0..FencedBlock(content).value.1]) == "null"
  }

  /** A fence never overlaps the object. */
  lemma FenceOutside(content: string, l: nat, r: nat, f: int)
    requires Wraps(content, l, r) && FenceAt(content, f)
    ensures f + 3 <= l || f >= r
  {
  }

  /** A piece that swallows the whole object can only parse as the object. */
  lemma AroundObject(parse: Parser, content: string, l: nat, r: nat, a: nat, b: nat)
    requires ParsesObjectsOnly(parse) && Wraps(content, l, r) && a <= l && r <= b <= |content|
    ensures TryUnmarshalObject(parse, content[a..b]).Some? ==> Trim(content[a..b]) == content[l..r]
  {
    var i, j := PieceOf(content, a, b);
    assert i <= l && r <= j;
    BracketsMeet(content, l, r, i, j);
  }

  lemma BracketsMeet(content: string, l: nat, r: nat, i: nat, j: nat)
    requires Wraps(content, l, r) && i <= l && r <= j <= |content|
    ensures content[i..j] != "null"
    ensures content[i] == '{' && content[j - 1] == '}' ==> i == l && j == r
    ensures content[i..j][0] == content[i] && content[i..j][j - i - 1] == content[j - 1]
  {
    assert content[i..j][l - i] == '{';
  }

  /** A piece beside the object parses only if it is the word null. */
  lemma BesideObject(parse: Parser, content: string, l: nat, r: nat, a: nat, b: nat)
    requires ParsesObjectsOnly(parse) && Wraps(content, l, r) && a <= b <= |content| && (b <= l || r <= a)
    ensures TryUnmarshalObject(parse, content[a..b]).Some? ==> Trim(content[a..b]) == "null"
  {
    var i, j := PieceOf(content, a, b);
    assert i < j ==> content[i..j][0] == content[i] && content[i..j][j - i - 1] == content[j - 1];
  }

  /** The tag of a fence before the object ends before the object. */
  lemma TagStopsShort(content: string, l: nat, r: nat, at: nat)
    requires Wraps(content, l, r) && at <= l
    ensures SkipPrefix(content, SkipPrefix(content, at, "json"), "\n") <= l
  {
    var tag := SkipPrefix(content, at, "json");
    var start := SkipPrefix(content, tag, "\n");
    assert forall k :: at <= k < tag ==> content[k] == content[at..tag][k - at];
    assert tag <= l;
    assert forall k :: tag <= k < start ==> content[k] == content[tag..start][k - tag];
  }

  /** The fenced block lies beside the object or around it. */
  lemma BlockPosition(content: string, l: nat, r: nat)
    requires Wraps(content, l, r) && FencedBlock(content).Some?
    ensures var b := FencedBlock(content).value; b.1 <= l || r <= b.0 || (b.0 <= l && r <= b.1)
  {
    var open := FirstFence(content, 0).value;
    FenceOutside(content, l, r, open);
    FenceOutside(content, l, r, FencedBlock(content).value.1);
    if open + 3 <= l {
      TagStopsShort(content, l, r, open + 3);
    }
  }

  lemma AroundIsNotNull(content: string, l: nat, r: nat, a: nat, b: nat)
    requires Wraps(content, l, r) && a <= l && r <= b <= |content|
    ensures Trim(content[a..b]) != "null"
  {
    var i, j := PieceOf(content, a, b);
    assert content[i..j][l - i] == '{';
  }

  /** If the answer holds a fence, it is not the object alone. */
  lemma FencedIsNotBare(content: string, l: nat, r: nat)
    requires Wraps(content, l, r) && FencedBlock(content).Some?
    ensures Trim(content) != content[l..r]
  {
    var i, j := PieceOf(content, 0, |content|);
    assert content[0..|content|] == content;
    var f := FencedBlock(content).value.1;
    FenceOutside(content, l, r, f);
    assert !IsSpace(content[f]);
    assert i <= l && r <= j && i <= f < j;
  }

  /** The fenced block yields nothing, the object, or a bare null. */
  lemma FencedStrategy(parse: Parser, content: string, l: nat, r: nat)
    requires ParsesObjectsOnly(parse) && Wraps(content, l, r)
    ensures TryFenced(parse, content).Some? ==> NullFenced(content) || TryFenced(parse, content) == parse(content[l..r])
    ensures NullFenced(content) ==> Trim(content) != content[l..r] && TryFenced(parse, content) == parse("null")
  {
    if FencedBlock(content).Some? {
      var b := FencedBlock(content).value;
      BlockPosition(content, l, r);
      FencedIsNotBare(content, l, r);
      if b.0 <= l && r <= b.1 {
        AroundObject(parse, content, l, r, b.0, b.1);
      } else {
        BesideObject(parse, content, l, r, b.0, b.1);
      }
    }
  }

  /** From the first opening to the last closing brace is the object. */
  lemma BracesStrategy(parse: Parser, content: string, l: nat, r: nat)
    requires Wraps(content, l, r)
    ensures TryBraces(parse, content) == parse(content[l..r])
  {
    assert FirstOf(content, '{', 0) == Some(l);
    assert LastOf(content, '}') == Some(r - 1);
    TrimIdentity(content[l..r]);
  }

  /**
   An object without a fence inside, with no '{' before it and no '}' after it, is what comes back, whichever
   strategy finds it, exactly until the first fenced block is a bare null, which then wins.
   */
  lemma ExtractionIsComplete(parse: Parser, content: string, l: nat, r: nat, d: Data)
    requires ParsesObjectsOnly(parse) && Wraps(content, l, r) && parse(content[l..r]) == Some(d)
    ensures !NullFenced(content) ==> ExtractJSONObject(parse, content) == Some(d)
    ensures NullFenced(content) && parse("null") == Some(map[]) ==> ExtractJSONObject(parse, content) == Some(map[])
  {
    assert content[0..|content|] == content;
    AroundObject(parse, content, l, r, 0, |content|);
    FencedStrategy(parse, content, l, r);
    BracesStrategy(parse, content, l, r);
  }

  /** content[l..r] is this object text, as far as fences go. */
  lemma ObjectHasNoFence(content: string, l: nat, r: nat, obj: string)
    requires l <= r <= |content| && content[l..r] == obj && !Contains(obj, FENCE)
    ensures forall i :: l <= i <= r - 3 ==> !FenceAt(content, i)
  {
    forall i | l <= i <= r - 3 ensures !FenceAt(content, i) {
      SliceOfSlice(content, l, r, i - l, i - l + 3);
      assert content[i..i + 3] == FENCE <==> FenceAt(content, i);
      assert content[i..i + 3] == FENCE ==> HasAt(obj, FENCE, i - l);
    }
  }

  lemma NotNullIn(content: string, text: string, at: nat, a: nat, b: nat)
    requires at + |text| <= |content| && content[at..at + |text|] == text && !Contains(text, "null")
    requires at <= a <= b <= at + |text|
    ensures Trim(content[a..b]) != "null"
  {
    var i, j := PieceOf(content, a, b);
    SliceOfSlice(content, at, at + |text|, i - at, j - at);
    assert content[i..j] == "null" ==> HasAt(text, "null", i - at);
  }

  /** Prose and fences without "null", with no brace opened before or closed after an object that holds no fence. */
  lemma WrappedAnswerIsFound(parse: Parser, pre: string, obj: string, post: string, d: Data)
    requires ParsesObjectsOnly(parse) && parse(obj) == Some(d)
    requires |obj| >= 2 && obj[0] == '{' && obj[|obj| - 1] == '}' && !Contains(obj, FENCE)
    requires '{' !in pre && '}' !in post && !Contains(pre, "null") && !Contains(post, "null")
    ensures ExtractJSONObject(parse, pre + obj + post) == Some(d)
  {
    var content, l, r := pre + obj + post, |pre|, |pre| + |obj|;
    assert content[l..r] == obj && content[0..l] == pre && content[r..|content|] == post;
    ObjectHasNoFence(content, l, r, obj);
    assert Wraps(content, l, r);
    NoNullFenced(content, l, r);
    ExtractionIsComplete(parse, content, l, r, d);
  }

  lemma NoNullFenced(content: string, l: nat, r: nat)
    requires Wraps(content, l, r) && !Contains(content[0..l], "null") && !Contains(content[r..|content|], "null")
    ensures !NullFenced(content)
  {
    if FencedBlock(content).Some? {
      var b := FencedBlock(content).value;
      BlockPosition(content, l, r);
      if b.0 <= l && r <= b.1 {
        AroundIsNotNull(content, l, r, b.0, b.1);
      } else if b.1 <= l {
        NotNullIn(content, content[0..l], 0, b.0, b.1);
      } else {
        NotNullIn(content, content[r..|content|], r, b.0, b.1);
      }
    }
  }

  /** A bare null in an earlier fence hides the object that follows. */
  lemma NullFenceHidesObject(parse: Parser, obj: string)
    requires ParsesObjectsOnly(parse) && parse("null") == Some(map[]) && parse(obj).Some?
    requires |obj| >= 2 && obj[0] == '{' && obj[|obj| - 1] == '}' && !Contains(obj, FENCE)
    ensures ExtractJSONObject(parse, "```null```" + obj) == Some(map[])
  {
    var content, r := "```null```" + obj, 10 + |obj|;
    assert content[10..r] == obj;
    ObjectHasNoFence(content, 10, r, obj);
    assert Wraps(content, 10, r);
    NullBlock(content);
    ExtractionIsComplete(parse, content, 10, r, parse(obj).value);
  }

  lemma NullBlock(content: string)
    requires |content| >= 10 && content[..10] == "```null```"
    ensures NullFenced(content)
  {
    assert content[3] == 'n' && content[4] == 'u' && content[5] == 'l' && content[6] == 'l';
    assert FirstFence(content, 0) == Some(0) by { assert FenceAt(content, 0); }
    assert SkipPrefix(content, 3, "json") == 3;
    assert SkipPrefix(content, 3, "\n") == 3;
    assert FirstFence(content, 3) == Some(7) by { assert FenceAt(content, 7); }
    assert content[3..7] == "null";
    TrimIdentity("null");
  }

  /** The first opening brace and the last closing one after it. */
  predicate Span(content: string, start: nat, end: nat) {
    && start < end < |content| && content[start] == '{' && content[end] == '}'
    && (forall i :: 0 <= i < start ==> content[i] != '{') && forall i :: end < i < |content| ==> content[i] != '}'
  }

  lemma WholeIsSpan(parse: Parser, content: string, start: nat, end: nat)
    requires ParsesObjectsOnly(parse) && Span(content, start, end)
    ensures TryUnmarshalObject(parse, content).Some? ==> Trim(content) == content[start..end + 1]
  {
    var i, j := PieceOf(content, 0, |content|);
    assert content[0..|content|] == content;
    assert i <= start && end < j;
    assert content[i..j][start - i] == '{';
    assert content[i..j][0] == content[i] && content[i..j][j - i - 1] == content[j - 1];
  }

  /** Without a fence, what comes back is that span decoded, or nothing; a stray brace that widens it hides the rest. */
  lemma FencelessIsSpan(parse: Parser, content: string, start: nat, end: nat)
    requires ParsesObjectsOnly(parse) && FencedBlock(content).None? && Span(content, start, end)
    ensures ExtractJSONObject(parse, content) == parse(content[start..end + 1])
  {
    WholeIsSpan(parse, content, start, end);
    SpanIsTried(parse, content, start, end);
  }

  lemma SpanIsTried(parse: Parser, content: string, start: nat, end: nat)
    requires Span(content, start, end)
    ensures TryBraces(parse, content) == parse(content[start..end + 1])
  {
    assert FirstOf(content, '{', 0) == Some(start);
    assert LastOf(content, '}') == Some(end);
    TrimIdentity(content[start..end + 1]);
  }

  // ---------- Which strategy comes first ----------

  /** An answer that decodes as it stands is taken as it stands, whatever fences and braces its strings hold. */
  lemma WholeAnswerComesFirst(parse: Parser, content: string, d: Data)
    requires parse(Trim(content)) == Some(d)
    ensures ExtractJSONObject(parse, content) == Some(d)
  {
  }

  /** The first fence of such an answer is the one that opens the block. */
  lemma OpeningFence(content: string, pre: string)
    requires |pre| <= |content| && content[..|pre|] == pre && FenceAt(content, |pre|)
    requires !Contains(pre, FENCE) && (pre == "" || pre[|pre| - 1] != '`')
    ensures FirstFence(content, 0) == Some(|pre|)
  {
    forall i | 0 <= i < |pre| ensures !FenceAt(content, i) {
      if i + 3 <= |pre| {
        assert pre[i..i + 3] == content[i..i + 3];
        assert content[i..i + 3] == FENCE <==> FenceAt(content, i);
        assert content[i..i + 3] == FENCE ==> HasAt(pre, FENCE, i);
      } else {
        assert content[|pre| - 1] == pre[|pre| - 1];
      }
    }
  }

  lemma ClosingFence(content: string, start: nat, body: string)
    requires start + |body| + 3 <= |content| && content[start..start + |body|] == body && !Contains(body, FENCE)
    requires FenceAt(content, start + |body|) && (body == "" || body[|body| - 1] != '`')
    ensures FirstFence(content, start) == Some(start + |body|)
  {
    forall i | start <= i < start + |body| ensures !FenceAt(content, i) {
      if i + 3 <= start + |body| {
        SliceOfSlice(content, start, start + |body|, i - start, i - start + 3);
        assert content[i..i + 3] == FENCE <==> FenceAt(content, i);
        assert content[i..i + 3] == FENCE ==> HasAt(body, FENCE, i - start);
      } else {
        assert content[start + |body| - 1] == body[|body| - 1];
      }
    }
  }

  /** The tag a model may put on its fence, and the line break after it. */
  predicate IsTag(tag: string, nl: string) {
    (tag == "" || tag == "json") && (nl == "" || nl == "\n")
  }

  /** Skipping the tag and one line break leaves the body, or the body less a line break of its own. */
  lemma TagIsSkipped(content: string, at: nat, tag: string, nl: string, body: string)
    requires IsTag(tag, nl) && at + |tag| + |nl| + |body| <= |content|
    requires content[at..at + |tag|] == tag && content[at + |tag|..at + |tag| + |nl|] == nl
    requires content[at + |tag| + |nl|..at + |tag| + |nl| + |body|] == body
    requires body != "" && (IsSpace(body[0]) || body[0] == '{')
    ensures var start := SkipPrefix(content, SkipPrefix(content, at, "json"), "\n");
            var first := at + |tag| + |nl|;
            start == first || (start == first + 1 && body[0] == '\n')
  {
    var first := at + |tag| + |nl|;
    assert content[first] == body[0];
    assert tag == "" && nl == "\n" ==> content[at] == '\n';
    assert tag == "" && nl == "" ==> content[at] == body[0];
    if SkipPrefix(content, at, "json") == at + 4 {
      assert content[at..at + 4][0] == content[at];
    }
    assert SkipPrefix(content, at, "json") == at + |tag|;
    assert nl == "" ==> content[at + |tag|] == body[0];
  }

  /** What stands between the fences, from where the block begins. */
  lemma BodyOfBlock(content: string, start: nat, first: nat, body: string)
    requires first + |body| <= |content| && content[first..first + |body|] == body && body != ""
    requires start == first || (start == first + 1 && IsSpace(body[0]))
    ensures start <= first + |body| && Trim(content[start..first + |body|]) == Trim(body)
  {
    if start == first + 1 {
      assert content[start..first + |body|] == body[1..];
    }
  }

  lemma SuffixHasNoFence(body: string)
    requires body != "" && !Contains(body, FENCE)
    ensures !Contains(body[1..], FENCE)
  {
    forall i ensures !HasAt(body[1..], FENCE, i) {
      if HasAt(body[1..], FENCE, i) {
        assert body[1..][i..i + 3] == body[i + 1..i + 4];
        assert HasAt(body, FENCE, i + 1);
      }
    }
  }

  /** A body that trims to an object begins with it or with white space, and does not end in a backtick. */
  lemma BodyShape(parse: Parser, body: string)
    requires ParsesObjectsOnly(parse) && Trim(body) != "null" && parse(Trim(body)).Some?
    ensures body != "" && (IsSpace(body[0]) || body[0] == '{') && body[|body| - 1] != '`'
    ensures |body| == 1 ==> !IsSpace(body[0])
  {
    var i, j := TrimIsInfix(body);
    assert Trim(body)[0] == body[i] && Trim(body)[j - i - 1] == body[j - 1];
  }

  /** The parts of an answer with a fenced block, by position; the body ends where the second fence stands. */
  ghost predicate Layout(content: string, pre: string, tag: string, nl: string, body: string) {
    var at := |pre| + 3;
    var first := at + |tag| + |nl|;
    && first + |body| <= |content| && content[..|pre|] == pre && FenceAt(content, |pre|)
    && content[at..at + |tag|] == tag && content[at + |tag|..first] == nl && content[first..first + |body|] == body
    && FenceAt(content, first + |body|)
  }

  lemma PieceOfPrefix(content: string, p: string, x: string)
    requires p + x <= content
    ensures content[|p|..|p| + |x|] == x && p <= content
  {
    assert (p + x)[|p|..] == x;
  }

  lemma ConcatIsLayout(pre: string, tag: string, nl: string, body: string, post: string)
    ensures Layout(pre + FENCE + tag + nl + body + FENCE + post, pre, tag, nl, body)
  {
    var a := pre + FENCE;
    var b := a + tag;
    var c := b + nl;
    var d := c + body;
    var e := d + FENCE;
    var content := e + post;
    assert e <= content;
    PrefixesAreLayout(content, pre, tag, nl, body, a, b, c, d, e);
  }

  lemma PrefixesAreLayout(content: string, pre: string, tag: string, nl: string, body: string, a: string, b: string,
                          c: string, d: string, e: string)
    requires a == pre + FENCE && b == a + tag && c == b + nl && d == c + body && e == d + FENCE && e <= content
    ensures Layout(content, pre, tag, nl, body)
  {
    PieceOfPrefix(content, d, FENCE);
    PieceOfPrefix(content, c, body);
    PieceOfPrefix(content, b, nl);
    PieceOfPrefix(content, a, tag);
    PieceOfPrefix(content, pre, FENCE);
    FenceHere(content, |pre|);
    FenceHere(content, |d|);
  }

  lemma FenceHere(content: string, i: nat)
    requires i + 3 <= |content| && content[i..i + 3] == FENCE
    ensures FenceAt(content, i)
  {
    assert content[i..i + 3][0] == content[i] && content[i..i + 3][1] == content[i + 1];
    assert content[i..i + 3][2] == content[i + 2];
  }

  /** The body can stand between fences: it does not run into either of them. */
  ghost predicate IsBody(body: string) {
    && body != "" && (IsSpace(body[0]) || body[0] == '{') && body[|body| - 1] != '`' && !Contains(body, FENCE)
    && (|body| == 1 ==> !IsSpace(body[0]))
  }

  lemma BlockIsBody(content: string, pre: string, tag: string, nl: string, body: string)
    requires IsTag(tag, nl) && !Contains(pre, FENCE) && (pre == "" || pre[|pre| - 1] != '`')
    requires IsBody(body) && Layout(content, pre, tag, nl, body)
    ensures FencedBlock(content).Some?
    ensures var b := FencedBlock(content).value; Trim(content[b.0..b.1]) == Trim(body)
  {
    var first := |pre| + 3 + |tag| + |nl|;
    var start := BlockStarts(content, pre, tag, nl, body);
    BlockCloses(content, start, first, body);
    BlockBetween(content, |pre|, first + |body|);
    BodyOfBlock(content, start, first, body);
  }

  lemma BlockStarts(content: string, pre: string, tag: string, nl: string, body: string) returns (start: nat)
    requires IsTag(tag, nl) && !Contains(pre, FENCE) && (pre == "" || pre[|pre| - 1] != '`')
    requires IsBody(body) && Layout(content, pre, tag, nl, body)
    ensures FirstFence(content, 0) == Some(|pre|)
    ensures start == SkipPrefix(content, SkipPrefix(content, |pre| + 3, "json"), "\n")
    ensures var first := |pre| + 3 + |tag| + |nl|; start == first || (start == first + 1 && IsSpace(body[0]))
  {
    start := SkipPrefix(content, SkipPrefix(content, |pre| + 3, "json"), "\n");
    OpeningFence(content, pre);
    TagIsSkipped(content, |pre| + 3, tag, nl, body);
  }

  lemma BlockBetween(content: string, open: nat, close: nat)
    requires open + 3 <= |content| && FirstFence(content, 0) == Some(open)
    requires FirstFence(content, SkipPrefix(content, SkipPrefix(content, open + 3, "json"), "\n")) == Some(close)
    ensures FencedBlock(content) ==
            Some((SkipPrefix(content, SkipPrefix(content, open + 3, "json"), "\n"), close))
  {
  }

  lemma BlockCloses(content: string, start: nat, first: nat, body: string)
    requires body != "" && first + |body| <= |content| && content[first..first + |body|] == body
    requires start == first || (start == first + 1 && |body| > 1)
    requires FenceAt(content, first + |body|) && body[|body| - 1] != '`' && !Contains(body, FENCE)
    ensures FirstFence(content, start) == Some(first + |body|)
  {
    if start == first {
      ClosingFence(content, start, body);
    } else {
      SuffixHasNoFence(body);
      assert content[start..first + |body|] == body[1..];
      ClosingFence(content, start, body[1..]);
    }
  }

  /**
   A fenced object is found whatever prose and stray braces stand around the block: with or without the "json" tag
   and a line break, as long as the answer as a whole does not decode. The prose before it may end in anything but a
   backtick, which would move the fence.
   */
  lemma FencedAnswerIsFound(parse: Parser, pre: string, tag: string, nl: string, body: string, post: string, d: Data)
    requires ParsesObjectsOnly(parse) && IsTag(tag, nl)
    requires !Contains(pre, FENCE) && (pre == "" || pre[|pre| - 1] != '`') && !Contains(body, FENCE)
    requires Trim(body) != "null" && parse(Trim(body)) == Some(d)
    requires parse(Trim(pre + FENCE + tag + nl + body + FENCE + post)) == None
    ensures ExtractJSONObject(parse, pre + FENCE + tag + nl + body + FENCE + post) == Some(d)
  {
    var content := pre + FENCE + tag + nl + body + FENCE + post;
    ConcatIsLayout(pre, tag, nl, body, post);
    BodyShape(parse, body);
    BlockIsBody(content, pre, tag, nl, body);
  }

  // ---------- Folding the answer into the data ----------

  /** The outgoing data keeps every field: parsed fields override, and unparsable text goes under "result". */
  ghost predicate Folded(parse: Parser, data: Data, content: string, out: Data) {
    var extra := ExtractJSONObject(parse, content);
    && out.Keys == data.Keys + (if extra.Some? then extra.value.Keys else if content != "" then {"result"} else {})
    && forall k :: k in out ==>
         out[k] == if extra.Some? && k in extra.value then extra.value[k]
                   else if extra.None? && content != "" && k == "result" then Text(content)
                   else data[k]
  }

  method MergeFinalAnswer(parse: Parser, data: Data, content: string) returns (out: Data)
    ensures Folded(parse, data, content, out)
    ensures data.Keys <= out.Keys
    ensures ExtractJSONObject(parse, content).Some? ==> out == data + ExtractJSONObject(parse, content).value
    ensures ExtractJSONObject(parse, content).None? ==>
              out == if content != "" then data["result" := Text(content)] else data
  {
    out := data;
    var parsed := ExtractJSONObject(parse, content);
    if parsed.Some? {
      out := out + parsed.value;
    } else if content != "" {
      out := out["result" := Text(content)];
    }
  }

  // ---------- When the text itself is kept ----------

  /** No piece of the answer, trimmed, is the text of an object; a bare null is not counted as one. */
  ghost predicate HoldsNoObject(parse: Parser, content: string) {
    forall i, j :: 0 <= i <= j <= |content| && Trimmed(content[i..j]) && parse(content[i..j]).Some? ==>
      content[i..j] == "null"
  }

  lemma BraceFreeHoldsNoObject(parse: Parser, content: string)
    requires ParsesObjectsOnly(parse) && NoBraces(content)
    ensures HoldsNoObject(parse, content)
  {
    forall i, j | 0 <= i <= j <= |content| && Trimmed(content[i..j]) && parse(content[i..j]).Some?
      ensures content[i..j] == "null"
    {
      assert i < j ==> content[i] == content[i..j][0];
    }
  }

  /** What is left to find in an answer without an object is a bare null, alone or in the first fence. */
  lemma OnlyNullIsFound(parse: Parser, content: string)
    requires parse("null").Some? && HoldsNoObject(parse, content)
    ensures ExtractJSONObject(parse, content) ==
            if Trim(content) == "null" || NullFenced(content) then parse("null") else None
  {
    assert content[0..|content|] == content;
    PieceIsNull(parse, content, 0, |content|);
    if FencedBlock(content).Some? {
      PieceIsNull(parse, content, FencedBlock(content).value.0, FencedBlock(content).value.1);
    }
    BracesFindNothing(parse, content);
  }

  lemma BracesFindNothing(parse: Parser, content: string)
    requires HoldsNoObject(parse, content)
    ensures TryBraces(parse, content) == None
  {
    if TryBraces(parse, content).Some? {
      var start, end := FirstOf(content, '{', 0).value, LastOf(content, '}').value;
      PieceIsNull(parse, content, start, end + 1);
      BracesAreNotNull(content[start..end + 1]);
    }
  }

  lemma PieceIsNull(parse: Parser, content: string, a: nat, b: nat)
    requires HoldsNoObject(parse, content) && a <= b <= |content|
    ensures TryUnmarshalObject(parse, content[a..b]).Some? ==> Trim(content[a..b]) == "null"
  {
    var i, j := PieceOf(content, a, b);
  }

  lemma BracesAreNotNull(s: string)
    requires |s| >= 2 && s[0] == '{'
    ensures Trim(s) != "null"
  {
    var i, j := TrimIsInfix(s);
    assert i == 0;
    assert j > 0 ==> s[i..j][0] == '{';
  }

  /**
   An answer without an object is kept verbatim under "result" exactly when it is not empty, not a bare null and
   does not open its first fence on one; otherwise its text is dropped and the data goes out as it came.
   */
  lemma TextIsKept(parse: Parser, data: Data, content: string, out: Data)
    requires parse("null") == Some(map[]) && HoldsNoObject(parse, content) && Folded(parse, data, content, out)
    ensures out == if content != "" && Trim(content) != "null" && !NullFenced(content)
                   then data["result" := Text(content)] else data
  {
    OnlyNullIsFound(parse, content);
    var kept := data["result" := Text(content)];
    if content != "" && Trim(content) != "null" && !NullFenced(content) {
      assert out.Keys == kept.Keys;
    } else {
      assert out.Keys == data.Keys;
    }
  }

  /** The promise that such an answer is kept is broken by the answer "null". */
  lemma NullAnswerIsDropped(parse: Parser, data: Data, out: Data)
    requires parse("null") == Some(map[]) && Folded(parse, data, "null", out)
    ensures out == data
  {
    TrimIdentity("null");
    assert out.Keys == data.Keys;
  }
}
