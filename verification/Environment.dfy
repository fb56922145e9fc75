/** The environment strings the controller writes and the runner parses back. */
module Environment {
  import opened Types

  // ---------- Strings ----------

  /** The white space that trimming removes. */
  predicate IsSpace(c: char) {
    var n := c as int;
    || 9 <= n <= 13 || n == 0x20 || n == 0x85 || n == 0xA0 || n == 0x1680 || 0x2000 <= n <= 0x200A
    || n == 0x2028 || n == 0x2029 || n == 0x202F || n == 0x205F || n == 0x3000
  }

  function TrimLeft(s: string): string {
    if s != "" && IsSpace(s[0]) then TrimLeft(s[1..]) else s
  }

  function TrimRight(s: string): string {
    if s != "" && IsSpace(s[|s| - 1]) then TrimRight(s[..|s| - 1]) else s
  }

  function Trim(s: string): string {
    TrimRight(TrimLeft(s))
  }

  predicate Trimmed(s: string) {
    s != "" ==> !IsSpace(s[0]) && !IsSpace(s[|s| - 1])
  }

  lemma {:induction false} TrimLeftIsSuffix(s: string) returns (k: nat)
    ensures k <= |s| && TrimLeft(s) == s[k..]
    ensures TrimLeft(s) != "" ==> !IsSpace(TrimLeft(s)[0])
    ensures forall i :: 0 <= i < k ==> IsSpace(s[i])
  {
    if s != "" && IsSpace(s[0]) {
      var j := TrimLeftIsSuffix(s[1..]);
      k := j + 1;
    } else {
      k := 0;
    }
  }

  lemma {:induction false} TrimRightIsPrefix(s: string) returns (k: nat)
    ensures k <= |s| && TrimRight(s) == s[..k]
    ensures TrimRight(s) != "" ==> !IsSpace(TrimRight(s)[|TrimRight(s)| - 1])
    ensures forall i :: k <= i < |s| ==> IsSpace(s[i])
  {
    if s != "" && IsSpace(s[|s| - 1]) {
      k := TrimRightIsPrefix(s[..|s| - 1]);
    } else {
      k := |s|;
    }
  }

  /** Trimming cuts white space off both ends and nothing else. */
  lemma TrimIsInfix(s: string) returns (i: nat, j: nat)
    ensures i <= j <= |s| && Trim(s) == s[i..j] && Trimmed(Trim(s))
    ensures forall k :: 0 <= k < i || j <= k < |s| ==> IsSpace(s[k])
  {
    i := TrimLeftIsSuffix(s);
    var n := TrimRightIsPrefix(TrimLeft(s));
    j := i + n;
    assert forall k :: n <= k < |s[i..]| ==> s[i..][k] == s[i + k];
    assert forall k :: j <= k < |s| ==> s[k] == s[i..][k - i];
  }

  lemma TrimIdentity(s: string)
    ensures Trimmed(s) <==> Trim(s) == s
  {
    if Trim(s) == s {
      var i, j := TrimIsInfix(s);
    }
  }

  function Split(s: string): (parts: seq<string>)
    ensures |parts| > 0
  {
    if s == "" then [""]
    else if s[0] == ',' then [""] + Split(s[1..])
    else Attach(s[0], Split(s[1..]))
  }

  /** The character joins the first part. */
  function Attach(c: char, parts: seq<string>): seq<string>
    requires |parts| > 0
  {
    [[c] + parts[0]] + parts[1..]
  }

  function Join(xs: seq<string>): string {
    if |xs| == 0 then "" else if |xs| == 1 then xs[0] else xs[0] + "," + Join(xs[1..])
  }

  /** The trimmed, non-empty parts, in order. */
  function Clean(parts: seq<string>): seq<string> {
    if parts == [] then []
    else
      var p := Trim(parts[|parts| - 1]);
      Clean(parts[..|parts| - 1]) + if p != "" then [p] else []
  }

  function Pieces(s: string): seq<string> {
    Clean(Split(s))
  }

  method SplitCSV(s: string) returns (out: seq<string>)
    ensures out == Pieces(s)
  {
    out := [];
    if s == "" {
      assert Trim("") == "";
      assert [""][..0] == [];
      return;
    }
    var parts := Split(s);
    for i := 0 to |parts|
      invariant out == Clean(parts[..i])
    {
      var p := Trim(parts[i]);
      assert parts[..i + 1][..i] == parts[..i];
      if p != "" {
        out := out + [p];
      }
    }
    assert parts[..|parts|] == parts;
  }

  // ---------- Lists of names ----------

  lemma AttachConcat(c: char, a: seq<string>, b: seq<string>)
    requires |a| > 0
    ensures Attach(c, a + b) == Attach(c, a) + b
  {
    assert (a + b)[1..] == a[1..] + b;
  }

  lemma {:induction false} SplitAcross(a: string, b: string)
    ensures Split(a + "," + b) == Split(a) + Split(b)
  {
    var ab := a + "," + b;
    if a == "" {
      assert ab[0] == ',' && ab[1..] == b;
    } else {
      SplitAcross(a[1..], b);
      assert ab[0] == a[0] && ab[1..] == a[1..] + "," + b;
      if a[0] == ',' {
        assert [""] + (Split(a[1..]) + Split(b)) == ([""] + Split(a[1..])) + Split(b);
      } else {
        AttachConcat(a[0], Split(a[1..]), Split(b));
      }
    }
  }

  lemma {:induction false} CleanConcat(a: seq<string>, b: seq<string>)
    ensures Clean(a + b) == Clean(a) + Clean(b)
  {
    if b == [] {
      assert a + b == a;
    } else {
      CleanConcat(a, b[..|b| - 1]);
      assert (a + b)[..|a + b| - 1] == a + b[..|b| - 1];
    }
  }

  function AllPieces(xs: seq<string>): seq<string> {
    if xs == [] then [] else Pieces(xs[0]) + AllPieces(xs[1..])
  }

  /** For all lists, what the runner reads is the concatenation of each entry's own pieces. */
  lemma {:induction false} SplitInvertsJoin(xs: seq<string>)
    ensures Pieces(Join(xs)) == AllPieces(xs)
  {
    if |xs| == 0 {
      assert Trim("") == "";
      assert [""][..0] == [];
    } else if |xs| == 1 {
      assert AllPieces(xs[1..]) == [];
    } else {
      SplitInvertsJoin(xs[1..]);
      SplitAcross(xs[0], Join(xs[1..]));
      CleanConcat(Split(xs[0]), Split(Join(xs[1..])));
    }
  }

  predicate WellFormed(x: string) {
    x != "" && ',' !in x && Trimmed(x)
  }

  lemma {:induction false} SplitWithoutComma(s: string)
    requires ',' !in s
    ensures Split(s) == [s]
  {
    if s != "" {
      SplitWithoutComma(s[1..]);
      assert [s[0]] + s[1..] == s;
    }
  }

  lemma {:induction false} SplitPartsHaveNoComma(s: string, i: nat)
    requires i < |Split(s)|
    ensures ',' !in Split(s)[i]
  {
    if s != "" {
      if s[0] == ',' {
        if i > 0 {
          SplitPartsHaveNoComma(s[1..], i - 1);
        }
      } else {
        SplitPartsHaveNoComma(s[1..], i);
      }
    }
  }

  lemma {:induction false} CleanedIsTrimOfPart(parts: seq<string>, i: nat) returns (j: nat)
    requires i < |Clean(parts)|
    ensures j < |parts| && Clean(parts)[i] == Trim(parts[j]) && Clean(parts)[i] != ""
  {
    var init := parts[..|parts| - 1];
    if i < |Clean(init)| {
      j := CleanedIsTrimOfPart(init, i);
      assert init[j] == parts[j] && Clean(init) <= Clean(parts);
    } else {
      j := |parts| - 1;
    }
  }

  /** Whatever the environment holds, the runner only ever sees well-formed names. */
  lemma PiecesAreWellFormed(s: string, i: nat)
    requires i < |Pieces(s)|
    ensures WellFormed(Pieces(s)[i])
  {
    var j := CleanedIsTrimOfPart(Split(s), i);
    SplitPartsHaveNoComma(s, j);
    var a, b := TrimIsInfix(Split(s)[j]);
  }

  lemma WellFormedIsOnePiece(x: string)
    requires WellFormed(x)
    ensures Pieces(x) == [x]
  {
    SplitWithoutComma(x);
    TrimIdentity(x);
    assert [x][..0] == [];
    assert Clean([x]) == Clean([]) + [x];
  }

  lemma {:induction false} WellFormedPieces(xs: seq<string>)
    requires forall i :: 0 <= i < |xs| ==> WellFormed(xs[i])
    ensures AllPieces(xs) == xs
  {
    if xs != [] {
      WellFormedIsOnePiece(xs[0]);
      WellFormedPieces(xs[1..]);
    }
  }

  /** A list survives the environment exactly when every entry is a well-formed name. */
  lemma ListRoundTrip(xs: seq<string>)
    ensures Pieces(Join(xs)) == xs <==> forall i :: 0 <= i < |xs| ==> WellFormed(xs[i])
  {
    SplitInvertsJoin(xs);
    if forall i :: 0 <= i < |xs| ==> WellFormed(xs[i]) {
      WellFormedPieces(xs);
    }
    if Pieces(Join(xs)) == xs {
      forall i | 0 <= i < |xs| ensures WellFormed(xs[i]) {
        PiecesAreWellFormed(Join(xs), i);
      }
    }
  }

  // ---------- White space around names ----------

  /** White space is white space, and no letter, digit or punctuation mark of ASCII is. */
  lemma SpacesAreSpaces(c: char)
    ensures IsSpace(' ') && IsSpace('\t') && IsSpace('\n') && IsSpace('\r')
    ensures IsSpace(11 as char) && IsSpace(12 as char) && IsSpace(0x85 as char) && IsSpace(0xA0 as char)
    ensures '!' <= c <= '~' ==> !IsSpace(c)
    ensures IsSpace(c) && (c as int) < 0x80 ==> c == ' ' || 9 <= c as int <= 13
  {
  }

  lemma {:induction false} TrimOfPadded(pad: string, x: string)
    requires Blank(pad) && Trimmed(x) && x != ""
    ensures Trim(pad + x) == x
  {
    if pad == "" {
      assert pad + x == x;
      TrimIdentity(x);
    } else {
      assert (pad + x)[1..] == pad[1..] + x;
      TrimOfPadded(pad[1..], x);
    }
  }

  /** Blanks in front of names do not matter: "a, b" is the list of a and b. */
  lemma BlanksAreDropped(a: string, b: string, pad: string)
    requires WellFormed(a) && WellFormed(b) && Blank(pad) && ',' !in pad
    ensures Pieces(a + "," + pad + b) == [a, b]
  {
    assert a + "," + pad + b == a + "," + (pad + b);
    SplitAcross(a, pad + b);
    SplitWithoutComma(a);
    SplitWithoutComma(pad + b);
    CleanConcat([a], [pad + b]);
    TrimIdentity(a);
    TrimOfPadded(pad, b);
    assert [a][..0] == [] && [pad + b][..0] == [];
    assert Clean([a]) == Clean([]) + [a] && Clean([pad + b]) == Clean([]) + [b];
  }

  // ---------- How many names the runner sees ----------

  predicate Blank(s: string) {
    forall i :: 0 <= i < |s| ==> IsSpace(s[i])
  }

  /** How many of the parts hold anything but white space. */
  function CountNonBlank(parts: seq<string>): nat {
    if parts == [] then 0
    else CountNonBlank(parts[..|parts| - 1]) + if Blank(parts[|parts| - 1]) then 0 else 1
  }

  /** Over all entries, how many comma-separated parts are not blank. */
  function TotalParts(xs: seq<string>): nat {
    if xs == [] then 0 else CountNonBlank(Split(xs[0])) + TotalParts(xs[1..])
  }

  lemma TrimOfBlank(s: string)
    ensures Trim(s) == "" <==> Blank(s)
  {
    var i, j := TrimIsInfix(s);
    if !Blank(s) {
      var k :| 0 <= k < |s| && !IsSpace(s[k]);
      assert i <= k < j;
    }
  }

  lemma {:induction false} CleanCounts(parts: seq<string>)
    ensures |Clean(parts)| == CountNonBlank(parts)
  {
    if parts != [] {
      CleanCounts(parts[..|parts| - 1]);
      TrimOfBlank(parts[|parts| - 1]);
    }
  }

  lemma {:induction false} AllPiecesCount(xs: seq<string>)
    ensures |AllPieces(xs)| == TotalParts(xs)
  {
    if xs != [] {
      CleanCounts(Split(xs[0]));
      AllPiecesCount(xs[1..]);
    }
  }

  /**
   For any list at all, the controller (by counting entries) and the runner (by counting pieces) agree on whether
   the node joins exactly when a single entry has at most one part that is not blank, and several entries have at
   least two between them.
   */
  lemma FanInAgreement(deps: seq<string>)
    ensures (|deps| > 1 <==> |Pieces(Join(deps))| > 1) <==>
            && (|deps| == 1 ==> CountNonBlank(Split(deps[0])) <= 1)
            && (|deps| > 1 ==> TotalParts(deps) >= 2)
  {
    SplitInvertsJoin(deps);
    AllPiecesCount(deps);
    if |deps| == 1 {
      assert TotalParts(deps[1..]) == 0;
    }
  }

  /** One dependency with a comma in its name: the runner joins two nodes and the controller made no topic. */
  lemma MalformedNameSplitsFanIn(a: string, b: string)
    requires WellFormed(a) && WellFormed(b)
    ensures Pieces(Join([a + "," + b])) == [a, b]
  {
    assert [a, b][1..] == [b];
    assert Join([a, b]) == a + "," + b;
    SplitInvertsJoin([a, b]);
    WellFormedPieces([a, b]);
  }

  /** A second dependency with a blank name: the controller made a topic and the runner does not join. */
  lemma BlankNameHidesFanIn(a: string, b: string)
    requires WellFormed(a) && Blank(b) && ',' !in b
    ensures Pieces(Join([a, b])) == [a]
  {
    SplitInvertsJoin([a, b]);
    WellFormedIsOnePiece(a);
    SplitWithoutComma(b);
    TrimOfBlank(b);
    assert [b][..0] == [];
    assert Pieces(b) == [];
    assert [a, b][1..] == [b] && [b][1..] == [];
    assert AllPieces([b]) == [];
  }

  /** A comma alone does no harm: what follows it is blank. */
  lemma TrailingCommaIsHarmless(a: string)
    requires WellFormed(a)
    ensures Pieces(Join([a + ","])) == [a]
  {
    SplitAcross(a, "");
    CleanConcat(Split(a), Split(""));
    WellFormedIsOnePiece(a);
    assert a + "," + "" == a + ",";
    assert Trim("") == "";
    assert [""][..0] == [];
  }

  // ---------- MCP endpoints ----------

  datatype Endpoint = Endpoint(name: string, url: string)

  /** The text before and after the first '='. */
  function Cut(s: string): Option<(string, string)> {
    if s == "" then None
    else if s[0] == '=' then Some(("", s[1..]))
    else
      match Cut(s[1..])
      case None => None
      case Some(p) => Some(([s[0]] + p.0, p.1))
  }

  function Pair(e: Endpoint): string {
    e.name + "=" + e.url
  }

  function Pairs(es: seq<Endpoint>): seq<string> {
    seq(|es|, i requires 0 <= i < |es| => Pair(es[i]))
  }

  method EncodeMCPEndpoints(es: seq<Endpoint>) returns (s: string)
    ensures s == Join(Pairs(es))
  {
    var pairs: seq<string> := [];
    for i := 0 to |es|
      invariant |pairs| == i && forall k :: 0 <= k < i ==> pairs[k] == Pair(es[k])
    {
      pairs := pairs + [es[i].name + "=" + es[i].url];
    }
    assert pairs == Pairs(es);
    s := Join(pairs);
  }

  function Decoded(pairs: seq<string>): map<string, string> {
    if pairs == [] then map[]
    else
      var before := Decoded(pairs[..|pairs| - 1]);
      match Cut(pairs[|pairs| - 1])
      case None => before
      case Some(p) => before[p.0 := p.1]
  }

  method DecodeMCPEndpoints(s: string) returns (endpoints: map<string, string>)
    ensures endpoints == Decoded(Pieces(s))
  {
    endpoints := map[];
    var pairs := SplitCSV(s);
    for i := 0 to |pairs|
      invariant endpoints == Decoded(pairs[..i])
    {
      assert pairs[..i + 1][..i] == pairs[..i];
      var cut := Cut(pairs[i]);
      if cut.Some? {
        endpoints := endpoints[cut.value.0 := cut.value.1];
      }
    }
    assert pairs[..|pairs|] == pairs;
  }

  /** Index i is the last endpoint declared under this name. */
  predicate LastNamed(es: seq<Endpoint>, i: int, name: string) {
    0 <= i < |es| && es[i].name == name && forall j :: i < j < |es| ==> es[j].name != name
  }

  predicate WellFormedEndpoint(e: Endpoint) {
    '=' !in e.name && WellFormed(Pair(e))
  }

  lemma {:induction false} CutAtFirst(name: string, url: string)
    requires '=' !in name
    ensures Cut(name + "=" + url) == Some((name, url))
  {
    var s := name + "=" + url;
    if name == "" {
      assert s[1..] == url;
    } else {
      CutAtFirst(name[1..], url);
      assert s[1..] == name[1..] + "=" + url;
      assert [s[0]] + name[1..] == name;
    }
  }

  lemma {:induction false} CutInverts(s: string)
    requires Cut(s).Some?
    ensures s == Cut(s).value.0 + "=" + Cut(s).value.1 && '=' !in Cut(s).value.0
  {
    if s[0] != '=' {
      CutInverts(s[1..]);
    }
  }

  lemma {:induction false} DecodedLastWins(pairs: seq<string>, es: seq<Endpoint>, name: string, i: int)
    requires |pairs| == |es| && forall k :: 0 <= k < |es| ==> pairs[k] == Pair(es[k]) && '=' !in es[k].name
    ensures LastNamed(es, i, name) ==> name in Decoded(pairs) && Decoded(pairs)[name] == es[i].url
    ensures name in Decoded(pairs) ==> exists k :: 0 <= k < |es| && es[k].name == name
  {
    if es != [] {
      var n := |es| - 1;
      DecodedLastWins(pairs[..n], es[..n], name, i);
      CutAtFirst(es[n].name, es[n].url);
      if name in Decoded(pairs[..n]) {
        var k :| 0 <= k < n && es[..n][k].name == name;
        assert es[k].name == name;
      }
    }
  }

  /** Well-formed endpoints come back as the map in which the last URL of a name wins. */
  lemma EndpointRoundTrip(es: seq<Endpoint>, name: string, i: int)
    requires forall k :: 0 <= k < |es| ==> WellFormedEndpoint(es[k])
    ensures var got := Decoded(Pieces(Join(Pairs(es))));
            && (LastNamed(es, i, name) ==> name in got && got[name] == es[i].url)
            && (name in got ==> exists k :: 0 <= k < |es| && es[k].name == name)
  {
    var pairs := Pairs(es);
    ListRoundTrip(pairs);
    DecodedLastWins(pairs, es, name, i);
  }

  lemma {:induction false} DecodedComesFromAPair(pairs: seq<string>, name: string) returns (k: nat)
    requires name in Decoded(pairs)
    ensures k < |pairs| && Cut(pairs[k]) == Some((name, Decoded(pairs)[name]))
  {
    var n := |pairs| - 1;
    if Cut(pairs[n]).Some? && Cut(pairs[n]).value.0 == name {
      k := n;
    } else {
      k := DecodedComesFromAPair(pairs[..n], name);
    }
  }

  /** One endpoint survives exactly when it is well-formed; its URL may contain any number of '='. */
  lemma OneEndpointRoundTrip(e: Endpoint)
    ensures Decoded(Pieces(Join([Pair(e)]))) == map[e.name := e.url] <==> WellFormedEndpoint(e)
  {
    var pieces := Pieces(Pair(e));
    assert Join([Pair(e)]) == Pair(e);
    if WellFormedEndpoint(e) {
      WellFormedIsOnePiece(Pair(e));
      CutAtFirst(e.name, e.url);
      assert [Pair(e)][..0] == [];
    }
    if Decoded(pieces) == map[e.name := e.url] {
      var k := DecodedComesFromAPair(pieces, e.name);
      CutInverts(pieces[k]);
      PiecesAreWellFormed(Pair(e), k);
    }
  }
}
