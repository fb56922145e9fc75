/** Envelopes on the wire: parsing or wrapping a message, and minting a correlation ID for a fresh one. */
module Envelopes {
  import opened Types
  import opened Merge

  /** `data` is None for a null or absent payload. */
  datatype Envelope = Envelope(cid: Cid, source: Name, data: Option<Data>)

  /** JSON as functions: encoding an envelope, decoding one, and decoding a plain object (null gives Some(None)). */
  datatype Codec = Codec(
    marshal: Envelope -> string,
    envelope: string -> Option<Envelope>,
    decode: string -> Option<Option<Data>>)

  /** Decoding inverts encoding, and an encoded envelope is an object with its ID under "correlation_id". */
  ghost predicate Lawful(codec: Codec) {
    forall env :: codec.envelope(codec.marshal(env)) == Some(env) && ShowsId(codec.decode(codec.marshal(env)), env.cid)
  }

  predicate ShowsId(shown: Option<Option<Data>>, cid: Cid) {
    && shown.Some? && shown.value.Some? && "correlation_id" in shown.value.value
    && shown.value.value["correlation_id"] == Text(cid)
  }

  predicate Complete(env: Envelope) {
    env.cid != "" && env.data.Some?
  }

  function Fields(data: Option<Data>): Data {
    if data.Some? then data.value else map[]
  }

  // ---------- Correlation IDs ----------

  /** The text under this key, if there is one and it is not empty. */
  function TextAt(data: Data, key: string): Option<Cid> {
    if key in data && data[key].Text? && data[key].text != "" then Some(data[key].text) else None
  }

  function Candidate(data: Data, key: string): Option<Cid> {
    if |key| >= 3 && key[|key| - 3..] == "_id" then TextAt(data, key) else None
  }

  /** The field holds a text that is not empty. */
  ghost predicate NamesItself(data: Data, key: string) {
    key in data && data[key].Text? && data[key] != Text("")
  }

  /** "order_id" does, "identity" and "id" do not. */
  ghost predicate EndsInId(key: string) {
    exists stem :: key == stem + "_id"
  }

  lemma CandidateIsNamed(data: Data, key: string)
    ensures Candidate(data, key).Some? <==> NamesItself(data, key) && EndsInId(key)
    ensures Candidate(data, key).Some? ==> data[key] == Text(Candidate(data, key).value)
    ensures TextAt(data, key).Some? <==> NamesItself(data, key)
    ensures TextAt(data, key).Some? ==> data[key] == Text(TextAt(data, key).value)
  {
    if |key| >= 3 && key[|key| - 3..] == "_id" {
      assert key == key[..|key| - 3] + "_id";
    }
    if stem :| key == stem + "_id" {
      assert key[|key| - 3..] == "_id";
    }
  }

  /** The ID a payload names outright. */
  function ExplicitId(data: Data): Option<Cid> {
    if TextAt(data, "correlation_id").Some? then TextAt(data, "correlation_id") else TextAt(data, "id")
  }

  type Byte = n: int | 0 <= n < 256

  function Digit(n: int): (c: char)
    requires 0 <= n < 16
    ensures c == "0123456789abcdef"[n]
  {
    if n < 10 then '0' + n as char else 'a' + (n - 10) as char
  }

  function Hex(buf: seq<Byte>): (text: string)
    ensures |text| == 2 * |buf|
    ensures forall i :: 0 <= i < |buf| ==> text[2 * i] == Digit(buf[i] / 16) && text[2 * i + 1] == Digit(buf[i] % 16)
  {
    if buf == [] then ""
    else Hex(buf[..|buf| - 1]) + [Digit(buf[|buf| - 1] / 16), Digit(buf[|buf| - 1] % 16)]
  }

  /** The IDs a fresh payload can get: maps are walked in any order, so any candidate may be met first. */
  ghost predicate IsNewId(data: Data, random: seq<Byte>, id: Cid) {
    if ExplicitId(data).Some? then id == ExplicitId(data).value
    else if exists k :: Candidate(data, k).Some? then exists k :: Candidate(data, k) == Some(id)
    else id == Hex(random)
  }

  /** The first candidate met when the keys are walked in this order. */
  function FirstCandidate(data: Data, order: seq<string>): Option<Cid> {
    if order == [] then None
    else if Candidate(data, order[0]).Some? then Candidate(data, order[0])
    else FirstCandidate(data, order[1..])
  }

  function IdInOrder(data: Data, order: seq<string>, random: seq<Byte>): Cid {
    if ExplicitId(data).Some? then ExplicitId(data).value
    else if FirstCandidate(data, order).Some? then FirstCandidate(data, order).value
    else Hex(random)
  }

  lemma {:induction false} FirstCandidateFound(data: Data, order: seq<string>)
    ensures FirstCandidate(data, order).Some? ==> exists k :: Candidate(data, k) == FirstCandidate(data, order)
    ensures FirstCandidate(data, order).None? ==> forall k :: k in order ==> Candidate(data, k).None?
  {
    if order != [] {
      FirstCandidateFound(data, order[1..]);
    }
  }

  lemma OrderGivesNewId(data: Data, order: seq<string>, random: seq<Byte>)
    requires IsOrder(order, data.Keys)
    ensures IsNewId(data, random, IdInOrder(data, order, random))
  {
    FirstCandidateFound(data, order);
    assert forall k :: k in data ==> k in Elements(order);
  }

  lemma NewIdHasOrder(data: Data, random: seq<Byte>, id: Cid) returns (order: seq<string>)
    requires IsNewId(data, random, id)
    ensures IsOrder(order, data.Keys) && id == IdInOrder(data, order, random)
  {
    if ExplicitId(data).None? && exists k :: Candidate(data, k).Some? {
      var k :| Candidate(data, k) == Some(id);
      var rest := SomeOrder(data.Keys - {k});
      assert forall x :: x in rest <==> x in Elements(rest);
      order := [k] + rest;
    } else {
      order := SomeOrder(data.Keys);
      FirstCandidateFound(data, order);
    }
  }

  /** The IDs a payload can get are those it gets when its keys are walked in some order. */
  lemma NewIdsComeFromOrders(data: Data, random: seq<Byte>, id: Cid)
    ensures IsNewId(data, random, id) <==>
            exists order :: IsOrder(order, data.Keys) && id == IdInOrder(data, order, random)
  {
    if order :| IsOrder(order, data.Keys) && id == IdInOrder(data, order, random) {
      OrderGivesNewId(data, order, random);
    }
    if IsNewId(data, random, id) {
      var order := NewIdHasOrder(data, random, id);
    }
  }

  method NewCorrelationID(data: Data, random: seq<Byte>) returns (id: Cid)
    requires |random| == 8
    ensures IsNewId(data, random, id) && id != ""
    ensures NamesItself(data, "correlation_id") ==> data["correlation_id"] == Text(id)
    ensures !NamesItself(data, "correlation_id") && NamesItself(data, "id") ==> data["id"] == Text(id)
    ensures !NamesItself(data, "correlation_id") && !NamesItself(data, "id") ==>
              if exists k :: NamesItself(data, k) && EndsInId(k)
              then exists k :: NamesItself(data, k) && EndsInId(k) && data[k] == Text(id)
              else id == Hex(random)
  {
    forall k { CandidateIsNamed(data, k); }
    var explicit := ["correlation_id", "id"];
    for i := 0 to 2
      invariant forall k :: 0 <= k < i ==> TextAt(data, explicit[k]).None?
    {
      var found := TextAt(data, explicit[i]);
      if found.Some? {
        assert i == 1 ==> TextAt(data, explicit[0]).None?;
        return found.value;
      }
    }
    assert TextAt(data, explicit[0]).None? && TextAt(data, explicit[1]).None?;
    var rest := data.Keys;
    while rest != {}
      invariant forall k :: k in data && k !in rest ==> Candidate(data, k).None?
    {
      var k :| k in rest;
      var found := Candidate(data, k);
      if found.Some? {
        return found.value;
      }
      rest := rest - {k};
    }
    id := Hex(random);
  }

  // ---------- Parsing or wrapping ----------

  function Payload(codec: Codec, raw: string): Option<Data> {
    match codec.decode(raw)
    case None => Some(map["raw" := Text(raw)])
    case Some(data) => data
  }

  predicate CarriesEnvelope(codec: Codec, raw: string) {
    codec.envelope(raw).Some? && Complete(codec.envelope(raw).value)
  }

  /** What a raw message may be taken for. */
  ghost predicate Parsed(codec: Codec, raw: string, random: seq<Byte>, env: Envelope) {
    if CarriesEnvelope(codec, raw) then env == codec.envelope(raw).value
    else env.source == "" && env.data == Payload(codec, raw) && IsNewId(Fields(env.data), random, env.cid)
  }

  method ParseOrWrapEnvelope(codec: Codec, raw: string, random: seq<Byte>) returns (env: Envelope)
    requires |random| == 8
    ensures Parsed(codec, raw, random, env) && env.cid != ""
    ensures var decoded := codec.envelope(raw);
            if decoded.Some? && decoded.value.cid != "" && decoded.value.data.Some? then env == decoded.value
            else
              && env.source == ""
              && (codec.decode(raw).None? ==> env.data == Some(map["raw" := Text(raw)]))
              && (codec.decode(raw).Some? ==> env.data == codec.decode(raw).value)
  {
    var decoded := codec.envelope(raw);
    if decoded.Some? && decoded.value.cid != "" && decoded.value.data.Some? {
      return decoded.value;
    }
    var data: Option<Data>;
    var plain := codec.decode(raw);
    if plain.None? {
      data := Some(map["raw" := Text(raw)]);
    } else {
      data := plain.value;
    }
    var cid := NewCorrelationID(Fields(data), random);
    env := Envelope(cid, "", data);
  }

  lemma ParsedHasId(codec: Codec, raw: string, random: seq<Byte>, env: Envelope)
    requires |random| == 8 && Parsed(codec, raw, random, env)
    ensures env.cid != ""
  {
  }

  // ---------- Round trips ----------

  /** Sent and received again, an envelope with an ID keeps that ID, and is itself exactly when it holds data. */
  lemma EnvelopeRoundTrip(codec: Codec, env: Envelope, random: seq<Byte>, got: Envelope)
    requires Lawful(codec) && env.cid != "" && Parsed(codec, codec.marshal(env), random, got)
    ensures got.cid == env.cid
    ensures got == env <==> env.data.Some?
  {
    assert codec.envelope(codec.marshal(env)) == Some(env);
  }

  /** Envelope i, parsed from message i, led a node to publish message i + 1. */
  ghost predicate Trail(codec: Codec, raws: seq<string>, envs: seq<Envelope>, nodes: seq<Name>, outs: seq<Data>) {
    && |raws| == |envs| == |nodes| + 1 && |nodes| == |outs|
    && (forall i :: 0 <= i < |raws| ==> MayParse(codec, raws[i], envs[i]))
    && forall i :: 0 <= i < |nodes| ==> Publishes(codec, envs[i], nodes[i], outs[i], raws[i + 1])
  }

  /** The node answers under the ID it was given. */
  predicate Publishes(codec: Codec, env: Envelope, node: Name, out: Data, raw: string) {
    raw == codec.marshal(Envelope(env.cid, node, Some(out)))
  }

  ghost predicate MayParse(codec: Codec, raw: string, env: Envelope) {
    exists random: seq<Byte> :: |random| == 8 && Parsed(codec, raw, random, env)
  }

  lemma OneHop(codec: Codec, env: Envelope, node: Name, out: Data, raw: string, got: Envelope)
    requires Lawful(codec) && env.cid != "" && Publishes(codec, env, node, out, raw) && MayParse(codec, raw, got)
    ensures got == Envelope(env.cid, node, Some(out))
  {
    var random: seq<Byte> :| |random| == 8 && Parsed(codec, raw, random, got);
    EnvelopeRoundTrip(codec, Envelope(env.cid, node, Some(out)), random, got);
  }

  lemma MayParseHasId(codec: Codec, raw: string, env: Envelope)
    requires MayParse(codec, raw, env)
    ensures env.cid != ""
  {
    var random: seq<Byte> :| |random| == 8 && Parsed(codec, raw, random, env);
    ParsedHasId(codec, raw, random, env);
  }

  /** However long the trail, nothing is wrapped again and every message carries the ID of the first. */
  lemma {:induction false} TrailKeepsId(codec: Codec, raws: seq<string>, envs: seq<Envelope>, nodes: seq<Name>,
                                        outs: seq<Data>, i: nat)
    requires Lawful(codec) && Trail(codec, raws, envs, nodes, outs) && i < |raws|
    ensures envs[i].cid == envs[0].cid != ""
    ensures i > 0 ==> envs[i] == Envelope(envs[0].cid, nodes[i - 1], Some(outs[i - 1]))
  {
    MayParseHasId(codec, raws[i], envs[i]);
    if i > 0 {
      TrailKeepsId(codec, raws, envs, nodes, outs, i - 1);
      assert Publishes(codec, envs[i - 1], nodes[i - 1], outs[i - 1], raws[i - 1 + 1]);
      OneHop(codec, envs[i - 1], nodes[i - 1], outs[i - 1], raws[i], envs[i]);
    }
  }

  // ---------- Redelivery of a raw message ----------

  /** The payload names an ID, or has candidates and they all agree. */
  ghost predicate NamesOneId(data: Data) {
    || ExplicitId(data).Some?
    || ((exists k :: Candidate(data, k).Some?)
        && forall j, k :: Candidate(data, j).Some? && Candidate(data, k).Some? ==>
          Candidate(data, j) == Candidate(data, k))
  }

  ghost predicate AlwaysSame(codec: Codec, raw: string) {
    forall a, b :: MayParse(codec, raw, a) && MayParse(codec, raw, b) ==> a == b
  }

  lemma TwoRandomIds()
    ensures Hex(seq(8, _ => 0)) != Hex(seq(8, _ => 255))
  {
    var x: seq<Byte>, y: seq<Byte> := seq(8, _ => 0), seq(8, _ => 255);
    assert Hex(x)[2 * 0] == Digit(x[0] / 16) == '0' && Hex(y)[2 * 0] == Digit(y[0] / 16) == 'f';
  }

  /** Two IDs that one payload may get. */
  lemma TwoIds(data: Data) returns (r: seq<Byte>, s: seq<Byte>, a: Cid, b: Cid)
    requires !NamesOneId(data)
    ensures |r| == |s| == 8 && IsNewId(data, r, a) && IsNewId(data, s, b) && a != b
  {
    r, s := seq(8, _ => 0), seq(8, _ => 255);
    if exists k :: Candidate(data, k).Some? {
      var j, k :| Candidate(data, j).Some? && Candidate(data, k).Some? && Candidate(data, j) != Candidate(data, k);
      a, b := Candidate(data, j).value, Candidate(data, k).value;
    } else {
      TwoRandomIds();
      a, b := Hex(r), Hex(s);
    }
  }

  /** A redelivered message is taken for the same envelope exactly when it is one, or its payload names one ID. */
  lemma RedeliveryIsStable(codec: Codec, raw: string)
    ensures AlwaysSame(codec, raw) <==> CarriesEnvelope(codec, raw) || NamesOneId(Fields(Payload(codec, raw)))
  {
    var data := Payload(codec, raw);
    if !CarriesEnvelope(codec, raw) && !NamesOneId(Fields(data)) {
      var r, s, a, b := TwoIds(Fields(data));
      var x, y := Envelope(a, "", data), Envelope(b, "", data);
      assert Parsed(codec, raw, r, x) && Parsed(codec, raw, s, y);
      assert MayParse(codec, raw, x) && MayParse(codec, raw, y);
    }
  }
}
