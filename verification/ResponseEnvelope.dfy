/** The ASGI middleware that wraps 2xx JSON responses in the standard envelope, and the client's
    unwrapping. */
module EnvelopeSteps {
  import opened Common
  import opened Decimals

  /** A finite double, by its bits: what a number written with a fraction or exponent is read as. */
  type Double = bits: bv64 | (bits >> 52) & 0x7FF != 0x7FF

  datatype Json =
    | Null
    | Bool(value: bool)
    | Number(number: int)
    | Fraction(double: Double)
    | Text(text: string)
    | Array(items: seq<Json>)
    | Object(fields: map<string, Json>)

  type Bytes = seq<bv8>

  /** What the JSON reader makes of a body. Bytes that are no text at all raise an error the
      middleware does not catch. */
  datatype Parsed = Value(json: Json) | Malformed | Undecodable

  /** The JSON library. */
  datatype Codec = Codec(loads: Bytes -> Parsed, dumps: Json -> Bytes)

  /** Reading back what was written gives the same value. */
  ghost predicate Lawful(codec: Codec) {
    forall j: Json :: codec.loads(codec.dumps(j)) == Value(j)
  }

  type Header = (string, string)

  datatype Message =
    | Start(status: int, headers: seq<Header>)
    | Body(body: Bytes, more: bool)
    | Other

  predicate Contains(s: string, part: string) {
    part <= s || (s != [] && Contains(s[1..], part))
  }

  function ContentType(headers: seq<Header>): string {
    if headers == [] then ""
    else if headers[0].0 == "content-type" then headers[0].1
    else ContentType(headers[1..])
  }

  predicate Wrappable(status: int, headers: seq<Header>) {
    200 <= status < 300 && Contains(ContentType(headers), "application/json")
  }

  function Envelope(status: int, requestId: string, original: Json): Json {
    Object(map["success" := Bool(true), "status_code" := Number(status), "message" := Text("ok"),
               "error_code" := Null,
               "request_id" := if requestId == "" then Null else Text(requestId),
               "data" := original])
  }

  function WithLength(headers: seq<Header>, length: nat): seq<Header> {
    if headers == [] then []
    else [if headers[0].0 == "content-length" then ("content-length", NatText(length)) else headers[0]]
         + WithLength(headers[1..], length)
  }

  /** The middleware's variables for one response, and what it has sent on. */
  datatype Sender = Sender(
    status: int,
    headers: seq<Header>,
    canWrap: bool,
    startSent: bool,
    raised: bool,
    sent: seq<Message>)

  function NewSender(): Sender { Sender(200, [], true, false, false, []) }

  function Forward(s: Sender, messages: seq<Message>): Sender {
    s.(startSent := true, sent := s.sent + messages)
  }

  function Send(codec: Codec, requestId: string, s: Sender, m: Message): Sender {
    match m
    case Start(status, headers) =>
      var noted := s.(status := status, headers := headers);
      if Wrappable(status, headers) then noted else Forward(noted.(canWrap := false), [m])
    case Body(body, more) =>
      if s.startSent then Forward(s, [m])
      else if !s.canWrap || body == [] then Forward(s, [Start(s.status, s.headers), m])
      else (
        match codec.loads(body)
        case Value(json) =>
          var wrapped := codec.dumps(Envelope(s.status, requestId, json));
          Forward(s, [Start(s.status, WithLength(s.headers, |wrapped|)), Body(wrapped, more)])
        case Malformed => Forward(s, [Start(s.status, s.headers), m])
        case Undecodable => s.(raised := true))
    case Other => s.(sent := s.sent + [m])
  }

  /** A response, message by message; an error in the middleware ends it. */
  function SendAll(codec: Codec, requestId: string, s: Sender, ms: seq<Message>): Sender
    decreases |ms|
  {
    if ms == [] || s.raised then s
    else SendAll(codec, requestId, Send(codec, requestId, s, ms[0]), ms[1..])
  }

  // ---- the client ----

  datatype Unwrapped = Data(data: Json) | ApiError(code: Json, message: Json)

  function FieldOr(fields: map<string, Json>, name: string, default: Json): Json {
    if name in fields then fields[name] else default
  }

  function Unwrap(raw: Json): Unwrapped {
    if raw.Object? && "success" in raw.fields then
      if raw.fields["success"] == Bool(false) then
        ApiError(FieldOr(raw.fields, "error_code", Text("E0000")),
                 FieldOr(raw.fields, "message", Text("Unknown server error")))
      else Data(FieldOr(raw.fields, "data", raw))
    else Data(raw)
  }
}

module ResponseEnvelopes {
  import opened Decimals
  import opened EnvelopeSteps

  class SendWithEnvelope {
    const codec: Codec
    const requestId: string
    var status: int
    var headers: seq<Header>
    var canWrap: bool
    var startSent: bool
    var raised: bool
    var sent: seq<Message>

    ghost function Model(): Sender
      reads this
    {
      Sender(status, headers, canWrap, startSent, raised, sent)
    }

    constructor (codec: Codec, requestId: string)
      ensures this.codec == codec && this.requestId == requestId && Model() == NewSender()
    {
      this.codec, this.requestId := codec, requestId;
      status, headers, canWrap, startSent, raised, sent := 200, [], true, false, false, [];
    }

    method OnMessage(m: Message)
      modifies this
      ensures Model() == Send(codec, requestId, old(Model()), m)
      ensures m.Other? ==> sent == old(sent) + [m]
    {
      match m
      case Start(newStatus, newHeaders) =>
        status, headers := newStatus, newHeaders;
        if status < 200 || status >= 300 {
          canWrap, startSent, sent := false, true, sent + [m];
          return;
        }
        var contentType := ContentType(headers);
        if !Contains(contentType, "application/json") {
          canWrap, startSent, sent := false, true, sent + [m];
        }
      case Body(body, more) =>
        if startSent {
          sent := sent + [m];
          return;
        }
        if canWrap && body != [] {
          match codec.loads(body)
          case Value(original) =>
            var wrapped := codec.dumps(Envelope(status, requestId, original));
            var newHeaders := ReplaceLength(headers, |wrapped|);
            startSent := true;
            sent := sent + [Start(status, newHeaders), Body(wrapped, more)];
            return;
          case Malformed =>
          case Undecodable =>
            raised := true;
            return;
        }
        startSent := true;
        sent := sent + [Start(status, headers), m];
      case Other =>
        sent := sent + [m];
    }
  }

  method ReplaceLength(headers: seq<Header>, length: nat) returns (r: seq<Header>)
    ensures r == WithLength(headers, length)
  {
    r := [];
    for i := 0 to |headers|
      invariant |r| == i && WithLength(headers, length) == r + WithLength(headers[i..], length)
    {
      var h := headers[i];
      if h.0 == "content-length" {
        r := r + [(h.0, NatText(length))];
      } else {
        r := r + [h];
      }
      assert headers[i..][0] == h && headers[i..][1..] == headers[i + 1..];
      assert WithLength(headers[i..], length) == [r[i]] + WithLength(headers[i + 1..], length);
    }
  }
}

module EnvelopeProofs {
  import opened Common
  import opened Decimals
  import opened EnvelopeSteps

  /** One start, then one or more bodies of which exactly the last says that no more follow. */
  ghost predicate WellFormed(ms: seq<Message>) {
    && |ms| >= 2 && ms[0].Start?
    && (forall i :: 1 <= i < |ms| ==> ms[i].Body? && (ms[i].more <==> i < |ms| - 1))
  }

  // ---- which responses are wrapped ----

  predicate HoldsAt(s: string, part: string, i: int) {
    0 <= i <= |s| - |part| && s[i..i + |part|] == part
  }

  ghost predicate Holds(s: string, part: string) { exists i :: HoldsAt(s, part, i) }

  /** A 2xx response whose first content-type names JSON. */
  ghost predicate IsJsonSuccess(status: int, headers: seq<Header>) {
    && 200 <= status <= 299
    && exists k :: 0 <= k < |headers| && headers[k].0 == "content-type" && Holds(headers[k].1, "application/json")
                   && forall j :: 0 <= j < k ==> headers[j].0 != "content-type"
  }

  lemma OneFurther(s: string, part: string, i: nat)
    requires s != []
    ensures HoldsAt(s[1..], part, i) <==> HoldsAt(s, part, i + 1)
  {
    if i + |part| <= |s| - 1 { assert s[1..][i..i + |part|] == s[i + 1..i + 1 + |part|]; }
  }

  lemma {:induction false} ContainsIsPositional(s: string, part: string)
    ensures Contains(s, part) <==> Holds(s, part)
  {
    if part <= s {
      assert HoldsAt(s, part, 0);
    } else if s != [] {
      ContainsIsPositional(s[1..], part);
      if Holds(s[1..], part) {
        var i :| HoldsAt(s[1..], part, i);
        OneFurther(s, part, i);
      }
      if Holds(s, part) {
        var i :| HoldsAt(s, part, i);
        assert i > 0;
        OneFurther(s, part, i - 1);
      }
    }
  }

  lemma {:induction false} FirstContentType(headers: seq<Header>, k: nat)
    requires k < |headers| && headers[k].0 == "content-type"
    requires forall j :: 0 <= j < k ==> headers[j].0 != "content-type"
    ensures ContentType(headers) == headers[k].1
    decreases k
  {
    if k > 0 { FirstContentType(headers[1..], k - 1); }
  }

  lemma {:induction false} NoContentType(headers: seq<Header>)
    requires forall j :: 0 <= j < |headers| ==> headers[j].0 != "content-type"
    ensures ContentType(headers) == ""
  {
    if headers != [] { NoContentType(headers[1..]); }
  }

  lemma FirstOrNone(headers: seq<Header>) returns (k: nat)
    ensures k <= |headers| && (k < |headers| ==> headers[k].0 == "content-type")
    ensures forall j :: 0 <= j < k ==> headers[j].0 != "content-type"
  {
    k := 0;
    while k < |headers| && headers[k].0 != "content-type"
      invariant k <= |headers| && forall j :: 0 <= j < k ==> headers[j].0 != "content-type"
    {
      k := k + 1;
    }
  }

  lemma WrappableIsJsonSuccess(status: int, headers: seq<Header>)
    ensures Wrappable(status, headers) <==> IsJsonSuccess(status, headers)
  {
    var k := FirstOrNone(headers);
    if k < |headers| {
      FirstContentType(headers, k);
      ContainsIsPositional(headers[k].1, "application/json");
    } else {
      NoContentType(headers);
      ContainsIsPositional("", "application/json");
    }
  }

  /** What becomes of a response: the first body decides. */
  ghost function Transformed(codec: Codec, requestId: string, ms: seq<Message>): seq<Message>
    requires |ms| >= 2 && ms[0].Start? && ms[1].Body?
  {
    if !IsJsonSuccess(ms[0].status, ms[0].headers) || ms[1].body == [] then ms
    else
      match codec.loads(ms[1].body)
      case Value(json) =>
        var wrapped := codec.dumps(Object(map[
          "success" := Bool(true), "status_code" := Number(ms[0].status), "message" := Text("ok"),
          "error_code" := Null, "request_id" := if requestId == "" then Null else Text(requestId), "data" := json]));
        [Start(ms[0].status, WithLength(ms[0].headers, |wrapped|)), Body(wrapped, ms[1].more)] + ms[2..]
      case Malformed => ms
      case Undecodable => []
  }

  ghost predicate RaisesOn(codec: Codec, ms: seq<Message>)
    requires |ms| >= 2 && ms[0].Start? && ms[1].Body?
  {
    && IsJsonSuccess(ms[0].status, ms[0].headers) && ms[1].body != []
    && codec.loads(ms[1].body).Undecodable?
  }

  lemma {:induction false} PassesThrough(codec: Codec, requestId: string, s: Sender, ms: seq<Message>)
    requires s.startSent && !s.raised && forall i :: 0 <= i < |ms| ==> ms[i].Body?
    ensures SendAll(codec, requestId, s, ms) == s.(sent := s.sent + ms)
    decreases |ms|
  {
    if ms == [] {
      assert s.sent + ms == s.sent;
    } else {
      var next := Send(codec, requestId, s, ms[0]);
      PassesThrough(codec, requestId, next, ms[1..]);
      assert s.sent + [ms[0]] + ms[1..] == s.sent + ms;
    }
  }

  lemma SendsTransformed(codec: Codec, requestId: string, ms: seq<Message>)
    requires WellFormed(ms)
    ensures var r := SendAll(codec, requestId, NewSender(), ms);
      && (r.raised <==> RaisesOn(codec, ms))
      && r.sent == Transformed(codec, requestId, ms)
  {
    WrappableIsJsonSuccess(ms[0].status, ms[0].headers);
    var s1 := Send(codec, requestId, NewSender(), ms[0]);
    var s2 := Send(codec, requestId, s1, ms[1]);
    assert ms == [ms[0], ms[1]] + ms[2..];
    assert ms[1..][1..] == ms[2..];
    assert SendAll(codec, requestId, NewSender(), ms) == SendAll(codec, requestId, s1, ms[1..]);
    assert SendAll(codec, requestId, s1, ms[1..]) == SendAll(codec, requestId, s2, ms[2..]);
    if !s2.raised {
      PassesThrough(codec, requestId, s2, ms[2..]);
    }
  }

  /** Exactly the 2xx responses with a JSON content type and a first body that is a JSON value come out
      wrapped, as successes; every other response that does not raise goes out as it came. */
  lemma OnlyJsonSuccessIsWrapped(codec: Codec, requestId: string, ms: seq<Message>)
    requires WellFormed(ms)
    ensures var r := SendAll(codec, requestId, NewSender(), ms);
      if !IsJsonSuccess(ms[0].status, ms[0].headers) || ms[1].body == [] || codec.loads(ms[1].body).Malformed? then
        r.sent == ms && !r.raised
      else if codec.loads(ms[1].body).Value? then
        && |r.sent| == |ms| && !r.raised
        && r.sent[1] == Body(codec.dumps(Object(map[
             "success" := Bool(true), "status_code" := Number(ms[0].status), "message" := Text("ok"),
             "error_code" := Null, "request_id" := if requestId == "" then Null else Text(requestId),
             "data" := codec.loads(ms[1].body).json])), ms[1].more)
      else r.raised && r.sent == []
  {
    SendsTransformed(codec, requestId, ms);
  }

  /** A server error reaches the client as one: its body is sent unchanged, and what the client reports
      is the body's own code and message, or the defaults. */
  lemma ErrorsAreReported(codec: Codec, requestId: string, status: int, headers: seq<Header>, body: Bytes,
                          fields: map<string, Json>)
    requires !(200 <= status <= 299)
    requires codec.loads(body) == Value(Object(fields)) && "success" in fields && fields["success"] == Bool(false)
    ensures var r := SendAll(codec, requestId, NewSender(), [Start(status, headers), Body(body, false)]);
      r.sent == [Start(status, headers), Body(body, false)]
    ensures Unwrap(codec.loads(body).json) ==
      ApiError(if "error_code" in fields then fields["error_code"] else Text("E0000"),
               if "message" in fields then fields["message"] else Text("Unknown server error"))
  {
    SendsTransformed(codec, requestId, [Start(status, headers), Body(body, false)]);
  }

  /** What is no envelope reaches the client as it is: a value without a "success" member, and one with a
      success but no data. */
  lemma OtherValuesStay(raw: Json)
    requires raw.Object? && "success" in raw.fields ==>
               raw.fields["success"] != Bool(false) && "data" !in raw.fields
    ensures Unwrap(raw) == Data(raw)
  {
  }

  /** Any well-formed response comes out well formed, message for message, with the same status and
      the same `more_body` flags; only undecodable JSON bytes raise, and then nothing was sent. */
  lemma ResponsesStayWellFormed(codec: Codec, requestId: string, ms: seq<Message>)
    requires WellFormed(ms)
    ensures var r := SendAll(codec, requestId, NewSender(), ms);
      && (r.raised <==> RaisesOn(codec, ms))
      && (r.raised ==> r.sent == [])
      && (!r.raised ==>
            && WellFormed(r.sent) && |r.sent| == |ms|
            && r.sent[0].status == ms[0].status
            && (forall i :: 1 <= i < |ms| ==> r.sent[i].more == ms[i].more)
            && (forall i :: 2 <= i < |ms| ==> r.sent[i] == ms[i]))
  {
    SendsTransformed(codec, requestId, ms);
  }

  lemma {:induction false} WithLengthAt(headers: seq<Header>, length: nat)
    ensures |WithLength(headers, length)| == |headers|
    ensures forall i :: 0 <= i < |headers| ==>
      WithLength(headers, length)[i] ==
      (if headers[i].0 == "content-length" then ("content-length", NatText(length)) else headers[i])
  {
    if headers != [] {
      WithLengthAt(headers[1..], length);
    }
  }

  predicate AllDigits(s: string) { forall i :: 0 <= i < |s| ==> IsDigit(s[i]) }

  function BodyBytes(ms: seq<Message>): nat {
    if ms == [] then 0 else (if ms[0].Body? then |ms[0].body| else 0) + BodyBytes(ms[1..])
  }

  /** A JSON response in one body: every Content-Length it carries is the length of the new body
      (section 8.6 of RFC 9110), no other header changes, and the client unwraps the original value,
      also when that value has a "success" key of its own. */
  lemma UnwrapUndoesWrap(codec: Codec, requestId: string, status: int, headers: seq<Header>,
                                            body: Bytes, original: Json)
    requires Lawful(codec) && IsJsonSuccess(status, headers) && body != []
    requires codec.loads(body) == Value(original)
    ensures var r := SendAll(codec, requestId, NewSender(), [Start(status, headers), Body(body, false)]);
      && |r.sent| == 2 && r.sent[0].Start? && r.sent[1].Body? && |r.sent[0].headers| == |headers|
      && (forall i :: 0 <= i < |headers| ==>
            if headers[i].0 == "content-length"
            then r.sent[0].headers[i].0 == "content-length"
                 && AllDigits(r.sent[0].headers[i].1) && ParseNat(r.sent[0].headers[i].1) == |r.sent[1].body|
            else r.sent[0].headers[i] == headers[i])
      && codec.loads(r.sent[1].body).Value?
      && Unwrap(codec.loads(r.sent[1].body).json) == Data(original)
      && codec.loads(r.sent[1].body).json.Object?
      && "status_code" in codec.loads(r.sent[1].body).json.fields
      && codec.loads(r.sent[1].body).json.fields["status_code"] == Number(r.sent[0].status) == Number(status)
  {
    var ms := [Start(status, headers), Body(body, false)];
    SendsTransformed(codec, requestId, ms);
    var wrapped := codec.dumps(Envelope(status, requestId, original));
    assert ms[2..] == [];
    WithLengthAt(headers, |wrapped|);
    ParseNatText(|wrapped|);
    assert codec.loads(wrapped) == Value(Envelope(status, requestId, original));
  }

  /** A response in several bodies is meant to pass unwrapped. When its first body alone is a JSON
      value it is wrapped all the same, and the length announced is right exactly when the later
      bodies are empty. */
  lemma ChunkedLengthIsRightIffRestIsEmpty(codec: Codec, requestId: string, ms: seq<Message>, i: nat)
    requires WellFormed(ms) && IsJsonSuccess(ms[0].status, ms[0].headers) && ms[1].body != []
    requires codec.loads(ms[1].body).Value?
    requires i < |ms[0].headers| && ms[0].headers[i].0 == "content-length"
    ensures var r := SendAll(codec, requestId, NewSender(), ms);
      && |r.sent| == |ms| && r.sent[0].Start? && |r.sent[0].headers| == |ms[0].headers|
      && AllDigits(r.sent[0].headers[i].1)
      && (ParseNat(r.sent[0].headers[i].1) == BodyBytes(r.sent) <==> BodyBytes(ms[2..]) == 0)
  {
    SendsTransformed(codec, requestId, ms);
    var wrapped := codec.dumps(Envelope(ms[0].status, requestId, codec.loads(ms[1].body).json));
    WithLengthAt(ms[0].headers, |wrapped|);
    ParseNatText(|wrapped|);
    var sent := Transformed(codec, requestId, ms);
    assert sent[1..][1..] == ms[2..];
  }
}
