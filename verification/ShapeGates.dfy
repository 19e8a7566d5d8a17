/**
 * L1, the stateless shape gate (defense/layers/a7-shape-gate.ts): staged checks, cheapest first, and the form grammar
 * last, over a body that every earlier stage has bounded.
 */
module ShapeGates {
  import opened Base
  import opened Decimals
  import opened Requests
  import opened SemanticRequests
  import opened Forms
  import Utf8

  const MAX_TARGET := 2048
  const MAX_QUERY := 64
  const MAX_HEADER_COUNT := 48
  const MAX_HEADER_BYTES := 8192
  const MAX_HEADER_NAME := 64
  const MAX_FORM_FIELDS := 16
  const MAX_FIELD_NAME := 32
  const MAX_FIELD_ENCODED := 12_000

  const SLASH := '/' as int
  const QUESTION := '?' as int
  const HOME := T("/")
  const PRIVACY := T("/gizlilik")
  const FORM_PAGE := T("/test-talep-et")
  const THANKS := T("/test-talep-et/tesekkurler")
  const INQUIRIES := T("/api/public-inquiries")
  const TRANSFER_ENCODING := T("transfer-encoding")
  const SERVICE_QUERY := T("hizmet=")
  const SERVICES: set<Text> := {T("web"), T("network"), T("protection"), T("unsure")}

  datatype GateReason =
    | MethodNotAllowed | TargetTooLong | TargetMalformed | PathNotAllowed | QueryNotAllowed | HeaderCountExceeded
    | HeaderBytesExceeded | HeaderNameInvalid | HeaderValueRefused | HostHeaderInvalid | FramingRefused
      | ContentTypeInvalid
    | BodyTooLarge | BodyIncomplete | BodyReadTimeout | BodyEncodingInvalid | FormGrammarInvalid | FieldNotAllowed
    | FieldDuplicate | FieldCountExceeded | FieldTooLong | TokenMalformed

  datatype Verdict = Pass | Reject(reason: GateReason)

  // ------------------------------------------------------------------ target

  /** Some segment between slashes, from index `i` on, is "." or "..". */
  predicate DotSegment(t: Text, i: nat)
    requires i <= |t|
    decreases |t| - i
  {
    var j := FindFrom(t, SLASH, i);
    t[i..j] == T(".") || t[i..j] == T("..") || (j < |t| && DotSegment(t, j + 1))
  }

  predicate TargetChars(t: Text) { t != [] && forall i :: 0 <= i < |t| ==> Visible(t[i]) }

  predicate WellFormedTarget(t: Text)
  {
    TargetChars(t) && t[0] == SLASH && !(|t| >= 2 && t[1] == SLASH)
    && Lacks(t, '\\' as int) && Lacks(t, '#' as int) && Lacks(t, PERCENT)
  }

  /** The method of a known path. */
  function RouteOf(path: Text): Option<Text>
  {
    if path == HOME || path == PRIVACY || path == FORM_PAGE || path == THANKS then Some(GET)
    else if path == INQUIRIES then Some(POST)
    else None
  }

  predicate QueryAllowed(path: Text, query: Text)
  {
    path == FORM_PAGE && |query| <= MAX_QUERY && StartsWith(query, SERVICE_QUERY)
      && query[|SERVICE_QUERY|..] in SERVICES
  }

  function PathOf(target: Text): Text { target[..Find(target, QUESTION)] }

  function TargetFault(verb: Text, target: Text): Option<GateReason>
  {
    if |target| > MAX_TARGET then Some(TargetTooLong)
    else if !WellFormedTarget(target) then Some(TargetMalformed)
    else
      var q := Find(target, QUESTION);
      var path := PathOf(target);
      if DotSegment(path, 0) then Some(TargetMalformed)
      else if RouteOf(path).None? then Some(PathNotAllowed)
      else if RouteOf(path) != Some(verb) then Some(MethodNotAllowed)
      else if q < |target| && !QueryAllowed(path, target[q + 1..]) then Some(QueryNotAllowed)
      else None
  }

  // ------------------------------------------------------------------ headers

  function HeaderBytes(headers: seq<Header>, n: nat): nat
    requires n <= |headers|
  {
    if n == 0 then 0 else HeaderBytes(headers, n - 1) + |headers[n - 1].name| + |headers[n - 1].value| + 4
  }

  const NAME_MARKS: Text := T("!#$%&'*+.^_`|~-")

  predicate NameUnit(u: int) { 97 <= u <= 122 || Digit(u) || u in NAME_MARKS }

  /** ^[a-z0-9!#$%&'*+.^_`|~-]{1,64}$ */
  predicate IsHeaderName(t: Text) { 1 <= |t| <= MAX_HEADER_NAME && forall i :: 0 <= i < |t| ==> NameUnit(t[i]) }

  /** ^[\t\x20-\x7e]*$ */
  predicate IsHeaderValue(t: Text) { forall i :: 0 <= i < |t| ==> t[i] == 9 || Printed(t[i]) }

  /** The first bad header decides. */
  function HeaderFault(headers: seq<Header>, i: nat): Option<GateReason>
    requires i <= |headers|
    decreases |headers| - i
  {
    if i == |headers| then None
    else if !IsHeaderName(Lower(headers[i].name)) then Some(HeaderNameInvalid)
    else if !IsHeaderValue(headers[i].value) then Some(HeaderValueRefused)
    else HeaderFault(headers, i + 1)
  }

  /** The values of the headers of one name, in order. */
  function Named(headers: seq<Header>, name: Text, n: nat): seq<Text>
    requires n <= |headers|
  {
    if n == 0 then []
    else if Lower(headers[n - 1].name) == name then Named(headers, name, n - 1) + [headers[n - 1].value]
    else Named(headers, name, n - 1)
  }

  predicate DomainUnit(u: int) { Letter(u) || Digit(u) || u == '.' as int || u == '-' as int }
  predicate AddressUnit(u: int) { HexDigit(u) || u == ':' as int }

  /** [A-Za-z0-9.-]{1,253}|\[[0-9A-Fa-f:]{2,45}\] */
  predicate IsHostName(t: Text)
  {
    || (1 <= |t| <= 253 && forall i :: 0 <= i < |t| ==> DomainUnit(t[i]))
    || (4 <= |t| <= 47 && t[0] == '[' as int && t[|t| - 1] == ']' as int && forall i :: 0 < i < |t| - 1 ==>
      AddressUnit(t[i]))
  }

  /** (?::[0-9]{1,5})? */
  predicate IsPort(t: Text)
  {
    t == [] || (2 <= |t| <= 6 && t[0] == ':' as int && forall i :: 0 < i < |t| ==> Digit(t[i]))
  }

  predicate IsHost(t: Text) { exists k :: 0 <= k <= |t| && IsHostName(t[..k]) && IsPort(t[k..]) }

  function HeadersFault(headers: seq<Header>): Option<GateReason>
  {
    if |headers| > MAX_HEADER_COUNT then Some(HeaderCountExceeded)
    else if HeaderBytes(headers, |headers|) > MAX_HEADER_BYTES then Some(HeaderBytesExceeded)
    else
      var bad := HeaderFault(headers, 0);
      var hosts := Named(headers, HOST, |headers|);
      if bad.Some? then bad
      else if |hosts| != 1 || !IsHost(hosts[0]) then Some(HostHeaderInvalid)
      else None
  }

  // ------------------------------------------------------------------ framing and body

  function Lengths(headers: seq<Header>): seq<Text> { Named(headers, CONTENT_LENGTH, |headers|) }

  predicate FramingFine(headers: seq<Header>)
  {
    var lengths := Lengths(headers);
    Named(headers, TRANSFER_ENCODING, |headers|) == [] && |lengths| <= 1 && (|lengths| == 1 ==> IsLength(lengths[0]))
  }

  function DeclaredLength(headers: seq<Header>): Option<nat>
    requires FramingFine(headers)
  {
    var lengths := Lengths(headers);
    if |lengths| == 1 then Some(Val(lengths[0])) else None
  }

  function BodyFault(request: LayerRequest, declared: nat): Option<GateReason>
  {
    var types := Named(request.headers, CONTENT_TYPE, |request.headers|);
    if |types| != 1 || types[0] != FORM then Some(ContentTypeInvalid)
    else if declared > MAX_BODY || request.bodyStatus == DeclaredOversize || request.bodyStatus == Overflow then
      Some(BodyTooLarge)
    else if request.bodyStatus == TimedOut then Some(BodyReadTimeout)
    else if request.bodyStatus == Aborted then Some(BodyIncomplete)
    else if request.bodyStatus != Complete || request.body.None? || |request.body.value| != declared then
      Some(BodyIncomplete)
    else None
  }

  /** Stages 1 to 5: nothing of the body is looked at. */
  function EarlyVerdict(request: LayerRequest): Option<Verdict>
  {
    if request.verb != GET && request.verb != POST then Some(Reject(MethodNotAllowed))
    else
      var target, headers := TargetFault(request.verb, request.target), HeadersFault(request.headers);
      if target.Some? then Some(Reject(target.value))
      else if headers.Some? then Some(Reject(headers.value))
      else if !FramingFine(request.headers) then Some(Reject(FramingRefused))
      else
        var declared := DeclaredLength(request.headers);
        if request.verb == GET then
          if declared.Some? && declared.value != 0 then Some(Reject(FramingRefused)) else Some(Pass)
        else if declared.None? then Some(Reject(FramingRefused))
        else
          var body := BodyFault(request, declared.value);
          if body.Some? then Some(Reject(body.value)) else None
  }

  // ------------------------------------------------------------------ the form grammar

  const FIELD_MARKS: Text := T("-._~*+%=&")

  /** ^[A-Za-z0-9\-._~*+%=&]*$ */
  predicate BodyUnit(u: int) { Letter(u) || Digit(u) || u in FIELD_MARKS }

  predicate BodyChars(t: Text) { forall i :: 0 <= i < |t| ==> BodyUnit(t[i]) }

  /** Decoding from index `i` on; nothing when a '%' is not followed by two hex digits. */
  function ComponentFrom(raw: Text, i: nat): Option<Bytes>
    requires i <= |raw|
    decreases |raw| - i
  {
    if i == |raw| then Some([])
    else if raw[i] == PERCENT then
      if i + 3 <= |raw| && HexDigit(raw[i + 1]) && HexDigit(raw[i + 2]) then
        var rest := ComponentFrom(raw, i + 3);
        if rest.None? then None else Some([16 * HexValue(raw[i + 1]) + HexValue(raw[i + 2])] + rest.value)
      else None
    else
      var rest := ComponentFrom(raw, i + 1);
      if rest.None? then None else Some([if raw[i] == '+' as int then 32 else raw[i]] + rest.value)
  }

  function Component(raw: Text): Option<Bytes> { ComponentFrom(raw, 0) }

  /** A component's strict text; nothing when it does not decode. */
  function ComponentText(raw: Text): Option<Text>
  {
    var b := Component(raw);
    if b.None? then None else Utf8.Decode(b.value)
  }

  /** The default TextDecoder drops one leading byte order mark. */
  function DropMark(t: Text): Text { if t != [] && t[0] == 0xFEFF then t[1..] else t }

  function PairFault(pair: Text, seen: set<Text>): Option<GateReason>
  {
    var e := Find(pair, EQUALS);
    if e == |pair| || e < 1 then Some(FormGrammarInvalid)
    else if e > MAX_FIELD_NAME * 3 then Some(FieldNotAllowed)
    else if |pair| - e - 1 > MAX_FIELD_ENCODED then Some(FieldTooLong)
    else
      var name, value := ComponentText(pair[..e]), ComponentText(pair[e + 1..]);
      if name.None? || value.None? then Some(BodyEncodingInvalid)
      else if DropMark(name.value) !in FIELD_NAMES then Some(FieldNotAllowed)
      else if DropMark(name.value) in seen then Some(FieldDuplicate)
      else if DropMark(name.value) == TOKEN_NAME && !TokenValue(DropMark(value.value)) then Some(TokenMalformed)
      else None
  }

  function PairName(pair: Text): Text
  {
    var name := ComponentText(pair[..Find(pair, EQUALS)]);
    if name.None? then [] else DropMark(name.value)
  }

  function PairsFault(pairs: seq<Text>, i: nat, seen: set<Text>): Option<GateReason>
    requires i <= |pairs|
    decreases |pairs| - i
  {
    if i == |pairs| then None
    else
      var bad := PairFault(pairs[i], seen);
      if bad.Some? then bad else PairsFault(pairs, i + 1, seen + {PairName(pairs[i])})
  }

  function Separators(t: Text, n: nat): nat
    requires n <= |t|
  {
    if n == 0 then 0 else Separators(t, n - 1) + (if t[n - 1] == AMP then 1 else 0)
  }

  function FormVerdict(body: Bytes): Verdict
  {
    if !BodyChars(body) then Reject(BodyEncodingInvalid)
    else if body == [] then Pass
    else if Separators(body, |body|) + 1 > MAX_FORM_FIELDS then Reject(FieldCountExceeded)
    else
      var bad := PairsFault(Split(body), 0, {});
      if bad.Some? then Reject(bad.value) else Pass
  }

  function Evaluate(request: LayerRequest): Verdict
  {
    var early := EarlyVerdict(request);
    if early.Some? then early.value
    else if request.body.Some? then FormVerdict(request.body.value)
    else Reject(BodyIncomplete)
  }

  // ------------------------------------------------------------------ what the gate guarantees

  /** The grammar only ever sees a complete POST body of its declared length, within the body bound. */
  lemma {:induction false} GrammarIsBounded(request: LayerRequest)
    requires EarlyVerdict(request).None?
    ensures request.verb == POST && request.body.Some? && |request.body.value| <= MAX_BODY
    ensures FramingFine(request.headers) && DeclaredLength(request.headers) == Some(|request.body.value|)
  {
  }

  lemma {:induction false} BodyUnitIsAscii(u: int)
    requires BodyUnit(u)
    ensures 0 <= u < 128
  {
    if u in FIELD_MARKS {
      var i :| 0 <= i < |FIELD_MARKS| && FIELD_MARKS[i] == u;
    }
  }

  /** A POST body that passed is ASCII. */
  lemma {:induction false} PassedBodyIsAscii(request: LayerRequest)
    requires Evaluate(request) == Pass && request.verb == POST
    ensures request.body.Some? && Ascii(request.body.value)
  {
    var body := request.body.value;
    assert EarlyVerdict(request).None?;
    assert BodyChars(body);
    forall i | 0 <= i < |body| ensures 0 <= body[i] < 128 { BodyUnitIsAscii(body[i]); }
  }

  lemma {:induction false} ServicesAreShort(t: Text)
    requires t in SERVICES
    ensures |t| <= 10
  {
  }

  lemma {:induction false} RoutesAreShort(path: Text)
    requires RouteOf(path).Some?
    ensures |path| <= 26
  {
    assert |HOME| == 1 && |PRIVACY| == 9 && |FORM_PAGE| == 14 && |THANKS| == 26 && |INQUIRIES| == 21;
  }

  /** A target that passed is short. */
  lemma {:induction false} PassedTargetIsShort(request: LayerRequest)
    requires Evaluate(request) == Pass
    ensures 1 <= |request.target| <= 32
  {
    var t := request.target;
    var q := Find(t, QUESTION);
    assert TargetFault(request.verb, t) == None;
    RoutesAreShort(PathOf(t));
    if q < |t| {
      assert |FORM_PAGE| == 14 && |SERVICE_QUERY| == 7;
      ServicesAreShort(t[q + 1..][7..]);
    }
  }

  lemma {:induction false} ServiceTargets(service: Text)
    requires service in SERVICES
    ensures FORM_PAGE + [QUESTION] + SERVICE_QUERY + service in FORM_ROUTE_TARGETS
  {
    assert FORM_PAGE + [QUESTION] + SERVICE_QUERY + T("web") == T("/test-talep-et?hizmet=web");
    assert FORM_PAGE + [QUESTION] + SERVICE_QUERY + T("network") == T("/test-talep-et?hizmet=network");
    assert FORM_PAGE + [QUESTION] + SERVICE_QUERY + T("protection") == T("/test-talep-et?hizmet=protection");
    assert FORM_PAGE + [QUESTION] + SERVICE_QUERY + T("unsure") == T("/test-talep-et?hizmet=unsure");
  }

  lemma {:induction false} QueryJoins(target: Text, q: nat)
    requires q < |target| && target[q] == QUESTION && QueryAllowed(target[..q], target[q + 1..])
    ensures target in FORM_ROUTE_TARGETS
  {
    var query := target[q + 1..];
    var service := query[|SERVICE_QUERY|..];
    ServiceTargets(service);
    assert query == SERVICE_QUERY + service;
    assert target == FORM_PAGE + [QUESTION] + SERVICE_QUERY + service;
  }

  /**
   * The gate passes nothing that the lanes do not know: a GET that passed is an open operation and a POST is the
   * mutation, so the class `unknown` is never reached behind the gate.
   */
  lemma {:induction false} PassedIsClassified(request: LayerRequest)
    requires Evaluate(request) == Pass
    ensures ClassOf(request.verb, request.target) == if request.verb == GET then Open else Mutation
  {
    var t := request.target;
    var q := Find(t, QUESTION);
    assert TargetFault(request.verb, t) == None;
    assert GET[0] != POST[0];
    if q < |t| {
      QueryJoins(t, q);
      assert PathOf(t) == FORM_PAGE;
      RoutesDiffer();
    } else {
      assert PathOf(t) == t;
      RoutesDiffer();
    }
  }

  lemma {:induction false} RoutesDiffer()
    ensures RouteOf(FORM_PAGE) == Some(GET) && FORM_PAGE != INQUIRIES && HOME != INQUIRIES && PRIVACY != INQUIRIES
            && THANKS != INQUIRIES
  {
    assert |HOME| == 1 && |PRIVACY| == 9 && |FORM_PAGE| == 14 && |THANKS| == 26 && |INQUIRIES| == 21;
  }

  // ------------------------------------------------------------------ the object

  /** decodeComponent's loop over a mutable index and output. */
  method DecodeComponent(raw: Text) returns (r: Option<Bytes>)
    ensures r == Component(raw)
  {
    var out: Bytes := [];
    var index := 0;
    assert Component(raw).Some? ==> [] + Component(raw).value == Component(raw).value;
    while index < |raw|
      invariant index <= |raw|
      invariant Component(raw) == if ComponentFrom(raw, index).None? then None
                else Some(out + ComponentFrom(raw, index).value)
    {
      ghost var rest := ComponentFrom(raw, index);
      if raw[index] == PERCENT {
        if !(index + 3 <= |raw| && HexDigit(raw[index + 1]) && HexDigit(raw[index + 2])) { return None; }
        var octet := 16 * HexValue(raw[index + 1]) + HexValue(raw[index + 2]);
        Pushed(out, octet, ComponentFrom(raw, index + 3));
        out := out + [octet];
        index := index + 3;
      } else {
        var octet := if raw[index] == '+' as int then 32 else raw[index];
        Pushed(out, octet, ComponentFrom(raw, index + 1));
        out := out + [octet];
        index := index + 1;
      }
    }
    assert out + [] == out;
    return Some(out);
  }

  lemma {:induction false} Pushed(out: Bytes, octet: int, rest: Option<Bytes>)
    ensures rest.Some? ==> out + ([octet] + rest.value) == out + [octet] + rest.value
  {
  }

  class ShapeGate {
    var evaluated: nat
    var grammarParses: nat

    constructor ()
      ensures evaluated == grammarParses == 0
    {
      evaluated, grammarParses := 0, 0;
    }

    method EvaluateRequest(request: LayerRequest) returns (verdict: Verdict)
      modifies this
      ensures verdict == Evaluate(request) && evaluated == old(evaluated) + 1
      ensures grammarParses == old(grammarParses) + (if EarlyVerdict(request).None? then 1 else 0)
    {
      evaluated := evaluated + 1;
      var early := EarlyVerdict(request);
      if early.Some? { return early.value; }
      verdict := ParseForm(request.body.value);
    }

    method ParseForm(body: Bytes) returns (verdict: Verdict)
      modifies this`grammarParses
      ensures verdict == FormVerdict(body) && grammarParses == old(grammarParses) + 1
    {
      grammarParses := grammarParses + 1;
      if !BodyChars(body) { return Reject(BodyEncodingInvalid); }
      if body == [] { return Pass; }
      var separators := 0;
      for index := 0 to |body|
        invariant separators == Separators(body, index)
      {
        if body[index] == AMP { separators := separators + 1; }
      }
      if separators + 1 > MAX_FORM_FIELDS { return Reject(FieldCountExceeded); }
      var seen: set<Text> := {};
      var pairs := Split(body);
      for i := 0 to |pairs|
        invariant PairsFault(pairs, 0, {}) == PairsFault(pairs, i, seen)
      {
        var bad := PairFault(pairs[i], seen);
        if bad.Some? { return Reject(bad.value); }
        seen := seen + {PairName(pairs[i])};
      }
      return Pass;
    }
  }
}
