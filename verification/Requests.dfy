/** The request a layer may see (defense/core/types.ts) and the closed operation classes (defense/core/lanes.ts). */
module Requests {
  import opened Base
  import Forms

  datatype BodyStatus = NoBody | Complete | DeclaredOversize | Overflow | TimedOut | Aborted

  datatype Header = Header(name: Text, value: Text)

  datatype LayerRequest = LayerRequest(
    verb: Text, target: Text, headers: seq<Header>, bodyStatus: BodyStatus, body: Option<Bytes>)

  datatype OperationClass = Open | Mutation | Unknown

  const GET := T("GET")
  const POST := T("POST")
  const MUTATION_TARGET := T("/api/public-inquiries")
  const FORM_ROUTE_TARGETS: set<Text> := {
    T("/test-talep-et"), T("/test-talep-et?hizmet=web"), T("/test-talep-et?hizmet=network"),
    T("/test-talep-et?hizmet=protection"), T("/test-talep-et?hizmet=unsure")}
  const OPEN_TARGETS: set<Text> := {T("/"), T("/gizlilik"), T("/test-talep-et/tesekkurler")} + FORM_ROUTE_TARGETS

  function ClassOf(verb: Text, target: Text): OperationClass
  {
    if verb == GET && target in OPEN_TARGETS then Open
    else if verb == POST && target == MUTATION_TARGET then Mutation
    else Unknown
  }

  /** The one submission token of a complete body, or nothing. */
  function TokenOf(request: LayerRequest): Option<Text>
  {
    if request.verb != POST || request.bodyStatus != Complete || request.body.None? then None
    else Forms.SubmissionToken(request.body.value)
  }

  method ExtractSubmissionToken(request: LayerRequest) returns (token: Option<Text>)
    ensures token == TokenOf(request)
  {
    if request.verb != POST || request.bodyStatus != Complete || request.body.None? { return None; }
    Forms.TokenField();
    token := Forms.ScanToken(Forms.TOKEN_FIELD, request.body.value);
  }
}
