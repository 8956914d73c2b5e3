/** The bookkeeping of the round route around the agent call: the default
    operation mode, the match on the agent's response, the decoration of a
    result with its token breakdown and session id, and the best-effort
    hand-off of the result's corpus ids to the audit ledger. */
module RoundRoutes {
  import opened Wrappers
  import opened PyValues
  import AuditPapers
  import UsageCallback

  const DEFAULT_OPERATION_MODE := "infer"
  const UNEXPECTED_RESPONSE_DETAIL := "Unexpected response type from agent"
  const TOKEN_BREAKDOWN_KEY := "token_breakdown_by_model"
  const SESSION_ID_KEY := "session_id"

  /** `operation_mode or "infer"`; `None` and `""` are falsy. */
  function OperationMode(requested: Option<string>): (mode: string)
    ensures requested.Some? && requested.value != "" ==> mode == requested.value
    ensures requested.None? || requested.value == "" ==> mode == DEFAULT_OPERATION_MODE
    ensures mode != ""
  {
    match requested
    case Some(m) => if m != "" then m else DEFAULT_OPERATION_MODE
    case None => DEFAULT_OPERATION_MODE
  }

  /** The route applies the default once and `run_round_with_cache` again;
      the second application changes nothing. */
  lemma OperationModeIdempotent(requested: Option<string>)
    ensures OperationMode(Some(OperationMode(requested))) == OperationMode(requested)
  {
  }

  /** What `run_agent` hands back. `data` is the payload already dumped to
      a JSON-mode dict. */
  datatype AgentResponse =
    | VoidResponse(errorMessage: string)
    | CompleteResponse(data: Dict)
    | PartialResponse(data: Dict)
    | OtherResponse

  /** The `HTTPException` the route raises. */
  datatype HttpError = HttpError(statusCode: int, detail: string)

  /** One model's counters as the dict stored in the result. */
  function UsageToValue(u: UsageCallback.TokenUsage): Value
  {
    VDict(map["total" := VInt(u.total), "prompt" := VInt(u.prompt),
              "completion" := VInt(u.completion), "reasoning" := VInt(u.reasoning)])
  }

  /** `cb.tokens_by_model` as the value stored under `token_breakdown_by_model`. */
  function UsageMapToValue(m: UsageCallback.UsageMap): Value
  {
    VDict(map k | k in m :: UsageToValue(m[k]))
  }

  /** Reads one model's counters back from a stored dict. */
  function UsageFromValue(v: Value): Option<UsageCallback.TokenUsage>
  {
    if v.VDict? && "total" in v.fields && "prompt" in v.fields
       && "completion" in v.fields && "reasoning" in v.fields
       && v.fields["total"].VInt? && v.fields["prompt"].VInt?
       && v.fields["completion"].VInt? && v.fields["reasoning"].VInt?
    then Some(UsageCallback.TokenUsage(v.fields["total"].i, v.fields["prompt"].i,
                                       v.fields["completion"].i, v.fields["reasoning"].i))
    else None
  }

  /** The stored breakdown loses nothing: each model's counters read back
      exactly, and the models are the same. */
  lemma UsageMapRoundTrip(m: UsageCallback.UsageMap)
    ensures UsageMapToValue(m).VDict? && UsageMapToValue(m).fields.Keys == m.Keys
    ensures forall k :: k in m ==> UsageFromValue(UsageMapToValue(m).fields[k]) == Some(m[k])
  {
  }

  /** The decorated result: the payload with the token breakdown and the
      session id set, overwriting any keys of the same name. */
  function Decorate(data: Dict, tokens: UsageCallback.UsageMap, sessionId: string): (d: Dict)
    ensures d.Keys == data.Keys + {TOKEN_BREAKDOWN_KEY, SESSION_ID_KEY}
    ensures d[TOKEN_BREAKDOWN_KEY] == UsageMapToValue(tokens)
    ensures d[SESSION_ID_KEY] == VStr(sessionId)
    ensures forall k :: k in data && k != TOKEN_BREAKDOWN_KEY && k != SESSION_ID_KEY ==> d[k] == data[k]
  {
    data[TOKEN_BREAKDOWN_KEY := UsageMapToValue(tokens)][SESSION_ID_KEY := VStr(sessionId)]
  }

  /** The `match response` of `run_round_with_cache`. */
  function HandleResponse(response: AgentResponse, tokens: UsageCallback.UsageMap, sessionId: string)
    : (r: Result<Dict, HttpError>)
    ensures response.VoidResponse? ==> r == Failure(HttpError(500, response.errorMessage))
    ensures response.OtherResponse? ==> r == Failure(HttpError(500, UNEXPECTED_RESPONSE_DETAIL))
    ensures response.CompleteResponse? || response.PartialResponse? ==>
      && r.Success?
      && r.value.Keys == response.data.Keys + {TOKEN_BREAKDOWN_KEY, SESSION_ID_KEY}
      && r.value[TOKEN_BREAKDOWN_KEY] == UsageMapToValue(tokens)
      && r.value[SESSION_ID_KEY] == VStr(sessionId)
      && forall k :: k in response.data && k != TOKEN_BREAKDOWN_KEY && k != SESSION_ID_KEY ==>
           r.value[k] == response.data[k]
  {
    match response
    case VoidResponse(msg) => Failure(HttpError(500, msg))
    case CompleteResponse(data) => Success(Decorate(data, tokens, sessionId))
    case PartialResponse(data) => Success(Decorate(data, tokens, sessionId))
    case OtherResponse => Failure(HttpError(500, UNEXPECTED_RESPONSE_DETAIL))
  }

  /** The `corpus_id` of each dict document with a truthy one, in order. */
  function CorpusIdsOf(docs: seq<Value>): (ids: seq<Value>)
    ensures |ids| <= |docs|
    ensures forall i :: 0 <= i < |ids| ==> Truthy(ids[i])
    decreases |docs|
  {
    if docs == [] then []
    else
      var d := docs[0];
      var rest := CorpusIdsOf(docs[1..]);
      if d.VDict? && Truthy(Get(d.fields, "corpus_id")) then [Get(d.fields, "corpus_id")] + rest else rest
  }

  /** The extraction is a filter-map: it distributes over concatenation,
      so it keeps document order and treats each document on its own. */
  lemma {:induction false} CorpusIdsOfAppend(a: seq<Value>, b: seq<Value>)
    ensures CorpusIdsOf(a + b) == CorpusIdsOf(a) + CorpusIdsOf(b)
    decreases |a|
  {
    if a != [] {
      CorpusIdsOfAppend(a[1..], b);
      assert (a + b)[1..] == a[1..] + b;
    } else {
      assert a + b == b;
    }
  }

  /** A single document contributes its corpus id exactly when it is a dict
      whose `corpus_id` is truthy. */
  lemma CorpusIdsOfOne(d: Value)
    ensures CorpusIdsOf([d]) == if d.VDict? && Truthy(Get(d.fields, "corpus_id")) then [Get(d.fields, "corpus_id")] else []
  {
    assert [d][1..] == [];
  }

  /** The documents list of a decorated result: `doc_collection` (or `{}`
      when absent or falsy), then its `documents` when it is a dict and
      `[]` otherwise. */
  function DocumentsOf(result: Dict): (docs: Value)
    ensures !Truthy(Get(result, "doc_collection")) ==> docs == VNone
    ensures Truthy(Get(result, "doc_collection")) && Get(result, "doc_collection").VDict? ==>
      docs == Get(Get(result, "doc_collection").fields, "documents")
    ensures Truthy(Get(result, "doc_collection")) && !Get(result, "doc_collection").VDict? ==>
      docs == VList([])
  {
    var dc := if Truthy(Get(result, "doc_collection")) then Get(result, "doc_collection") else VDict(map[]);
    if dc.VDict? then Get(dc.fields, "documents") else VList([])
  }

  /** The ids the route passes to `record_final`, or None when building
      them raises (the exception is swallowed and the ledger is not
      called). */
  function FinalCorpusIds(result: Dict): (r: Option<seq<AuditPapers.RawId>>)
    ensures r.Some? ==> Iterate(DocumentsOf(result)).Some?
    ensures r.Some? ==> forall i :: 0 <= i < |r.value| ==> AuditPapers.Truthy(r.value[i])
    ensures r.Some? ==> |r.value| == |CorpusIdsOf(Iterate(DocumentsOf(result)).value)|
    ensures r.Some? ==> forall i :: 0 <= i < |r.value| ==>
      CorpusIdsOf(Iterate(DocumentsOf(result)).value)[i].VStr? &&
      r.value[i] == Some(CorpusIdsOf(Iterate(DocumentsOf(result)).value)[i].s)
    ensures r.None? <==>
      (Iterate(DocumentsOf(result)).None? || !AllStrings(CorpusIdsOf(Iterate(DocumentsOf(result)).value)))
  {
    match Iterate(DocumentsOf(result))
    case None => None
    case Some(docs) => AsRawIds(CorpusIdsOf(docs))
  }

  predicate AllStrings(vs: seq<Value>)
  {
    forall i :: 0 <= i < |vs| ==> vs[i].VStr?
  }

  /** The ids as strings for the ledger; None when one is not a string. */
  function AsRawIds(vs: seq<Value>): (r: Option<seq<AuditPapers.RawId>>)
    ensures r.Some? <==> forall i :: 0 <= i < |vs| ==> vs[i].VStr?
    ensures r.Some? ==> |r.value| == |vs| && forall i :: 0 <= i < |vs| ==> r.value[i] == Some(vs[i].s)
    decreases |vs|
  {
    if vs == [] then Some([])
    else if !vs[0].VStr? then None
    else
      match AsRawIds(vs[1..])
      case None => None
      case Some(rest) => Some([Some(vs[0].s)] + rest)
  }

  /** Without a `documents` entry (including when `doc_collection` is
      absent or falsy, so that `{}` stands in for it) `docs` is None and
      iterating it raises: the ledger is not called at all. */
  lemma MissingDocumentsSkipsLedger(result: Dict)
    requires !Truthy(Get(result, "doc_collection"))
          || (Get(result, "doc_collection").VDict? && "documents" !in Get(result, "doc_collection").fields)
    ensures FinalCorpusIds(result) == None
  {
  }

  /** A truthy `doc_collection` that is not a dict yields no documents, but
      the ledger is still called, with no ids, and rewrites its report. */
  lemma NonDictCollectionRecordsNothing(result: Dict)
    requires Truthy(Get(result, "doc_collection")) && !Get(result, "doc_collection").VDict?
    ensures FinalCorpusIds(result) == Some([])
  {
  }

  /** Decoration does not disturb the documents the ids are read from. */
  lemma DecorationKeepsDocuments(data: Dict, tokens: UsageCallback.UsageMap, sessionId: string)
    ensures FinalCorpusIds(Decorate(data, tokens, sessionId)) == FinalCorpusIds(data)
  {
    assert Get(Decorate(data, tokens, sessionId), "doc_collection") == Get(data, "doc_collection");
  }

  /** The outcome of the route once the agent has answered: the response or
      error, the ledger afterwards, and the report file written, if any. */
  datatype RoundStep = RoundStep(
    response: Result<Dict, HttpError>,
    ledger: AuditPapers.Ledger,
    written: Option<AuditPapers.Written>)

  /** `run_round_with_cache` after `run_agent` returns: `usage` is what the
      round's handler collected, `sessionId` the thread id generated for the
      round, `writeSucceeds` the outcome of the report write. */
  function FinishRound(
    ledger: AuditPapers.Ledger, response: AgentResponse, usage: seq<UsageCallback.Generation>,
    sessionId: string, env: AuditPapers.AuditEnv, writeSucceeds: bool): (r: RoundStep)
    ensures r.response == HandleResponse(response, UsageCallback.Collect(usage), sessionId)
    ensures r.response.Failure? ==> r.ledger == ledger && r.written.None?
    ensures r.response.Success? && FinalCorpusIds(r.response.value).None? ==>
      r.ledger == ledger && r.written.None?
    ensures r.response.Success? && FinalCorpusIds(r.response.value).Some? ==>
      var step := AuditPapers.RecordFinal(ledger, FinalCorpusIds(r.response.value).value, env, writeSucceeds);
      r.ledger == step.ledger && r.written == step.written
  {
    var tokens := UsageCallback.Collect(usage);
    match HandleResponse(response, tokens, sessionId)
    case Failure(e) => RoundStep(Failure(e), ledger, None)
    case Success(result) =>
      match FinalCorpusIds(result)
      case None => RoundStep(Success(result), ledger, None)
      case Some(ids) =>
        var step := AuditPapers.RecordFinal(ledger, ids, env, writeSucceeds);
        RoundStep(Success(result), step.ledger, step.written)
  }

  /** Complete and partial responses are handled identically. */
  lemma CompleteAndPartialAgree(
    ledger: AuditPapers.Ledger, data: Dict, usage: seq<UsageCallback.Generation>,
    sessionId: string, env: AuditPapers.AuditEnv, writeSucceeds: bool)
    ensures FinishRound(ledger, CompleteResponse(data), usage, sessionId, env, writeSucceeds)
         == FinishRound(ledger, PartialResponse(data), usage, sessionId, env, writeSucceeds)
  {
  }

  /** The audit step never changes what the caller gets back: the response
      is the same whatever the ledger's state, the ids found or the fate of
      the report write. */
  lemma AuditIsInvisibleToCaller(
    l1: AuditPapers.Ledger, l2: AuditPapers.Ledger, response: AgentResponse,
    usage: seq<UsageCallback.Generation>, sessionId: string,
    env1: AuditPapers.AuditEnv, env2: AuditPapers.AuditEnv, w1: bool, w2: bool)
    ensures FinishRound(l1, response, usage, sessionId, env1, w1).response
         == FinishRound(l2, response, usage, sessionId, env2, w2).response
  {
  }

  /** A successful round records exactly its result's corpus ids as final:
      the ledger's final set grows by the ids of the dict documents with a
      truthy string `corpus_id`, and nothing else changes. */
  lemma SuccessfulRoundRecordsFinalIds(
    ledger: AuditPapers.Ledger, data: Dict, usage: seq<UsageCallback.Generation>,
    sessionId: string, env: AuditPapers.AuditEnv, writeSucceeds: bool, x: string)
    requires ledger.enabled
    requires FinalCorpusIds(data).Some?
    ensures
      var r := FinishRound(ledger, CompleteResponse(data), usage, sessionId, env, writeSucceeds);
      && r.ledger.retrieved == ledger.retrieved
      && (x in r.ledger.final <==> x in ledger.final || (x != "" && Some(x) in FinalCorpusIds(data).value))
  {
    var tokens := UsageCallback.Collect(usage);
    DecorationKeepsDocuments(data, tokens, sessionId);
    AuditPapers.TruthyIdsMembership(FinalCorpusIds(data).value, x);
  }
}
