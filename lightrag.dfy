/**
 * The non-network half of `LightRAGClient`: base-URL normalisation, the
 * request body that `query` builds, the mapping from what the transport
 * reports to a result `status`, and `_parse_result`, which turns the
 * server's answer into citations.  The HTTP round trip itself is an
 * `Outcome` handed in by the caller.
 */
module LightRag {
  import opened Text
  import opened Citations

  /** A JSON value; an object keeps its keys in insertion order. */
  datatype Json =
    | JNull
    | JBool(b: bool)
    | JInt(i: int)
    | JStr(s: string)
    | JList(items: seq<Json>)
    | JObject(entries: seq<(string, Json)>)

  /** The optional keyword arguments of `query`; `JNull` is Python's `None`,
      the default of each. */
  datatype QueryOptions = QueryOptions(
    responseType: Json, topK: Json, chunkTopK: Json, enableRerank: Json,
    hlKeywords: Json, llKeywords: Json, onlyNeedContext: Json, onlyNeedPrompt: Json,
    maxTotalTokens: Json, maxEntityTokens: Json, maxRelationTokens: Json,
    conversationHistory: Json, userPrompt: Json, stream: Json)

  /** The POST that `query` would send. */
  datatype Request = Request(url: string, body: seq<(string, Json)>, params: seq<(string, string)>, timeout: int)

  /** The server's answer as `_parse_result` reads it; `None` is a missing
      key. */
  datatype Answer = Answer(response: Option<Json>, references: Option<seq<Reference>>)

  /** The body of an HTTP response: `response.json()` either raises (with
      the given message) or yields an object whose `response`,
      `references` and `detail` keys are read. */
  datatype Body = NotJson(decodeError: string) | Object(answer: Answer, detail: Option<Json>)

  /** What the transport reports for the request. */
  datatype Outcome =
    | Answered(code: nat, body: Body)   // an HTTP status code and its body
    | TimedOut                          // requests.exceptions.Timeout
    | ConnectionFailed                  // requests.exceptions.ConnectionError
    | Raised(message: string)           // any other exception, with str(e)

  /** The dict `query` returns: the parsed answer (`status` "success") or
      an `error` with its `status`. */
  datatype QueryResult =
    | Parsed(response: Json, references: seq<Reference>, sources: seq<Citation>, raw: Answer)
    | Failed(status: string, error: Json)
  {
    function Status(): string {
      if Parsed? then "success" else status
    }
  }

  const ShortQueryError := "Query text must be at least 3 characters long"
  const TimeoutError := "Request timeout - query took too long to process"
  const ConnectionError :=
    "Cannot connect to LightRAG server. Please ensure Docker container is running (docker-compose up -d)."

  // ---------------------------------------------------------------------
  // Specification functions

  /** `base_url.rstrip("/")`. */
  function NormalizeBaseUrl(baseUrl: string): (r: string)
    ensures r == [] || r[|r| - 1] != '/'
    ensures |r| <= |baseUrl| && baseUrl == r + baseUrl[|r|..]
    ensures forall i :: |r| <= i < |baseUrl| ==> baseUrl[i] == '/'
  {
    RStripChar(baseUrl, '/')
  }

  /** The `optional_params` dict, in its insertion order. */
  function OptionalParams(o: QueryOptions): seq<(string, Json)> {
    [("response_type", o.responseType), ("top_k", o.topK), ("chunk_top_k", o.chunkTopK),
     ("enable_rerank", o.enableRerank), ("hl_keywords", o.hlKeywords), ("ll_keywords", o.llKeywords),
     ("only_need_context", o.onlyNeedContext), ("only_need_prompt", o.onlyNeedPrompt),
     ("max_total_tokens", o.maxTotalTokens), ("max_entity_tokens", o.maxEntityTokens),
     ("max_relation_tokens", o.maxRelationTokens), ("conversation_history", o.conversationHistory),
     ("user_prompt", o.userPrompt), ("stream", o.stream)]
  }

  /** `value is not None and value != []`: `False`, `0` and `""` pass. */
  predicate Keep(v: Json) {
    v != JNull && v != JList([])
  }

  /** The entries of `ps` that pass `Keep`, in order. */
  function Kept(ps: seq<(string, Json)>): (r: seq<(string, Json)>)
    ensures |r| <= |ps|
  {
    if ps == [] then []
    else
      var n := |ps| - 1;
      Kept(ps[..n]) + if Keep(ps[n].1) then [ps[n]] else []
  }

  function Required(query: string, mode: string, includeReferences: bool): seq<(string, Json)> {
    [("query", JStr(query)), ("mode", JStr(mode)), ("include_references", JBool(includeReferences))]
  }

  /** The `request_params` dict sent as JSON. */
  function RequestBody(query: string, mode: string, includeReferences: bool, o: QueryOptions): seq<(string, Json)> {
    Required(query, mode, includeReferences) + Kept(OptionalParams(o))
  }

  /** `url_params`: the key only when `api_key` is truthy. */
  function UrlParams(apiKey: Option<string>): (r: seq<(string, string)>)
    ensures r != [] <==> apiKey.Some? && apiKey.value != ""
  {
    if apiKey.Some? && apiKey.value != "" then [("api_key_header_value", apiKey.value)] else []
  }

  predicate DistinctKeys<V>(entries: seq<(string, V)>) {
    forall i, j :: 0 <= i < j < |entries| ==> entries[i].0 != entries[j].0
  }

  /** `_parse_result`. */
  function ParseAnswer(a: Answer): (r: QueryResult)
    ensures r.Parsed? && r.Status() == "success"
    ensures |r.sources| <= |r.references|
  {
    var refs := if a.references.Some? then a.references.value else [];
    Parsed(if a.response.Some? then a.response.value else JStr(""), refs, Sources(refs), a)
  }

  /** `response.json().get("detail", default)`, or the decoding error. */
  function DetailOr(body: Body, status: string, default: string): QueryResult {
    match body
    case NotJson(e) => Failed("error", JStr(e))
    case Object(_, detail) => Failed(status, if detail.Some? then detail.value else JStr(default))
  }

  /** Lines 125-172: what `query` returns once the request was sent. */
  function FromOutcome(outcome: Outcome): (r: QueryResult)
    ensures r.Status() in {"success", "bad_request", "server_error", "error", "timeout", "connection_error"}
  {
    match outcome
    case TimedOut => Failed("timeout", JStr(TimeoutError))
    case ConnectionFailed => Failed("connection_error", JStr(ConnectionError))
    case Raised(e) => Failed("error", JStr(e))
    case Answered(code, body) =>
      if code == 200 then
        (match body
         case NotJson(e) => Failed("error", JStr(e))
         case Object(a, _) => ParseAnswer(a))
      else if code == 400 || code == 422 then DetailOr(body, "bad_request", "Bad request")
      else if code >= 500 then DetailOr(body, "server_error", "Internal server error")
      else Failed("error", JStr("API returned status " + NatToDecimal(code)))
  }

  /** `query` as a whole: the result, and the request it sends (none for a
      query shorter than three characters). */
  function QuerySpec(baseUrl: string, apiKey: Option<string>, query: string, mode: string,
                     includeReferences: bool, o: QueryOptions, timeout: int, outcome: Outcome): (QueryResult, Option<Request>)
  {
    if |query| < 3 then (Failed("bad_request", JStr(ShortQueryError)), None)
    else
      (FromOutcome(outcome),
       Some(Request(baseUrl + "/query", RequestBody(query, mode, includeReferences, o), UrlParams(apiKey), timeout)))
  }

  // ---------------------------------------------------------------------
  // The client

  class LightRagClient {
    const baseUrl: string
    const apiKey: Option<string>

    /** Line 24: trailing slashes are dropped from the base URL. */
    constructor(baseUrl: string, apiKey: Option<string>)
      ensures this.baseUrl == NormalizeBaseUrl(baseUrl) && this.apiKey == apiKey
    {
      this.baseUrl := RStripChar(baseUrl, '/');
      this.apiKey := apiKey;
    }

    /** Lines 110-112: the loop over `optional_params`, adding each value
        that is neither `None` nor `[]` under its key, in order. */
    method AddOptional(start: seq<(string, Json)>, optional: seq<(string, Json)>)
      returns (body: seq<(string, Json)>)
      ensures body == start + Kept(optional)
    {
      body := start;
      var i := 0;
      while i < |optional|
        invariant 0 <= i <= |optional|
        invariant body == start + Kept(optional[..i])
      {
        var (key, value) := optional[i];
        assert optional[..i + 1][..i] == optional[..i];
        if value != JNull && value != JList([]) {
          body := body + [(key, value)];
        }
        i := i + 1;
      }
      assert optional[..i] == optional;
    }

    /** Lines 87-112: the required keys, then the optional ones that are
        kept. */
    method BuildRequestBody(query: string, mode: string, includeReferences: bool, o: QueryOptions)
      returns (body: seq<(string, Json)>)
      ensures body == RequestBody(query, mode, includeReferences, o)
    {
      body := AddOptional(Required(query, mode, includeReferences), OptionalParams(o));
    }

    /** Lines 180-204: the answer with one source per reference that yields
        a citation, appended in reference order. */
    method ParseResult(a: Answer) returns (r: QueryResult)
      ensures r == ParseAnswer(a)
    {
      var refs := if a.references.Some? then a.references.value else [];
      var sources: seq<Citation> := [];
      var i := 0;
      while i < |refs|
        invariant 0 <= i <= |refs|
        invariant sources == Sources(refs[..i])
      {
        assert refs[..i + 1][..i] == refs[..i];
        var info := ExtractSourceInfo(refs[i]);
        if info.Some? {
          sources := sources + [info.value];
        }
        i := i + 1;
      }
      assert refs[..i] == refs;
      r := Parsed(if a.response.Some? then a.response.value else JStr(""), refs, sources, a);
    }

    /** Lines 79-172: `query`, with the HTTP exchange replaced by
        `outcome`. */
    method Query(query: string, mode: string, includeReferences: bool, o: QueryOptions, timeout: int, outcome: Outcome)
      returns (r: QueryResult, sent: Option<Request>)
      ensures (r, sent) == QuerySpec(baseUrl, apiKey, query, mode, includeReferences, o, timeout, outcome)
    {
      if |query| < 3 {
        return Failed("bad_request", JStr(ShortQueryError)), None;
      }
      var body := BuildRequestBody(query, mode, includeReferences, o);
      var params: seq<(string, string)> := [];
      if apiKey.Some? && apiKey.value != "" {
        params := [("api_key_header_value", apiKey.value)];
      }
      sent := Some(Request(baseUrl + "/query", body, params, timeout));
      match outcome {
        case TimedOut =>
          r := Failed("timeout", JStr(TimeoutError));
        case ConnectionFailed =>
          r := Failed("connection_error", JStr(ConnectionError));
        case Raised(e) =>
          r := Failed("error", JStr(e));
        case Answered(code, response) =>
          if code == 200 {
            match response {
              case NotJson(e) =>
                r := Failed("error", JStr(e));
              case Object(a, _) =>
                r := ParseResult(a);
            }
          } else if code == 400 || code == 422 {
            r := DetailOr(response, "bad_request", "Bad request");
          } else if code >= 500 {
            r := DetailOr(response, "server_error", "Internal server error");
          } else {
            r := Failed("error", JStr("API returned status " + NatToDecimal(code)));
          }
      }
    }
  }

  // ---------------------------------------------------------------------
  // Properties

  /** Lines 79-83: a query shorter than three characters is refused as a
      bad request before any request is built, and only such a query is. */
  lemma {:induction false} ShortQueryRefused(baseUrl: string, apiKey: Option<string>, query: string, mode: string,
                          includeReferences: bool, o: QueryOptions, timeout: int, outcome: Outcome)
    ensures var (r, sent) := QuerySpec(baseUrl, apiKey, query, mode, includeReferences, o, timeout, outcome);
      (sent.None? <==> |query| < 3)
      && (|query| < 3 ==> r == Failed("bad_request", JStr(ShortQueryError)))
      && (|query| >= 3 ==> sent.value.url == baseUrl + "/query" && r == FromOutcome(outcome))
  {
  }

  /** An entry survives the filter exactly when it is there and kept. */
  lemma {:induction false} KeptMembers(ps: seq<(string, Json)>)
    ensures forall e :: e in Kept(ps) <==> e in ps && Keep(e.1)
  {
    if ps != [] {
      var n := |ps| - 1;
      KeptMembers(ps[..n]);
      assert ps == ps[..n] + [ps[n]];
    }
  }

  /** Filtering a dict never repeats a key. */
  lemma {:induction false} KeptKeysDistinct(ps: seq<(string, Json)>)
    requires DistinctKeys(ps)
    ensures DistinctKeys(Kept(ps))
  {
    if ps != [] {
      var n := |ps| - 1;
      var front := Kept(ps[..n]);
      KeptKeysDistinct(ps[..n]);
      KeptMembers(ps[..n]);
      if Keep(ps[n].1) {
        forall i | 0 <= i < |front| ensures front[i].0 != ps[n].0 {
          assert front[i] in ps[..n];
          var j :| 0 <= j < n && ps[..n][j] == front[i];
          assert ps[j] == front[i];
        }
      }
    }
  }

  lemma {:induction false} OptionalKeysDistinct(o: QueryOptions)
    ensures DistinctKeys(OptionalParams(o))
    ensures forall e :: e in OptionalParams(o) ==> e.0 !in ["query", "mode", "include_references"]
  {
  }

  /** Lines 87-112: the body starts with the three required keys; an
      optional key is present exactly when its value is neither `None` nor
      `[]`, and then with that value; no key appears twice. */
  lemma {:induction false} RequestBodyContents(query: string, mode: string, includeReferences: bool, o: QueryOptions)
    ensures var body := RequestBody(query, mode, includeReferences, o);
      && body[..3] == Required(query, mode, includeReferences)
      && (forall e :: e in body[3..] <==> e in OptionalParams(o) && Keep(e.1))
      && DistinctKeys(body)
  {
    var req, opt := Required(query, mode, includeReferences), OptionalParams(o);
    var kept := Kept(opt);
    var body := req + kept;
    assert body[..3] == req && body[3..] == kept;
    KeptMembers(opt);
    OptionalKeysDistinct(o);
    KeptKeysDistinct(opt);
    forall i, j | 0 <= i < j < |body| ensures body[i].0 != body[j].0 {
      if j >= 3 {
        assert body[j] == kept[j - 3];
        if i < 3 {
          assert body[i].0 in ["query", "mode", "include_references"];
          assert kept[j - 3] in opt;
        } else {
          assert body[i] == kept[i - 3];
        }
      }
    }
  }

  /** Stripping the trailing slashes twice strips nothing more. */
  lemma {:induction false} NormalizeIdempotent(baseUrl: string)
    ensures NormalizeBaseUrl(NormalizeBaseUrl(baseUrl)) == NormalizeBaseUrl(baseUrl)
  {
    var r := NormalizeBaseUrl(baseUrl);
    if r != [] {
      assert r[|r| - 1] != '/';
    }
  }

  /** Line 119: the endpoint is the normalised base followed by a single
      `/query`, whatever slashes the configured base URL ended with. */
  lemma {:induction false} QueryUrlOneSlash(baseUrl: string, slashes: nat)
    ensures NormalizeBaseUrl(baseUrl + seq(slashes, _ => '/')) == NormalizeBaseUrl(baseUrl)
    decreases slashes
  {
    var tail := seq(slashes, _ => '/');
    if slashes > 0 {
      var shorter := seq(slashes - 1, _ => '/');
      assert baseUrl + tail == (baseUrl + shorter) + ['/'];
      assert (baseUrl + tail)[..|baseUrl + tail| - 1] == baseUrl + shorter;
      QueryUrlOneSlash(baseUrl, slashes - 1);
    } else {
      assert baseUrl + tail == baseUrl;
    }
  }

  /** Lines 125-172: each status names exactly one kind of outcome, so a
      timeout and a refused connection are told apart, and a status code
      that is neither 200, 400, 422 nor at least 500 is a plain error. */
  lemma {:induction false} StatusOfOutcome(outcome: Outcome)
    ensures FromOutcome(outcome).Status() == "timeout" <==> outcome.TimedOut?
    ensures FromOutcome(outcome).Status() == "connection_error" <==> outcome.ConnectionFailed?
    ensures FromOutcome(outcome).Status() == "success" <==>
      outcome.Answered? && outcome.code == 200 && outcome.body.Object?
    ensures FromOutcome(outcome).Status() == "bad_request" <==>
      outcome.Answered? && outcome.code in {400, 422} && outcome.body.Object?
    ensures FromOutcome(outcome).Status() == "server_error" <==>
      outcome.Answered? && outcome.code >= 500 && outcome.body.Object?
    ensures outcome.Answered? && outcome.code !in {200, 400, 422} && outcome.code < 500 ==>
      FromOutcome(outcome) == Failed("error", JStr("API returned status " + NatToDecimal(outcome.code)))
  {
  }

  /** Lines 142-156: a bad request or server error carries the `detail`
      the server sent, or the fixed default when there is none. */
  lemma {:induction false} ErrorDetail(code: nat, a: Answer, detail: Option<Json>)
    requires code in {400, 422} || code >= 500
    ensures var r := FromOutcome(Answered(code, Object(a, detail)));
      r.Failed? && r.error == (if detail.Some? then detail.value
                               else if code < 500 then JStr("Bad request") else JStr("Internal server error"))
  {
  }

  /** Lines 190-204: a successful answer lists one source per reference
      with a non-empty path, in reference order. */
  lemma {:induction false} AnswerSources(a: Answer)
    ensures var r := ParseAnswer(a);
      |r.sources| == |PathIndices(r.references)|
      && forall k :: 0 <= k < |r.sources| ==> Some(r.sources[k]) == ExtractSourceInfo(r.references[PathIndices(r.references)[k]])
  {
    var refs := if a.references.Some? then a.references.value else [];
    SourcesPerReference(refs);
  }

  lemma {:induction false} KeptNone(ps: seq<(string, Json)>)
    requires forall i :: 0 <= i < |ps| ==> !Keep(ps[i].1)
    ensures Kept(ps) == []
  {
    if ps != [] {
      KeptNone(ps[..|ps| - 1]);
    }
  }

  /** With every optional argument left at `None` (or given as `[]`) the
      body is the three required keys alone. */
  lemma {:induction false} DefaultBody(query: string, mode: string, includeReferences: bool, o: QueryOptions)
    requires forall i :: 0 <= i < |OptionalParams(o)| ==> !Keep(OptionalParams(o)[i].1)
    ensures RequestBody(query, mode, includeReferences, o) == Required(query, mode, includeReferences)
  {
    KeptNone(OptionalParams(o));
  }
}
