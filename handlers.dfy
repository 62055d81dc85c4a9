/** The function app's triggers: the HTTP endpoints, the MCP tool and the
    startup timer, each over the one shared `MedicalDataProcessor`. A
    request's decoded JSON body (or the error decoding it raised) is an
    input; responses carry their status code and the fields of their JSON
    body, without timestamps. */
module Handlers {
  import opened Wrappers
  import opened PyJson
  import Text
  import SqlText
  import Upload
  import Summary
  import opened Processor

  const StatusOk := 200
  const StatusBadRequest := 400
  const StatusServerError := 500

  const MissingQueryField := "Missing 'query' field in request body"
  const EmptyQuery := "Query cannot be empty"
  const MissingRecordsField := "Missing 'records' field in request body"
  const RecordsNotArray := "'records' must be an array"
  const InternalErrorPrefix := "Internal server error: "

  const McpEmptyQuery := "Query parameter is required and cannot be empty"
  const McpErrorPrefix := "Error processing query: "

  const DefaultLimit := 10
  const MinLimit := 1
  const MaxLimit := 100

  const ServiceName := "medical-data-text-to-sql"

  const Healthy := "healthy"
  const Degraded := "degraded"
  const NotInitialized := "not initialized"
  const UnhealthyPrefix := "unhealthy: "

  /** The JSON body of a response. */
  datatype Body =
    | ErrorBody(error: string)                     // {"error": ...}
    | FailureBody(error: string, success: bool)    // {"error": ..., "success": false, "timestamp": ...}
    | QueryBody(result: QueryResult)
    | SampleBody(sampleData: seq<Json>, count: nat, success: bool)
    | UploadBody(summary: Upload.UploadSummary)
    | HealthBody(status: string, cosmosDb: string, azureOpenAi: string, service: string)

  datatype HttpResponse = HttpResponse(statusCode: int, body: Body)

  function BadRequest(error: string): HttpResponse {
    HttpResponse(StatusBadRequest, ErrorBody(error))
  }

  /** The response of a handler's outer `except`. */
  function InternalError(error: string): HttpResponse {
    HttpResponse(StatusServerError, FailureBody(InternalErrorPrefix + error, false))
  }

  /** A request either answered before the processor is called, or let through with what it carries. */
  datatype Admission<T> = Reject(response: HttpResponse) | Admit(value: T)

  // ---------------------------------------------------------------- text-to-sql

  /** The checks `http_text_to_sql` makes before calling the processor: a
      body, a `query` key, and a query that is not blank once stripped. A
      check that itself raises (`in` on a number, indexing a list, `strip`
      on a non-string) ends in the handler's 500. */
  function AdmitTextToSql(body: Result<Json>): (r: Admission<string>)
    ensures r.Admit? ==> r.value != [] && !Text.IsSpace(r.value[0]) && !Text.IsSpace(r.value[|r.value| - 1])
    ensures r.Reject? ==> r.response.statusCode == StatusBadRequest || r.response.statusCode == StatusServerError
  {
    match body
    case Err(e) => Reject(InternalError(e))
    case Ok(b) =>
      if !Truthy(b) then Reject(BadRequest(MissingQueryField))
      else
        match Contains(b, "query")
        case Err(e) => Reject(InternalError(e))
        case Ok(found) =>
          if !found then Reject(BadRequest(MissingQueryField))
          else
            match GetItem(b, "query")
            case Err(e) => Reject(InternalError(e))
            case Ok(query) =>
              if !Truthy(query) then Reject(BadRequest(EmptyQuery))
              else
                match StripText(query)
                case Err(e) => Reject(InternalError(e))
                case Ok(stripped) => if stripped == [] then Reject(BadRequest(EmptyQuery)) else Admit(stripped)
  }

  /** The query of a text-to-SQL request body. */
  predicate HasQueryText(body: Result<Json>) {
    body.Ok? && body.value.JObject? && Member(body.value.members, "query").Some? &&
    Member(body.value.members, "query").value.JStr?
  }

  /** A request is let through exactly when its body is a dict whose `query`
      is a string that is not blank, and the query passed on is that string stripped. */
  lemma TextToSqlAdmitted(body: Result<Json>)
    ensures AdmitTextToSql(body).Admit? <==>
      HasQueryText(body) && Text.Strip(Member(body.value.members, "query").value.s) != []
    ensures AdmitTextToSql(body).Admit? ==>
      AdmitTextToSql(body).value == Text.Strip(Member(body.value.members, "query").value.s)
  {
    match body
    case Err(_) =>
    case Ok(b) =>
      if b.JObject? {
        DictQueryAdmitted(b.members);
        var q := Member(b.members, "query");
        if q.Some? && q.value.JStr? {
          assert HasQueryText(body);
        } else {
          assert !HasQueryText(body);
          assert AdmitTextToSql(body).Reject?;
        }
      } else {
        NonDictRejected(b);
      }
  }

  /** Within a dict body, admission depends only on the `query` member. */
  lemma DictQueryAdmitted(ms: seq<(string, Json)>)
    ensures AdmitTextToSql(Ok(JObject(ms))) ==
      match Member(ms, "query")
      case None => Reject(BadRequest(MissingQueryField))
      case Some(q) =>
        if !Truthy(q) then Reject(BadRequest(EmptyQuery))
        else if !q.JStr? then Reject(InternalError(NoAttribute(q, "strip")))
        else if Text.Strip(q.s) == [] then Reject(BadRequest(EmptyQuery))
        else Admit(Text.Strip(q.s))
  {
    var b := JObject(ms);
    if ms == [] {
      assert !Truthy(b);
    } else {
      assert Truthy(b);
      assert Contains(b, "query") == Ok(HasMember(ms, "query"));
    }
  }

  /** A body that is not a dict is never let through. */
  lemma NonDictRejected(b: Json)
    requires !b.JObject?
    ensures AdmitTextToSql(Ok(b)).Reject?
  {
    if Truthy(b) && Contains(b, "query") == Ok(true) {
      assert GetItem(b, "query").Err?;
    }
  }

  /** A decoded body that is falsy (null, false, 0, "", [] or {}) or a dict
      without `query` gets a 400 naming the field. A body that does not
      decode takes the `Err` branch of `AdmitTextToSql`, a 500. */
  lemma MissingQueryRejected(body: Json)
    requires !Truthy(body) || (body.JObject? && !HasMember(body.members, "query"))
    ensures AdmitTextToSql(Ok(body)) == Reject(HttpResponse(StatusBadRequest, ErrorBody(MissingQueryField)))
  {
  }

  /** A query that is empty or only whitespace gets a 400. */
  lemma BlankQueryRejected(members: seq<(string, Json)>, query: string)
    requires Member(members, "query") == Some(JStr(query))
    requires Text.Strip(query) == []
    ensures AdmitTextToSql(Ok(JObject(members))) == Reject(HttpResponse(StatusBadRequest, ErrorBody(EmptyQuery)))
  {
    DictQueryAdmitted(members);
  }

  /** `http_text_to_sql`: a rejected request never reaches the processor; an
      admitted one gets the processor's result, with 200 exactly when it
      succeeded and 500 otherwise. */
  method HttpTextToSql(p: MedicalDataProcessor, body: Result<Json>, cloud: Cloud, reply: Result<string>, answer: Result<seq<Json>>)
    returns (resp: HttpResponse)
    requires p.Valid()
    modifies p`container, p`openAiClient, p`initialized, p`chatRequests, p`storeQueries
    ensures p.Valid()
    ensures AdmitTextToSql(body).Reject? ==> resp == AdmitTextToSql(body).response && unchanged(p)
    ensures AdmitTextToSql(body).Admit? ==>
      var query := AdmitTextToSql(body).value;
      var result := ExpectedResult(query, old(p.ReadyWith(cloud)), cloud, reply, answer);
      && resp.body == QueryBody(result)
      && resp.statusCode == (if result.success then StatusOk else StatusServerError)
      && (p.initialized <==> old(p.ReadyWith(cloud)))
      && p.container == ContainerAfter(old(p.initialized), old(p.container), cloud)
      && p.openAiClient == OpenAiAfter(old(p.initialized), old(p.openAiClient), cloud)
      && p.chatRequests == old(p.chatRequests) +
           (if old(p.ReadyWith(cloud)) then [ChatRequest(ModelName(cloud.env), query, MaxTokens)] else [])
      && p.storeQueries == old(p.storeQueries) +
           (if old(p.ReadyWith(cloud)) && reply.Ok? && SqlText.IsSelectQuery(SqlText.CleanSql(reply.value))
            then [SqlText.CleanSql(reply.value)] else [])
  {
    match AdmitTextToSql(body)
    case Reject(response) =>
      resp := response;
    case Admit(query) =>
      var result := p.ProcessNaturalLanguageQuery(query, cloud, reply, answer);
      resp := HttpResponse(if result.success then StatusOk else StatusServerError, QueryBody(result));
  }

  // ---------------------------------------------------------------- MCP tool

  /** What the MCP tool returns: an error, the empty-query refusal, or the
      processor's result with a summary added when it succeeded. */
  datatype McpReply =
    | McpFailed(error: string, success: bool)      // {"error": ..., "success": false, "timestamp": ...}
    | McpRejected(error: string, success: bool)    // {"error": ..., "success": false}
    | McpAnswer(result: QueryResult, summary: Option<string>)

  /** `args.get("query", "").strip()` after `req_data.get("arguments", {})`:
      missing keys give an empty query; a non-dict or a non-string raises. */
  function McpQueryText(request: Result<Json>): (r: Result<string>)
    ensures r.Ok? ==> r.value == [] || (!Text.IsSpace(r.value[0]) && !Text.IsSpace(r.value[|r.value| - 1]))
  {
    match request
    case Err(e) => Err(e)
    case Ok(data) =>
      match Get(data, "arguments", JObject([]))
      case Err(e) => Err(e)
      case Ok(args) =>
        match Get(args, "query", JStr(""))
        case Err(e) => Err(e)
        case Ok(query) => StripText(query)
  }

  /** A request without `arguments` has an empty query. */
  lemma McpQueryWithoutArguments(members: seq<(string, Json)>)
    requires !HasMember(members, "arguments")
    ensures McpQueryText(Ok(JObject(members))) == Ok([])
  {
    assert Get(JObject(members), "arguments", JObject([])) == Ok(JObject([]));
    assert Get(JObject([]), "query", JStr("")) == Ok(JStr(""));
    assert Text.Strip("") == [];
  }

  /** The query is read from the request's `arguments` dict: without
      `query` it is empty, and a string `query` is passed on stripped. */
  lemma McpQueryFromArguments(members: seq<(string, Json)>, args: seq<(string, Json)>)
    requires Member(members, "arguments") == Some(JObject(args))
    ensures !HasMember(args, "query") ==> McpQueryText(Ok(JObject(members))) == Ok([])
    ensures Member(args, "query").Some? && Member(args, "query").value.JStr? ==>
      McpQueryText(Ok(JObject(members))) == Ok(Text.Strip(Member(args, "query").value.s))
  {
    assert Get(JObject(members), "arguments", JObject([])) == Ok(JObject(args));
    match Member(args, "query")
    case None =>
      assert Get(JObject(args), "query", JStr("")) == Ok(JStr(""));
      assert Text.Strip("") == [];
    case Some(q) =>
      assert Get(JObject(args), "query", JStr("")) == Ok(q);
  }

  /** The summary of a successful result. */
  function ResultSummary(result: QueryResult): Result<string>
    requires result.WellFormed() && result.success
  {
    Summary.SummaryText(result.naturalLanguageQuery, result.generatedSql.value, result.results.value)
  }

  /** `mcp_text_to_sql`: an empty query is refused before the processor is
      called; a failed result is returned as it is; a successful one gets
      its summary, and building the summary can still fail (a row that is
      not a dict), which turns the reply into an error. */
  method McpTextToSql(p: MedicalDataProcessor, request: Result<Json>, cloud: Cloud, reply: Result<string>, answer: Result<seq<Json>>)
    returns (out: McpReply)
    requires p.Valid()
    modifies p`container, p`openAiClient, p`initialized, p`chatRequests, p`storeQueries
    ensures p.Valid()
    ensures McpQueryText(request).Err? ==> out == McpFailed(McpErrorPrefix + McpQueryText(request).error, false) && unchanged(p)
    ensures McpQueryText(request) == Ok([]) ==> out == McpRejected(McpEmptyQuery, false) && unchanged(p)
    ensures McpQueryText(request).Ok? && McpQueryText(request).value != [] ==>
      var query := McpQueryText(request).value;
      var result := ExpectedResult(query, old(p.ReadyWith(cloud)), cloud, reply, answer);
      && out == (if !result.success then McpAnswer(result, None)
                 else match ResultSummary(result)
                      case Ok(text) => McpAnswer(result, Some(text))
                      case Err(e) => McpFailed(McpErrorPrefix + e, false))
      && (p.initialized <==> old(p.ReadyWith(cloud)))
      && p.container == ContainerAfter(old(p.initialized), old(p.container), cloud)
      && p.openAiClient == OpenAiAfter(old(p.initialized), old(p.openAiClient), cloud)
      && p.chatRequests == old(p.chatRequests) +
           (if old(p.ReadyWith(cloud)) then [ChatRequest(ModelName(cloud.env), query, MaxTokens)] else [])
      && p.storeQueries == old(p.storeQueries) +
           (if old(p.ReadyWith(cloud)) && reply.Ok? && SqlText.IsSelectQuery(SqlText.CleanSql(reply.value))
            then [SqlText.CleanSql(reply.value)] else [])
  {
    var query := McpQueryText(request);
    if query.Err? {
      return McpFailed(McpErrorPrefix + query.error, false);
    }
    if query.value == [] {
      return McpRejected(McpEmptyQuery, false);
    }
    var result := p.ProcessNaturalLanguageQuery(query.value, cloud, reply, answer);
    if !result.success {
      return McpAnswer(result, None);
    }
    var summary := Summary.BuildSummary(result.naturalLanguageQuery, result.generatedSql.value, result.results.value);
    match summary
    case Ok(text) =>
      out := McpAnswer(result, Some(text));
    case Err(e) =>
      out := McpFailed(McpErrorPrefix + e, false);
  }

  // ---------------------------------------------------------------- sample data

  /** `min(max(limit, 1), 100)` */
  function ClampLimit(limit: int): (r: int)
    ensures MinLimit <= r <= MaxLimit
    ensures MinLimit <= limit <= MaxLimit ==> r == limit
    ensures limit < MinLimit ==> r == MinLimit
    ensures limit > MaxLimit ==> r == MaxLimit
  {
    var atLeastMin := if limit > MinLimit then limit else MinLimit;
    if atLeastMin < MaxLimit then atLeastMin else MaxLimit
  }

  /** The `limit` query parameter: absent means 10; `Err` is the error `int()` raised parsing it. */
  function RequestedLimit(param: Option<Result<int>>): Result<int> {
    match param
    case None => Ok(DefaultLimit)
    case Some(parsed) => parsed
  }

  /** `http_get_sample_data`: the store is asked for the clamped number of
      records; every failure is a 500. */
  method HttpGetSampleData(p: MedicalDataProcessor, param: Option<Result<int>>, cloud: Cloud, answer: Result<seq<Json>>)
    returns (resp: HttpResponse)
    requires p.Valid()
    modifies p`container, p`openAiClient, p`initialized, p`storeQueries
    ensures p.Valid()
    ensures RequestedLimit(param).Err? ==> resp == InternalError(RequestedLimit(param).error) && unchanged(p)
    ensures RequestedLimit(param).Ok? ==>
      var limit := ClampLimit(RequestedLimit(param).value);
      && (p.initialized <==> old(p.ReadyWith(cloud)))
      && p.container == ContainerAfter(old(p.initialized), old(p.container), cloud)
      && p.openAiClient == OpenAiAfter(old(p.initialized), old(p.openAiClient), cloud)
      && p.storeQueries == old(p.storeQueries) + (if old(p.ReadyWith(cloud)) then [SampleQuery(limit)] else [])
      && (!old(p.ReadyWith(cloud)) ==> resp == InternalError(SetupError(cloud)))
      && (old(p.ReadyWith(cloud)) ==>
            resp == (if answer.Ok? then HttpResponse(StatusOk, SampleBody(answer.value, |answer.value|, true))
                     else InternalError(answer.error)))
  {
    match RequestedLimit(param)
    case Err(e) =>
      resp := InternalError(e);
    case Ok(requested) =>
      var limit := ClampLimit(requested);
      var items := p.GetSampleData(limit, cloud, answer);
      match items
      case Err(e) =>
        resp := InternalError(e);
      case Ok(data) =>
        resp := HttpResponse(StatusOk, SampleBody(data, |data|, true));
  }

  // ---------------------------------------------------------------- upload

  /** The checks `http_upload_medical_data` makes before the upload: a body,
      a `records` key, and a list under it. */
  function AdmitUpload(body: Result<Json>): (r: Admission<seq<Json>>)
    ensures r.Reject? ==> r.response.statusCode == StatusBadRequest || r.response.statusCode == StatusServerError
  {
    match body
    case Err(e) => Reject(InternalError(e))
    case Ok(b) =>
      if !Truthy(b) then Reject(BadRequest(MissingRecordsField))
      else
        match Contains(b, "records")
        case Err(e) => Reject(InternalError(e))
        case Ok(found) =>
          if !found then Reject(BadRequest(MissingRecordsField))
          else
            match GetItem(b, "records")
            case Err(e) => Reject(InternalError(e))
            case Ok(records) => if records.JList? then Admit(records.items) else Reject(BadRequest(RecordsNotArray))
  }

  /** An upload is let through exactly when the body is a dict whose `records` is a list. */
  lemma UploadAdmitted(body: Result<Json>)
    ensures AdmitUpload(body).Admit? <==>
      body.Ok? && body.value.JObject? && Member(body.value.members, "records").Some? &&
      Member(body.value.members, "records").value.JList?
    ensures AdmitUpload(body).Admit? ==> AdmitUpload(body).value == Member(body.value.members, "records").value.items
  {
    if body.Ok? && Truthy(body.value) && Contains(body.value, "records") == Ok(true) && GetItem(body.value, "records").Ok? {
      assert body.value.JObject?;
    }
  }

  /** A dict whose `records` is not a list gets a 400 saying so. */
  lemma RecordsNotListRejected(members: seq<(string, Json)>)
    requires Member(members, "records").Some? && !Member(members, "records").value.JList?
    ensures AdmitUpload(Ok(JObject(members))) == Reject(HttpResponse(StatusBadRequest, ErrorBody(RecordsNotArray)))
  {
  }

  /** `http_upload_medical_data`: an admitted list is uploaded record by
      record and the summary returned with 200; a setup failure is a 500. */
  method HttpUploadMedicalData(p: MedicalDataProcessor, body: Result<Json>, cloud: Cloud, createFailure: nat -> Option<string>)
    returns (resp: HttpResponse)
    requires p.Valid()
    modifies p`container, p`openAiClient, p`initialized, p`createCalls
    ensures p.Valid()
    ensures AdmitUpload(body).Reject? ==> resp == AdmitUpload(body).response && unchanged(p)
    ensures AdmitUpload(body).Admit? ==>
      && (p.initialized <==> old(p.ReadyWith(cloud)))
      && p.container == ContainerAfter(old(p.initialized), old(p.container), cloud)
      && p.openAiClient == OpenAiAfter(old(p.initialized), old(p.openAiClient), cloud)
    ensures AdmitUpload(body).Admit? && !old(p.ReadyWith(cloud)) ==>
      resp == InternalError(SetupError(cloud)) && p.createCalls == old(p.createCalls)
    ensures AdmitUpload(body).Admit? && old(p.ReadyWith(cloud)) ==>
      var records := AdmitUpload(body).value;
      var atts := Upload.Attempts(records, createFailure);
      && resp.statusCode == StatusOk
      && resp.body.UploadBody?
      && resp.body.summary.totalRecords == |records|
      && resp.body.summary.uploadedCount + |resp.body.summary.errors| == |records|
      && (resp.body.summary.success <==> resp.body.summary.uploadedCount > 0)
      && resp.body.summary.errors == Upload.ErrorLines(atts)
      && p.createCalls == old(p.createCalls) + Upload.SentDocuments(atts)
  {
    match AdmitUpload(body)
    case Reject(response) =>
      resp := response;
    case Admit(records) =>
      var summary := p.UploadMedicalRecords(records, cloud, createFailure);
      match summary
      case Err(e) =>
        resp := InternalError(e);
      case Ok(s) =>
        resp := HttpResponse(StatusOk, UploadBody(s));
  }

  // ---------------------------------------------------------------- health

  /** The overall status: healthy only when both services are. */
  function HealthStatus(cosmosDb: string, azureOpenAi: string): (status: string)
    ensures status == Healthy <==> cosmosDb == Healthy && azureOpenAi == Healthy
    ensures status == Healthy || status == Degraded
  {
    if cosmosDb == Healthy && azureOpenAi == Healthy then Healthy else Degraded
  }

  /** `http_health_check`: the store is probed with a one-record sample
      query, which also runs the lazy setup; the model client is reported
      as it stands afterwards. The service is healthy exactly when setup
      completes and the store answers. */
  method HttpHealthCheck(p: MedicalDataProcessor, cloud: Cloud, answer: Result<seq<Json>>) returns (resp: HttpResponse)
    requires p.Valid()
    modifies p`container, p`openAiClient, p`initialized, p`storeQueries
    ensures p.Valid()
    ensures p.initialized <==> old(p.ReadyWith(cloud))
    ensures p.container == ContainerAfter(old(p.initialized), old(p.container), cloud)
    ensures p.openAiClient == OpenAiAfter(old(p.initialized), old(p.openAiClient), cloud)
    ensures resp.statusCode == StatusOk && resp.body.HealthBody? && resp.body.service == ServiceName
    ensures resp.body.cosmosDb ==
      (if !old(p.ReadyWith(cloud)) then UnhealthyPrefix + SetupError(cloud)
       else if answer.Err? then UnhealthyPrefix + answer.error
       else Healthy)
    ensures resp.body.azureOpenAi == (if old(p.ReadyWith(cloud)) then Healthy else NotInitialized)
    ensures resp.body.status == HealthStatus(resp.body.cosmosDb, resp.body.azureOpenAi)
    ensures resp.body.status == Healthy <==> old(p.ReadyWith(cloud)) && answer.Ok?
    ensures p.storeQueries == old(p.storeQueries) + (if old(p.ReadyWith(cloud)) then [SampleQuery(1)] else [])
  {
    var probe := p.GetSampleData(1, cloud, answer);
    var cosmosDb: string;
    match probe {
      case Ok(_) =>
        cosmosDb := Healthy;
      case Err(e) =>
        cosmosDb := UnhealthyPrefix + e;
        assert cosmosDb[0] != Healthy[0];
    }
    var azureOpenAi := if p.openAiClient.Some? then Healthy else NotInitialized;
    resp := HttpResponse(StatusOk, HealthBody(HealthStatus(cosmosDb, azureOpenAi), cosmosDb, azureOpenAi, ServiceName));
  }

  // ---------------------------------------------------------------- startup

  /** `initialize_sample_data`: the thirteen sample records are uploaded
      only when the one-record probe of the store comes back empty; any
      exception ends the run (and is only logged). */
  method InitializeSampleData(p: MedicalDataProcessor, cloud: Cloud, answer: Result<seq<Json>>, createFailure: nat -> Option<string>)
    returns (outcome: Outcome)
    requires p.Valid()
    modifies p`container, p`openAiClient, p`initialized, p`storeQueries, p`createCalls
    ensures p.Valid()
    ensures p.initialized <==> old(p.ReadyWith(cloud))
    ensures p.container == ContainerAfter(old(p.initialized), old(p.container), cloud)
    ensures p.openAiClient == OpenAiAfter(old(p.initialized), old(p.openAiClient), cloud)
    ensures outcome.Pass? <==> old(p.ReadyWith(cloud)) && answer.Ok?
    ensures p.storeQueries == old(p.storeQueries) + (if old(p.ReadyWith(cloud)) then [SampleQuery(1)] else [])
    ensures p.createCalls == old(p.createCalls) +
      (if old(p.ReadyWith(cloud)) && answer == Ok([])
       then Upload.SentDocuments(Upload.Attempts(Upload.SampleRecords(), createFailure)) else [])
    ensures old(p.ReadyWith(cloud)) && answer == Ok([]) ==> |p.createCalls| == |old(p.createCalls)| + 13
  {
    var existing := p.GetSampleData(1, cloud, answer);
    match existing
    case Err(e) =>
      return Fail(e);
    case Ok(items) =>
      if items != [] {
        return Pass;
      }
      var result := p.UploadMedicalRecords(Upload.SampleRecords(), cloud, createFailure);
      Upload.SampleUpload(createFailure);
      match result
      case Ok(_) =>
        outcome := Pass;
      case Err(e) =>
        outcome := Fail(e);
  }
}
