/** `MedicalDataProcessor`: the object that lazily connects to the document
    store and the language model, turns a question into SQL, runs guarded
    queries and uploads records. The connections and every external answer
    are inputs; ghost logs record what reaches the model and the store. */
module Processor {
  import opened Wrappers
  import opened PyJson
  import Text
  import SqlText
  import Upload

  const CosmosEndpointEnv := "COSMOS_ENDPOINT"
  const CosmosDatabaseNameEnv := "COSMOSDB_DATABASE_NAME"
  const CosmosContainerNameEnv := "COSMOSDB_CONTAINER_NAME"
  const AzureOpenAiEndpointEnv := "AZURE_OPENAI_ENDPOINT"
  const OpenAiModelNameEnv := "OPENAI_MODEL_NAME"
  const AzureOpenAiApiVersionEnv := "AZURE_OPENAI_API_VERSION"

  const DefaultDatabaseName := "medicaldata"
  const DefaultContainerName := "medical_records"
  const DefaultApiVersion := "2024-02-15-preview"
  const DefaultModelName := "gpt-4"
  const MaxTokens := 500

  const NotSelectError := "Only SELECT queries are allowed"

  /** `os.getenv(name, default)` */
  function GetEnv(env: map<string, string>, name: string, default: string): string {
    if name in env then env[name] else default
  }

  function MissingVariable(name: string): string {
    "Missing required environment variable: " + name
  }

  /** The Cosmos container the processor talks to (the client, database and
      container handles, which are created together). */
  datatype ContainerClient = ContainerClient(endpoint: string, database: string, container: string)

  /** The Azure OpenAI client, built with a managed-identity token. */
  datatype OpenAiClient = OpenAiClient(endpoint: string, apiVersion: string, token: string)

  /** What the outside world answers while the processor sets itself up: the
      process environment, the exception constructing the Cosmos client
      raises (if any), and the managed-identity token request's answer. */
  datatype Cloud = Cloud(env: map<string, string>, cosmosClientFailure: Option<string>, token: Result<string>)

  /** A chat-completion request: the model and the question embedded in the prompt. */
  datatype ChatRequest = ChatRequest(model: string, question: string, maxTokens: nat)

  /** `_setup_cosmos_client`: the endpoint must be set and non-empty; the
      database and container names fall back to their defaults. */
  function SetupCosmos(cloud: Cloud): Result<ContainerClient> {
    var endpoint := GetEnv(cloud.env, CosmosEndpointEnv, "");
    if endpoint == "" then Err(MissingVariable(CosmosEndpointEnv))
    else if cloud.cosmosClientFailure.Some? then Err(cloud.cosmosClientFailure.value)
    else Ok(ContainerClient(endpoint,
                            GetEnv(cloud.env, CosmosDatabaseNameEnv, DefaultDatabaseName),
                            GetEnv(cloud.env, CosmosContainerNameEnv, DefaultContainerName)))
  }

  /** `_setup_openai_client`: the endpoint must be set and non-empty, then a token is requested. */
  function SetupOpenAi(cloud: Cloud): Result<OpenAiClient> {
    var endpoint := GetEnv(cloud.env, AzureOpenAiEndpointEnv, "");
    if endpoint == "" then Err(MissingVariable(AzureOpenAiEndpointEnv))
    else if cloud.token.Err? then Err(cloud.token.error)
    else Ok(OpenAiClient(endpoint, GetEnv(cloud.env, AzureOpenAiApiVersionEnv, DefaultApiVersion), cloud.token.value))
  }

  predicate SetupSucceeds(cloud: Cloud) {
    SetupCosmos(cloud).Ok? && SetupOpenAi(cloud).Ok?
  }

  /** The exception `_ensure_initialized` propagates: the Cosmos setup runs first. */
  function SetupError(cloud: Cloud): string
    requires !SetupSucceeds(cloud)
  {
    if SetupCosmos(cloud).Err? then SetupCosmos(cloud).error else SetupOpenAi(cloud).error
  }

  /** The container client held after `_ensure_initialized` ran with the
      flag `wasInitialized`: a new one whenever a first-time Cosmos setup
      completes, even if the model setup then fails; otherwise the old one. */
  function ContainerAfter(wasInitialized: bool, before: Option<ContainerClient>, cloud: Cloud): Option<ContainerClient> {
    if !wasInitialized && SetupCosmos(cloud).Ok? then Some(SetupCosmos(cloud).value) else before
  }

  /** The model client held after `_ensure_initialized`: a new one exactly
      when a first-time setup completes; otherwise the old one. */
  function OpenAiAfter(wasInitialized: bool, before: Option<OpenAiClient>, cloud: Cloud): Option<OpenAiClient> {
    if !wasInitialized && SetupSucceeds(cloud) then Some(SetupOpenAi(cloud).value) else before
  }

  function ModelName(env: map<string, string>): string {
    GetEnv(env, OpenAiModelNameEnv, DefaultModelName)
  }

  /** The query `get_sample_data` sends for a given limit. */
  function SampleQuery(limit: int): string {
    "SELECT TOP " + Text.IntText(limit) + " * FROM c ORDER BY c.MEDCode"
  }

  /** The dictionary `process_natural_language_query` returns, without its timestamp. */
  datatype QueryResult = QueryResult(
    naturalLanguageQuery: string,
    generatedSql: Option<string>,
    results: Option<seq<Json>>,
    rowCount: nat,
    success: bool,
    error: Option<string>)
  {
    /** The two shapes the result takes: a success carries the SQL, the rows
        and their number; a failure carries no SQL, no rows, a zero count and
        the error text. */
    predicate WellFormed() {
      if success then generatedSql.Some? && results.Some? && rowCount == |results.value| && error.None?
      else generatedSql.None? && results.None? && rowCount == 0 && error.Some?
    }
  }

  function Succeeded(query: string, sql: string, items: seq<Json>): QueryResult {
    QueryResult(query, Some(sql), Some(items), |items|, true, None)
  }

  function Failed(query: string, error: string): QueryResult {
    QueryResult(query, None, None, 0, false, Some(error))
  }

  /** The result `process_natural_language_query` returns when setup
      completes exactly when `ready` holds, the model replies `reply` and the
      store answers `answer`: the first exception raised decides the error. */
  function ExpectedResult(query: string, ready: bool, cloud: Cloud, reply: Result<string>, answer: Result<seq<Json>>): QueryResult
    requires ready || !SetupSucceeds(cloud)
  {
    if !ready then Failed(query, SetupError(cloud))
    else if reply.Err? then Failed(query, reply.error)
    else
      var sql := SqlText.CleanSql(reply.value);
      if !SqlText.IsSelectQuery(sql) then Failed(query, NotSelectError)
      else if answer.Err? then Failed(query, answer.error)
      else Succeeded(query, sql, answer.value)
  }

  /** The result always takes one of its two shapes and names the question;
      it succeeds exactly when setup completes, the model replies, the
      cleaned reply passes the SELECT guard and the store answers, and then
      it carries that SQL and those rows. */
  lemma ExpectedResultShape(query: string, ready: bool, cloud: Cloud, reply: Result<string>, answer: Result<seq<Json>>)
    requires ready || !SetupSucceeds(cloud)
    ensures var r := ExpectedResult(query, ready, cloud, reply, answer);
      && r.WellFormed() && r.naturalLanguageQuery == query
      && (r.success <==> ready && reply.Ok? && SqlText.IsSelectQuery(SqlText.CleanSql(reply.value)) && answer.Ok?)
      && (r.success ==> r.generatedSql == Some(SqlText.CleanSql(reply.value)) && r.results == Some(answer.value))
  {
  }

  class MedicalDataProcessor {
    var container: Option<ContainerClient>
    var openAiClient: Option<OpenAiClient>
    var initialized: bool

    /** Every request sent to the language model. */
    ghost var chatRequests: seq<ChatRequest>
    /** Every query sent to the Cosmos container. */
    ghost var storeQueries: seq<string>
    /** Every document handed to `create_item`. */
    ghost var createCalls: seq<Upload.Document>

    /** The flag is set exactly when the model client exists, and then the
        container exists too: a set flag means both setups completed. */
    ghost predicate Valid()
      reads this
    {
      (initialized <==> openAiClient.Some?) && (initialized ==> container.Some?)
    }

    /** `_ensure_initialized` completes with this cloud. */
    ghost predicate ReadyWith(cloud: Cloud)
      reads this
    {
      initialized || SetupSucceeds(cloud)
    }

    constructor ()
      ensures Valid() && !initialized && container.None? && openAiClient.None?
      ensures chatRequests == [] && storeQueries == [] && createCalls == []
    {
      container, openAiClient, initialized := None, None, false;
      chatRequests, storeQueries, createCalls := [], [], [];
    }

    /** `_ensure_initialized`: runs the two setups only while the flag is
        clear, and sets the flag only once both have completed. A failed
        Cosmos setup leaves everything as it was; a failed model setup leaves
        the new container but not the flag. */
    method EnsureInitialized(cloud: Cloud) returns (outcome: Outcome)
      requires Valid()
      modifies this`container, this`openAiClient, this`initialized
      ensures Valid()
      ensures outcome.Pass? <==> old(ReadyWith(cloud))
      ensures initialized <==> old(ReadyWith(cloud))
      ensures container == ContainerAfter(old(initialized), old(container), cloud)
      ensures openAiClient == OpenAiAfter(old(initialized), old(openAiClient), cloud)
      ensures !old(initialized) ==>
        match SetupCosmos(cloud)
        case Err(e) => outcome == Fail(e) && container == old(container) && openAiClient == old(openAiClient)
        case Ok(c) =>
          container == Some(c) &&
          match SetupOpenAi(cloud)
          case Err(e) => outcome == Fail(e) && openAiClient == old(openAiClient)
          case Ok(o) => outcome == Pass && openAiClient == Some(o)
    {
      if !initialized {
        var cosmos := SetupCosmos(cloud);
        if cosmos.Err? {
          return Fail(cosmos.error);
        }
        container := Some(cosmos.value);
        var openAi := SetupOpenAi(cloud);
        if openAi.Err? {
          return Fail(openAi.error);
        }
        openAiClient := Some(openAi.value);
        initialized := true;
      }
      outcome := Pass;
    }

    /** `generate_sql_query`: after setup, one request to the model; its
        reply (or the exception the call raises) is `reply`, and the SQL
        returned is the cleaned reply. */
    method GenerateSql(question: string, cloud: Cloud, reply: Result<string>) returns (sql: Result<string>)
      requires Valid()
      modifies this`container, this`openAiClient, this`initialized, this`chatRequests
      ensures Valid()
      ensures initialized <==> old(ReadyWith(cloud))
      ensures container == ContainerAfter(old(initialized), old(container), cloud)
      ensures openAiClient == OpenAiAfter(old(initialized), old(openAiClient), cloud)
      ensures chatRequests == old(chatRequests) +
        (if initialized then [ChatRequest(ModelName(cloud.env), question, MaxTokens)] else [])
      ensures !old(ReadyWith(cloud)) ==> sql == Err(SetupError(cloud))
      ensures old(ReadyWith(cloud)) ==>
        sql == (if reply.Ok? then Ok(SqlText.CleanSql(reply.value)) else Err(reply.error))
    {
      var ready := EnsureInitialized(cloud);
      if ready.Fail? {
        return Err(ready.error);
      }
      chatRequests := chatRequests + [ChatRequest(ModelName(cloud.env), question, MaxTokens)];
      if reply.Err? {
        return Err(reply.error);
      }
      sql := Ok(SqlText.CleanSql(reply.value));
    }

    /** `execute_query`: after setup, a query that fails the SELECT guard is
        refused before anything is sent to the store; any other is sent once
        and the store's answer is returned. */
    method ExecuteQuery(sql: string, cloud: Cloud, answer: Result<seq<Json>>) returns (items: Result<seq<Json>>)
      requires Valid()
      modifies this`container, this`openAiClient, this`initialized, this`storeQueries
      ensures Valid()
      ensures initialized <==> old(ReadyWith(cloud))
      ensures container == ContainerAfter(old(initialized), old(container), cloud)
      ensures openAiClient == OpenAiAfter(old(initialized), old(openAiClient), cloud)
      ensures storeQueries == old(storeQueries) +
        (if initialized && SqlText.IsSelectQuery(sql) then [sql] else [])
      ensures !old(ReadyWith(cloud)) ==> items == Err(SetupError(cloud))
      ensures old(ReadyWith(cloud)) ==>
        items == (if SqlText.IsSelectQuery(sql) then answer else Err(NotSelectError))
    {
      var ready := EnsureInitialized(cloud);
      if ready.Fail? {
        return Err(ready.error);
      }
      if !SqlText.IsSelectQuery(sql) {
        return Err(NotSelectError);
      }
      storeQueries := storeQueries + [sql];
      items := answer;
    }

    /** `process_natural_language_query`: any exception becomes a failed
        result, so the call always returns one of the two result shapes. */
    method ProcessNaturalLanguageQuery(query: string, cloud: Cloud, reply: Result<string>, answer: Result<seq<Json>>)
      returns (result: QueryResult)
      requires Valid()
      modifies this`container, this`openAiClient, this`initialized, this`chatRequests, this`storeQueries
      ensures Valid()
      ensures initialized <==> old(ReadyWith(cloud))
      ensures container == ContainerAfter(old(initialized), old(container), cloud)
      ensures openAiClient == OpenAiAfter(old(initialized), old(openAiClient), cloud)
      ensures result == ExpectedResult(query, old(ReadyWith(cloud)), cloud, reply, answer)
      ensures chatRequests == old(chatRequests) +
        (if old(ReadyWith(cloud)) then [ChatRequest(ModelName(cloud.env), query, MaxTokens)] else [])
      ensures storeQueries == old(storeQueries) +
        (if old(ReadyWith(cloud)) && reply.Ok? && SqlText.IsSelectQuery(SqlText.CleanSql(reply.value))
         then [SqlText.CleanSql(reply.value)] else [])
    {
      ghost var ready := ReadyWith(cloud);
      var sql := GenerateSql(query, cloud, reply);
      if sql.Err? {
        assert Failed(query, sql.error) == ExpectedResult(query, ready, cloud, reply, answer);
        return Failed(query, sql.error);
      }
      assert ready && sql.value == SqlText.CleanSql(reply.value);
      ghost var chats, c1, o1 := chatRequests, container, openAiClient;
      assert initialized;
      var items := ExecuteQuery(sql.value, cloud, answer);
      assert chatRequests == chats && container == c1 && openAiClient == o1;
      if items.Err? {
        return Failed(query, items.error);
      }
      result := Succeeded(query, sql.value, items.value);
    }

    /** `get_sample_data`: after setup, one `SELECT TOP` query, unguarded. */
    method GetSampleData(limit: int, cloud: Cloud, answer: Result<seq<Json>>) returns (items: Result<seq<Json>>)
      requires Valid()
      modifies this`container, this`openAiClient, this`initialized, this`storeQueries
      ensures Valid()
      ensures initialized <==> old(ReadyWith(cloud))
      ensures container == ContainerAfter(old(initialized), old(container), cloud)
      ensures openAiClient == OpenAiAfter(old(initialized), old(openAiClient), cloud)
      ensures storeQueries == old(storeQueries) + (if initialized then [SampleQuery(limit)] else [])
      ensures items == (if old(ReadyWith(cloud)) then answer else Err(SetupError(cloud)))
    {
      var ready := EnsureInitialized(cloud);
      if ready.Fail? {
        return Err(ready.error);
      }
      storeQueries := storeQueries + [SampleQuery(limit)];
      items := answer;
    }

    /** `upload_medical_records`: after setup, the record loop; the documents
        it hands to `create_item` are appended to the store's log. */
    method UploadMedicalRecords(records: seq<Json>, cloud: Cloud, createFailure: nat -> Option<string>)
      returns (summary: Result<Upload.UploadSummary>)
      requires Valid()
      modifies this`container, this`openAiClient, this`initialized, this`createCalls
      ensures Valid()
      ensures initialized <==> old(ReadyWith(cloud))
      ensures container == ContainerAfter(old(initialized), old(container), cloud)
      ensures openAiClient == OpenAiAfter(old(initialized), old(openAiClient), cloud)
      ensures !old(ReadyWith(cloud)) ==> summary == Err(SetupError(cloud)) && createCalls == old(createCalls)
      ensures old(ReadyWith(cloud)) ==>
        var atts := Upload.Attempts(records, createFailure);
        && summary.Ok?
        && summary.value.totalRecords == |records|
        && summary.value.uploadedCount + |summary.value.errors| == |records|
        && (summary.value.success <==> summary.value.uploadedCount > 0)
        && summary.value.uploadedCount == Upload.StoredCount(atts)
        && summary.value.errors == Upload.ErrorLines(atts)
        && createCalls == old(createCalls) + Upload.SentDocuments(atts)
    {
      var ready := EnsureInitialized(cloud);
      if ready.Fail? {
        return Err(ready.error);
      }
      var result, sent := Upload.UploadRecords(records, createFailure);
      createCalls := createCalls + sent;
      summary := Ok(result);
    }
  }
}
