# Medical text-to-SQL function app — a Dafny model

The function app answers questions about medical triplet records (`MEDCode`, `Slot`, `Value`) kept in a
Cosmos DB container. A language model turns each question into SQL. The app accepts that SQL only if it is a
`SELECT` query, runs it against the store, and returns the rows. The same processor also serves:

- an MCP tool that adds a short plain-text summary of the rows;
- a sample-data endpoint;
- a batch upload endpoint;
- a health check;
- a startup timer that seeds thirteen sample records when the store is empty.

This project models that decision logic. Every call into Cosmos DB, Azure OpenAI or Azure Identity is
replaced by an input the caller supplies:

- the environment variables, as a map;
- whether building the Cosmos client raises;
- the outcome of fetching the identity token;
- the model's reply;
- the store's answer to a query;
- for the record at position n of an upload, whether its `create_item` call raises and with what message.

Modules:

- `Wrappers`: `Option`, `Result` (an error is the text of the Python exception) and `Outcome`.
- `Text`: Python's `str.strip()` over ASCII whitespace, `str.upper()` over ASCII, and the decimal text of an
  integer as an f-string prints it.
- `PyJson`: a decoded JSON value with the Python operations the handlers apply to it. These are truthiness,
  `in`, `[]`, `.get`, `.strip()`, `str()` and `repr()`; each one that raises yields the interpreter's error text.
  An object keeps its members as the document lists them; the dict `json.loads` makes of them holds each key
  once, at its first position, with its last value, and lookups and `repr()` read it that way.
- `SqlText`: the clean-up of the model's reply (strip, delete every `` ```sql `` fence and every `` ``` ``
  fence, each with an optional following newline, strip again) and the `SELECT` guard.
- `Upload`: the per-record loop of `upload_medical_records`. It is an imperative method, proved against a
  function that says what happens to each record. It also holds the thirteen sample records.
- `Processor`: class `MedicalDataProcessor` with its lazily built clients and its `_initialized` flag.
  Ghost logs record the chat requests, the store queries and the documents sent to the store.
- `Summary`: the MCP summary text. It is built by a loop over at most five records and proved equal to a
  line-by-line definition.
- `Handlers`: the HTTP handlers, the MCP tool and the startup timer. Each response is a status code plus the
  fields of its JSON body.
- `Tools`: `ToolProperty` and its `to_dict`.

## Model

| member | source | states |
|---|---|---|
| Text.Strip | src/function_app.py:244 | the stripped text has no whitespace at either end and is no longer than the input |
| Text.StripIdempotent | src/function_app.py:244-249 | stripping twice is stripping once |
| Text.StripPadded | src/function_app.py:244-249 | whitespace around a text with no whitespace at its ends is removed and nothing else is |
| Text.UpperCases | src/function_app.py:275 | the upper-cased text has no lower-case letter; a lower-case letter becomes its capital, and every other character is kept |
| Text.UpperIdempotent | src/function_app.py:275 | upper-casing twice is upper-casing once |
| Text.DecimalRoundTrip | src/function_app.py:347 | the decimal text of a count reads back as that count |
| PyJson.Member | src/function_app.py:456-462 | a dict lookup finds a value exactly when the key is present, and the value is one stored under that key |
| PyJson.MemberIsLast | src/function_app.py:456-462 | with a key given more than once, the lookup finds the value of its last occurrence, as `json.loads` keeps it |
| PyJson.MemberAtLastIndex | src/function_app.py:392 | the value a lookup finds is the one at the key's last position, which is the value `repr()` prints for that key |
| PyJson.DictPositionsFirst | src/function_app.py:392 | the entries `repr()` prints for a dict sit at ascending positions, each the first occurrence of its key, so no key is printed twice |
| PyJson.DictPositionsCover | src/function_app.py:392 | every key of the decoded object has an entry in the printed dict |
| PyJson.ReprDuplicateKey | src/function_app.py:392 | `str()` of a dict decoded from `{"a": 1, "a": 2}` is `{'a': 2}` |
| SqlText.CleanSql | src/function_app.py:244-249 | the cleaned SQL never starts or ends with whitespace and is never longer than the reply |
| SqlText.CleanFencedReply | src/function_app.py:244-249 | a reply of the form fence-sql, newline, q, newline, fence (q holding no fence) cleans to q stripped |
| SqlText.CleanUnfencedReply | src/function_app.py:244-249 | a reply holding no fence cleans to the reply stripped |
| SqlText.DropFenceAbsent | src/function_app.py:247-248 | deleting a fence that does not occur changes nothing |
| SqlText.DropFenceShrinks | src/function_app.py:247-248 | deleting fences never lengthens the text |
| SqlText.SelectGuardExact | src/function_app.py:275-276 | the guard accepts exactly the queries whose text after leading whitespace starts with SELECT in any letter case |
| SqlText.GuardAcceptsSelectedPrefix | src/function_app.py:275-276 | the guard is a prefix test, so " selected" passes it |
| Upload.Attempts | src/function_app.py:380-401 | one attempt per record, in record order |
| Upload.UploadRecords | src/function_app.py:377-409 | the loop's summary has total = number of records, uploaded + errors = total, success iff uploaded > 0, and its count, error list and sent documents are those of the per-record attempts |
| Upload.ErrorIndicesExact | src/function_app.py:380-401 | the error lines are tagged with exactly the indices of the records not stored, in strictly ascending order, each with that record's detail |
| Upload.StoredPlusErrors | src/function_app.py:377-407 | every record is either counted as uploaded or has exactly one error line, and each one counted was sent |
| Upload.IncompleteRecordSkipped | src/function_app.py:383-385 | a record lacking MEDCode, Slot or Value is not sent and its index is among the error indices |
| Upload.CompleteDictRecord | src/function_app.py:383-396 | a dict record passes the field check exactly when it has all three keys, and its document then carries their values with Value as str() |
| Upload.SampleRecordSent | src/function_app.py:736-750 | each sample record is complete and is sent as its own document |
| Upload.AllSentDocuments | src/function_app.py:380-398 | when every record is sent, the sent documents are the records' documents in order |
| Upload.AllStored | src/function_app.py:377-407 | when every record is stored, the count is the number of records and there are no errors |
| Upload.SampleUpload | src/function_app.py:735-753 | the thirteen sample records are all sent, in order, and all counted when no insert fails |
| Processor.MedicalDataProcessor.constructor | src/function_app.py:100-106 | a new processor has no clients, an unset flag and empty logs |
| Processor.MedicalDataProcessor.EnsureInitialized | src/function_app.py:108-161 | setup runs only while the flag is unset; the flag is set only when both setups complete, with the Cosmos error reported first; once set, nothing changes |
| Processor.MedicalDataProcessor.GenerateSql | src/function_app.py:194-256 | one chat request with the configured model and 500 tokens is made after a successful setup, and the answer is the cleaned reply; the clients afterwards are those the setup built on a first call and the old ones otherwise |
| Processor.MedicalDataProcessor.ExecuteQuery | src/function_app.py:258-291 | a query failing the SELECT guard raises "Only SELECT queries are allowed" before the store is queried; otherwise the store's answer is returned; the clients afterwards are those the setup built on a first call and the old ones otherwise |
| Processor.ExpectedResultShape | src/function_app.py:293-329 | the expected result succeeds exactly when setup completes, the model answers, its cleaned reply passes the SELECT guard and the store answers; a success carries that SQL and those rows, any result is well formed and names the question |
| Processor.MedicalDataProcessor.ProcessNaturalLanguageQuery | src/function_app.py:293-329 | the result is the expected result of setup, reply and store answer; exactly one chat request is made after a successful setup, and then one store query exactly when the model answers and its cleaned SQL passes the guard; the flag is set iff setup completed; the clients afterwards are those the setup built on a first call and the old ones otherwise |
| Processor.MedicalDataProcessor.GetSampleData | src/function_app.py:331-360 | one query "SELECT TOP limit * FROM c ORDER BY c.MEDCode" after a successful setup, returning the store's answer; the clients afterwards are those the setup built on a first call and the old ones otherwise |
| Processor.MedicalDataProcessor.UploadMedicalRecords | src/function_app.py:362-409 | after a successful setup, the upload summary and store calls of the record loop; otherwise the setup error and no store call; the clients afterwards are those the setup built on a first call and the old ones otherwise |
| Summary.BuildSummary | src/function_app.py:529-548 | the text built with += equals the line-by-line summary, including the error a row that is not a dict raises |
| Summary.AppendRecordLines | src/function_app.py:537-541 | the loop appends the record lines of the first min(5, n) rows, or stops with the first non-dict row's error |
| Summary.RecordLinesDefined | src/function_app.py:538-541 | the record lines exist exactly when every listed row is a dict |
| Summary.RecordLinesExact | src/function_app.py:538-541 | line k is the record line numbered k+1 for row k |
| Summary.RecordLinesFirstError | src/function_app.py:538-539 | the first row that is not a dict decides the error: it has no attribute get |
| Summary.SummaryDefined | src/function_app.py:529-548 | the summary exists exactly when each of the first min(5, n) rows is a dict |
| Summary.SummaryLayout | src/function_app.py:531-546 | three header lines, then only "No matching records found." when n = 0; otherwise the sample-results line, then record lines at positions 4 to 3 + min(5, n), then one more line exactly when n > 5, and that last line reads "... and n-5 more records" |
| Summary.SummaryRecordLines | src/function_app.py:536-541 | the k-th record line, after the sample-results line, is the line for row k numbered k+1 |
| Summary.ListedLinesOrdinary | src/function_app.py:536-546 | for a non-empty result, the lines at positions 4 to 3 + min(5, n) are record lines, no line before the last is the "no matches" line, and only the last line, past five rows, counts the rows not shown |
| Summary.NoMatchesExactlyWhenEmpty | src/function_app.py:535-546 | "No matching records found." appears iff there are no rows |
| Summary.MoreLineExactlyPastFive | src/function_app.py:543-544 | a line counting the rows not shown appears anywhere iff there are more than five rows; the last line is such a line iff n > 5, and then it reads "... and n-5 more records" |
| Summary.EmptySummaryText | src/function_app.py:531-546 | the summary of no rows is the header followed by the no-matches line |
| Handlers.AdmitTextToSql | src/function_app.py:454-472 | an admitted query is non-empty with no whitespace at its ends; every rejection is a 400 or a 500 |
| Handlers.TextToSqlAdmitted | src/function_app.py:454-472 | a request is admitted iff its body is a dict whose query is a string that is not blank, and the query passed on is that string stripped |
| Handlers.DictQueryAdmitted | src/function_app.py:454-472 | for a dict body: no query gives the missing-field 400, a falsy or blank query the empty-query 400, a non-string query a 500 |
| Handlers.NonDictRejected | src/function_app.py:454-462 | a body that is not a dict is never admitted |
| Handlers.MissingQueryRejected | src/function_app.py:456-461 | a falsy body or a dict without query gets the 400 naming the missing field |
| Handlers.BlankQueryRejected | src/function_app.py:464-469 | a blank query gets the empty-query 400 |
| Handlers.HttpTextToSql | src/function_app.py:432-493 | a rejected request never reaches the processor and changes nothing; an admitted one gets the processor's expected result, with 200 iff it succeeded and 500 otherwise, and the same flag, clients, chat requests and store queries as the processor's call; the clients afterwards are those the setup built on a first call and the old ones otherwise |
| Handlers.McpQueryText | src/function_app.py:516-517 | the query read from the MCP arguments has no whitespace at its ends |
| Handlers.McpQueryWithoutArguments | src/function_app.py:516-517 | a request without arguments has the empty query |
| Handlers.McpQueryFromArguments | src/function_app.py:516-517 | with an arguments dict, a missing query gives the empty query and a string query is passed on stripped |
| Handlers.McpTextToSql | src/function_app.py:503-559 | an unreadable query gets the prefixed error and an empty one the "Query parameter is required and cannot be empty" refusal, both with success false, before the processor and changing nothing; otherwise the reply is the processor's expected result, with its summary exactly when it succeeded, and is the prefixed error exactly when that summary raises; flag and logs as for the processor's call; the clients afterwards are those the setup built on a first call and the old ones otherwise |
| Handlers.ClampLimit | src/function_app.py:573-574 | the clamped limit lies in [1, 100], equals the request when in range, and is the nearer bound otherwise |
| Handlers.HttpGetSampleData | src/function_app.py:567-604 | a bad limit is a 500 that changes nothing; otherwise one store query with the clamped limit after a successful setup, then 200 with the rows, their count and success true, or 500 with the error and success false; the flag is set iff setup completed; the clients afterwards are those the setup built on a first call and the old ones otherwise |
| Handlers.AdmitUpload | src/function_app.py:626-641 | every rejection of an upload request is a 400 or a 500 |
| Handlers.UploadAdmitted | src/function_app.py:626-641 | an upload is admitted iff the body is a dict whose records value is a list, and that list is what is uploaded |
| Handlers.RecordsNotListRejected | src/function_app.py:636-641 | records that are not a list get the 400 saying so |
| Handlers.HttpUploadMedicalData | src/function_app.py:608-664 | a rejected upload changes nothing; an admitted one returns 200 with the summary of the record loop and its store calls, or 500 with the setup error and no store call; the flag is set iff setup completed; the clients afterwards are those the setup built on a first call and the old ones otherwise |
| Handlers.HealthStatus | src/function_app.py:690-694 | the status is healthy iff both services are, and degraded otherwise |
| Handlers.HttpHealthCheck | src/function_app.py:668-716 | after a successful setup the store is probed with one one-record query, and with none otherwise; the status is `HealthStatus` of the two service texts, so healthy exactly when setup completes and the store answers and degraded otherwise, each service's text as the handler builds it, and the service named "medical-data-text-to-sql"; the flag is set iff setup completed; the clients afterwards are those the setup built on a first call and the old ones otherwise |
| Handlers.InitializeSampleData | src/function_app.py:724-757 | one one-record probe after a successful setup; the thirteen sample records are sent, in order, only when that probe comes back empty; the flag is set iff setup completed; the clients afterwards are those the setup built on a first call and the old ones otherwise |
| Tools.ToDict | src/function_app.py:82-88 | the dict has three entries holding the name, the type and the description |
| Tools.ToDictRoundTrip | src/function_app.py:82-88 | reading the dict back gives the property |
| Tools.FromDictAgrees | src/function_app.py:82-88 | any dict a property reads back from agrees with that property's dict on the three keys |
| Tools.PropertyDicts | src/function_app.py:424 | the registered list has one dict per property, each reading back as that property |
| Tools.TextToSqlToolDeclaresQuery | src/function_app.py:419-424 | the text-to-SQL tool declares exactly one property, a string named query |

## Left out

- Azure SDK clients and their calls (Cosmos DB, Azure OpenAI, `DefaultAzureCredential`): they are foreign code. Each becomes an input: the environment map, whether the client constructor raises, the token outcome, the model reply, the store answer, and the failure of each `create_item`, by record position.
- async/await, the Functions trigger decorators and the Functions runtime: they are runtime plumbing.
- Logging, `datetime.utcnow()` timestamps and `uuid.uuid4()` document ids: these are nondeterministic. Responses carry no timestamp, and documents carry no id.
- `json.dumps` serialisation, including `tool_properties_text_to_sql_json`: library behaviour. Responses are modelled as the fields of their JSON bodies, every field but the timestamp.
- The prompt and schema text (src/function_app.py:163-230) and the chat temperature: they are constant strings and a float. The chat request records only the model name, the question and the token limit.
- `re.sub` in general: only the two literal fence patterns, each with an optional newline, are modelled, as a left-to-right scan.
- Python's Unicode `strip()` and `upper()`: only ASCII whitespace (including the file, group, record and unit separators) and ASCII letters are modelled.
- `repr()` of non-ASCII or unprintable characters: escapes are modelled for ASCII only.
- `int()` parsing of the `limit` parameter: the handler takes the parsed integer, or the error text `int()` raised.
- The `RuntimeError` branches for an uninitialised client (src/function_app.py:206-207, 270-271, 343-344, 374-375): the class invariant shows they cannot be reached after a successful setup.
- The outer `except` of `http_health_check` (src/function_app.py:706-716) and its `unhealthy` branch for the model client (src/function_app.py:687-688): testing a client for truthiness cannot raise, and every other failure is caught by an inner handler, so neither is reachable in the model.
- Floating-point JSON numbers: they are carried as their printed text.
- The infrastructure templates and deployment scripts: they are configuration, not logic.
