# kairo: the decision logic of a natural-language-to-SQL service, in Dafny

kairo answers questions about a sales database. Its Flask endpoint
`POST /consulta` does four things in order. It asks a Groq language model to turn
the question into `{"sql", "type", "chart_type"}`. It runs the SQL on PostgreSQL,
turns the fetched tuples into one dictionary per row, and asks the model for a
short answer in natural language. A Streamlit client then picks a table, a chart
or a notice to show the result.

This project models the logic around those services. The language model, the
database, Python's `str()` of the rows and pandas' frame construction are
**oracles**: inputs the model receives rather than code it runs.

| file | module | models |
|---|---|---|
| `wrappers.dfy` | `Wrappers` | `Option` and `Result` |
| `json.dfy` | `Json` | JSON values, Python truthiness, `dict.get(key, default)` |
| `sql_text.dfy` | `SqlText` | the reply clean-up of `get_sql_from_groq` (`replace("```sql", "")`, `replace("```", "")`, `strip()`): `SqlText.CleanSql`, and `SqlText.SqlFromReply` for the function's return value |
| `database.dfy` | `Database` | `execute_query`: the method `Database.ExecuteQuery` over a mock `Connection` class, which opens it, executes, fetches, zips rows into dictionaries and closes on every path; `Database.ExecuteQuerySpec` gives its result path by path |
| `summariser.dfy` | `Summariser` | `generar_respuesta_natural`: the 2000-character bound (`Summariser.PromptFor`) and the fixed fallback answer (`Summariser.AnswerOf`) |
| `pipeline.dfy` | `Pipeline` | `process_request` as `Pipeline.ProcessRequest`: the early-return chain, the response bodies and the record of which collaborators were consulted |
| `frontend.dfy` | `Frontend` | the client's render decision (frontend.py:52-93) as `Frontend.Visualise`, the whole page for a response (frontend.py:44-101) as `Frontend.ShowResponse`, and their composition with the service |

The oracles are these:
- `Pipeline.Services.classify` stands for `analizar_intencion`. It gives `None` when the model call or `json.loads` raised.
- `Pipeline.Services.execute` stands for `execute_query`. `Database.ExecuteQuery` shows how its result is computed from a server oracle `Value -> Reply`.
- `Pipeline.Services.render` stands for `str()` of the result list.
- `Pipeline.Services.summarise` stands for the summarising completion. It gives `None` when the call raised.
- The client receives a `Frontend.Frame`: the row count and `df.columns.tolist()` of `pd.DataFrame(raw_data)`.

`process_request` returns an `Outcome`. It holds the response and a trace of the
collaborator calls in order, each with the argument it received. "A later stage is skipped"
is stated in two ways. First, the trace stops at the failing stage. Second, the
outcome stays the same when every later collaborator is replaced by any other.

## Behaviour of the code worth knowing

- `analisis["sql"]` goes straight to `execute_query` (api/app.py:191-196). Nothing checks what kind of statement it is, and nothing is logged.
- `chart_type` is not checked against `type` (api/app.py:192-193). `Pipeline.ChartTypeNotValidated`, `Pipeline.TabularWithChartKindPassed` and `Frontend.MissingChartTypeCrashesClient` show the consequences.
- A classifier object whose `"sql"` is empty or not a string is not rejected by `process_request`: it is passed to `execute_query` unchecked (api/app.py:188-196). The driver then raises, which `execute_query` catches (api/app.py:126-127), so the answer is the 500 "Error SQL".
- Rows are Python dicts built by `dict(zip(...))`. With a repeated column name the later cell wins; the names need not be unique.
- A described result with zero columns has a falsy `cursor.description`, so it yields `[]` even when rows were returned.

## Model

| member | source | states |
|---|---|---|
| `SqlText.LStrip` | api/app.py:106 | the result is a suffix of the input, every character dropped is Python whitespace, and the result does not start with whitespace |
| `SqlText.RStrip` | api/app.py:106 | the result is a prefix of the input, every character dropped is Python whitespace, and the result does not end with whitespace |
| `SqlText.StripIsTrim` | api/app.py:106 | `strip()` keeps one contiguous slice of its input, drops only whitespace on either side, and leaves no whitespace at either end |
| `SqlText.RemoveAllLeavesNoFence` | api/app.py:106 | after left-to-right, non-overlapping removal of "```" no "```" remains |
| `SqlText.CleanSqlIsClean` | api/app.py:106 | the cleaned SQL contains no "```" and has no leading or trailing whitespace |
| `SqlText.RemoveAllAbsent` | api/app.py:106 | `replace(pat, "")` leaves a string unchanged when `pat` does not occur in it |
| `SqlText.CleanSqlIdempotent` | api/app.py:106 | cleaning an already cleaned reply returns it unchanged |
| `SqlText.SqlFromReply` | api/app.py:96-109 | `get_sql_from_groq` gives None exactly when the provider call failed, else the cleaned reply |
| `Database.ToDicts` | api/app.py:122 | one dictionary per fetched tuple, dictionary i built from tuple i |
| `Database.AssocKeys` | api/app.py:122 | the keys of the built dictionary are exactly the names inserted |
| `Database.AssocLastWins` | api/app.py:122 | a name not inserted again later maps to the value inserted with it |
| `Database.ZipDictCells` | api/app.py:119-122 | `dict(zip(columns, row))` has as keys the names up to the shorter of the two lengths, and each maps to the cell at its last position |
| `Database.ToDictsCells` | api/app.py:119-123 | with distinct names and full-width tuples, row i has exactly the column names as keys and maps `columns[j]` to `rows[i][j]` |
| `Database.DuplicateColumnLaterWins` | api/app.py:122 | when a column name occurs at positions j < k and not after k, it maps to the cell at k, not the one at j |
| `Database.ExecuteQueryOutcomes` | api/app.py:115-127 | the result is an error exactly when connect, execute or fetch raised, and then it carries that message; no column metadata gives `[]`, not an error |
| `Database.ExecuteQueryRowCount` | api/app.py:119-123 | with metadata, the result has exactly as many dictionaries as fetched tuples, also when none were fetched |
| `Database.ExecuteQueryRows` | api/app.py:119-123 | with metadata, dictionary i maps each column name to the cell of its last position in tuple i |
| `Database.ExecuteQuery` | api/app.py:112-130 | the method returns what the path-by-path specification gives; a connection is opened exactly when connect succeeded, exactly this statement is sent, and the connection is closed on every exit path |
| `Database.Connection.constructor` | api/app.py:115 | a successful `psycopg2.connect`: the connection is open, talks to the given server and has sent nothing |
| `Database.Connection.Description` | api/app.py:119-120 | the column names of `cur.description` for the statement just executed, empty when it is falsy |
| `Database.Connection.FetchAll` | api/app.py:121 | `cur.fetchall()` gives the server's tuples for that statement, or the message it raises with |
| `Database.Connection.Execute` | api/app.py:117 | the statement is appended to those sent and the server's reply becomes the cursor's pending result |
| `Database.Connection.Close` | api/app.py:128-130 | the connection is closed and nothing else changes |
| `Summariser.Truncate` | api/app.py:140 | the text sent is a prefix of the serialisation, of length min(n, 2000) |
| `Summariser.PromptFor` | api/app.py:140-156 | the prompt carries the question and the prefix of the rendered result of length min(n, 2000) |
| `Summariser.AnswerOf` | api/app.py:158-169 | the answer is the model's text, or exactly "Tengo los datos pero hubo un error al resumirlos." when the call raised |
| `Summariser.TruncateIgnoresTail` | api/app.py:140 | rows rendered past the first 2000 characters never reach the model |
| `Pipeline.MissingPromptRejected` | api/app.py:180-183 | a missing or falsy prompt gives 400 `{"error": "Falta el prompt"}`, consults nothing, and no collaborator affects the outcome |
| `Pipeline.NoQueryRejected` | api/app.py:186-189 | no analysis, or one without "sql", gives 500 `{"error": "No se pudo generar la consulta."}`; only the classifier was consulted and later collaborators do not matter |
| `Pipeline.ExecutionErrorRejected` | api/app.py:196-199 | an execution error gives 500 `{"respuesta": "Error SQL", "detalle": {"error": msg}}`; the summariser is never run |
| `Pipeline.StatusCases` | api/app.py:178-214 | status 400, 500 and 200 each hold exactly in their case, and only a 200 body has "data" |
| `Pipeline.TraceInOrder` | api/app.py:185-202 | the classifier is given the question, the executor the analysis' sql, and the summariser runs last, exactly on a 200 |
| `Pipeline.SuccessResponse` | api/app.py:191-214 | the 200 body has exactly its six keys: the prompt under metadata, the sql verbatim, "type" defaulting to "data", "chart_type" defaulting to null, and the rows unchanged as "data" |
| `Pipeline.SummaryInput` | api/app.py:201-213 | on a 200 the summariser sees the question and a prefix of length min(n, 2000) of the rendered rows, and "respuesta_bot" is its text or the fallback |
| `Pipeline.ChartTypeNotValidated` | api/app.py:192-193 | for every question and every usable analysis with type "chart" and no "chart_type" whose sql runs, the answer is 200 with `type: "chart"` and `chart_type: null` |
| `Pipeline.TabularWithChartKindPassed` | api/app.py:192-193 | for every usable analysis without "type" but with a chart kind, the 200 answer has `type: "data"` together with that chart kind |
| `Frontend.NoResultsIff` | frontend.py:56-93 | the "no results" notice is shown exactly when the data is missing or falsy |
| `Frontend.TableIff` | frontend.py:60-91 | the plain table is shown exactly for non-empty data that is not a chart request or whose frame is empty |
| `Frontend.ChartIff` | frontend.py:60-79 | a chart is drawn exactly for a chart request on a non-empty frame with at least two columns and type "bar", "line" or "pie", always on (first column, second column) |
| `Frontend.TooFewColumnsIff` | frontend.py:67-86 | a chart request with a string chart_type, on a non-empty frame of fewer than two columns, gets the warning and the table |
| `Frontend.UnknownChartTypeIff` | frontend.py:71-83 | with at least two columns, any chart type string other than "bar", "line" and "pie" gets the "unrecognised" warning and the table |
| `Frontend.UpperFailsIff` | frontend.py:54-61 | a chart request on a non-empty frame whose chart_type is not a string fails at `upper()` before anything is drawn |
| `Frontend.ResponsePage` | frontend.py:44-101 | a non-200 shows only the error with its status; a 200 always reaches the SQL details (defaulting to "--") unless `upper()` failed; missing data means "no results", missing type with data means the plain table, and a missing answer shows "Sin respuesta textual." |
| `Frontend.AllKeysEmpty` | frontend.py:57-60 | no key is in use exactly when every row is an empty dictionary |
| `Frontend.FrameEmptyIff` | frontend.py:57-60 | a frame built from the rows is empty exactly when every row is an empty dictionary |
| `Frontend.ClientNeverSeesMissingPrompt` | frontend.py:38-101 | the client sends only non-empty text, so it never gets a 400; it shows an error exactly on a 500, and otherwise the classifier's sql |
| `Frontend.EmptyResultShowsNoResults` | frontend.py:52-93 | a query with no rows is shown as "no results" with the sql, whatever the chart fields say |
| `Frontend.MissingChartTypeCrashesClient` | frontend.py:54-61 | a "chart" answer without chart_type, on rows with a key, makes the client fail after writing the answer |

## Left out

- The Groq calls in `analizar_intencion`, `get_sql_from_groq` and `generar_respuesta_natural` (api/app.py:67-86, 97-105, 158-167) are foreign, non-deterministic services. Their results are oracle inputs. The prompt texts, model name and temperatures are not modelled.
- A `json.loads` result that is not an object (a list, say) is not modelled: the classifier oracle always returns a dictionary or None.
- A completion whose message content is null is not modelled: replies are strings or failures, for the summariser as for `get_sql_from_groq`.
- psycopg2 (api/app.py:115-121) is an oracle `Reply` per statement. The model does not require that oracle to raise for an empty or non-string statement, as the driver does. A failure of `conn.cursor()` is not told apart from a failure of `execute`; both give the error result.
- Python's `str()` of the result list (api/app.py:140) is the `render` oracle; only the slicing is modelled.
- Dictionary key order is not modelled: rows and bodies are maps. Flask's JSON key sorting is not modelled either. Column order reaches the client only through the frame oracle.
- Floating point: JSON numbers are mathematical reals.
- Pipeline.StatusCases: database cells are modelled as JSON values, so a 200 is promised whenever execution returns rows. How `jsonify` (api/app.py:205-214) encodes psycopg2's Decimal and date objects is not modelled. Nor is the uncaught TypeError it raises for time, interval or bytea cells, which Flask turns into a bare 500 after the summariser has already run.
- Flask routing, CORS, dotenv, the debug prints, `home()` and `app.run` (api/app.py:9-40, 171-174, 215-216) are transport and configuration. So is the crash when `request.json` is None (api/app.py:179).
- Streamlit, pandas, plotly and requests output (frontend.py:1-50, 57, 61-62, 72-79, 96-105) is left out. The headers, the chart title and the `st.json` dump are not modelled. How pandas builds a frame from data that is not a list of objects is not modelled either. The `requests` connection-error branch is not modelled.
- front_tonto.py is a JSON viewer with no logic beyond a status check.
