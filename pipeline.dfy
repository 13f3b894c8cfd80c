/**
 * `process_request`, the handler of `POST /consulta`: a chain of early
 * returns that classifies the question, runs the SQL it got back, summarises
 * the rows and assembles the response. Each collaborator is an oracle, and
 * the outcome records which of them were consulted, in order.
 */
module Pipeline {
  import opened Wrappers
  import opened Json
  import opened Database
  import opened Summariser

  const MissingPromptMessage: string := "Falta el prompt"
  const NoQueryMessage: string := "No se pudo generar la consulta."
  const SqlErrorMessage: string := "Error SQL"

  /** The collaborators of one request, as functions of what they are given. */
  datatype Services = Services(
    classify: Value -> Option<map<string, Value>>,  // analizar_intencion: None when the call or json.loads raised
    execute: Value -> QueryResult,                  // execute_query
    render: seq<Row> -> string,                     // str() of the result list
    summarise: SummaryPrompt -> Option<string>)     // the summarising completion: None when it raised

  /** A collaborator call, with what it was given. */
  datatype Stage =
    | Classified(question: Value)
    | Executed(sql: Value)
    | Summarised(prompt: SummaryPrompt)

  datatype Response = Response(status: nat, body: map<string, Value>)

  datatype Outcome = Outcome(response: Response, trace: seq<Stage>)

  /** `not pregunta` is false: the key is present and its value is truthy. */
  predicate HasPrompt(prompt: Option<Value>) {
    prompt.Some? && Truthy(prompt.value)
  }

  /** `not analisis or "sql" not in analisis` is false. */
  predicate Usable(analysis: Option<map<string, Value>>) {
    analysis.Some? && "sql" in analysis.value
  }

  /** Rows as the JSON list of objects placed under "data". */
  function RowsValue(rows: seq<Row>): (v: Value)
    ensures v.Arr? && |v.items| == |rows|
    ensures forall i :: 0 <= i < |rows| ==> v.items[i] == Obj(rows[i])
  {
    Arr(seq(|rows|, i requires 0 <= i < |rows| => Obj(rows[i])))
  }

  /** The body of the 200 response. */
  function SuccessBody(question: Value, sql: Value, kind: Value, chart: Value, rows: seq<Row>, answer: string): map<string, Value> {
    map[
      "metadata" := Obj(map["prompt" := question]),
      "sql" := sql,
      "type" := kind,
      "chart_type" := chart,
      "data" := RowsValue(rows),
      "respuesta_bot" := Str(answer)]
  }

  /** `process_request` for a request body whose "prompt" entry is `prompt` (None when absent). */
  function ProcessRequest(prompt: Option<Value>, s: Services): Outcome {
    if !HasPrompt(prompt) then
      Outcome(Response(400, map["error" := Str(MissingPromptMessage)]), [])
    else
      var question := prompt.value;
      var analysis := s.classify(question);
      if !Usable(analysis) then
        Outcome(Response(500, map["error" := Str(NoQueryMessage)]), [Classified(question)])
      else
        var a := analysis.value;
        var sql := a["sql"];
        var kind := GetOr(a, "type", Str("data"));
        var chart := GetOr(a, "chart_type", Null);
        match s.execute(sql)
        case Error(m) =>
          Outcome(Response(500, map["respuesta" := Str(SqlErrorMessage), "detalle" := ErrorObject(m)]),
                  [Classified(question), Executed(sql)])
        case Rows(rows) =>
          var p := PromptFor(question, s.render(rows));
          var answer := AnswerOf(s.summarise(p));
          Outcome(Response(200, SuccessBody(question, sql, kind, chart, rows, answer)),
                  [Classified(question), Executed(sql), Summarised(p)])
  }

  // ---------------------------------------------------------------------------
  // Short-circuiting: each failure answers at once and consults nothing after it

  /**
   * A missing or falsy prompt is answered 400 before the classifier is
   * consulted: the outcome is the same whatever the collaborators would do.
   */
  lemma MissingPromptRejected(prompt: Option<Value>, s: Services, s': Services)
    requires !HasPrompt(prompt)
    ensures ProcessRequest(prompt, s) == ProcessRequest(prompt, s')
    ensures ProcessRequest(prompt, s).response == Response(400, map["error" := Str(MissingPromptMessage)])
    ensures ProcessRequest(prompt, s).trace == []
  {
  }

  /**
   * When the classifier gives nothing or an object without "sql", the answer
   * is 500 and `execute_query` is never called: the database, the rendering
   * and the summariser do not matter.
   */
  lemma NoQueryRejected(question: Value, s: Services, s': Services)
    requires Truthy(question) && !Usable(s.classify(question))
    requires s'.classify(question) == s.classify(question)
    ensures ProcessRequest(Some(question), s) == ProcessRequest(Some(question), s')
    ensures ProcessRequest(Some(question), s).response == Response(500, map["error" := Str(NoQueryMessage)])
    ensures ProcessRequest(Some(question), s).trace == [Classified(question)]
  {
  }

  /**
   * An execution error is answered 500 with the error object under "detalle"
   * and the summariser is never run.
   */
  lemma ExecutionErrorRejected(question: Value, s: Services, s': Services)
    requires Truthy(question) && Usable(s.classify(question))
    requires s.execute(s.classify(question).value["sql"]).Error?
    requires s'.classify(question) == s.classify(question)
    requires s'.execute(s.classify(question).value["sql"]) == s.execute(s.classify(question).value["sql"])
    ensures ProcessRequest(Some(question), s) == ProcessRequest(Some(question), s')
    ensures var sql := s.classify(question).value["sql"];
      ProcessRequest(Some(question), s).response
        == Response(500, map["respuesta" := Str(SqlErrorMessage),
                             "detalle" := Obj(map["error" := Str(s.execute(sql).message)])])
    ensures var sql := s.classify(question).value["sql"];
      ProcessRequest(Some(question), s).trace == [Classified(question), Executed(sql)]
  {
  }

  /**
   * The status is 400, 500 or 200, each exactly in its case, and only a 200
   * carries "data": there is no mixed success and failure body.
   */
  lemma StatusCases(prompt: Option<Value>, s: Services)
    ensures var r := ProcessRequest(prompt, s).response;
      && (r.status == 400 <==> !HasPrompt(prompt))
      && (r.status == 500 <==>
            (HasPrompt(prompt)
             && (!Usable(s.classify(prompt.value))
                 || s.execute(s.classify(prompt.value).value["sql"]).Error?)))
      && (r.status == 200 <==>
            (HasPrompt(prompt) && Usable(s.classify(prompt.value))
             && s.execute(s.classify(prompt.value).value["sql"]).Rows?))
      && ("data" in r.body <==> r.status == 200)
  {
  }

  /**
   * The stages run strictly in order, each only after the one before it
   * succeeded, and the final stage is reached exactly on a 200.
   */
  lemma TraceInOrder(prompt: Option<Value>, s: Services)
    ensures var o := ProcessRequest(prompt, s);
      && |o.trace| <= 3
      && (|o.trace| >= 1 ==> o.trace[0] == Classified(prompt.value))
      && (|o.trace| >= 2 ==> o.trace[1] == Executed(s.classify(prompt.value).value["sql"]))
      && (|o.trace| == 3 ==> o.trace[2].Summarised?)
      && (|o.trace| == 3 <==> o.response.status == 200)
  {
  }

  // ---------------------------------------------------------------------------
  // The 200 response

  /**
   * On success the body echoes the question under metadata.prompt, the SQL
   * verbatim and the rows unchanged; "type" defaults to "data" and
   * "chart_type" to null, and both are otherwise copied unchecked.
   */
  lemma SuccessResponse(question: Value, s: Services)
    requires Truthy(question) && Usable(s.classify(question))
    requires s.execute(s.classify(question).value["sql"]).Rows?
    ensures var a := s.classify(question).value;
      var rows := s.execute(a["sql"]).rows;
      var r := ProcessRequest(Some(question), s).response;
      && r.status == 200
      && r.body.Keys == {"metadata", "sql", "type", "chart_type", "data", "respuesta_bot"}
      && r.body["metadata"] == Obj(map["prompt" := question])
      && r.body["sql"] == a["sql"]
      && r.body["type"] == (if "type" in a then a["type"] else Str("data"))
      && r.body["chart_type"] == (if "chart_type" in a then a["chart_type"] else Null)
      && r.body["data"].Arr? && |r.body["data"].items| == |rows|
      && (forall i :: 0 <= i < |rows| ==> r.body["data"].items[i] == Obj(rows[i]))
  {
  }

  /**
   * The summariser sees the question and a prefix of the rendered rows of
   * length min(n, 2000); when it raises, the answer is the fixed fallback.
   */
  lemma SummaryInput(question: Value, s: Services)
    requires Truthy(question) && Usable(s.classify(question))
    requires s.execute(s.classify(question).value["sql"]).Rows?
    ensures var rows := s.execute(s.classify(question).value["sql"]).rows;
      var full := s.render(rows);
      var o := ProcessRequest(Some(question), s);
      && |o.trace| == 3 && o.trace[2].Summarised?
      && o.trace[2].prompt.question == question
      && |o.trace[2].prompt.data| == (if |full| <= Limit then |full| else Limit)
      && o.trace[2].prompt.data == full[..|o.trace[2].prompt.data|]
      && o.response.body["respuesta_bot"]
           == Str(if s.summarise(o.trace[2].prompt).Some? then s.summarise(o.trace[2].prompt).value else Fallback)
  {
  }

  /**
   * Nothing ties "chart_type" to "type": a chart answer can carry no chart
   * kind, and the 200 response passes that on as null.
   */
  lemma ChartTypeNotValidated(question: Value, s: Services)
    requires Truthy(question) && Usable(s.classify(question))
    requires var a := s.classify(question).value;
      "type" in a && a["type"] == Str("chart") && "chart_type" !in a
    requires s.execute(s.classify(question).value["sql"]).Rows?
    ensures var r := ProcessRequest(Some(question), s).response;
      r.status == 200 && r.body["type"] == Str("chart") && r.body["chart_type"] == Null
  {
  }

  /**
   * The converse: a tabular answer (no "type") can carry a chart kind, and
   * the 200 response reports type "data" together with that chart kind.
   */
  lemma TabularWithChartKindPassed(question: Value, s: Services, kind: string)
    requires Truthy(question) && Usable(s.classify(question))
    requires var a := s.classify(question).value;
      "type" !in a && "chart_type" in a && a["chart_type"] == Str(kind)
    requires s.execute(s.classify(question).value["sql"]).Rows?
    ensures var r := ProcessRequest(Some(question), s).response;
      r.status == 200 && r.body["type"] == Str("data") && r.body["chart_type"] == Str(kind)
  {
  }
}
