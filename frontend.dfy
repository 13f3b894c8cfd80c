/**
 * The Streamlit client's handling of a `/consulta` response: which of "no
 * results", a table, a chart or a warning with a table it shows. The pandas
 * frame built from the data is an oracle giving its row count and columns.
 */
module Frontend {
  import opened Wrappers
  import opened Json
  import opened Database
  import opened Pipeline

  datatype ChartKind = Bar | Line | Pie

  /** The `chart_type` string that selects each kind. */
  function KindName(k: ChartKind): string {
    match k
    case Bar => "bar"
    case Line => "line"
    case Pie => "pie"
  }

  /** What `pd.DataFrame(raw_data)` produced: its number of rows and `df.columns.tolist()`. */
  datatype Frame = Frame(rowCount: nat, columns: seq<string>)

  /** `df.empty`: no rows or no columns. */
  predicate Empty(f: Frame) {
    f.rowCount == 0 || |f.columns| == 0
  }

  /** The data part of the page. */
  datatype DataView =
    | NoResults                          // the "no results" notice; no table, no chart
    | Table                              // the plain table
    | Chart(kind: ChartKind, x: string, y: string)
    | TooFewColumns                      // a warning, then the table
    | UnknownChartType(name: string)     // a warning naming the chart type, then the table

  /** The data part, or the failure of `chart_type.upper()` before any of it is drawn. */
  datatype Visual = Shown(view: DataView) | UpperFails

  /** The decision tree over the data, its type, the chart type and the frame. */
  function Visualise(data: Value, vizType: Value, chartType: Value, frame: Frame): Visual {
    if !Truthy(data) then Shown(NoResults)
    else if vizType == Str("chart") && !Empty(frame) then
      // `chart_type.upper()` raises for anything but a string
      if !chartType.Str? then UpperFails
      else if |frame.columns| >= 2 then
        var x, y := frame.columns[0], frame.columns[1];
        if chartType.s == "bar" then Shown(Chart(Bar, x, y))
        else if chartType.s == "line" then Shown(Chart(Line, x, y))
        else if chartType.s == "pie" then Shown(Chart(Pie, x, y))
        else Shown(UnknownChartType(chartType.s))
      else Shown(TooFewColumns)
    else Shown(Table)
  }

  /** The whole page shown for a response. */
  datatype Page =
    | ErrorPage(status: nat, body: map<string, Value>)  // "Error <status>: <text>", no data
    | AnswerPage(answer: Value, view: DataView, sql: Value)  // answer, data part, SQL details expander
    | CrashedPage(answer: Value)   // the answer was written, then `chart_type.upper()` raised

  /** The page for a response; `frameOf` is what pandas makes of the "data" value. */
  function ShowResponse(r: Response, frameOf: Value -> Frame): Page {
    if r.status != 200 then ErrorPage(r.status, r.body)
    else
      var answer := GetOr(r.body, "respuesta_bot", Str("Sin respuesta textual."));
      var data := GetOr(r.body, "data", Arr([]));
      var vizType := GetOr(r.body, "type", Str("data"));
      var chartType := GetOr(r.body, "chart_type", Null);
      match Visualise(data, vizType, chartType, frameOf(data))
      case UpperFails => CrashedPage(answer)
      case Shown(view) => AnswerPage(answer, view, GetOr(r.body, "sql", Str("--")))
  }

  // ---------------------------------------------------------------------------
  // The decision tree, case by case

  /** "No results" is shown exactly when the data is missing or falsy. */
  lemma NoResultsIff(data: Value, vizType: Value, chartType: Value, frame: Frame)
    ensures Visualise(data, vizType, chartType, frame) == Shown(NoResults) <==> !Truthy(data)
  {
  }

  /** The plain table is shown exactly for data that is not a chart request or whose frame is empty. */
  lemma TableIff(data: Value, vizType: Value, chartType: Value, frame: Frame)
    ensures Visualise(data, vizType, chartType, frame) == Shown(Table)
      <==> Truthy(data) && (vizType != Str("chart") || Empty(frame))
  {
  }

  /**
   * A chart is drawn exactly for a chart request over a non-empty frame with
   * at least two columns and a chart type naming its kind, and it always
   * plots the second column against the first.
   */
  lemma ChartIff(data: Value, vizType: Value, chartType: Value, frame: Frame, k: ChartKind, x: string, y: string)
    ensures Visualise(data, vizType, chartType, frame) == Shown(Chart(k, x, y))
      <==> && Truthy(data) && vizType == Str("chart") && !Empty(frame)
           && |frame.columns| >= 2 && x == frame.columns[0] && y == frame.columns[1]
           && chartType == Str(KindName(k))
  {
  }

  /** With fewer than two columns a chart request gets the warning and the table. */
  lemma TooFewColumnsIff(data: Value, vizType: Value, chartType: Value, frame: Frame)
    ensures Visualise(data, vizType, chartType, frame) == Shown(TooFewColumns)
      <==> Truthy(data) && vizType == Str("chart") && !Empty(frame) && chartType.Str? && |frame.columns| < 2
  {
  }

  /** Any chart type other than "bar", "line" and "pie" gets the warning and the table. */
  lemma UnknownChartTypeIff(data: Value, vizType: Value, chartType: Value, frame: Frame, name: string)
    ensures Visualise(data, vizType, chartType, frame) == Shown(UnknownChartType(name))
      <==> && Truthy(data) && vizType == Str("chart") && !Empty(frame) && |frame.columns| >= 2
           && chartType == Str(name) && name != "bar" && name != "line" && name != "pie"
  {
  }

  /** A chart request over a non-empty frame whose chart type is not a string fails before drawing. */
  lemma UpperFailsIff(data: Value, vizType: Value, chartType: Value, frame: Frame)
    ensures Visualise(data, vizType, chartType, frame) == UpperFails
      <==> Truthy(data) && vizType == Str("chart") && !Empty(frame) && !chartType.Str?
  {
  }

  /**
   * A 200 response always ends with the SQL details (defaulting to "--")
   * unless the chart title raised; missing "data" means no results, missing
   * "type" means the plain table, and a missing answer is shown as
   * "Sin respuesta textual."; any other status shows only the error.
   */
  lemma ResponsePage(r: Response, frameOf: Value -> Frame)
    ensures r.status != 200 <==> ShowResponse(r, frameOf) == ErrorPage(r.status, r.body)
    ensures r.status == 200 ==> ShowResponse(r, frameOf).AnswerPage? || ShowResponse(r, frameOf).CrashedPage?
    ensures ShowResponse(r, frameOf).AnswerPage? ==>
      ShowResponse(r, frameOf).sql == (if "sql" in r.body then r.body["sql"] else Str("--"))
    ensures r.status == 200 && "data" !in r.body ==>
      ShowResponse(r, frameOf).AnswerPage? && ShowResponse(r, frameOf).view == NoResults
    ensures r.status == 200 && "type" !in r.body && "data" in r.body && Truthy(r.body["data"]) ==>
      ShowResponse(r, frameOf).AnswerPage? && ShowResponse(r, frameOf).view == Table
    ensures r.status == 200 && "respuesta_bot" !in r.body && ShowResponse(r, frameOf).AnswerPage? ==>
      ShowResponse(r, frameOf).answer == Str("Sin respuesta textual.")
  {
  }

  // ---------------------------------------------------------------------------
  // The frame against the rows it was built from

  /** Every key of every row. */
  function AllKeys(rows: seq<Row>): set<string>
    decreases |rows|
  {
    if rows == [] then {} else AllKeys(rows[..|rows| - 1]) + rows[|rows| - 1].Keys
  }

  /** The frame has one row per dictionary and one column per key in use. */
  predicate FrameOf(rows: seq<Row>, f: Frame) {
    f.rowCount == |rows| && (set c | c in f.columns) == AllKeys(rows)
  }

  /** No key is in use exactly when every row is an empty dictionary. */
  lemma {:induction false} AllKeysEmpty(rows: seq<Row>)
    ensures AllKeys(rows) == {} <==> forall i :: 0 <= i < |rows| ==> rows[i] == map[]
    decreases |rows|
  {
    if rows != [] {
      var n := |rows| - 1;
      AllKeysEmpty(rows[..n]);
      assert forall i :: 0 <= i < n ==> rows[..n][i] == rows[i];
      if rows[n] != map[] {
        var k :| k in rows[n];
        assert k in AllKeys(rows);
      }
    }
  }

  /** The frame is empty exactly when every row is an empty dictionary. */
  lemma FrameEmptyIff(rows: seq<Row>, f: Frame)
    requires FrameOf(rows, f)
    ensures Empty(f) <==> forall i :: 0 <= i < |rows| ==> rows[i] == map[]
  {
    AllKeysEmpty(rows);
    if |f.columns| > 0 {
      assert f.columns[0] in (set c | c in f.columns);
      assert f.columns[0] in AllKeys(rows);
      assert !Empty(f) <==> rows != [];
    } else {
      assert (set c | c in f.columns) == {};
    }
  }

  // ---------------------------------------------------------------------------
  // The client in front of the service

  /**
   * The client posts only non-empty text, so it never sees a 400; it shows an
   * error exactly on a 500, and otherwise the SQL the classifier produced.
   */
  lemma ClientNeverSeesMissingPrompt(text: string, s: Services, frameOf: Value -> Frame)
    requires text != ""
    ensures var r := ProcessRequest(Some(Str(text)), s).response;
      && r.status != 400
      && (ShowResponse(r, frameOf).ErrorPage? <==> r.status == 500)
      && (ShowResponse(r, frameOf).AnswerPage? ==>
            ShowResponse(r, frameOf).sql == s.classify(Str(text)).value["sql"])
  {
    StatusCases(Some(Str(text)), s);
    if ProcessRequest(Some(Str(text)), s).response.status == 200 {
      SuccessResponse(Str(text), s);
    }
  }

  /** A query that returns no rows is shown as "no results", whatever the classifier says about charts. */
  lemma EmptyResultShowsNoResults(text: string, s: Services, frameOf: Value -> Frame)
    requires text != "" && Usable(s.classify(Str(text)))
    requires s.execute(s.classify(Str(text)).value["sql"]) == Rows([])
    ensures ShowResponse(ProcessRequest(Some(Str(text)), s).response, frameOf)
      == AnswerPage(ProcessRequest(Some(Str(text)), s).response.body["respuesta_bot"], NoResults,
                    s.classify(Str(text)).value["sql"])
  {
    SuccessResponse(Str(text), s);
  }

  /**
   * The service passes "chart_type" through unchecked, so a classifier
   * answer of type "chart" without a chart type, over rows with at least
   * one key, makes the client fail after writing the answer.
   */
  lemma MissingChartTypeCrashesClient(text: string, s: Services, frameOf: Value -> Frame)
    requires text != "" && Usable(s.classify(Str(text)))
    requires "type" in s.classify(Str(text)).value && s.classify(Str(text)).value["type"] == Str("chart")
    requires "chart_type" !in s.classify(Str(text)).value
    requires s.execute(s.classify(Str(text)).value["sql"]).Rows?
    requires var rows := s.execute(s.classify(Str(text)).value["sql"]).rows;
      exists i :: 0 <= i < |rows| && rows[i] != map[]
    requires var rows := s.execute(s.classify(Str(text)).value["sql"]).rows;
      FrameOf(rows, frameOf(RowsValue(rows)))
    ensures ShowResponse(ProcessRequest(Some(Str(text)), s).response, frameOf).CrashedPage?
  {
    var rows := s.execute(s.classify(Str(text)).value["sql"]).rows;
    SuccessResponse(Str(text), s);
    FrameEmptyIff(rows, frameOf(RowsValue(rows)));
  }
}
