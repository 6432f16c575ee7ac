/** QueryOptimizer.analyze_slow_queries: every row of the performance
    metrics is sent to the model with retrieved tuning advice; the list of
    analyses, one per row, is saved for the dashboard. */
module QueryOptimizer {
  import opened Wrappers
  import opened Json
  import opened Text
  import opened Fences
  import opened Collaborators

  const AnalysisPath := "data/query_analysis.json"
  const MissingMetrics := "Fichier de m\U{E9}triques introuvable. Relancez le Module 1."

  /** One row of performance_metrics.csv; `objectName` is None when the file
      has no OBJECT_NAME column. */
  datatype Row = Row(sqlText: string, planOperation: string, sqlId: string, objectName: Option<string>)

  /** The retrieval query for a row: its plan operation and table. */
  function OptimizationQuery(row: Row): string {
    "Comment optimiser une op\U{E9}ration " + row.planOperation + " sur la table " + row.objectName.GetOr("")
  }

  /** The prompt `LLMEngine.analyze_query(sql, plan, context)` sends. */
  function QueryPrompt(s: Services, sql: string, plan: string, context: string): string {
    Render(s, "optimization", map["query" := sql, "plan" := plan, "context" := context])
  }

  /** The prompt sent for a row, with the documents retrieved for it. */
  function RowPrompt(s: Services, row: Row): string {
    QueryPrompt(s, row.sqlText, row.planOperation, JoinLines(s.retrieve(OptimizationQuery(row))))
  }

  /** `v` is a dict whose "sql_id" is `sqlId`. */
  predicate TaggedWith(v: Value, sqlId: string) {
    v.Obj? && "sql_id" in v.fields && v.fields["sql_id"] == Str(sqlId)
  }

  /** The body of the loop's try/except for one row: when the cleaned reply
      parsed to a dict, that dict with "sql_id" set to the row's SQL_ID
      (replacing any "sql_id" the reply had, keeping every other key);
      otherwise (no JSON, or JSON that is not a dict, on which the key
      assignment raises TypeError) exactly {"sql_id", "raw_response"} with
      the uncleaned reply. */
  function Tagged(parsed: Option<Value>, sqlId: string, raw: string): (v: Value)
    ensures TaggedWith(v, sqlId)
    ensures parsed.Some? && parsed.value.Obj? ==>
      v.fields.Keys == parsed.value.fields.Keys + {"sql_id"}
      && forall k :: k in parsed.value.fields && k != "sql_id" ==> v.fields[k] == parsed.value.fields[k]
    ensures !(parsed.Some? && parsed.value.Obj?) ==>
      v.fields.Keys == {"sql_id", "raw_response"} && v.fields["raw_response"] == Str(raw)
  {
    match parsed
    case Some(Obj(analysis)) => Obj(analysis["sql_id" := Str(sqlId)])
    case _ => Obj(map["sql_id" := Str(sqlId), "raw_response" := Str(raw)])
  }

  /** The entry the loop appends for a row. */
  function Entry(s: Services, row: Row): Value {
    var raw := s.generate(RowPrompt(s, row));
    Tagged(s.loads(Clean(raw)), row.sqlId, raw)
  }

  // The loop's three outputs over a prefix of the rows, built as the loop
  // builds them: one element per row, appended in row order.

  function Entries(s: Services, rows: seq<Row>): (r: seq<Value>)
    ensures |r| == |rows|
  {
    if |rows| == 0 then [] else Entries(s, rows[..|rows| - 1]) + [Entry(s, rows[|rows| - 1])]
  }

  function Queries(rows: seq<Row>): (r: seq<string>)
    ensures |r| == |rows|
  {
    if |rows| == 0 then [] else Queries(rows[..|rows| - 1]) + [OptimizationQuery(rows[|rows| - 1])]
  }

  function Prompts(s: Services, rows: seq<Row>): (r: seq<string>)
    ensures |r| == |rows|
  {
    if |rows| == 0 then [] else Prompts(s, rows[..|rows| - 1]) + [RowPrompt(s, rows[|rows| - 1])]
  }

  /** One more row extends each output by that row's element. */
  lemma OutputsStep(s: Services, rows: seq<Row>, n: int)
    requires 0 <= n < |rows|
    ensures Entries(s, rows[..n + 1]) == Entries(s, rows[..n]) + [Entry(s, rows[n])]
    ensures Queries(rows[..n + 1]) == Queries(rows[..n]) + [OptimizationQuery(rows[n])]
    ensures Prompts(s, rows[..n + 1]) == Prompts(s, rows[..n]) + [RowPrompt(s, rows[n])]
  {
    assert rows[..n + 1][..n] == rows[..n];
  }

  /** Entry `i` of the analyses belongs to row `i`. */
  lemma {:induction false} EntriesAt(s: Services, rows: seq<Row>, i: int)
    requires 0 <= i < |rows|
    ensures Entries(s, rows)[i] == Entry(s, rows[i])
    decreases |rows|
  {
    var init := rows[..|rows| - 1];
    if i < |rows| - 1 {
      EntriesAt(s, init, i);
      assert init[i] == rows[i];
    }
  }

  /** Retrieval query `i` is row `i`'s. */
  lemma {:induction false} QueriesAt(rows: seq<Row>, i: int)
    requires 0 <= i < |rows|
    ensures Queries(rows)[i] == OptimizationQuery(rows[i])
    decreases |rows|
  {
    var init := rows[..|rows| - 1];
    if i < |rows| - 1 {
      QueriesAt(init, i);
      assert init[i] == rows[i];
    }
  }

  /** Prompt `i` is the one built for row `i`. */
  lemma {:induction false} PromptsAt(s: Services, rows: seq<Row>, i: int)
    requires 0 <= i < |rows|
    ensures Prompts(s, rows)[i] == RowPrompt(s, rows[i])
    decreases |rows|
  {
    var init := rows[..|rows| - 1];
    if i < |rows| - 1 {
      PromptsAt(s, init, i);
      assert init[i] == rows[i];
    }
  }

  /** `metrics` holds the rows of the metrics file, or None when it does not
      exist. Every row is analysed, in order, and the list is written once,
      after the loop. */
  method AnalyzeSlowQueries(s: Services, metrics: Option<seq<Row>>)
    returns (r: Value, effects: Effects)
    ensures metrics.None? ==> r == Single("error", MissingMetrics) && effects == NoEffects
    ensures metrics.Some? ==> r.Arr? && |r.items| == |metrics.value|
    ensures metrics.Some? ==>
      forall i :: 0 <= i < |metrics.value| ==> r.items[i] == Entry(s, metrics.value[i])
    ensures metrics.Some? ==> forall i :: 0 <= i < |metrics.value| ==>
      TaggedWith(r.items[i], metrics.value[i].sqlId)
    ensures metrics.Some? ==>
      |effects.retrievals| == |effects.prompts| == |metrics.value|
      && (forall i :: 0 <= i < |metrics.value| ==>
            effects.retrievals[i] == OptimizationQuery(metrics.value[i])
            && effects.prompts[i] == RowPrompt(s, metrics.value[i]))
    ensures metrics.Some? ==> effects.saved == Some(SavedFile(AnalysisPath, r))
  {
    if metrics.None? {
      return Single("error", MissingMetrics), NoEffects;
    }
    var rows := metrics.value;
    var results: seq<Value> := [];
    var queries: seq<string> := [];
    var prompts: seq<string> := [];
    for n := 0 to |rows|
      invariant results == Entries(s, rows[..n])
      invariant queries == Queries(rows[..n])
      invariant prompts == Prompts(s, rows[..n])
    {
      var row := rows[n];
      var query := OptimizationQuery(row);
      var contextText := JoinLines(s.retrieve(query));
      var prompt := QueryPrompt(s, row.sqlText, row.planOperation, contextText);
      var analysisRaw := s.generate(prompt);
      var entry := Tagged(s.loads(Clean(analysisRaw)), row.sqlId, analysisRaw);
      assert prompt == RowPrompt(s, row) && entry == Entry(s, row);
      OutputsStep(s, rows, n);
      results := results + [entry];
      queries := queries + [query];
      prompts := prompts + [prompt];
    }
    assert rows[..|rows|] == rows;
    r := Arr(results);
    effects := Effects(queries, prompts, Some(SavedFile(AnalysisPath, r)));
    forall i | 0 <= i < |rows|
      ensures r.items[i] == Entry(s, rows[i])
      ensures effects.retrievals[i] == OptimizationQuery(rows[i])
      ensures effects.prompts[i] == RowPrompt(s, rows[i])
    {
      EntriesAt(s, rows, i);
      QueriesAt(rows, i);
      PromptsAt(s, rows, i);
    }
  }
}
