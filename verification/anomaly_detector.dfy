/** AnomalyDetector.analyze_logs: the audit logs and retrieved attack
    patterns go to the model; its JSON list of anomalies is saved for the
    dashboard. */
module AnomalyDetector {
  import opened Wrappers
  import opened Json
  import opened Text
  import opened Fences
  import opened Collaborators

  const AnomaliesPath := "data/detected_anomalies.json"
  const MissingLogs := "Fichier de logs introuvable. Relancez le Module 1."

  /** The retrieval query, fixed whatever the logs hold. */
  const AnomalyQuery :=
    "patterns d'attaque SQL injection, escalade de privil\U{E8}ges, acc\U{E8}s sensibles"

  /** The 'anomaly' template filled with the logs and the documents
      retrieved for the fixed query. */
  function LogsPrompt(s: Services, logs: string): string {
    Render(s, "anomaly", map["logs" := logs, "context" := JoinLines(s.retrieve(AnomalyQuery))])
  }

  /** `logs` is the log table as `df.to_string(index=False)` renders it, or
      None when the logs file does not exist. */
  method AnalyzeLogs(s: Services, logs: Option<string>) returns (r: Value, effects: Effects)
    ensures logs.None? ==> r == Single("error", MissingLogs) && effects == NoEffects
    ensures logs.Some? ==> effects.retrievals == [AnomalyQuery]
    ensures logs.Some? ==> effects.prompts == [LogsPrompt(s, logs.value)]
    ensures logs.Some? ==>
      ParsedOrRaw(s, s.generate(effects.prompts[0]), "raw_output", AnomaliesPath, r, effects.saved)
    ensures effects.saved.Some? ==> effects.saved.value == SavedFile(AnomaliesPath, r)
  {
    if logs.None? {
      return Single("error", MissingLogs), NoEffects;
    }
    var contextText := JoinLines(s.retrieve(AnomalyQuery));
    var prompt := Render(s, "anomaly", map["logs" := logs.value, "context" := contextText]);
    var analysisRaw := s.generate(prompt);
    match s.loads(Clean(analysisRaw)) {
      case Some(results) =>
        r := results;
        effects := Effects([AnomalyQuery], [prompt], Some(SavedFile(AnomaliesPath, results)));
      case None =>
        r := Single("raw_output", analysisRaw);
        effects := Effects([AnomalyQuery], [prompt], None);
    }
  }
}
