/** BackupRecommender.generate_strategy: fixed database metrics, the user's
    RPO, RTO and budget, and retrieved RMAN practice go to the model; its JSON
    strategy is saved. */
module BackupRecommender {
  import opened Wrappers
  import opened Json
  import opened Text
  import opened Fences
  import opened Collaborators

  const StrategyPath := "data/backup_strategy.json"

  /** The retrieval query, fixed whatever the user asked for. */
  const BackupQuery :=
    "strat\U{E9}gie sauvegarde RMAN, RPO RTO Oracle, sauvegarde incr\U{E9}mentale"

  /** The simulated database metrics: 500 GB, high transaction volume,
      critical. */
  const DbMetrics := Obj(map[
    "taille_go" := Num(500.0),
    "volume_transactions" := Str("Haut"),
    "criticite" := Str("Critique")])

  /** The keyword arguments given to the 'backup' template: the dumped
      metrics, the user's three answers unchanged, and the retrieved
      documents one per line. */
  function StrategyArgs(s: Services, rpo: string, rto: string, budget: string): (args: map<string, string>)
    ensures args.Keys == {"metrics", "rpo", "rto", "budget", "context"}
    ensures args["metrics"] == s.dumps(DbMetrics)
    ensures args["rpo"] == rpo && args["rto"] == rto && args["budget"] == budget
    ensures args["context"] == JoinLines(s.retrieve(BackupQuery))
  {
    map[
      "metrics" := s.dumps(DbMetrics),
      "rpo" := rpo,
      "rto" := rto,
      "budget" := budget,
      "context" := JoinLines(s.retrieve(BackupQuery))]
  }

  /** One retrieval with the fixed query and one prompt built from
      `StrategyArgs`; the reply is parsed or kept raw. */
  method GenerateStrategy(s: Services, rpo: string, rto: string, budget: string)
    returns (r: Value, effects: Effects)
    ensures effects.retrievals == [BackupQuery]
    ensures effects.prompts == [Render(s, "backup", StrategyArgs(s, rpo, rto, budget))]
    ensures ParsedOrRaw(s, s.generate(effects.prompts[0]), "raw_output", StrategyPath, r, effects.saved)
    ensures effects.saved.Some? ==> effects.saved.value == SavedFile(StrategyPath, r)
  {
    var args := StrategyArgs(s, rpo, rto, budget);
    var prompt := Render(s, "backup", args);
    var analysisRaw := s.generate(prompt);
    match s.loads(Clean(analysisRaw)) {
      case Some(result) =>
        r := result;
        effects := Effects([BackupQuery], [prompt], Some(SavedFile(StrategyPath, result)));
      case None =>
        r := Single("raw_output", analysisRaw);
        effects := Effects([BackupQuery], [prompt], None);
    }
  }
}
