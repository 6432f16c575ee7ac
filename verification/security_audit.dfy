/** SecurityAuditor.run_audit: the security configuration and retrieved
    documentation go to the model; its JSON report is saved for the
    dashboard. */
module SecurityAudit {
  import opened Wrappers
  import opened Json
  import opened Text
  import opened Fences
  import opened Collaborators

  const AuditPath := "data/last_audit.json"

  /** The retrieval query, fixed whatever the configuration holds. */
  const SecurityQuery :=
    "privil\U{E8}ges DBA critiques, s\U{E9}curit\U{E9} des mots de passe, r\U{F4}les Oracle"

  /** The error text for a missing configuration file; it names the file. */
  function MissingConfig(configFile: string): string {
    "Fichier " + configFile + " introuvable."
  }

  /** The prompt `LLMEngine.assess_security(config, context)` sends, with the
      documents retrieved for the fixed query. */
  function AuditPrompt(s: Services, config: string): string {
    Render(s, "security", map["config" := config, "context" := JoinLines(s.retrieve(SecurityQuery))])
  }

  /** `config` is the configuration table as `df.to_string(index=False)`
      renders it, or None when `configFile` does not exist. */
  method RunAudit(s: Services, configFile: string, config: Option<string>)
    returns (r: Value, effects: Effects)
    ensures config.None? ==> r == Single("error", MissingConfig(configFile)) && effects == NoEffects
    ensures config.Some? ==> effects.retrievals == [SecurityQuery]
    ensures config.Some? ==> effects.prompts == [AuditPrompt(s, config.value)]
    ensures config.Some? ==>
      ParsedOrRaw(s, s.generate(effects.prompts[0]), "raw_report", AuditPath, r, effects.saved)
    ensures effects.saved.Some? ==> effects.saved.value == SavedFile(AuditPath, r)
  {
    if config.None? {
      return Single("error", MissingConfig(configFile)), NoEffects;
    }
    var contextText := JoinLines(s.retrieve(SecurityQuery));
    var prompt := Render(s, "security", map["config" := config.value, "context" := contextText]);
    var reportRaw := s.generate(prompt);
    var cleaned := Clean(reportRaw);
    match s.loads(cleaned) {
      case Some(report) =>
        r := report;
        effects := Effects([SecurityQuery], [prompt], Some(SavedFile(AuditPath, report)));
      case None =>
        r := Single("raw_report", reportRaw);
        effects := Effects([SecurityQuery], [prompt], None);
    }
  }
}
