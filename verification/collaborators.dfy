/** What the analysis modules call but this model does not contain: the
    retrieval index, the language-model client, the prompt templates, the
    JSON library; and what they do to the outside world: retrieval queries,
    prompts sent, and the one JSON file each may write under data/. */
module Collaborators {
  import opened Wrappers
  import opened Json
  import opened Fences

  /** The external services, each an opaque function. */
  datatype Services = Services(
    // OracleRAG.retrieve_context(query): the nearest documentation texts
    retrieve: string -> seq<string>,
    // LLMEngine.generate(prompt): the reply, or an error text (it never raises)
    generate: string -> string,
    // LLMEngine.prompts[name]['prompt'], loaded from data/prompts.yaml
    template: string -> string,
    // template.format(**args)
    format: (string, map<string, string>) -> string,
    // json.loads; None where it raises
    loads: string -> Option<Value>,
    // json.dumps with its default settings
    dumps: Value -> string)

  /** The prompt built from the named template and keyword arguments. */
  function Render(s: Services, name: string, args: map<string, string>): string {
    s.format(s.template(name), args)
  }

  /** A JSON file written with `json.dump`. */
  datatype SavedFile = SavedFile(path: string, content: Value)

  /** What one call did outside the process: the retrieval queries issued and
      the prompts sent, in order, and the file it wrote, if any. */
  datatype Effects = Effects(retrievals: seq<string>, prompts: seq<string>, saved: Option<SavedFile>)

  const NoEffects := Effects([], [], None)

  /** How security_audit, anomaly_detector and backup_recommender finish: the
      raw reply is cleaned and parsed; a parsed value is written to `path` and
      returned as it is; otherwise nothing is written and the UNCLEANED reply
      comes back under `fallbackKey`. */
  predicate ParsedOrRaw(s: Services, raw: string, fallbackKey: string, path: string,
                        r: Value, saved: Option<SavedFile>)
  {
    match s.loads(Clean(raw))
    case Some(v) => r == v && saved == Some(SavedFile(path, v))
    case None => r == Single(fallbackKey, raw) && saved == None
  }
}
