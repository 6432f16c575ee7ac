# Oracle DBA assistant: verified model of its decision rules

The Oracle DBA assistant simulates audit, performance and log data for an
Oracle database. It sends that data, with documentation snippets found by a
vector search, to a hosted language model and parses the model's JSON reply.
A Flask dashboard then shows the results, and a chat box forwards questions
to the model. Most of the code is plumbing. This Dafny project models the
parts that carry logic:

- **Reply cleaning** (`fences.dfy`, `text.dfy`). All four analysis modules
  clean a reply with `raw.replace("```json", "").replace("```", "").strip()`
  before `json.loads`. The model defines that chain once as `Fences.Clean`.
  `Text.RemoveAll` follows CPython's `str.replace` with an empty replacement:
  a left-to-right scan that removes non-overlapping occurrences.
  `Text.Strip` follows `str.strip()`, using CPython's full `isspace`
  character set. The main lemma proves that no "```" survives the cleaning,
  including fences formed only once the "```json" removal has brought
  backticks together.
- **The analysis modules**, as methods:
  - `SecurityAudit.RunAudit`, `AnomalyDetector.AnalyzeLogs` and
    `BackupRecommender.GenerateStrategy` are straight-line code.
  - `QueryOptimizer.AnalyzeSlowQueries` is a loop over the metrics rows,
    proved against the per-row specification `QueryOptimizer.Entry`.

  The external services are opaque functions collected in
  `Collaborators.Services`: retrieval, generation, prompt templates with
  `str.format`, `json.loads` and `json.dumps`. An `Effects`
  out-parameter records what each call did outside the process: the
  retrieval queries, the prompts sent, and the JSON file written, if any.
- **Dashboard rules** (`dashboard.dfy`, from `webapp/app.py`). These cover
  the colour tier of the security score, the home-page statistics, and the
  assembly of the chat prompt. The Python exceptions these rules raise on
  unexpected JSON are modelled as `Outcome.Raised`. A non-dict `.get` raises
  AttributeError. Comparing a non-number with 80, or calling `len` on a
  number, raises TypeError.

JSON values are `Json.Value`. Python `None` and JSON `null` are both `Null`,
and a missing snapshot file is also `Null`, as `load_json_data` returns
`None` for it. Python truthiness is `Json.Truthy`.

The chat endpoint `chat_api` keeps no session or history: each prompt is
built from the current message and its retrieved documents alone, and the
answer is `{'response': ...}`. The home page (`index`) counts the anomalies
labelled 'CRITIQUE'.

## Model

| member | source | states |
|---|---|---|
| `Text.RemoveAll` | src/security_audit.py:32 | `s.replace(p, "")`, scanning left to right and non-overlapping; the result is never longer than `s` |
| `Text.RemoveAllAbsent` | src/security_audit.py:32 | removing a pattern that does not occur returns the string unchanged |
| `Text.RemoveAllCopiesPrefix` | src/security_audit.py:32 | a leading part that contains no first character of the pattern is copied through unchanged |
| `Text.Strip` | src/security_audit.py:32 | `s.strip()`: the result has no whitespace at either end, and it is a slice of `s` whose removed parts are all whitespace |
| `Text.StripTrimmed` | src/security_audit.py:32 | stripping a string that already has no whitespace at either end returns it |
| `Text.JoinSplit` | src/webapp/app.py:94 | `"\n".join(text.split("\n")) == text` for every text |
| `Text.SplitJoin` | src/webapp/app.py:94 | splitting the join of a non-empty list of newline-free documents gives the documents back |
| `Fences.NoFenceAfterRemoval` | src/security_audit.py:32 | no "```" occurs in `s.replace("```", "")` for any `s`, including text in which the earlier "```json" removal brought backticks together; a kept backtick never ends up next to two others |
| `Fences.Clean` | src/security_audit.py:32 | the cleaned reply contains neither "```" nor "```json", has no whitespace at either end, and is never longer than the raw reply |
| `Fences.CleanIdempotent` | src/query_optimizer.py:41 | cleaning an already cleaned reply changes nothing |
| `Fences.CleanFenced` | src/anomaly_detector.py:34 | "```json" + body + "```", with no backtick in body, cleans to the stripped body |
| `Fences.CleanUnfenced` | src/backup_recommender.py:43 | a reply without backticks is only stripped |
| `SecurityAudit.RunAudit` | src/security_audit.py:12-42 | a missing config file gives `{"error": "Fichier <file> introuvable."}` with no retrieval, no prompt and no write; otherwise one fixed retrieval query and one 'security' prompt with the config table; a reply that parses after cleaning is written to data/last_audit.json and returned as it is; otherwise nothing is written and `{"raw_report": <uncleaned reply>}` is returned |
| `AnomalyDetector.AnalyzeLogs` | src/anomaly_detector.py:12-44 | a missing logs file gives the fixed error before any retrieval or prompt; the retrieval query is fixed whatever the logs hold; a parsed reply is written to data/detected_anomalies.json and returned as it is; otherwise nothing is written and `{"raw_output": <uncleaned reply>}` is returned |
| `BackupRecommender.StrategyArgs` | src/backup_recommender.py:17-38 | the 'backup' template gets exactly the keys metrics, rpo, rto, budget and context; rpo, rto and budget are passed unchanged, metrics is the dump of the fixed {taille_go: 500, volume_transactions: "Haut", criticite: "Critique"}, and context is the retrieved documents one per line |
| `BackupRecommender.GenerateStrategy` | src/backup_recommender.py:12-53 | the retrieval query is fixed; the one prompt sent is the 'backup' template filled with `StrategyArgs`; a parsed reply is written to data/backup_strategy.json and returned; otherwise nothing is written and `{"raw_output": <uncleaned reply>}` is returned |
| `QueryOptimizer.Tagged` | src/query_optimizer.py:39-47 | a reply that parses to a dict keeps all its other keys, and its "sql_id" is set to the row's SQL_ID; any other reply (unparsable, or JSON that is not a dict, on which the key assignment raises) becomes exactly {sql_id, raw_response: uncleaned reply} |
| `QueryOptimizer.EntriesAt` | src/query_optimizer.py:26-47 | analysis i in the list belongs to row i |
| `QueryOptimizer.QueriesAt` | src/query_optimizer.py:26-33 | retrieval query i is built from row i's plan operation and table |
| `QueryOptimizer.PromptsAt` | src/query_optimizer.py:26-37 | prompt i is the 'optimization' prompt for row i's SQL, plan and retrieved documents |
| `QueryOptimizer.AnalyzeSlowQueries` | src/query_optimizer.py:13-53 | a missing metrics file gives the fixed error and writes nothing; otherwise every row is analysed in order, with no filtering: entry i is `Entry(row i)` and carries row i's SQL_ID; retrievals and prompts follow the rows; the list written to data/query_analysis.json once, after the loop, is the list returned |
| `Dashboard.TierOf` | src/webapp/app.py:31-34 | success exactly for score >= 80, warning exactly for 50 <= score < 80, danger exactly for score < 50 |
| `Dashboard.TierMonotone` | src/webapp/app.py:31-34 | raising the score never moves the tier back from success, or from warning to danger |
| `Dashboard.SecurityStatus` | src/webapp/app.py:28-34 | grey exactly when the audit is absent or empty; a numeric score decides the tier, and a boolean score counts as 1 or 0 (so True or False is danger); a present audit without a score is danger (the score defaults to 0); it raises exactly for a non-dict audit or a non-numeric score |
| `Dashboard.CriticalEntries` | src/webapp/app.py:50 | defined exactly when every entry is a dict; it keeps exactly the entries whose classification is the string 'CRITIQUE', each with its multiplicity, and never more entries than were given |
| `Dashboard.DashboardStats` | src/webapp/app.py:46-51 | defined exactly when the snapshots are summarisable; sec_color is get_security_status; sec_score is 'N/A' when there is no audit (the colour is then grey) or the audit has no score key (the colour is then danger); slow_queries is the list length, or 0 when there is no snapshot; anomalies_crit is the number of critical entries, 0 with no snapshot, at most the number of entries |
| `Dashboard.ChatPrompt` | src/webapp/app.py:94-105 | the prompt is the fixed system prompt, then "\n\nCONTEXTE RAG :\n", then the documents joined by "\n", then "\n\nUSER: ", and ends with the raw user message |
| `Dashboard.ChatPromptDocs` | src/webapp/app.py:94-105 | for non-empty, newline-free documents, the context section of the prompt splits back into exactly the documents |

## Left out

- Dashboard.CriticalEntries: says which entries are kept and how often, not that they keep their order; only their number is used.
- Fetching files and the network: `load_json_data`, the Flask routes, `render_template`, `jsonify` (webapp/app.py:20-26, 38-82, 108). The snapshots and the chat's retrieved documents are inputs. The backup page reads backup_plan.json (webapp/app.py:69), which no modelled module writes; the recommender writes backup_strategy.json.
- The chat reply itself. webapp/app.py:106 calls `llm_engine.model.generate_content`, but `LLMEngine` defines no `model` attribute. Only the prompt is modelled.
- A chat request without a message field. `request.json.get('message')` then gives `None`, so the prompt would end with "None". The model takes the message as a string.
- Unpacking of retrieval results. webapp/app.py:93 and query_optimizer.py:32 unpack `retrieve_context` as a pair `(docs, metas)`, but it returns one list (rag_setup.py:58). The model passes the document list on as the other modules use it.
- CSV reading through pandas (`read_csv`, `to_string`, `iterrows`). The tables are inputs: a string for the config and logs tables, and typed `Row`s for the metrics. A missing column (KeyError outside the `try`) and non-string SQL_ID values are not modelled.
- The language-model client and the vector store: llm_engine.py, llm_engine_backup.py and rag_setup.py are not part of this model. They are the opaque functions in `Collaborators.Services`. A missing prompt template (KeyError) is not modelled, and neither is the text `LLMEngine.generate` returns on failure: it is just another reply.
- JSON syntax: `json.loads` and `json.dumps` are opaque. Dict key order is not kept, since `Obj` is a map. Numbers are reals, so NaN and Infinity are not modelled.
- File writes always succeed in the model. An `open` or `json.dump` that raised inside the `try` would fall through to the fallback result after a partial write.
- `print` calls, data_extractor.py (fixture rows written to CSV), and the modules' `__main__` blocks.
