/** The summarising rules of the Flask dashboard (webapp/app.py): the colour
    of the security tile, the home page's statistics and the chat prompt.
    The snapshots are the JSON documents `load_json_data` returns, `Null`
    when the file does not exist. */
module Dashboard {
  import opened Wrappers
  import opened Json
  import opened Text

  /** The Python exceptions these rules can raise on unexpected JSON (the
      page then fails). */
  datatype PyError = AttributeError | TypeError

  datatype Outcome<+T> = Returned(value: T) | Raised(error: PyError)

  /** The Bootstrap colour classes "grey", "danger", "warning", "success". */
  datatype Tier = Grey | Danger | Warning | Success

  // ---------------------------------------------------------------------
  // get_security_status
  // ---------------------------------------------------------------------

  /** A value as `score >= 80` sees it: numbers as themselves, booleans as
      0 and 1; comparing anything else with an int raises TypeError. */
  function AsScore(v: Value): Option<real> {
    match v
    case Num(n) => Some(n)
    case Bool(b) => Some(if b then 1.0 else 0.0)
    case _ => None
  }

  /** The tier of a present score: three bands split at 50 and 80. */
  function TierOf(score: real): (t: Tier)
    ensures t == Success <==> score >= 80.0
    ensures t == Warning <==> 50.0 <= score < 80.0
    ensures t == Danger <==> score < 50.0
  {
    if score >= 80.0 then Success else if score >= 50.0 then Warning else Danger
  }

  /** Raising the score never lowers the tier. */
  lemma TierMonotone(a: real, b: real)
    requires a <= b
    ensures TierOf(a) == Success ==> TierOf(b) == Success
    ensures TierOf(a) == Warning ==> TierOf(b) != Danger
  {
  }

  /** get_security_status(data). */
  function SecurityStatus(data: Value): (r: Outcome<Tier>)
    // grey exactly when the audit is absent or empty
    ensures r == Returned(Grey) <==> !Truthy(data)
    // a present score decides the tier; a boolean compares as 0 or 1
    ensures data.Obj? && "score" in data.fields && AsScore(data.fields["score"]).Some? ==>
      r == Returned(TierOf(AsScore(data.fields["score"]).value))
    // a present audit without a score counts as score 0
    ensures Truthy(data) && data.Obj? && "score" !in data.fields ==> r == Returned(Danger)
    // it fails exactly on a non-dict audit or a score that is not a number
    ensures r.Raised? <==>
      Truthy(data) && (!data.Obj? || ("score" in data.fields && AsScore(data.fields["score"]).None?))
  {
    if !Truthy(data) then Returned(Grey)
    else if !data.Obj? then Raised(AttributeError)
    else
      var score := if "score" in data.fields then data.fields["score"] else Num(0.0);
      match AsScore(score)
      case Some(n) => Returned(TierOf(n))
      case None => Raised(TypeError)
  }

  // ---------------------------------------------------------------------
  // The statistics of the home page
  // ---------------------------------------------------------------------

  datatype Stats = Stats(secScore: Value, secColor: Tier, slowQueries: nat, anomaliesCrit: nat)

  /** `sec_data.get('score', 'N/A') if sec_data else 'N/A'`. */
  function SecScore(sec: Value): Outcome<Value> {
    if !Truthy(sec) then Returned(Str("N/A"))
    else if !sec.Obj? then Raised(AttributeError)
    else Returned(if "score" in sec.fields then sec.fields["score"] else Str("N/A"))
  }

  /** `len(perf_data) if perf_data else 0`; a number has no len(). */
  function SlowQueries(perf: Value): Outcome<nat> {
    if !Truthy(perf) then Returned(0)
    else match perf
      case Str(s) => Returned(|s|)
      case Arr(items) => Returned(|items|)
      case Obj(fields) => Returned(|fields|)
      case _ => Raised(TypeError)
  }

  /** `a.get('classification') == 'CRITIQUE'` for a dict `a`. */
  predicate IsCritical(v: Value) {
    v.Obj? && "classification" in v.fields && v.fields["classification"] == Str("CRITIQUE")
  }

  /** `[a for a in entries if a.get('classification') == 'CRITIQUE']`: the
      entries labelled exactly 'CRITIQUE', each as often as it occurs; an
      entry that is not a dict has no .get and raises AttributeError. */
  function CriticalEntries(entries: seq<Value>): (r: Outcome<seq<Value>>)
    ensures r.Returned? <==> forall i :: 0 <= i < |entries| ==> entries[i].Obj?
    ensures r.Returned? ==> |r.value| <= |entries|
    ensures r.Returned? ==>
      forall v :: multiset(r.value)[v] == if IsCritical(v) then multiset(entries)[v] else 0
  {
    if |entries| == 0 then Returned([])
    else if !entries[0].Obj? then Raised(AttributeError)
    else match CriticalEntries(entries[1..])
      case Raised(e) => Raised(e)
      case Returned(rest) =>
        assert entries == [entries[0]] + entries[1..];
        Returned(if IsCritical(entries[0]) then [entries[0]] + rest else rest)
  }

  /** `len([a for a in (anom_data or []) if ...])`. Iterating a non-empty
      string or dict yields strings, which have no .get; a number or True is
      not iterable. */
  function AnomaliesCrit(anom: Value): Outcome<nat> {
    if !Truthy(anom) then Returned(0)
    else match anom
      case Arr(items) =>
        (match CriticalEntries(items)
         case Returned(critical) => Returned(|critical|)
         case Raised(e) => Raised(e))
      case Str(_) => Raised(AttributeError)
      case Obj(_) => Raised(AttributeError)
      case _ => Raised(TypeError)
  }

  /** The snapshots the home page can summarise without raising. */
  predicate Summarisable(sec: Value, perf: Value, anom: Value) {
    (!Truthy(sec) || (sec.Obj? && ("score" !in sec.fields || AsScore(sec.fields["score"]).Some?)))
    && (!Truthy(perf) || perf.Str? || perf.Arr? || perf.Obj?)
    && (!Truthy(anom) || (anom.Arr? && forall i :: 0 <= i < |anom.items| ==> anom.items[i].Obj?))
  }

  /** The `stats` dict of `index()`, its four entries evaluated in order; the
      first exception raised is the outcome. */
  function DashboardStats(sec: Value, perf: Value, anom: Value): (r: Outcome<Stats>)
    ensures r.Returned? <==> Summarisable(sec, perf, anom)
    ensures r.Returned? ==> Returned(r.value.secColor) == SecurityStatus(sec)
    // 'N/A' when there is no audit (colour grey) or it has no score (colour danger)
    ensures r.Returned? && (!Truthy(sec) || "score" !in sec.fields) ==> r.value.secScore == Str("N/A")
    ensures r.Returned? && Truthy(sec) && "score" in sec.fields ==> r.value.secScore == sec.fields["score"]
    ensures r.Returned? && perf.Arr? ==> r.value.slowQueries == |perf.items|
    ensures r.Returned? && !Truthy(perf) ==> r.value.slowQueries == 0
    ensures r.Returned? && !Truthy(anom) ==> r.value.anomaliesCrit == 0
    ensures r.Returned? && anom.Arr? ==>
      r.value.anomaliesCrit <= |anom.items| && CriticalEntries(anom.items).Returned?
      && r.value.anomaliesCrit == |CriticalEntries(anom.items).value|
  {
    match SecScore(sec)
    case Raised(e) => Raised(e)
    case Returned(score) =>
      match SecurityStatus(sec)
      case Raised(e) => Raised(e)
      case Returned(color) =>
        match SlowQueries(perf)
        case Raised(e) => Raised(e)
        case Returned(slow) =>
          match AnomaliesCrit(anom)
          case Raised(e) => Raised(e)
          case Returned(crit) => Returned(Stats(score, color, slow, crit))
  }

  // ---------------------------------------------------------------------
  // The chat prompt
  // ---------------------------------------------------------------------

  const SystemPrompt :=
    "Tu es l'assistant intelligent de la plateforme Oracle DBA. "
    + "Tu as acc\U{E8}s \U{E0} la documentation technique via le RAG. "
    + "R\U{E9}ponds de mani\U{E8}re concise et professionnelle aux questions sur "
    + "l'optimisation, la s\U{E9}curit\U{E9}, les sauvegardes ou les anomalies."

  const ContextHeader := "\n\nCONTEXTE RAG :\n"
  const UserHeader := "\n\nUSER: "

  /** The prompt `chat_api` sends for `message`, given the documents retrieved
      for it: the fixed instructions, then the documents one per line, then
      the user's message verbatim at the very end. */
  function ChatPrompt(docs: seq<string>, message: string): (p: string)
    ensures |p| == |SystemPrompt| + |ContextHeader| + |JoinLines(docs)| + |UserHeader| + |message|
    ensures p[..|SystemPrompt|] == SystemPrompt
    ensures p[|SystemPrompt|..|SystemPrompt| + |ContextHeader|] == ContextHeader
    ensures p[|SystemPrompt| + |ContextHeader|..|p| - |UserHeader| - |message|] == JoinLines(docs)
    ensures p[|p| - |UserHeader| - |message|..|p| - |message|] == UserHeader
    ensures p[|p| - |message|..] == message
  {
    SystemPrompt + ContextHeader + JoinLines(docs) + UserHeader + message
  }

  /** The documents can be read back from the prompt when none of them holds
      a newline: the context section splits into exactly the documents. */
  lemma ChatPromptDocs(docs: seq<string>, message: string)
    requires |docs| > 0 && forall i :: 0 <= i < |docs| ==> '\n' !in docs[i]
    ensures var p := ChatPrompt(docs, message);
      SplitLines(p[|SystemPrompt| + |ContextHeader|..|p| - |UserHeader| - |message|]) == docs
  {
    SplitJoin(docs);
  }
}
