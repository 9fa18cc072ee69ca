/** The query dispatcher: it picks sources for a query by keyword priority, runs the
    requested sources one after another, and keeps a bounded search history. The web,
    news, weather, time and date sources are external; the knowledge base and the
    calculator's expression extraction are modelled, and the calculator's `eval` is
    external. `time.time()` is the parameter `now`. */
module Retrieval {
  import opened Values
  import opened Text
  import opened Seqs

  /** `max_history`. */
  const MaxHistory: nat := 100

  /** The keys of `self.sources`, in declaration order. */
  const SourceNames: seq<string> := ["web", "knowledge_base", "news", "weather", "time", "date", "calculator"]

  const TimeWords: seq<string> := ["time", "hour", "clock"]
  const WeatherWords: seq<string> := ["weather", "temperature", "forecast", "rain", "snow", "sunny"]
  const DateWords: seq<string> := ["date", "day", "today", "tomorrow", "month", "year"]
  const CalculationWords: seq<string> := ["calculate", "compute", "math", "plus", "minus", "times", "divided"]
  const CalculationSymbols: seq<string> := ["+", "-", "*", "/", "="]
  const NewsWords: seq<string> := ["news", "latest", "headlines", "article"]
  const DefaultSources: seq<string> := ["web", "knowledge_base"]

  /** The sources a query is routed to, checked in this order. */
  datatype Route = TimeRoute | WeatherRoute | DateRoute | CalculatorRoute | NewsRoute | DefaultRoute

  /** The first route whose keywords occur in the lower-cased query. */
  function Classify(query: string): (r: Route)
    ensures var q := Lower(query);
      && (r == TimeRoute <==> ContainsAny(q, TimeWords))
      && (r == WeatherRoute <==> !ContainsAny(q, TimeWords) && ContainsAny(q, WeatherWords))
      && (r == DateRoute <==> !ContainsAny(q, TimeWords) && !ContainsAny(q, WeatherWords) && ContainsAny(q, DateWords))
      && (r == CalculatorRoute <==>
            !ContainsAny(q, TimeWords) && !ContainsAny(q, WeatherWords) && !ContainsAny(q, DateWords) &&
            (ContainsAny(q, CalculationWords) || ContainsAny(q, CalculationSymbols)))
      && (r == NewsRoute <==>
            !ContainsAny(q, TimeWords) && !ContainsAny(q, WeatherWords) && !ContainsAny(q, DateWords) &&
            !ContainsAny(q, CalculationWords) && !ContainsAny(q, CalculationSymbols) && ContainsAny(q, NewsWords))
  {
    var q := Lower(query);
    if ContainsAny(q, TimeWords) then TimeRoute
    else if ContainsAny(q, WeatherWords) then WeatherRoute
    else if ContainsAny(q, DateWords) then DateRoute
    else if ContainsAny(q, CalculationWords) || ContainsAny(q, CalculationSymbols) then CalculatorRoute
    else if ContainsAny(q, NewsWords) then NewsRoute
    else DefaultRoute
  }

  function RouteSources(r: Route): seq<string>
  {
    match r
    case TimeRoute => ["time"]
    case WeatherRoute => ["weather"]
    case DateRoute => ["date"]
    case CalculatorRoute => ["calculator"]
    case NewsRoute => ["news"]
    case DefaultRoute => DefaultSources
  }

  /** `_determine_sources`: always a non-empty list of known source names, and a query
      with none of the keywords goes to the web and the knowledge base. */
  function DetermineSources(query: string): (r: seq<string>)
    ensures |r| > 0
    ensures forall s :: s in r ==> s in SourceNames
    ensures r == RouteSources(Classify(query))
    ensures Classify(query) == DefaultRoute <==> r == DefaultSources
  {
    RouteSources(Classify(query))
  }

  /** A lower-case query holding a time word is routed to the time source. */
  lemma TimeRouted(q: string)
    requires Lower(q) == q && Contains(q, "time")
    ensures DetermineSources(q) == ["time"]
  {
  }

  /** A lower-case query holding a weather word and none of the time words is routed to
      the weather source. */
  lemma WeatherRouted(q: string)
    requires Lower(q) == q && Contains(q, "weather")
    requires !Contains(q, "time") && !Contains(q, "hour") && !Contains(q, "clock")
    ensures DetermineSources(q) == ["weather"]
  {
    ContainsAnyIff(q, TimeWords);
    assert Contains(q, WeatherWords[0]);
  }

  /** The test suite's time query goes to the time source. */
  lemma TimeQueryRoute()
    ensures DetermineSources("what time is it") == ["time"]
  {
    LowerWithoutUpper("what time is it");
    TimeQueryWords();
    TimeRouted("what time is it");
  }

  lemma TimeQueryWords()
    ensures Contains("what time is it", "time")
  {
    var q := "what time is it";
    assert StartsWith(q[5..], "time");
    ContainsAt(q, "time", 5);
  }

  /** The test suite's weather query goes to the weather source. */
  lemma WeatherQueryRoute()
    ensures DetermineSources("what's the weather like today") == ["weather"]
  {
    LowerWithoutUpper("what's the weather like today");
    WeatherQueryWords("what's the weather like today");
    WeatherQueryLetters("what's the weather like today");
    NoTimeWords("what's the weather like today");
    WeatherRouted("what's the weather like today");
  }

  lemma WeatherQueryWords(q: string)
    requires q == "what's the weather like today"
    ensures Contains(q, "weather")
  {
    assert StartsWith(q[11..], "weather");
    ContainsAt(q, "weather", 11);
  }

  lemma WeatherQueryLetters(q: string)
    requires q == "what's the weather like today"
    ensures forall i :: 0 <= i < |q| ==> q[i] != 'm' && q[i] != 'u' && q[i] != 'c'
  {
  }

  /** A query without the letters `m`, `u` and `c` holds none of the time words. */
  lemma NoTimeWords(q: string)
    requires forall i :: 0 <= i < |q| ==> q[i] != 'm' && q[i] != 'u' && q[i] != 'c'
    ensures !Contains(q, "time") && !Contains(q, "hour") && !Contains(q, "clock")
  {
    AbsentChar(q, "time", 'm');
    AbsentChar(q, "hour", 'u');
    AbsentChar(q, "clock", 'c');
  }

  // ---------------------------------------------------------------------------------
  // The knowledge base

  datatype KnowledgeEntry = KnowledgeEntry(key: string, title: string, content: string)

  /** The knowledge base's entries, in dictionary order. */
  const Knowledge: seq<KnowledgeEntry> :=
    [
      KnowledgeEntry("what is ai", "Artificial Intelligence",
        "Artificial Intelligence (AI) refers to the simulation of human intelligence in machines that are programmed to think like humans and mimic their actions. The term may also be applied to any machine that exhibits traits associated with a human mind such as learning and problem-solving."),
      KnowledgeEntry("who created jarvis", "Jarvis Creation",
        "Jarvis was created as an AI assistant project. The name Jarvis was inspired by the fictional AI assistant in the Iron Man movies."),
      KnowledgeEntry("how does voice recognition work", "Voice Recognition Technology",
        "Voice recognition works by analyzing the sounds a person makes when speaking and converting them into digital data that can be processed by a computer. This involves complex algorithms that identify phonemes, words, and sentences.")
    ]

  /** The query matches an entry when either is a substring of the other. */
  predicate Matches(q: string, e: KnowledgeEntry)
  {
    Contains(e.key, q) || Contains(q, e.key)
  }

  /** The index of the first matching entry. */
  function FirstMatch(entries: seq<KnowledgeEntry>, q: string): (r: Option<nat>)
    ensures r.None? <==> forall i :: 0 <= i < |entries| ==> !Matches(q, entries[i])
    ensures r.Some? ==> r.value < |entries| && Matches(q, entries[r.value]) &&
                        forall j :: 0 <= j < r.value ==> !Matches(q, entries[j])
  {
    FirstWhere(entries, e => Matches(q, e))
  }

  /** The reply for a matching entry. */
  function FoundReply(e: KnowledgeEntry): Value
  {
    VObj(map["found" := VBool(true), "title" := VStr(e.title), "content" := VStr(e.content), "confidence" := VReal(0.9)])
  }

  const NotFoundReply: Value := VObj(map["found" := VBool(false), "message" := VStr("No information found in knowledge base")])

  /** The loop over the entries: the reply for the first entry that matches the
      lower-cased query `q`, or a not-found reply after the last. */
  function LookUp(entries: seq<KnowledgeEntry>, q: string): Value
    decreases |entries|
  {
    if entries == [] then NotFoundReply
    else if Matches(q, entries[0]) then FoundReply(entries[0])
    else LookUp(entries[1..], q)
  }

  /** The loop answers with the first matching entry, and with the not-found reply
      exactly when no entry matches. */
  lemma {:induction false} LookUpFindsFirstMatch(entries: seq<KnowledgeEntry>, q: string)
    ensures var m := FirstMatch(entries, q);
      && (m.Some? ==> LookUp(entries, q) == FoundReply(entries[m.value]))
      && (m.None? ==> LookUp(entries, q) == NotFoundReply)
    decreases |entries|
  {
    if entries != [] && !Matches(q, entries[0]) {
      LookUpFindsFirstMatch(entries[1..], q);
      assert forall k :: 0 <= k < |entries| - 1 ==> entries[1..][k] == entries[k + 1];
    }
  }

  /** `_search_knowledge_base`: the knowledge base's entries, looked up in dictionary order
      with the lower-cased query. */
  function KnowledgeBase(query: string): Value
  {
    LookUp(Knowledge, Lower(query))
  }

  /** The empty query is a substring of every key, so it finds the first entry. */
  lemma EmptyQueryFindsFirstEntry(entries: seq<KnowledgeEntry>)
    requires |entries| > 0
    ensures FirstMatch(entries, Lower("")) == Some(0)
  {
    assert StartsWith(entries[0].key, "");
  }

  // ---------------------------------------------------------------------------------
  // The calculator's expression extraction

  predicate IsDigit(c: char) { '0' <= c <= '9' }

  predicate IsOperatorChar(c: char)
  {
    c == '+' || c == '-' || c == '*' || c == '/' || c == '(' || c == ')' || c == '.'
  }

  /** The character class `[\d\+\-\*\/\(\)\.\s]`. */
  predicate InMathClass(c: char) { IsDigit(c) || IsOperatorChar(c) || IsSpace(c) }

  /** A character of the class that survives the whitespace removal. */
  predicate IsExpressionChar(c: char) { IsDigit(c) || IsOperatorChar(c) }

  /** Whether the pattern finds anything in `t`. */
  predicate HasMathChar(t: string)
  {
    exists i :: 0 <= i < |t| && InMathClass(t[i])
  }

  /** The query after the word operators are replaced, in the source's order. */
  function WordOperatorsReplaced(s: string): string
  {
    var s1 := ReplaceAll(s, "plus", "+");
    var s2 := ReplaceAll(s1, "minus", "-");
    var s3 := ReplaceAll(s2, "times", "*");
    var s4 := ReplaceAll(s3, "multiplied by", "*");
    ReplaceAll(s4, "divided by", "/")
  }

  /** `_extract_math_expression`: joining every run the pattern finds and removing the
      whitespace leaves the query's digits and operator characters, in order, which is
      what `Select` keeps (`SelectAppend`, `SelectSingle`). None when the pattern finds
      nothing; the empty string when it finds only whitespace. */
  function ExtractMathExpression(query: string): (r: Option<string>)
    ensures var t := WordOperatorsReplaced(Lower(query));
      && (r.None? <==> forall i :: 0 <= i < |t| ==> !InMathClass(t[i]))
      && (r.Some? ==> r.value == Select(t, IsExpressionChar))
      && (r.Some? ==> |r.value| <= |t| && forall c :: c in r.value ==> IsExpressionChar(c))
      && (r.Some? ==> forall c :: c in t && IsExpressionChar(c) ==> c in r.value)
  {
    var t := WordOperatorsReplaced(Lower(query));
    if !HasMathChar(t) then None
    else
      var e := Select(t, IsExpressionChar);
      assert forall c :: c in t && IsExpressionChar(c) ==> c in e by {
        forall c | c in t && IsExpressionChar(c) ensures c in e {
          SelectComplete(t, IsExpressionChar, c);
        }
      }
      Some(e)
  }

  /** Expression characters are digits and operator signs, never letters. */
  lemma NoLetters(e: string)
    requires forall i :: 0 <= i < |e| ==> IsExpressionChar(e[i])
    ensures forall i :: 0 <= i < |e| ==> !IsUpper(e[i])
    ensures 'p' !in e && 'm' !in e && 't' !in e && 'd' !in e
  {
  }

  /** A string of expression characters has no upper-case letter and no operator word,
      so lower-casing and the replacements leave it as it is. */
  lemma ExpressionUnchanged(e: string)
    requires forall i :: 0 <= i < |e| ==> IsExpressionChar(e[i])
    ensures WordOperatorsReplaced(Lower(e)) == e
  {
    NoLetters(e);
    LowerWithoutUpper(e);
    ReplaceAbsent(e, "plus", "+");
    ReplaceAbsent(e, "minus", "-");
    ReplaceAbsent(e, "times", "*");
    ReplaceAbsent(e, "multiplied by", "*");
    ReplaceAbsent(e, "divided by", "/");
  }

  /** Extraction is idempotent: a non-empty extracted expression extracts to itself. */
  lemma ExtractionIdempotent(query: string)
    requires ExtractMathExpression(query).Some? && ExtractMathExpression(query).value != ""
    ensures ExtractMathExpression(ExtractMathExpression(query).value) == ExtractMathExpression(query)
  {
    var e := ExtractMathExpression(query).value;
    assert forall i :: 0 <= i < |e| ==> IsExpressionChar(e[i]);
    ExpressionUnchanged(e);
    assert InMathClass(e[0]);
    SelectAll(e, IsExpressionChar);
  }

  /** The calculator's `eval` and result formatting, which are external. */
  datatype Evaluation = Evaluated(result: Value, formatted: string) | EvalError(message: string)

  /** `_calculate`: an empty or missing expression is refused before evaluation; an
      evaluation error is reported with the expression. */
  function Calculate(eval: string -> Evaluation, query: string): (r: Value)
    ensures var e := ExtractMathExpression(query);
      (e.None? || e.value == "") ==>
        r == VObj(map["success" := VBool(false), "message" := VStr("No valid mathematical expression found")])
    ensures var e := ExtractMathExpression(query);
      e.Some? && e.value != "" ==>
        && r.VObj? && "expression" in r.fields && r.fields["expression"] == VStr(e.value)
        && "success" in r.fields && r.fields["success"] == VBool(eval(e.value).Evaluated?)
  {
    var expression := ExtractMathExpression(query);
    if expression.None? || expression.value == "" then
      VObj(map["success" := VBool(false), "message" := VStr("No valid mathematical expression found")])
    else
      var e := expression.value;
      var outcome := eval(e);
      if outcome.Evaluated? then
        VObj(map["success" := VBool(true), "expression" := VStr(e), "result" := outcome.result,
                 "formatted_result" := VStr(outcome.formatted)])
      else
        VObj(map["success" := VBool(false), "expression" := VStr(e), "error" := VStr(outcome.message)])
  }

  /** The external sources (web, news, weather, time, date), by name and query, and the
      calculator's evaluator. */
  datatype Providers = Providers(external: (string, string) -> Outcome, eval: string -> Evaluation)

  /** Calling `self.sources[source](query)`. */
  function RunSource(providers: Providers, source: string, query: string): Outcome
  {
    if source == "knowledge_base" then Returned(KnowledgeBase(query))
    else if source == "calculator" then Returned(Calculate(providers.eval, query))
    else providers.external(source, query)
  }

  /** `_search_thread`: the source's result, or `{"error": message}` when it raises. */
  function Slot(providers: Providers, source: string, query: string): (r: Value)
    ensures RunSource(providers, source, query).Raised? ==>
      r == Single("error", VStr(RunSource(providers, source, query).message))
    ensures RunSource(providers, source, query).Returned? ==> r == RunSource(providers, source, query).value
  {
    match RunSource(providers, source, query)
    case Returned(v) => v
    case Raised(m) => Single("error", VStr(m))
  }

  /** What the lower-cased word list's location lookup reads. */
  const LocationIndicators: seq<string> := ["in", "at", "for", "near"]

  /** `query.lower().split()`. */
  function QueryWords(query: string): seq<string>
  {
    SplitWords(Lower(query))
  }

  predicate IsIndicator(w: string) { w in LocationIndicators }

  /** Word `k` is the first indicator, and it is not the last word. */
  predicate FirstIndicatorAt(words: seq<string>, k: int)
  {
    0 <= k < |words| - 1 && IsIndicator(words[k]) && forall j :: 0 <= j < k ==> !IsIndicator(words[j])
  }

  /** `_extract_location`: the capitalised word after the first indicator that is not the
      last word, or None. */
  method ExtractLocation(query: string) returns (r: Option<string>)
    ensures r.None? <==> forall j :: 0 <= j < |QueryWords(query)| - 1 ==> !IsIndicator(QueryWords(query)[j])
    ensures r.Some? ==> exists k :: FirstIndicatorAt(QueryWords(query), k) && r.value == Capitalize(QueryWords(query)[k + 1])
  {
    var words := QueryWords(query);
    var i := 0;
    while i < |words|
      invariant 0 <= i <= |words|
      invariant forall j :: 0 <= j < i && j < |words| - 1 ==> !IsIndicator(words[j])
    {
      if IsIndicator(words[i]) && i < |words| - 1 {
        assert FirstIndicatorAt(words, i);
        return Some(Capitalize(words[i + 1]));
      }
      i := i + 1;
    }
    return None;
  }

  datatype SearchEntry = SearchEntry(query: string, sources: seq<string>, timestamp: int)

  datatype SearchResult = SearchResult(query: string, results: map<string, Value>, timestamp: int)

  class InformationRetrieval {
    const providers: Providers
    var searchHistory: seq<SearchEntry>

    ghost predicate Valid()
      reads this
    {
      |searchHistory| <= MaxHistory
    }

    constructor (providers: Providers)
      ensures Valid()
      ensures this.providers == providers && searchHistory == []
    {
      this.providers := providers;
      searchHistory := [];
    }

    /** `search`: runs each requested source that is a known name (the routed ones when no
        list is given; an explicit empty list runs nothing), one result slot per source,
        and appends one entry to the bounded history. The query comes back unchanged. */
    method Search(query: string, sources: Option<seq<string>>, now: int) returns (r: SearchResult)
      requires Valid()
      modifies this`searchHistory
      ensures Valid()
      ensures var names := if sources.None? then DetermineSources(query) else sources.value;
        && r.query == query && r.timestamp == now
        && (forall s :: s in r.results <==> s in names && s in SourceNames)
        && (forall s :: s in r.results ==> r.results[s] == Slot(providers, s, query))
        && searchHistory == Trimmed(old(searchHistory) + [SearchEntry(query, names, now)], MaxHistory)
      ensures searchHistory[|searchHistory| - 1].query == query
    {
      var names := if sources.None? then DetermineSources(query) else sources.value;
      var results: map<string, Value> := map[];
      var i := 0;
      while i < |names|
        invariant 0 <= i <= |names|
        invariant forall s :: s in results <==> s in names[..i] && s in SourceNames
        invariant forall s :: s in results ==> results[s] == Slot(providers, s, query)
      {
        assert names[..i + 1] == names[..i] + [names[i]];
        if names[i] in SourceNames {
          results := results[names[i] := Slot(providers, names[i], query)];
        }
        i := i + 1;
      }
      assert names[..i] == names;
      var entry := SearchEntry(query, names, now);
      AppendTrimmed(searchHistory, entry, MaxHistory);
      searchHistory := searchHistory + [entry];
      if |searchHistory| > MaxHistory {
        searchHistory := searchHistory[|searchHistory| - MaxHistory..];
      }
      r := SearchResult(query, results, now);
    }

    /** `get_search_history`, i.e. `search_history[-limit:]`. */
    function GetSearchHistory(limit: int): (r: seq<SearchEntry>)
      reads this
      ensures limit > 0 ==> r == searchHistory[|searchHistory| - Min(limit, |searchHistory|)..]
      ensures limit == 0 ==> r == searchHistory
      ensures limit < 0 ==> r == searchHistory[Min(-limit, |searchHistory|)..]
    {
      PyTailOfNegated(searchHistory, limit);
      PyTail(searchHistory, -limit)
    }
  }
}
