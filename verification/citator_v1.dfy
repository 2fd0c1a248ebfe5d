/** pages/citator_v1.py: the second dashboard. It looks at up to twenty
    citing opinions, truncates the opinion text for the prompt, and
    classifies through a structured tool call whose arguments it normalises.
    The tool-call request itself sits outside the `try`, so its failures
    escape `process_opinion`. */
module CitatorV1 {
  import opened Wrappers
  import opened PyJson
  import opened Lookups
  import opened Pipeline

  /** `get_citing_opinions` slices `results` to its first twenty entries. */
  const CitingCap: nat := 20
  /** The prompt keeps at most this many characters of the opinion text. */
  const MaxPromptChars: nat := 400000

  /** What the chat-completion request yields: it raised; it returned but
      reading `choices[0].message.tool_calls[0].function.parsed_arguments`
      raised; or those parsed arguments (a parsed schema instance stands for
      the dict its `model_dump()` gives). */
  datatype Completion = ApiError | NoToolCall | ToolCall(arguments: Json)

  /** The request on (cited case name, citing case name, truncated text). */
  type Oracle = (Json, Json, Json) -> Completion

  /** `opinion_text[:400000]`: a string or list is cut to its first 400000
      items; slicing anything else raises. */
  function PromptText(text: Json): (r: PyCall<Json>)
    ensures r.Raised? <==> !text.Str? && !text.Arr?
    ensures text.Str? ==>
              r.Returned? && r.value.Str? && r.value.s <= text.s && |r.value.s| == Min(|text.s|, MaxPromptChars)
    ensures text.Arr? ==>
              r.Returned? && r.value.Arr? && r.value.items <= text.items
              && |r.value.items| == Min(|text.items|, MaxPromptChars)
  {
    match text
    case Str(s) => Returned(Str(s[..Min(|s|, MaxPromptChars)]))
    case Arr(items) => Returned(Arr(items[..Min(|items|, MaxPromptChars)]))
    case _ => Raised
  }

  /** A text of at most 400000 characters reaches the prompt whole. */
  lemma ShortTextKept(s: string)
    requires |s| <= MaxPromptChars
    ensures PromptText(Str(s)) == Returned(Str(s))
  {
    assert s[..|s|] == s;
  }

  /** The normalised result always is a dict holding `citing_cases`. */
  predicate HasCitingCases(j: Json)
  {
    j.Obj? && "citing_cases" in j.fields
  }

  /** The clean-up of the parsed arguments: a non-dict becomes `{}`, and a
      missing `citing_cases` key is set to `[]`. */
  function Normalise(arguments: Json): (r: Json)
    ensures HasCitingCases(r) && Truthy(r)
    ensures HasCitingCases(arguments) ==> r == arguments
    ensures arguments.Obj? ==>
              && r.fields.Keys == arguments.fields.Keys + {"citing_cases"}
              && forall k :: k in arguments.fields ==> r.fields[k] == arguments.fields[k]
    ensures arguments.Obj? && "citing_cases" !in arguments.fields ==> r.fields["citing_cases"] == Arr([])
    ensures !arguments.Obj? ==> r == Obj(map["citing_cases" := Arr([])])
  {
    var fields := if arguments.Obj? then arguments.fields else map[];
    if "citing_cases" in fields then Obj(fields)
    else Obj(fields["citing_cases" := Arr([])])
  }

  /** Normalising twice changes nothing more. */
  lemma NormaliseIdempotent(arguments: Json)
    ensures Normalise(Normalise(arguments)) == Normalise(arguments)
  {
  }

  /** `process_single_opinion`. */
  function ProcessSingleOpinion(oracle: Oracle, mainName: Json, citingName: Json, text: Json): (r: PyCall<Option<Json>>)
    ensures r.Raised? <==>
              || PromptText(text).Raised?
              || oracle(mainName, citingName, PromptText(text).value) == ApiError
    ensures r == Returned(None) <==>
              PromptText(text).Returned? && oracle(mainName, citingName, PromptText(text).value) == NoToolCall
    ensures r.Returned? && r.value.Some? ==> HasCitingCases(r.value.value) && Truthy(r.value.value)
    ensures PromptText(text).Returned? && oracle(mainName, citingName, PromptText(text).value).ToolCall? ==>
              r == Returned(Some(Normalise(oracle(mainName, citingName, PromptText(text).value).arguments)))
  {
    match PromptText(text)
    case Raised => Raised
    case Returned(prompt) =>
      match oracle(mainName, citingName, prompt)
      case ApiError => Raised
      case NoToolCall => Returned(None)
      case ToolCall(arguments) => Returned(Some(Normalise(arguments)))
  }

  /** Only the first 400000 characters of the opinion decide the outcome. */
  lemma PromptSeesOnlyPrefix(oracle: Oracle, mainName: Json, citingName: Json, s1: string, s2: string)
    requires s1[..Min(|s1|, MaxPromptChars)] == s2[..Min(|s2|, MaxPromptChars)]
    ensures ProcessSingleOpinion(oracle, mainName, citingName, Str(s1))
         == ProcessSingleOpinion(oracle, mainName, citingName, Str(s2))
  {
  }

  function Classify(oracle: Oracle): Classifier
  {
    (mainName, citingName, text) => ProcessSingleOpinion(oracle, mainName, citingName, text)
  }

  /** `get_citing_opinions(opinion_id)`. */
  function GetCitingOpinions(net: Network, opinionId: string): (r: PyCall<seq<Json>>)
    ensures r.Returned? ==> |r.value| <= 20
    ensures !TruthyBody(Request(net, Search(opinionId))) ==> r == Returned([])
    ensures var data := Request(net, Search(opinionId));
            TruthyBody(data) && "results" in data.value && data.value["results"].Arr? ==>
              r.Returned? && r.value <= data.value["results"].items
              && |r.value| == Min(|data.value["results"].items|, 20)
  {
    Lookups.GetCitingOpinions(net, opinionId, CitingCap)
  }

  /** `process_opinion(opinion_id)`. */
  function ProcessOpinion(net: Network, oracle: Oracle, opinionId: string): (r: PyCall<Report>)
    ensures r.Returned? ==> r.value.mainCaseName == GetCaseName(net, opinionId)
    ensures r.Returned? ==> Lookups.GetCitingOpinions(net, opinionId, CitingCap).Returned?
    ensures r.Returned? ==>
              var citing := Lookups.GetCitingOpinions(net, opinionId, CitingCap).value;
              |r.value.citingOpinions| <= |citing| <= 20
    ensures r.Returned? ==>
              var outcomes := WorkerOutcomes(net, Classify(oracle), GetCaseName(net, opinionId),
                                             Lookups.GetCitingOpinions(net, opinionId, CitingCap).value);
              forall x :: multiset(r.value.citingOpinions)[x] ==
                if Truthy(x) then multiset(outcomes)[Returned(Some(x))] else 0
  {
    Analyze(net, Classify(oracle), opinionId, CitingCap)
  }

  /** Every result in the report is a normalised dict with `citing_cases`. */
  lemma ResultsNormalised(net: Network, oracle: Oracle, opinionId: string)
    ensures var r := ProcessOpinion(net, oracle, opinionId);
            r.Returned? ==> forall x :: x in r.value.citingOpinions ==> HasCitingCases(x)
  {
    ResultsFromCitingItem(net, Classify(oracle), opinionId, CitingCap);
  }

  /** The i-th citing opinion has content and its tool-call request fails. */
  predicate RequestFails(net: Network, oracle: Oracle, opinionId: string, i: nat)
  {
    var citing := Lookups.GetCitingOpinions(net, opinionId, CitingCap);
    && citing.Returned?
    && i < |citing.value|
    && citing.value[i].Obj?
    && Content(net, citing.value[i].fields).Returned?
    && var content := Content(net, citing.value[i].fields).value;
       && Truthy(content)
       && PromptText(content).Returned?
       && oracle(GetCaseName(net, opinionId), CitingName(citing.value[i].fields), PromptText(content).value) == ApiError
  }

  /** A failing tool-call request for any one citing opinion with content
      makes the whole `process_opinion` raise. */
  lemma ApiErrorEscapes(net: Network, oracle: Oracle, opinionId: string, i: nat)
    ensures RequestFails(net, oracle, opinionId, i) ==> ProcessOpinion(net, oracle, opinionId).Raised?
  {
    if RequestFails(net, oracle, opinionId, i) {
      var citing := Lookups.GetCitingOpinions(net, opinionId, CitingCap).value;
      assert Worker(net, Classify(oracle), GetCaseName(net, opinionId), citing[i]).Raised?;
    }
  }
}
