/** citator.py: the command-line variant. It classifies with one Gemini call
    whose every exception is caught, and looks at one citing opinion. */
module Citator {
  import opened Wrappers
  import opened PyJson
  import opened Lookups
  import opened Pipeline

  /** `get_citing_opinions` slices `results` to its first entry. */
  const CitingCap: nat := 1

  /** The Gemini call on the prompt built from (cited case name, citing case
      name, opinion text), followed by `json.loads` of the reply: the decoded
      value, or `None` when either step raised. */
  type Oracle = (Json, Json, Json) -> Option<Json>

  /** `process_single_opinion`: the `try` covers the call and the decoding,
      so the step never raises. Shared with citator_streamlit.py. */
  function Classify(oracle: Oracle): Classifier
  {
    (mainName, citingName, text) => Returned(oracle(mainName, citingName, text))
  }

  /** `get_citing_opinions(opinion_id)`. */
  function GetCitingOpinions(net: Network, opinionId: string): (r: PyCall<seq<Json>>)
    ensures r.Returned? ==> |r.value| <= 1
    ensures !TruthyBody(Request(net, Search(opinionId))) ==> r == Returned([])
    ensures var data := Request(net, Search(opinionId));
            TruthyBody(data) && "results" in data.value && data.value["results"].Arr? ==>
              r.Returned? && r.value <= data.value["results"].items
              && (|data.value["results"].items| != 0 ==> |r.value| == 1)
  {
    Lookups.GetCitingOpinions(net, opinionId, CitingCap)
  }

  /** `process_opinion(opinion_id)`. */
  function ProcessOpinion(net: Network, oracle: Oracle, opinionId: string): (r: PyCall<Report>)
    ensures r.Returned? ==> r.value.mainCaseName == GetCaseName(net, opinionId)
    ensures r.Returned? ==> |r.value.citingOpinions| <= 1
    ensures r.Returned? ==>
              forall x :: x in r.value.citingOpinions ==> Truthy(x)
  {
    Analyze(net, Classify(oracle), opinionId, CitingCap)
  }

  /** On well-formed search payloads `process_opinion` returns: nothing the
      classification step does can make it raise. */
  lemma ReturnsOnWellFormedSearch(net: Network, oracle: Oracle, opinionId: string)
    requires WellFormedSearch(Request(net, Search(opinionId)))
    ensures ProcessOpinion(net, oracle, opinionId).Returned?
  {
    ReturnsOnWellFormed(net, Classify(oracle), opinionId, CitingCap);
  }
}
