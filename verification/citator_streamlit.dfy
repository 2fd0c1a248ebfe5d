/** citator_streamlit.py: the first dashboard. Same pipeline as citator.py,
    looking at up to three citing opinions. */
module CitatorStreamlit {
  import opened Wrappers
  import opened PyJson
  import opened Lookups
  import opened Pipeline
  import Citator

  /** `get_citing_opinions` slices `results` to its first three entries. */
  const CitingCap: nat := 3

  /** `get_citing_opinions(opinion_id)`. */
  function GetCitingOpinions(net: Network, opinionId: string): (r: PyCall<seq<Json>>)
    ensures r.Returned? ==> |r.value| <= 3
    ensures !TruthyBody(Request(net, Search(opinionId))) ==> r == Returned([])
    ensures var data := Request(net, Search(opinionId));
            TruthyBody(data) && "results" in data.value && data.value["results"].Arr? ==>
              r.Returned? && r.value <= data.value["results"].items
              && |r.value| == Min(|data.value["results"].items|, 3)
  {
    Lookups.GetCitingOpinions(net, opinionId, CitingCap)
  }

  /** `process_opinion(opinion_id)`, classifying with the same Gemini step
      as citator.py. */
  function ProcessOpinion(net: Network, oracle: Citator.Oracle, opinionId: string): (r: PyCall<Report>)
    ensures r.Returned? ==> r.value.mainCaseName == GetCaseName(net, opinionId)
    ensures r.Returned? ==> Lookups.GetCitingOpinions(net, opinionId, CitingCap).Returned?
    ensures r.Returned? ==>
              var citing := Lookups.GetCitingOpinions(net, opinionId, CitingCap).value;
              |r.value.citingOpinions| <= |citing| <= 3
    ensures r.Returned? ==>
              var outcomes := WorkerOutcomes(net, Citator.Classify(oracle), GetCaseName(net, opinionId),
                                             Lookups.GetCitingOpinions(net, opinionId, CitingCap).value);
              forall x :: multiset(r.value.citingOpinions)[x] ==
                if Truthy(x) then multiset(outcomes)[Returned(Some(x))] else 0
  {
    Analyze(net, Citator.Classify(oracle), opinionId, CitingCap)
  }

  /** The defaults of the citing name and date: each sentinel applies only
      when its key is absent, so a present but empty `caseNameFull` (after a
      falsy `caseName`) gives an empty name, and a present `dateFiled` is kept
      whatever it holds. */
  lemma CitingDefaults(item: Object)
    ensures !Truthy(Get(item, "caseName")) && "caseNameFull" !in item ==> CitingName(item) == UnknownCaseName
    ensures !Truthy(Get(item, "caseName")) && "caseNameFull" in item && item["caseNameFull"] == Str("")
            ==> CitingName(item) == Str("")
    ensures DateFiled(item) == UnknownDate ==> "dateFiled" !in item || item["dateFiled"] == UnknownDate
  {
  }

  /** On well-formed search payloads `process_opinion` returns. */
  lemma ReturnsOnWellFormedSearch(net: Network, oracle: Citator.Oracle, opinionId: string)
    requires WellFormedSearch(Request(net, Search(opinionId)))
    ensures ProcessOpinion(net, oracle, opinionId).Returned?
  {
    ReturnsOnWellFormed(net, Citator.Classify(oracle), opinionId, CitingCap);
  }
}
