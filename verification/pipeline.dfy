/** `process_opinion_worker` and the fan-in of `process_opinion`, over any
    classification step. The thread pool is modelled sequentially: the
    worker outcomes are taken in completion order, and every order gives the
    same results up to permutation. */
module Pipeline {
  import opened Wrappers
  import opened PyJson
  import opened Lookups

  /** The classification step, given the cited case name, the citing case
      name and the opinion content: a parsed result, `None`, or an exception. */
  type Classifier = (Json, Json, Json) -> PyCall<Option<Json>>

  /** The pair `process_opinion` returns (and `save_results_to_file` writes as
      `main_case_name` and `citing_opinions`). */
  datatype Report = Report(mainCaseName: Json, citingOpinions: seq<Json>)

  /** The citing opinion `item` has content, and the classifier turned that
      content into a truthy result. */
  predicate Classified(net: Network, classify: Classifier, mainName: Json, item: Json)
  {
    && item.Obj?
    && Content(net, item.fields).Returned?
    && Truthy(Content(net, item.fields).value)
    && var answer := classify(mainName, CitingName(item.fields), Content(net, item.fields).value);
       answer.Returned? && answer.value.Some? && Truthy(answer.value.value)
  }

  /** `process_opinion_worker(main_case_name, opinion)`. The citing date is
      computed by the source but no prompt uses it, so it is not passed on. */
  function Worker(net: Network, classify: Classifier, mainName: Json, item: Json): (r: PyCall<Option<Json>>)
    ensures !item.Obj? ==> r.Raised?
    ensures item.Obj? && Content(net, item.fields).Raised? ==> r.Raised?
    ensures item.Obj? && Content(net, item.fields).Returned? && Truthy(Content(net, item.fields).value) ==>
              var answer := classify(mainName, CitingName(item.fields), Content(net, item.fields).value);
              && (answer.Raised? ==> r.Raised?)
              && (answer.Returned? && answer.value.Some? && Truthy(answer.value.value) ==> r == answer)
              && (answer.Returned? && !(answer.value.Some? && Truthy(answer.value.value)) ==> r == Returned(None))
    ensures r.Raised? <==>
              || !item.Obj?
              || Content(net, item.fields).Raised?
              || (&& Truthy(Content(net, item.fields).value)
                  && classify(mainName, CitingName(item.fields), Content(net, item.fields).value).Raised?)
    ensures r.Returned? && r.value.Some? ==>
              && Truthy(r.value.value)
              && Classified(net, classify, mainName, item)
              && classify(mainName, CitingName(item.fields), Content(net, item.fields).value) == r
    ensures r.Returned? ==> (r.value.Some? <==> Classified(net, classify, mainName, item))
  {
    match item
    case Obj(fields) =>
      (match Content(net, fields)
       case Raised => Raised
       case Returned(content) =>
         if !Truthy(content) then Returned(None)
         else
           match classify(mainName, CitingName(fields), content)
           case Raised => Raised
           case Returned(result) =>
             if result.Some? && Truthy(result.value) then Returned(result) else Returned(None))
    case _ => Raised
  }

  /** Without content no classification is attempted: the worker returns
      `None` whatever the classifier would have said. */
  lemma NoContentNoClassification(net: Network, c1: Classifier, c2: Classifier, mainName: Json, item: Json)
    requires item.Obj?
    requires Content(net, item.fields).Returned? && !Truthy(Content(net, item.fields).value)
    ensures Worker(net, c1, mainName, item) == Returned(None)
    ensures Worker(net, c2, mainName, item) == Returned(None)
  {
  }

  /** The worker outcomes, one per citing opinion. */
  function WorkerOutcomes(net: Network, classify: Classifier, mainName: Json, items: seq<Json>): seq<PyCall<Option<Json>>>
  {
    seq(|items|, i requires 0 <= i < |items| => Worker(net, classify, mainName, items[i]))
  }

  /** A worker outcome the fan-in keeps: a truthy result. */
  predicate Kept(outcome: PyCall<Option<Json>>)
  {
    outcome.Returned? && outcome.value.Some? && Truthy(outcome.value.value)
  }

  /** How many of `outcomes` the fan-in keeps. */
  function KeptCount(outcomes: seq<PyCall<Option<Json>>>): (n: nat)
    ensures n <= |outcomes|
  {
    if |outcomes| == 0 then 0
    else (if Kept(outcomes[0]) then 1 else 0) + KeptCount(outcomes[1..])
  }

  /** The `as_completed` loop: keep the truthy results; an exception from
      `future.result()` escapes `process_opinion`. */
  function FanIn(outcomes: seq<PyCall<Option<Json>>>): (r: PyCall<seq<Json>>)
    ensures r.Raised? <==> exists i :: 0 <= i < |outcomes| && outcomes[i].Raised?
    ensures r.Returned? ==> |r.value| == KeptCount(outcomes)
    ensures r.Returned? ==>
              forall x :: multiset(r.value)[x] == if Truthy(x) then multiset(outcomes)[Returned(Some(x))] else 0
  {
    if |outcomes| == 0 then Returned([])
    else
      var rest := FanIn(outcomes[1..]);
      assert outcomes == [outcomes[0]] + outcomes[1..];
      assert forall i :: 1 <= i < |outcomes| ==> outcomes[1..][i - 1] == outcomes[i];
      match outcomes[0]
      case Raised => Raised
      case Returned(v) =>
        if rest.Raised? then Raised
        else if v.Some? && Truthy(v.value) then Returned([v.value] + rest.value)
        else rest
  }

  /** Completion order does not matter: any reordering of the worker outcomes
      raises exactly when the original does, and otherwise collects the same
      results up to permutation. */
  lemma FanInOrderIrrelevant(a: seq<PyCall<Option<Json>>>, b: seq<PyCall<Option<Json>>>)
    requires multiset(a) == multiset(b)
    ensures FanIn(a).Raised? <==> FanIn(b).Raised?
    ensures FanIn(a).Returned? ==> multiset(FanIn(a).value) == multiset(FanIn(b).value)
  {
    assert (exists i :: 0 <= i < |a| && a[i].Raised?) <==> Raised in multiset(a);
    assert (exists i :: 0 <= i < |b| && b[i].Raised?) <==> Raised in multiset(b);
    if FanIn(a).Returned? {
      var ra, rb := FanIn(a).value, FanIn(b).value;
      assert forall x :: multiset(ra)[x] == multiset(rb)[x];
    }
  }

  /** `process_opinion(opinion_id)` with the file's cap and classification step. */
  function Analyze(net: Network, classify: Classifier, opinionId: string, cap: nat): (r: PyCall<Report>)
    ensures var citing := GetCitingOpinions(net, opinionId, cap);
            r.Raised? <==>
              || citing.Raised?
              || exists i :: 0 <= i < |citing.value| && Worker(net, classify, GetCaseName(net, opinionId), citing.value[i]).Raised?
    ensures r.Returned? ==> r.value.mainCaseName == GetCaseName(net, opinionId) && Truthy(r.value.mainCaseName)
    ensures r.Returned? ==>
              var citing := GetCitingOpinions(net, opinionId, cap).value;
              |r.value.citingOpinions| <= |citing| <= cap
    ensures r.Returned? ==>
              var outcomes := WorkerOutcomes(net, classify, GetCaseName(net, opinionId), GetCitingOpinions(net, opinionId, cap).value);
              forall x :: multiset(r.value.citingOpinions)[x] ==
                if Truthy(x) then multiset(outcomes)[Returned(Some(x))] else 0
  {
    var mainName := GetCaseName(net, opinionId);
    match GetCitingOpinions(net, opinionId, cap)
    case Raised => Raised
    case Returned(citing) =>
      var outcomes := WorkerOutcomes(net, classify, mainName, citing);
      assert forall i :: 0 <= i < |citing| ==> outcomes[i] == Worker(net, classify, mainName, citing[i]);
      match FanIn(outcomes)
      case Raised => Raised
      case Returned(results) => Returned(Report(mainName, results))
  }

  /** How many of `items` the classifier turns into a truthy result. */
  function CountClassified(net: Network, classify: Classifier, mainName: Json, items: seq<Json>): (n: nat)
    ensures n <= |items|
  {
    if |items| == 0 then 0
    else (if Classified(net, classify, mainName, items[0]) then 1 else 0) + CountClassified(net, classify, mainName, items[1..])
  }

  /** The fan-in keeps exactly one outcome per classified citing opinion. */
  lemma {:induction false} KeptWorkers(net: Network, classify: Classifier, mainName: Json, items: seq<Json>)
    ensures forall i :: 0 <= i < |items| ==>
              (Kept(WorkerOutcomes(net, classify, mainName, items)[i]) <==> Classified(net, classify, mainName, items[i]))
    ensures KeptCount(WorkerOutcomes(net, classify, mainName, items)) == CountClassified(net, classify, mainName, items)
  {
    var outcomes := WorkerOutcomes(net, classify, mainName, items);
    if |items| != 0 {
      assert outcomes[1..] == WorkerOutcomes(net, classify, mainName, items[1..]);
      assert Kept(outcomes[0]) <==> Classified(net, classify, mainName, items[0]);
      KeptWorkers(net, classify, mainName, items[1..]);
    }
  }

  /** A report holds exactly one result per citing opinion that has content
      and a truthy classification. */
  lemma ResultCount(net: Network, classify: Classifier, opinionId: string, cap: nat)
    ensures var r := Analyze(net, classify, opinionId, cap);
            r.Returned? ==>
              |r.value.citingOpinions|
              == CountClassified(net, classify, GetCaseName(net, opinionId), GetCitingOpinions(net, opinionId, cap).value)
  {
    var r := Analyze(net, classify, opinionId, cap);
    if r.Returned? {
      var mainName := GetCaseName(net, opinionId);
      var citing := GetCitingOpinions(net, opinionId, cap).value;
      KeptWorkers(net, classify, mainName, citing);
    }
  }

  /** Every result in a report is what the classifier made of the cited case
      name and one citing opinion's name and content. */
  lemma ResultsFromCitingItem(net: Network, classify: Classifier, opinionId: string, cap: nat)
    ensures var r := Analyze(net, classify, opinionId, cap);
            r.Returned? ==>
              var mainName := GetCaseName(net, opinionId);
              var citing := GetCitingOpinions(net, opinionId, cap).value;
              forall x :: x in r.value.citingOpinions ==>
                && Truthy(x)
                && exists i ::
                     && 0 <= i < |citing|
                     && citing[i].Obj?
                     && Content(net, citing[i].fields).Returned?
                     && classify(mainName, CitingName(citing[i].fields), Content(net, citing[i].fields).value) == Returned(Some(x))
  {
    var r := Analyze(net, classify, opinionId, cap);
    if r.Returned? {
      var mainName := GetCaseName(net, opinionId);
      var citing := GetCitingOpinions(net, opinionId, cap).value;
      var outcomes := WorkerOutcomes(net, classify, mainName, citing);
      forall x | x in r.value.citingOpinions
        ensures Truthy(x)
        ensures exists i ::
                  && 0 <= i < |citing|
                  && citing[i].Obj?
                  && Content(net, citing[i].fields).Returned?
                  && classify(mainName, CitingName(citing[i].fields), Content(net, citing[i].fields).value) == Returned(Some(x))
      {
        assert multiset(r.value.citingOpinions)[x] > 0;
        assert Returned(Some(x)) in multiset(outcomes);
        var i :| 0 <= i < |outcomes| && outcomes[i] == Returned(Some(x));
        assert Worker(net, classify, mainName, citing[i]) == Returned(Some(x));
      }
    }
  }

  /** Conversely, every truthy classification of a citing opinion's content
      appears in the report. */
  lemma ClassifiedResultsReported(net: Network, classify: Classifier, opinionId: string, cap: nat)
    ensures var r := Analyze(net, classify, opinionId, cap);
            r.Returned? ==>
              var mainName := GetCaseName(net, opinionId);
              var citing := GetCitingOpinions(net, opinionId, cap).value;
              forall i :: 0 <= i < |citing| && Classified(net, classify, mainName, citing[i]) ==>
                classify(mainName, CitingName(citing[i].fields), Content(net, citing[i].fields).value).value.value
                  in r.value.citingOpinions
  {
    var r := Analyze(net, classify, opinionId, cap);
    if r.Returned? {
      var mainName := GetCaseName(net, opinionId);
      var citing := GetCitingOpinions(net, opinionId, cap).value;
      var outcomes := WorkerOutcomes(net, classify, mainName, citing);
      forall i | 0 <= i < |citing| && Classified(net, classify, mainName, citing[i])
        ensures classify(mainName, CitingName(citing[i].fields), Content(net, citing[i].fields).value).value.value
                  in r.value.citingOpinions
      {
        var x := classify(mainName, CitingName(citing[i].fields), Content(net, citing[i].fields).value).value.value;
        assert outcomes[i] == Returned(Some(x));
        assert multiset(outcomes)[Returned(Some(x))] > 0;
        assert multiset(r.value.citingOpinions)[x] > 0;
      }
    }
  }

  /** A search result the worker can read without raising: an object whose
      `opinions` is empty or missing, or a list starting with an object. */
  predicate WellFormedItem(item: Json)
  {
    && item.Obj?
    && var opinions := Get(item.fields, "opinions");
       !Truthy(opinions) || (opinions.Arr? && opinions.items[0].Obj?)
  }

  /** A search body whose `results`, when present, is a list of well-formed items. */
  predicate WellFormedSearch(data: Option<Object>)
  {
    TruthyBody(data) && "results" in data.value ==>
      && data.value["results"].Arr?
      && forall i :: 0 <= i < |data.value["results"].items| ==> WellFormedItem(data.value["results"].items[i])
  }

  /** With well-formed search payloads and a classification step that never
      raises, `process_opinion` returns. */
  lemma ReturnsOnWellFormed(net: Network, classify: Classifier, opinionId: string, cap: nat)
    requires forall mainName, citingName, content :: classify(mainName, citingName, content).Returned?
    requires WellFormedSearch(Request(net, Search(opinionId)))
    ensures Analyze(net, classify, opinionId, cap).Returned?
  {
    var citing := GetCitingOpinions(net, opinionId, cap);
    assert citing.Returned?;
    var data := Request(net, Search(opinionId));
    forall i | 0 <= i < |citing.value|
      ensures WellFormedItem(citing.value[i])
    {
      var results := data.value["results"].items;
      assert citing.value[i] == results[i];
    }
  }
}
