/** The selection rules layered over `make_request`: the case name, the list
    of citing opinions, the citing name and date, and the opinion content. */
module Lookups {
  import opened Wrappers
  import opened PyJson
  import opened Fetcher

  /** The URLs the pipeline requests from the legal-data API. */
  datatype Endpoint =
    | Cluster(opinionId: string)   // clusters/{id}/
    | Search(opinionId: string)    // search/?q=cites:({id})
    | OpinionDetail(id: Json)      // opinions/{id}/

  /** How each URL answers. */
  type Network = Endpoint -> Server

  /** `make_request(url)` with the default arguments. */
  function Request(net: Network, e: Endpoint): Option<Object>
  {
    MakeRequest(net(e), DefaultMaxRetries, DefaultInitialWait).body
  }

  const UnknownCaseName := Str("Unknown Case Name")
  const UnknownDate := Str("Unknown Date")

  /** The text fields of an opinion, most preferred first. */
  const ContentFields: seq<string> :=
    ["plain_text", "html", "html_lawbox", "html_columbia", "html_anon_2020", "xml_harvard", "html_with_citations"]

  /** The name `get_case_name` derives from the cluster body it fetched. */
  function CaseName(data: Option<Object>): (r: Json)
    ensures Truthy(r)
    ensures TruthyBody(data) && Truthy(Get(data.value, "case_name")) ==> r == Get(data.value, "case_name")
    ensures TruthyBody(data) && !Truthy(Get(data.value, "case_name")) && Truthy(Get(data.value, "case_name_full"))
            ==> r == Get(data.value, "case_name_full")
    ensures !TruthyBody(data) || (!Truthy(Get(data.value, "case_name")) && !Truthy(Get(data.value, "case_name_full")))
            ==> r == UnknownCaseName
  {
    if TruthyBody(data) then
      Or(Or(Get(data.value, "case_name"), Get(data.value, "case_name_full")), UnknownCaseName)
    else UnknownCaseName
  }

  /** `get_case_name(opinion_id)`. */
  function GetCaseName(net: Network, opinionId: string): Json
  {
    CaseName(Request(net, Cluster(opinionId)))
  }

  /** When the cluster endpoint answers 429 on all five attempts the case
      name is the sentinel. */
  lemma CaseNameWhenRateLimited(net: Network, opinionId: string)
    requires forall j :: 0 <= j < DefaultMaxRetries ==> RateLimited(net(Cluster(opinionId))(j))
    ensures GetCaseName(net, opinionId) == UnknownCaseName
  {
    ExhaustedByRateLimits(net(Cluster(opinionId)), DefaultMaxRetries, DefaultInitialWait);
  }

  /** The first `cap` citing results, as the sequence `process_opinion`
      iterates over: `data.get('results', [])[:cap]` on a truthy body, else
      `[]`. A string slices to a string, whose items are one-character
      strings; slicing `None`, a number, a boolean or an object raises. */
  function CitingOpinions(data: Option<Object>, cap: nat): (r: PyCall<seq<Json>>)
    ensures r.Returned? ==> |r.value| <= cap
    ensures !TruthyBody(data) ==> r == Returned([])
    ensures TruthyBody(data) && "results" !in data.value ==> r == Returned([])
    ensures TruthyBody(data) && "results" in data.value && data.value["results"].Arr? ==>
              var results := data.value["results"].items;
              r.Returned? && r.value <= results && |r.value| == Min(|results|, cap)
    ensures TruthyBody(data) && "results" in data.value && data.value["results"].Str? ==>
              var text := data.value["results"].s;
              && r.Returned? && |r.value| == Min(|text|, cap)
              && forall i :: 0 <= i < |r.value| ==> r.value[i] == Str([text[i]])
    ensures r.Raised? <==>
              TruthyBody(data) && "results" in data.value
              && !data.value["results"].Arr? && !data.value["results"].Str?
  {
    if !TruthyBody(data) || "results" !in data.value then Returned([])
    else
      match data.value["results"]
      case Arr(results) => Returned(results[..Min(|results|, cap)])
      case Str(text) => Returned(seq(Min(|text|, cap), i requires 0 <= i < Min(|text|, cap) => Str([text[i]])))
      case _ => Raised
  }

  /** `get_citing_opinions(opinion_id)` with the file's cap. */
  function GetCitingOpinions(net: Network, opinionId: string, cap: nat): PyCall<seq<Json>>
  {
    CitingOpinions(Request(net, Search(opinionId)), cap)
  }

  /** `opinion.get('caseName') or opinion.get('caseNameFull', 'Unknown Case Name')`. */
  function CitingName(item: Object): (r: Json)
    ensures Truthy(Get(item, "caseName")) ==> r == item["caseName"]
    ensures !Truthy(Get(item, "caseName")) && "caseNameFull" in item ==> r == item["caseNameFull"]
    ensures !Truthy(Get(item, "caseName")) && "caseNameFull" !in item ==> r == UnknownCaseName
    ensures !Truthy(r) <==> !Truthy(Get(item, "caseName")) && "caseNameFull" in item && !Truthy(item["caseNameFull"])
  {
    Or(Get(item, "caseName"), GetOr(item, "caseNameFull", UnknownCaseName))
  }

  /** `opinion.get('dateFiled', 'Unknown Date')`. */
  function DateFiled(item: Object): (r: Json)
    ensures "dateFiled" in item ==> r == item["dateFiled"]
    ensures "dateFiled" !in item ==> r == UnknownDate
  {
    GetOr(item, "dateFiled", UnknownDate)
  }

  /** The seven content fields of an opinion body, in priority order. */
  function Candidates(data: Object): (r: seq<Json>)
    ensures |r| == |ContentFields|
    ensures forall i :: 0 <= i < |ContentFields| ==> r[i] == Get(data, ContentFields[i])
  {
    seq(|ContentFields|, i requires 0 <= i < |ContentFields| => Get(data, ContentFields[i]))
  }

  /** The `or`-chain over the seven content fields. */
  function SelectContent(data: Object): (r: Json)
    ensures Truthy(r) <==> exists i :: 0 <= i < |ContentFields| && Truthy(Get(data, ContentFields[i]))
    ensures forall i :: 0 <= i < |ContentFields| && Truthy(Get(data, ContentFields[i]))
                        && (forall j :: 0 <= j < i ==> !Truthy(Get(data, ContentFields[j])))
                        ==> r == Get(data, ContentFields[i])
    ensures !Truthy(r) ==> r == Get(data, "html_with_citations")
  {
    var cs := Candidates(data);
    assert forall i :: 0 <= i < |ContentFields| ==> cs[i] == Get(data, ContentFields[i]);
    FirstTruthy(cs)
  }

  /** A non-empty `plain_text` wins over every other field. */
  lemma PlainTextFirst(data: Object)
    requires Truthy(Get(data, "plain_text"))
    ensures SelectContent(data) == data["plain_text"]
  {
    assert ContentFields[0] == "plain_text";
  }

  /** The id of the first entry of a search result's `opinions`, or `None`
      when `opinions` is missing or empty (no content is fetched then).
      Indexing a non-list, or calling `.get` on a non-object entry, raises. */
  function FirstOpinionId(item: Object): (r: PyCall<Json>)
    ensures !Truthy(Get(item, "opinions")) ==> r == Returned(Null)
    ensures Truthy(Get(item, "opinions")) && Get(item, "opinions").Arr? && Get(item, "opinions").items[0].Obj? ==>
              r == Returned(Get(Get(item, "opinions").items[0].fields, "id"))
    ensures r.Raised? <==>
              Truthy(Get(item, "opinions")) && !(Get(item, "opinions").Arr? && Get(item, "opinions").items[0].Obj?)
  {
    var opinions := Get(item, "opinions");
    if !Truthy(opinions) then Returned(Null)
    else
      match opinions
      case Arr(entries) => (if entries[0].Obj? then Returned(Get(entries[0].fields, "id")) else Raised)
      case _ => Raised
  }

  /** The content `process_opinion_worker` finds for a search result: `None`
      unless `opinions[0]` has a truthy id, whose opinion body was fetched and
      is truthy; otherwise the `or`-chain over that body. */
  function Content(net: Network, item: Object): (r: PyCall<Json>)
    ensures r.Raised? <==> FirstOpinionId(item).Raised?
    ensures FirstOpinionId(item).Returned? && !Truthy(FirstOpinionId(item).value) ==> r == Returned(Null)
    ensures FirstOpinionId(item).Returned? && Truthy(FirstOpinionId(item).value) ==>
              var data := Request(net, OpinionDetail(FirstOpinionId(item).value));
              && (TruthyBody(data) ==> r == Returned(SelectContent(data.value)))
              && (!TruthyBody(data) ==> r == Returned(Null))
    ensures r.Returned? && Truthy(r.value) ==>
              var id := FirstOpinionId(item).value;
              && Truthy(id)
              && TruthyBody(Request(net, OpinionDetail(id)))
              && r.value == SelectContent(Request(net, OpinionDetail(id)).value)
  {
    match FirstOpinionId(item)
    case Raised => Raised
    case Returned(id) =>
      if !Truthy(id) then Returned(Null)
      else
        var data := Request(net, OpinionDetail(id));
        if TruthyBody(data) then Returned(SelectContent(data.value)) else Returned(Null)
  }

  /** Only the first entry of `opinions` is consulted: two search results
      whose `opinions` lists start with the same entry get the same content. */
  lemma ContentFromFirstOpinion(net: Network, a: Object, b: Object)
    requires Get(a, "opinions").Arr? && Get(b, "opinions").Arr?
    requires |Get(a, "opinions").items| != 0 && |Get(b, "opinions").items| != 0
    requires Get(a, "opinions").items[0] == Get(b, "opinions").items[0]
    ensures Content(net, a) == Content(net, b)
  {
  }
}
