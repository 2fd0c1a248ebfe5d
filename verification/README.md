# Citator: a Dafny model of the citing-opinion pipeline

The citator looks up a judicial opinion on a legal-data REST API, finds the opinions that cite it, fetches each citing opinion's text and asks a language model how that opinion treats the cited case. This project models the decision logic of that pipeline in Dafny and proves properties of it. That logic covers:

- `make_request`, the rate-limit retry loop with exponential backoff;
- the fallback rules for the case name, the citing name and the citing date;
- the cap on the citing list;
- the seven-field priority for the opinion text;
- the fan-in that keeps only successful worker results;
- in the second dashboard, the 400000-character truncation and the normalisation of the tool-call result.

The repository has three near-identical programs: `citator.py`, `citator_streamlit.py` and `pages/citator_v1.py`. Their shared code is modelled once, in the modules `Fetcher`, `Lookups` and `Pipeline`. Each program then has a small module of its own, `Citator`, `CitatorStreamlit` and `CitatorV1`, which holds its cap. `Citator` and `CitatorV1` also define their classification steps, and `CitatorStreamlit` reuses `Citator`'s, since the two programs' steps are the same.

Modelling choices:

- **JSON.** Decoded JSON is the datatype `PyJson.Json`, with Python truthiness (`None`, `False`, `0`, `""`, `[]`, `{}` are false). Every fallback in the source is an `or` chain or a `dict.get`, so `or` returns its first truthy operand or else its last. `.get(k)` gives `None` when the key is absent. `.get(k, d)` gives `d` only when the key is absent.
- **Network.** The network is an oracle. `Network` maps each endpoint (`clusters/{id}/`, the `cites:` search, `opinions/{id}/`) to a `Server`, which is the reply to the k-th request of one `make_request` call. A reply is either `Reply(status, body)` or `TransportError`, the latter standing for a `requests.RequestException`.
- **Sleeping.** `time.sleep` is not modelled. Each sleep's length is recorded in `Fetch.waits`.
- **Language model.** The model is an oracle from the prompt's inputs to an answer. `citator.py` and `citator_streamlit.py` catch every exception of the call, so there the oracle answers a decoded value or `None`. In `pages/citator_v1.py` the request is outside the `try`, so there it may also fail (`ApiError`), and that failure escapes `process_opinion`.
- **Raising.** A Python call that raises is `PyCall.Raised`. This covers malformed payloads and the v1 request failure. A present `results` that is neither a list nor a string raises when sliced; a string slices to one-character items, and an empty one never raises. A non-object search result raises. A truthy `opinions` raises when it is not a list whose first entry is an object. `process_opinion` raises exactly when the citing lookup or some worker raised.
- **Concurrency.** The thread pool is modelled sequentially. `Analyze` hands the worker outcomes to `FanIn` in the order of the citing list, as one possible completion order. `Pipeline.FanInOrderIrrelevant` proves that every other completion order gives the same results up to permutation.

Where the code does something a reader might not expect, the model follows the code:

- In `pages/citator_v1.py` a failing classification request is not dropped. It propagates out of `process_opinion`.
- The retry loop returns a bare `None` for rate-limit exhaustion, for HTTP errors and for transport errors alike.
- The citing name falls back to `"Unknown Case Name"` only when `caseNameFull` is absent. A present but empty `caseNameFull` gives `""`.
- `citator.py` slices `results[:1]`, whatever its comment says.

## Model

| member | source | states |
|---|---|---|
| PyJson.FirstTruthy | citator.py:124-127 | An `or` chain is truthy exactly when one operand is. Its value is the first truthy operand, or the last operand when none is. |
| Fetcher.RetryExplained | citator.py:34-51 | From any attempt on, the loop's result follows from the replies. Every wait answers a 429 on the same attempt and lasts `initial_wait * 2^attempt`. A body comes back only from a 200 right after the 429s. `None` comes from a fatal reply right after the 429s, or from 429s up to `max_retries`. No more than `max_retries` requests are sent. |
| Fetcher.SkipRateLimits | citator.py:39-42 | A run of 429s only delays the loop. It then behaves as if started at the first non-429 attempt, with one extra request and one extra wait per 429. |
| Fetcher.GeometricWaits | citator.py:40-42 | Sleeping `initial_wait * 2^j` before retry j, for j < n, adds up to `initial_wait * (2^n - 1)`. |
| Fetcher.MakeRequestExplained | citator.py:33-51 | `make_request` obeys the full reply-by-reply account above, from attempt 0. Its total sleep is `initial_wait * (2^k - 1)`, where k is the number of 429s it answered. |
| Fetcher.SuccessOnAttempt | citator.py:34-42 | 429 on attempts 0..k-1 and 200 on attempt k returns that body after exactly k+1 requests and `initial_wait * (2^k - 1)` seconds of sleep. |
| Fetcher.StopsOnFatal | citator.py:43-48 | After k 429s, a status other than 200/429 or a transport error returns `None` after exactly k+1 requests, with no retry. |
| Fetcher.ExhaustedByRateLimits | pages/citator_v1.py:67-84 | 429 on every attempt returns `None` after `max_retries` requests, having slept `initial_wait * (2^max_retries - 1)`, the sleep after the last attempt included. |
| Fetcher.DefaultBackoff | citator.py:33-42 | With the default five attempts, 429 on attempts 0-3 and 200 on attempt 4 returns the body after sleeping `initial_wait * (1+2+4+8)`. |
| Fetcher.MakeRequestLoop | citator_streamlit.py:36-54 | The loop as written keeps a running total of `initial_wait * (2^attempt - 1)` seconds. It returns the same body and request count as `make_request`, and that total equals the sum of the recorded sleeps. |
| Lookups.CaseName | citator.py:53-58 | The case name is never falsy. It is `case_name` when truthy, else `case_name_full` when truthy, else `"Unknown Case Name"`. The sentinel is also the result when the fetch failed or the body is empty. |
| Lookups.CaseNameWhenRateLimited | citator_streamlit.py:56-61 | When the cluster endpoint answers 429 on all five attempts, the case name is `"Unknown Case Name"`. |
| Lookups.CitingOpinions | citator.py:60-65 | The citing list is `[]` on a failed fetch, an empty body or a missing `results`. For a list, it is the prefix of `results` of length `min(len, cap)`. A string gives its first `cap` characters as one-character items. Any other `results` raises. It never holds more than `cap` items. |
| Lookups.CitingName | citator.py:112 | The citing name is `caseName` when truthy, else `caseNameFull` when present, else `"Unknown Case Name"`. It is falsy exactly when `caseName` is falsy and `caseNameFull` is present but falsy. |
| Lookups.DateFiled | citator.py:113 | The date is the `dateFiled` value whenever the key is present, whatever it holds. Only an absent key gives `"Unknown Date"`. |
| Lookups.SelectContent | citator.py:124-127 | The content is truthy exactly when one of the seven fields is. It is then the first truthy field in the order `plain_text`, `html`, `html_lawbox`, `html_columbia`, `html_anon_2020`, `xml_harvard`, `html_with_citations`. |
| Lookups.PlainTextFirst | citator_streamlit.py:125 | A non-empty `plain_text` is chosen over every other field. |
| Lookups.FirstOpinionId | citator.py:116-118 | A missing or falsy `opinions` gives no id (`None`). A non-empty list whose first entry is an object gives that entry's `id`, or `None` when it has none. Reading the id raises exactly when `opinions` is truthy but is not a list whose first entry is an object. |
| Lookups.Content | citator.py:115-127 | The content lookup raises exactly when reading the first opinion's id raises. A falsy id gives `None` without a fetch. A truthy id whose opinion fetch gives a truthy body yields that body's priority choice. A failed or empty fetch gives `None`. |
| Lookups.ContentFromFirstOpinion | citator.py:116-119 | Only `opinions[0]` is consulted. Two results whose `opinions` lists start with the same entry get the same content. |
| Pipeline.Worker | citator.py:111-139 | The worker raises exactly when the search result is not an object, when the content lookup raises, or when the opinion has truthy content and the classification step raises. On truthy content, a truthy answer is returned as is, and a `None` or falsy answer gives `None`. A returned worker result is non-`None` exactly when the opinion has content and a truthy classification, and it is then that classification. |
| Pipeline.NoContentNoClassification | citator.py:129-139 | Without content the worker returns `None`, whatever the classification step would answer: no classification is attempted. |
| Pipeline.FanIn | citator.py:149-156 | The collected list raises exactly when some worker raised. Otherwise it has one entry per truthy worker result. It holds each truthy worker result exactly as many times as workers returned it, and nothing else. |
| Pipeline.KeptWorkers | citator.py:129-134 | A worker outcome is kept by the collection step exactly when its citing opinion has content and a truthy classification. The kept outcomes are therefore as many as those opinions. |
| Pipeline.FanInOrderIrrelevant | citator.py:151-156 | Any completion order of the workers raises exactly when another does. Otherwise all orders collect the same multiset of results. |
| Pipeline.Analyze | citator.py:141-158 | `process_opinion` raises exactly when the citing lookup or some worker raised. Otherwise it reports the resolved (never falsy) case name, and at most one result per citing opinion, itself at most `cap`. The results, as a multiset, are exactly the truthy worker results. |
| Pipeline.ResultCount | citator.py:141-158 | When `process_opinion` returns, it reports exactly as many results as there are citing opinions with content and a truthy classification. |
| Pipeline.ResultsFromCitingItem | citator.py:111-134 | When `process_opinion` returns, every reported result is truthy. It is the classification step's answer for the cited case name, and for the name and content of one of the citing opinions. |
| Pipeline.ClassifiedResultsReported | citator.py:141-158 | When `process_opinion` returns, the truthy classification of every citing opinion with content appears among the reported results. |
| Pipeline.ReturnsOnWellFormed | citator.py:141-158 | With well-formed search payloads and a classification step that never raises, `process_opinion` does not raise. |
| Citator.GetCitingOpinions | citator.py:60-65 | The citing list is a prefix of `results` of length at most 1. It has exactly one entry when `results` is non-empty, and is `[]` on a failed fetch. |
| Citator.ProcessOpinion | citator.py:141-158 | The CLI variant reports the resolved case name and at most one result, and every reported result is truthy. |
| Citator.ReturnsOnWellFormedSearch | citator.py:96-109 | The Gemini step catches every exception, so on well-formed search payloads `process_opinion` does not raise. |
| CitatorStreamlit.GetCitingOpinions | citator_streamlit.py:63-68 | The citing list is the prefix of `results` of length `min(len, 3)`, and `[]` on a failed fetch. |
| CitatorStreamlit.ProcessOpinion | citator_streamlit.py:142-159 | The results number at most `min(3, number of citing opinions)`. As a multiset they are exactly the truthy worker results. |
| CitatorStreamlit.CitingDefaults | citator_streamlit.py:113-114 | Each sentinel applies only when its key is absent. A falsy `caseName` with a present `""` `caseNameFull` yields `""`. The date is `"Unknown Date"` only for an absent key, or one that holds that very text. |
| CitatorStreamlit.ReturnsOnWellFormedSearch | citator_streamlit.py:97-110 | On well-formed search payloads this variant's `process_opinion` never raises. |
| CitatorV1.PromptText | pages/citator_v1.py:157 | The text placed in the prompt is the prefix of the opinion text of length `min(len, 400000)`. Slicing a non-sequence raises. |
| CitatorV1.ShortTextKept | pages/citator_v1.py:157 | A text of at most 400000 characters reaches the prompt unchanged. |
| CitatorV1.Normalise | pages/citator_v1.py:179-187 | The normalised result is always a truthy dict with `citing_cases`. An existing `citing_cases` value is kept unchanged. Other keys are kept. A missing key is set to `[]`. A non-dict payload becomes `{'citing_cases': []}`. |
| CitatorV1.NormaliseIdempotent | pages/citator_v1.py:181-186 | Normalising an already normalised result changes nothing. |
| CitatorV1.ProcessSingleOpinion | pages/citator_v1.py:120-190 | The step raises exactly when the truncation or the request fails. It gives `None` exactly when extracting the tool call fails. Otherwise it gives the normalised arguments. |
| CitatorV1.PromptSeesOnlyPrefix | pages/citator_v1.py:156-157 | Two opinion texts that agree on their first 400000 characters get the same classification outcome. |
| CitatorV1.GetCitingOpinions | pages/citator_v1.py:113-118 | The citing list is the prefix of `results` of length `min(len, 20)`, and `[]` on a failed fetch. |
| CitatorV1.ProcessOpinion | pages/citator_v1.py:231-248 | The results number at most `min(20, number of citing opinions)`. As a multiset they are exactly the truthy worker results. |
| CitatorV1.ResultsNormalised | pages/citator_v1.py:239-248 | When `process_opinion` returns, every reported result is a dict holding `citing_cases`. |
| CitatorV1.ApiErrorEscapes | pages/citator_v1.py:160-177 | When the i-th citing opinion has content and its tool-call request fails, `process_opinion` raises. No "never raises" claim holds for this variant. |

## Left out

- HTTP itself is left out: URL formatting, headers and the token become the `Endpoint` and `Network` oracle.
- The body of a 200 reply is assumed to decode to a JSON object; a body that decodes to a list, string or number is not modelled. An undecodable 200 body depends on the requests version. From requests 2.27 on, `Response.json()` raises `requests.exceptions.JSONDecodeError`, a `RequestException`, which `make_request` catches and answers with `None` on that attempt. The model represents such a reply as `TransportError`, a fatal reply. The escaping `ValueError` of older requests versions is not modelled.
- The network gives each URL one reply stream. Two citing results that share an opinion id therefore see the same replies.
- `make_request` takes `max_retries` and `initial_wait` as naturals. Negative values do not occur in the source: every caller uses the defaults 5 and 5.
- JSON floating-point numbers are not modelled, so a falsy `0.0` has no counterpart. The inspected fields are strings, lists, objects and integer ids.
- The language-model calls are left out: prompt wording, model names, temperature, schema classes, the label taxonomy and the colours. They are replaced by oracles on the prompt's inputs (cited name, citing name, text). The citing date is computed but no prompt uses it.
- A parsed `CitationAnalysis` instance is represented by the dict its `model_dump()` returns.
- A request that never answers is not modelled. `requests.get` is called without a timeout, and the language-model calls can block too. Every reply of the network and language-model oracles is assumed to arrive, so "does not raise" is not a claim that `process_opinion` terminates.
- `ThreadPoolExecutor` is modelled sequentially, over one completion order, with order-independence proved. Thread scheduling itself is not modelled.
- `save_results_to_file` is left out, as file I/O and JSON pretty-printing.
- The Streamlit UI, session state, `COLOR_ICONS`, the download button, the `__main__` block, logging and environment-variable configuration are left out, as presentation and I/O.
