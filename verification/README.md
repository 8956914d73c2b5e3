# Round accounting and paper-audit ledger

A functional model of two pieces of bookkeeping in the paper-finder round service:

- **The paper-audit ledger** (`audit_papers.py`). This is a process-wide record of corpus ids. It has two parts:
  - ids that were *retrieved* into a candidate pool;
  - ids that ended up in a *final* result.

  Every final recording rewrites a reconciliation report. The report lists the *sideloaded* ids (final but never retrieved), the *retrieved-only* ids, and the ids in both (*final_included*), each sorted, plus counts. An environment flag switches the whole feature off.
- **Round accounting in the round route** (`round_v2_routes.py`), which covers:
  - the token collector that folds each LLM completion's usage into per-model counters;
  - the match on the agent's response (void, complete, partial, anything else);
  - decorating a result with its token breakdown and session id;
  - the best-effort extraction of the result's corpus ids, which go to the ledger as final;
  - the `"infer"` default for the operation mode.

Every ledger call is one atomic transition of an immutable `Ledger` value (`enabled`, `retrieved`, `final`). Python's `sorted()` on strings is modelled by `StringOrder.Sorted`: the unique strictly increasing listing of a set under code-point lexicographic order. The dumped result payload is a JSON-mode value (`PyValues.Value`). The model spells out the Python operations the route applies to it: truthiness, `dict.get`, `isinstance(_, dict)` and iteration.

Inputs that the source reads from its surroundings become parameters:
- the `AUDIT_PAPERS` and `AUDIT_PAPERS_REPORT` variables (`AuditPapers.Init`, `AuditPapers.AuditEnv`);
- `project_root()` (`AuditEnv.projectRoot`);
- whether the report write succeeds (`writeSucceeds`);
- the generated conversation thread id (`sessionId`);
- the LLM completions a round's handler sees (`usage`);
- what `run_agent` returns (`AgentResponse`).

The final ids are recorded inside the cached function (`run_round_with_cache`), so a cache hit records nothing; the model follows that.

Modules:
- `Wrappers`: `Option`, `Result`.
- `StringOrder`: string order, `sorted()` of a set.
- `AuditPapers`: the ledger.
- `UsageCallback`: the token handler.
- `PyValues`: dumped values.
- `RoundRoutes`: response handling and id extraction.

## Model

| member | source | states |
|---|---|---|
| AuditPapers.Init | agents/mabool/api/mabool/utils/audit_papers.py:11-13 | the ledger starts with both sets empty, and it is enabled exactly when `AUDIT_PAPERS` is set to a non-empty value |
| AuditPapers.ReportPath | agents/mabool/api/mabool/utils/audit_papers.py:17-21 | the report goes to the override path when that is set and non-empty; otherwise it goes to `audit_papers_report.json` under the project root |
| AuditPapers.AddAll | agents/mabool/api/mabool/utils/audit_papers.py:32-34 | the insertion loop adds exactly the truthy ids (neither `None` nor `""`) to the set, and nothing else |
| AuditPapers.TruthyIdsMembership | agents/mabool/api/mabool/utils/audit_papers.py:32-34 | an id is inserted if and only if it is non-empty and occurs in the input |
| AuditPapers.RecordRetrieved | agents/mabool/api/mabool/utils/audit_papers.py:24-34 | disabled: the ledger is unchanged. Enabled: retrieved becomes retrieved ∪ {truthy ids} and final is untouched |
| AuditPapers.MakeReport | agents/mabool/api/mabool/utils/audit_papers.py:49-58 | each list is strictly increasing and holds exactly final − retrieved, retrieved − final or final ∩ retrieved; the counts are \|retrieved\|, \|final\| and the sideloaded list's length |
| AuditPapers.RecordFinal | agents/mabool/api/mabool/utils/audit_papers.py:37-67 | disabled: no change, no report, no file. Enabled: final becomes final ∪ {truthy ids}, retrieved is untouched, and the report is computed from the updated state. A completed write of that report to the report path is recorded exactly when the write succeeds |
| AuditPapers.RecordsOnlyGrow | agents/mabool/api/mabool/utils/audit_papers.py:29-47 | each call only enlarges its own set and leaves the other set and the flag unchanged |
| AuditPapers.RecordIdempotent | agents/mabool/api/mabool/utils/audit_papers.py:31-51 | recording the same ids twice gives the same ledger, and the same report, as recording them once |
| AuditPapers.WriteFailureIsInvisible | agents/mabool/api/mabool/utils/audit_papers.py:60-67 | a failed report write leaves the ledger and the report as a successful write would; only the record of a completed write is missing |
| AuditPapers.ReportPartition | agents/mabool/api/mabool/utils/audit_papers.py:49-51 | sideloaded ∪ final_included = final and retrieved_only ∪ final_included = retrieved; no id is in two lists |
| AuditPapers.SortedLength | agents/mabool/api/mabool/utils/audit_papers.py:49-51 | a sorted, duplicate-free listing of a set is exactly as long as the set is large |
| AuditPapers.ReportCounts | agents/mabool/api/mabool/utils/audit_papers.py:53-57 | counts.final = counts.sideloaded + \|final_included\|, counts.retrieved = \|retrieved_only\| + \|final_included\|, and counts.sideloaded = \|final − retrieved\| |
| AuditPapers.DisabledRunIsNoOp | agents/mabool/api/mabool/utils/audit_papers.py:29-43 | with the feature off, any sequence of calls leaves the ledger as it was and writes no file |
| AuditPapers.RunOnlyGrows | agents/mabool/api/mabool/utils/audit_papers.py:12-47 | over any sequence of calls both sets only grow and the flag never changes |
| AuditPapers.ReconciliationExample | agents/mabool/api/mabool/utils/audit_papers.py:24-58 | retrieved A, B, C then final B, C, D gives sideloaded [D], retrieved_only [A], final_included [B, C] and counts 3/3/1, written to the report path |
| StringOrder.Sorted | agents/mabool/api/mabool/utils/audit_papers.py:49-51 | `sorted(list(s))` holds every element of the set exactly once, in strictly increasing order |
| StringOrder.SortedUnique | agents/mabool/api/mabool/utils/audit_papers.py:49-51 | any strictly increasing listing of a set is `Sorted` of it, so the report lists are fully determined by the sets |
| UsageCallback.ResolveModelName | agents/mabool/api/mabool/api/round_v2_routes.py:104-116 | usage is booked under `model_name` if present, else `model_version`, else "unknown"; the name always comes from the metadata or is "unknown" |
| UsageCallback.Accumulate | agents/mabool/api/mabool/api/round_v2_routes.py:105-137 | a non-chat generation, a non-AI message or missing usage leaves the map unchanged. Otherwise only the resolved model's entry changes: it starts from zeros if new, and total, prompt, completion and reasoning (0 when absent) are added, not overwritten |
| UsageCallback.OnLlmEnd | agents/mabool/api/mabool/api/round_v2_routes.py:102-137 | it fails, with no effect on the map, exactly when there is no first generation; otherwise it is the accumulation of that generation |
| UsageCallback.ReasoningTokens | agents/mabool/api/mabool/api/round_v2_routes.py:135-137 | the reasoning count is `output_token_details["reasoning"]` when that key is present, and 0 otherwise (definitional) |
| UsageCallback.Collect | agents/mabool/api/mabool/api/round_v2_routes.py:98-137 | a fresh handler (an empty map) fed a round's generations in order holds exactly the models those generations reported; each model's counters are the sum of that model's reports |
| UsageCallback.AccumulateEntry | agents/mabool/api/mabool/api/round_v2_routes.py:125-137 | one generation adds exactly its contribution to the named model's entry, with zeros as the starting entry of a new model |
| UsageCallback.CollectFromSums | agents/mabool/api/mabool/api/round_v2_routes.py:124-137 | after folding generations, each model's entry is its earlier entry plus the sum of everything reported for it |
| UsageCallback.CollectFromKeys | agents/mabool/api/mabool/api/round_v2_routes.py:124-131 | after folding, the models in the map are the earlier ones plus those some generation reported usage for |
| UsageCallback.CollectIsPerRoundSum | agents/mabool/api/mabool/api/round_v2_routes.py:95-137 | a round's map, from a fresh empty handler, holds exactly the models its own generations reported, each with the sum of its own reports |
| UsageCallback.AccumulateNoDecrease | agents/mabool/api/mabool/api/round_v2_routes.py:132-137 | with non-negative reports no model disappears and no counter decreases |
| UsageCallback.AccumulationExample | agents/mabool/api/mabool/api/round_v2_routes.py:132-137 | two reports for one model, totals 3 then 7, leave total 10 (prompt, completion and reasoning summed alike) |
| RoundRoutes.OperationMode | agents/mabool/api/mabool/api/round_v2_routes.py:44 | a falsy operation mode becomes "infer"; a truthy one is kept |
| RoundRoutes.OperationModeIdempotent | agents/mabool/api/mabool/api/round_v2_routes.py:82 | applying the default in the route and again in the cached function gives the same mode as applying it once |
| RoundRoutes.UsageMapRoundTrip | agents/mabool/api/mabool/api/round_v2_routes.py:88-92 | the token breakdown stored in the result has the same models as the handler's map, and each model's four counters read back exactly |
| RoundRoutes.Decorate | agents/mabool/api/mabool/api/round_v2_routes.py:57-59 | the result is the payload plus `token_breakdown_by_model` (the handler's map) and `session_id` (the thread id); every other payload key is unchanged |
| RoundRoutes.HandleResponse | agents/mabool/api/mabool/api/round_v2_routes.py:53-71 | void gives a 500 error carrying the upstream message; complete and partial give the decorated payload; anything else gives a 500 error "Unexpected response type from agent" |
| RoundRoutes.CorpusIdsOf | agents/mabool/api/mabool/api/round_v2_routes.py:65 | the extracted ids are all truthy and no more numerous than the documents |
| RoundRoutes.CorpusIdsOfAppend | agents/mabool/api/mabool/api/round_v2_routes.py:65 | extraction distributes over concatenation, so it keeps document order |
| RoundRoutes.CorpusIdsOfOne | agents/mabool/api/mabool/api/round_v2_routes.py:65 | a document contributes its `corpus_id` exactly when it is a dict with a truthy `corpus_id` |
| RoundRoutes.DocumentsOf | agents/mabool/api/mabool/api/round_v2_routes.py:63-64 | definitional. An absent or falsy `doc_collection` falls back to `{}`, whose `documents` is `None`. For a dict collection it is the collection's `documents` entry, or `None` if there is none. A truthy non-dict collection gives `[]` |
| RoundRoutes.FinalCorpusIds | agents/mabool/api/mabool/api/round_v2_routes.py:60-66 | when extraction succeeds, the ids handed to the ledger are, in order, the string `corpus_id`s of the documents; extraction fails exactly when the documents are not iterable or an id is not a string |
| RoundRoutes.AsRawIds | agents/mabool/api/mabool/api/round_v2_routes.py:65-66 | the ids are passed on, as strings, exactly when every one of them is a string |
| RoundRoutes.MissingDocumentsSkipsLedger | agents/mabool/api/mabool/api/round_v2_routes.py:60-68 | an absent or falsy `doc_collection`, or one without `documents`, makes the iteration raise; the error is swallowed and the ledger is not called |
| RoundRoutes.NonDictCollectionRecordsNothing | agents/mabool/api/mabool/api/round_v2_routes.py:62-66 | a truthy `doc_collection` that is not a dict still calls the ledger, with no ids |
| RoundRoutes.DecorationKeepsDocuments | agents/mabool/api/mabool/api/round_v2_routes.py:57-65 | the ids read from the decorated result equal those read from the original payload |
| RoundRoutes.FinishRound | agents/mabool/api/mabool/api/round_v2_routes.py:53-71 | the response is the handled outcome, using the round's collected tokens. On an error the ledger is untouched; if extraction fails the ledger is untouched; otherwise the ledger and the report file are exactly those of `record_final` on the extracted ids |
| RoundRoutes.CompleteAndPartialAgree | agents/mabool/api/mabool/api/round_v2_routes.py:56-69 | complete and partial responses with the same payload give the same response, ledger and report |
| RoundRoutes.AuditIsInvisibleToCaller | agents/mabool/api/mabool/api/round_v2_routes.py:60-69 | the response does not depend on the ledger state, the report destination or the outcome of the report write |
| RoundRoutes.SuccessfulRoundRecordsFinalIds | agents/mabool/api/mabool/api/round_v2_routes.py:60-66 | with the ledger enabled, a successful round leaves retrieved unchanged; an id is in final afterwards exactly when it was before or is a non-empty extracted id |

## Left out

- `RoundRoutes.AsRawIds` and `RoundRoutes.FinalCorpusIds`: if any extracted `corpus_id` is not a string, extraction fails for the whole batch and the ledger is left unchanged. This loses the batch's string ids too. Python instead calls `record_final` with all the ids, and the outcome depends on their types:
  - Every inserted value can be compared with the rest of its set (for example, only integers in `final`, with retrieved {"A"} and documents `[{"corpus_id": 7}]`). Then every `sorted` call succeeds, and a report containing the non-string id is written.
  - Values that cannot be compared end up together in one of the three derived lists. Then the ids, string or not, are all inserted first (audit_papers.py lines 45-47), and the `sorted` call at lines 49-51 raises. The route swallows that error, and no report is written.
  - An id that cannot be hashed, such as a list or a dict, raises at `_final.add` (line 47). The ids before it in the batch are already in the set; no report is written.
  The ledger model holds strings only. Elsewhere in the code, the ids handed to the ledger are `CorpusId` values, which the model takes to be strings.
- `AuditPapers.RecordFinal`: `writeSucceeds = false` records no write. On disk, the target keeps the previous report when the failure comes before `open` (in `project_root()` or `mkdir`). It holds an empty or partial file when the failure comes during `json.dump` or the close, because `open(path, "w")` has already emptied it. The model has no file system.
- `UsageCallback.Accumulate`: usage metadata is a typed record with the three required counts, so a present usage record is never empty. A present but empty usage dict is represented by `None`, since both are falsy. A non-empty dict missing a required count would raise `KeyError`; that case is not modelled.
- `UsageCallback.ResolveModelName` takes response metadata as a string-to-string map; non-string model names are not modelled.
- The `AttributeError` branch of `on_llm_end` (lines 119-120) is not modelled. In the typed model a chat generation always has a message, and an AI message always has both metadata fields.
- `PyValues.Iterate`: iterating a dict yields its keys. The model represents these by no items, because the extraction keeps only dict items, and a key is a string. Floats and other JSON scalars are not modelled, since no branch here depends on them.
- `dc.py`: its methods pass calls through to a document-collection factory that is not part of this model. Its only local behaviour is calling `record_retrieved` and swallowing errors, which `AuditPapers.RecordRetrieved` covers.
- The `@cached` file-based cache and the `cache_read` flag (lines 34, 83): key derivation, bypass and write semantics live in libraries that are not part of this model.
- `PrioritySemaphore` and `priority_context` (lines 23, 29, 49): concurrency machinery defined elsewhere. Admission is treated as opaque.
- The `ContextVar` binding, `register_configure_hook` and `get_mabool_callback` (lines 140-149): ambient async-context plumbing. Each round's handler is modelled as a fresh map fed that round's generations. The reset at line 149 is not in a `finally`, so no claim is made that it runs on the error path.
- The `threading.Lock` (audit_papers.py line 14): each ledger call is one atomic transition.
- `run_agent`, `generate_conversation_thread_id`, FastAPI routing, `create_json_response`, `model_dump`, the JSON file write and `mkdir`, and the environment reads. These are I/O or foreign calls; their results are parameters.
- Which events reach a round's handler, and how the callback machinery treats an exception raised by `on_llm_end`, are not modelled. A round's usage is the sequence of first generations it saw.
