# stance-llm: the prompt-chain layer, modelled in Dafny

stance-llm decides whether an organisation (the *entity*) takes a stance towards a
*statement* in a text. It also decides whether that stance is *support* or *opposition*.
It does this by chaining calls to a language model:
- a chain asks a few German questions, each one depending on the last answer;
- the answer of a constrained call is picked from a closed list of strings;
- the final answer fixes the stance;
- the chain keeps a record of every stage in the classification's `meta`.

A batch driver validates the request, dispatches each example to the named chain and
collects one output record per example. Helpers around it flatten the trace into prompt
texts, evaluate predictions against true labels, filter records for export, and convert
annotation-tool exports into examples.

The repository holds two generations of this code:
- **Current:** `src/stance_llm/...`. The trace key is `"llms"` and the entity key is `ent_text`.
- **Older:** `stance_llm/stance_llm/...`. The trace key is `"lms"` and the entity key is `org_text`. Its nested chains use a different general probe, and its `process` has no exception handling.

Both generations are modelled.

The language model is an **oracle**:
- each constrained `select` is a datatype of its allowed answers (`IrrelevanceAnswer`, `GeneralAnswer`, `YesNo`, `InlineLabel`);
- each free `gen` is an arbitrary string;
- a backend is only a name.

With the model calls supplied as inputs, everything else is deterministic. A call made
to the model is a `CallRecord`: the backend, the prompt (as the builder that made it and
the values it interpolated) and the reply.

Modules (one file each):

| module | what it holds |
|---|---|
| `Wrappers` | `Option` and `Result` |
| `Calls` | stance labels, answer tables, backends and token budgets |
| `Prompts` | the six prompt builders and what each prompt contains |
| `Records` | call records, traces and `meta` |
| `Chains` | the registry and a reference definition of each of the seven chains; the definitions are pure functions returning the stance, the trace and the issued calls |
| `Base` | the current `StanceClassification` class: `stance`, `meta` and the masked fields, with one method per chain; each method is proved equal to its reference definition |
| `LegacyBase` | the older class, and the older nested chains as a reference definition |
| `Process` | `detect_stance`, `get_prompt_texts_from_meta`, `process`, `evaluate`, the export filter and `prepare_prodigy_egs` of the current generation |
| `LegacyProcess` | the same for the older generation; the export filter, the prompt texts and the annotation-tool conversion are shared, with the older keys passed in |

The class methods update their fields in place. A ghost field `issued` logs the model
calls each method makes, in order.

Three facts about the code shape the model:
- **Seven chains.** The code registers seven chains.
- **The trace is not a complete call log.** In the nested chains the opposition probe's record overwrites the support probe's record. In the older nested chains the irrelevance probe's record overwrites the general probe's record. The model therefore proves that every trace entry is a call the run issued (`Recorded`), not that every issued call is in the trace.
- **A second backend.** The chain methods accept and ignore `llm2`; only `detect_stance` rejects it.

## Model

| member | source | states |
|---|---|---|
| Calls.StanceName | src/stance_llm/base.py:30 | the stance a chain stores is one of the allowed categories and never the `"error"` sentinel |
| Calls.OptionsDistinct | src/stance_llm/base.py:21-28 | each closed answer set consists of distinct strings, so comparing the selected string with the options, as every chain does, identifies the answer |
| Prompts.IrrelevancePromptFrame | src/stance_llm/base.py:33-35 | the irrelevance prompt contains the text, the entity and the statement verbatim, and ends by asking for exactly the two irrelevance answers |
| Prompts.SummaryPromptFrame | src/stance_llm/base.py:38-40 | the summary prompt contains the text and the entity, and asks the summary to open with "Die Organisation <entity>" |
| Prompts.StatementSummaryPromptFrame | src/stance_llm/base.py:43-45 | the statement-specific summary prompt contains its three inputs and the same required opening |
| Prompts.GeneralStancePromptFrame | src/stance_llm/base.py:48-50 | the general-stance prompt contains the text and the entity, and ends by asking for exactly the two general answers |
| Prompts.SupportPromptFrame | src/stance_llm/base.py:53-55 | the support prompt contains its three inputs and ends by asking for "Ja" or "Nein" |
| Prompts.OppositionPromptFrame | src/stance_llm/base.py:58-60 | the opposition prompt contains its three inputs and ends by asking for "Ja" or "Nein" |
| Prompts.PromptCarriesInputs | src/stance_llm/base.py:33-60 | every prompt sent contains the text and the entity it was built from, and the statement when its builder takes one; the older builders (stance_llm/stance_llm/base.py:27-59) produce the same texts |
| Records.RecordText | src/stance_llm/process.py:121 | the flat-mode string of a call record starts with the whole prompt sent, followed by the model's reply |
| Chains.ChainOfLabel | src/stance_llm/base.py:7-15 | a label names a chain exactly when it is registered, and the chain's label is that label |
| Chains.RegistryRoundTrip | src/stance_llm/base.py:7-17 | every chain is registered under its label, the label leads back to it, and only `is2` accepts a second backend |
| Chains.InlineStance | src/stance_llm/base.py:329-334 | the three inline labels map one-to-one onto irrelevant, support and opposition |
| Chains.SummaryFirstTrace | src/stance_llm/base.py:183-185 | the trace of the summary-first chains has exactly the keys summary, irrelevance and stance, and holds the given entries |
| Chains.InlineTrace | src/stance_llm/base.py:337-341 | the trace of summarize_v2 has exactly the key summary |
| Chains.ProbeTrace | src/stance_llm/base.py:505 | the trace of irrelevant_stance has exactly the keys irrelevance and stance |
| Chains.ProbeInlineTrace | src/stance_llm/base.py:435-441 | the trace of irrelevant_summarize_v2 has exactly the keys summary and irrelevance |
| Chains.NestedTrace | src/stance_llm/base.py:634-641 | the trace of the nested chains has exactly the keys irrelevance_general, irrelevance, summary and stance |
| Chains.SummaryFirstRun | src/stance_llm/base.py:126-187 | "Bezieht keine Stellung" gives irrelevant with stance entry None after 2 calls; "Bezieht Stellung" then "Ja" gives support and then "Nein" gives opposition, after 3 calls; the summary and irrelevance entries are always present; every trace entry is an issued call; every call goes to `llm` |
| Chains.InlineRun | src/stance_llm/base.py:285-343 | one call whose selected inline label is the stance; the trace holds only the summary |
| Chains.ProbeRun | src/stance_llm/base.py:458-507 | the same branch mapping as the summary-first chains with 1 or 2 calls; the stance entry is None exactly when the first answer is "Bezieht keine Stellung" |
| Chains.ProbeThenInlineRun | src/stance_llm/base.py:359-442 | an irrelevant first answer gives irrelevant with summary None after 1 call and no call to `llm2`; otherwise the inline label is the stance, and the second call goes to `llm2` or to `llm` when none is given |
| Chains.SupportThenOpposition | src/stance_llm/base.py:599-631 | the support probe always runs; the opposition probe runs exactly after a "Nein" |
| Chains.NestedRun | src/stance_llm/base.py:527-643 | the general probe "Bezieht keine Haltung" gives irrelevant with irrelevance, summary and stance None (1 call); an irrelevant second probe gives irrelevant with summary and stance None (2 calls); otherwise 4 calls after "Ja" and 5 after "Nein"; the stance entry is the last call issued |
| Chains.NestedStance | src/stance_llm/base.py:547-631 | support exactly on attitude, position and "Ja"; opposition exactly on attitude, position, "Nein", "Ja"; irrelevant in every other case |
| Chains.ChainTraceShape | src/stance_llm/base.py:108-780 | whichever branch a run takes, its trace has exactly its chain's key set and holds only calls the run issued |
| Chains.SummaryFeedsProbes | src/stance_llm/base.py:143-169 | in the summary-first chains both probes are asked about the generated summary, not about the input text |
| Chains.ProbesReadMaskedText | src/stance_llm/base.py:465-502 | irrelevant_stance asks both probes about the masked input text |
| Chains.NestedProbesRead | src/stance_llm/base.py:531-631 | in the nested chains the general probe, the irrelevance probe and the summary read the masked input text; the summary gets the chat/flat token budget; the support probe and, after "Nein", the opposition probe read the generated summary |
| Base.ReplaceAbsent | src/stance_llm/base.py:104 | masking a text that does not contain the entity leaves it unchanged |
| Base.ReplaceBySelf | src/stance_llm/base.py:104 | masking an entity with itself leaves the text unchanged |
| Base.StanceClassification.constructor | src/stance_llm/base.py:83-90 | a new task has no stance and no meta, and its masked fields equal the originals |
| Base.StanceClassification.MaskEntity | src/stance_llm/base.py:97-106 | the masked text is the text with the entity replaced and the masked entity is the mask; entity, text and statement are unchanged and the same object is returned |
| Base.StanceClassification.SummarizeIrrelevantStanceChain | src/stance_llm/base.py:108-187 | stance, meta["llms"] and the issued calls are those of SummaryFirstRun with the plain summary |
| Base.StanceClassification.SummarizeV2IrrelevantStanceChain | src/stance_llm/base.py:188-270 | the same with the statement-specific summary |
| Base.StanceClassification.SummarizeV2Chain | src/stance_llm/base.py:271-343 | stance, meta["llms"] and the issued calls are those of InlineRun |
| Base.StanceClassification.IrrelevantSummarizeV2Chain | src/stance_llm/base.py:344-442 | stance, meta["llms"] and the issued calls are those of ProbeThenInlineRun |
| Base.StanceClassification.IrrelevantStanceChain | src/stance_llm/base.py:443-507 | stance, meta["llms"] and the issued calls are those of ProbeRun |
| Base.StanceClassification.SupportThenOpposition | src/stance_llm/base.py:599-631 | issues the calls of Chains.SupportThenOpposition and sets the stance from the last answer |
| Base.StanceClassification.NestedChain | src/stance_llm/base.py:527-643 | stance, meta["llms"] and the issued calls are those of NestedRun |
| Base.StanceClassification.NestedIrrelevantSummaryExplicit | src/stance_llm/base.py:508-643 | NestedChain with the plain summary |
| Base.StanceClassification.NestedIrrelevantSummaryV2Explicit | src/stance_llm/base.py:644-780 | NestedChain with the statement-specific summary |
| LegacyBase.GeneralOf | stance_llm/stance_llm/base.py:444-448 | the older general probe's "Ja" stands for an attitude and "Nein" for none |
| LegacyBase.LegacyNestedRun | stance_llm/stance_llm/base.py:431-518 | "Nein" on the general probe gives irrelevant with summary and stance None (1 call); the cascade otherwise matches the current one; the trace has the summary-first keys and no irrelevance_general; its irrelevance entry is the general probe after "Nein" and the irrelevance probe otherwise |
| LegacyBase.LegacyNestedAgreesWithNested | stance_llm/stance_llm/base.py:431-518 | the older nested chains issue the same calls as the current ones, except for the first call's answer, and reach the same stance |
| LegacyBase.LegacyNestedTraceAgrees | stance_llm/stance_llm/base.py:511-517 | the older and current nested traces agree on summary and stance; the older irrelevance entry is the general probe where the current trace has it only under irrelevance_general |
| LegacyBase.LegacyGeneralProbeMismatch | stance_llm/stance_llm/base.py:435-443 | the older general probe asks for the two general answers, yet the answer it selects is neither of them |
| LegacyBase.GeneralProbeAnswersAsAsked | src/stance_llm/base.py:531-546 | the current general probe selects exactly among the answers its prompt asks for |
| LegacyBase.StanceClassification.constructor | stance_llm/stance_llm/base.py:70-77 | a new task has no stance and no meta, and its masked fields equal the originals |
| LegacyBase.StanceClassification.MaskEntity | stance_llm/stance_llm/base.py:85-94 | only the masked fields change, and the entity keeps its value |
| LegacyBase.StanceClassification.SummarizeIrrelevantStanceChain | stance_llm/stance_llm/base.py:96-164 | SummaryFirstRun with the plain summary, stored under meta["lms"] |
| LegacyBase.StanceClassification.SummarizeV2IrrelevantStanceChain | stance_llm/stance_llm/base.py:165-235 | SummaryFirstRun with the statement-specific summary, under meta["lms"] |
| LegacyBase.StanceClassification.SummarizeV2Chain | stance_llm/stance_llm/base.py:236-285 | InlineRun, under meta["lms"] |
| LegacyBase.StanceClassification.IrrelevantSummarizeV2Chain | stance_llm/stance_llm/base.py:286-355 | ProbeThenInlineRun, under meta["lms"] (`lm2` defaults to `lm`) |
| LegacyBase.StanceClassification.IrrelevantStanceChain | stance_llm/stance_llm/base.py:356-413 | ProbeRun, under meta["lms"] |
| LegacyBase.StanceClassification.SupportThenOpposition | stance_llm/stance_llm/base.py:482-508 | the support probe and, after "Nein", the opposition probe; the stance follows the last answer |
| LegacyBase.StanceClassification.NestedChain | stance_llm/stance_llm/base.py:431-518 | stance, meta["lms"] and the issued calls are those of LegacyNestedRun |
| LegacyBase.StanceClassification.NestedIrrelevantSummaryExplicit | stance_llm/stance_llm/base.py:414-519 | NestedChain with the plain summary |
| LegacyBase.StanceClassification.NestedIrrelevantSummaryV2Explicit | stance_llm/stance_llm/base.py:520-624 | NestedChain with the statement-specific summary |
| Process.CheckRequest | src/stance_llm/process.py:42-50 | an unregistered label fails first; a second backend with a label other than `is2` fails next; otherwise the chain the label names |
| Process.Detect | src/stance_llm/process.py:19-81 | a failed check fails the whole detection with its error; otherwise a missing ent_text, then text, then statement fails with that key's error, and detection succeeds exactly when all three are present, yielding the unmasked entity, the statement and a run whose trace has the chain's key set and holds only issued calls |
| Process.DetectDispatches | src/stance_llm/process.py:51-80 | each registered label runs exactly its own chain on the view masking produced, and a mask is applied to the text and the entity |
| Process.DetectStance | src/stance_llm/process.py:19-81 | fails exactly when Detect does, with the same error and before any task exists; otherwise a fresh task keeping the original entity and text, with stance, meta["llms"] and issued calls those of Detect's run |
| Process.RunChain | src/stance_llm/process.py:57-81 | the dispatch sets stance, meta["llms"] and the issued calls to the run of the chain the label names |
| Process.PromptTexts | src/stance_llm/process.py:105-123 | {} when the trace key is absent; otherwise exactly the trace's keys, each mapped to a single "prompt_text"; "None" for a skipped stage |
| Process.PromptTextsCarryPrompts | src/stance_llm/process.py:119-122 | the prompt text of a stage that ran starts with the whole prompt it sent, in the flat rendering |
| Process.PromptTextsFromMeta | src/stance_llm/process.py:105-123 | the loop computes PromptTexts; the older function (stance_llm/stance_llm/process.py:71-79) is the same loop under "lms" |
| Process.Predict | src/stance_llm/process.py:163-203 | keeps the example, the run alias and the mask; stance_pred is an allowed category; it is "error" exactly when there is no classification, exactly when prompt_history is None, and exactly when the backend raised or detection failed; otherwise the classification is Detect's entity, view, stance and trace, the prompt history is the prompt texts of that trace, and stance_pred is the name of the chain's stance |
| Process.ProcessOne | src/stance_llm/process.py:163-203 | the loop body produces the Predict record |
| Process.Process | src/stance_llm/process.py:126-224 | one record per input, in order, each the Predict record of its example |
| Process.ProcessRecords | src/stance_llm/process.py:161-214 | all records share the run alias and carry an allowed stance_pred; "error" exactly without prompt history; all are "error" for an unregistered chain |
| Process.Scored | src/stance_llm/process.py:235-238 | the scored records are exactly the non-error ones, in order |
| Process.ScoredOrCounted | src/stance_llm/process.py:233-244 | every record is either scored or counted in error_count |
| Process.PredLabels | src/stance_llm/process.py:237 | y_pred lists the predictions in order |
| Process.TrueLabels | src/stance_llm/process.py:238 | y_true lists the true labels in order, with the same length |
| Process.Evaluate | src/stance_llm/process.py:227-248 | succeeds exactly when every scored record has stance_true; y_pred and y_true are the labels of the non-error records; error_count is the number of error records |
| Process.ExportLine | src/stance_llm/process.py:335-348 | an exported line carries the chain's stance, never "error", and has id and stance_true exactly when their keys are given |
| Process.WithClassification | src/stance_llm/process.py:333-334 | the exported records are exactly those with a classification, in order |
| Process.Exported | src/stance_llm/process.py:332-349 | the filter writes at most one line per record and no line with "error" |
| Process.ExportedLength | src/stance_llm/process.py:332-349 | a successful export has one line per classified record |
| Process.ExportedLineAt | src/stance_llm/process.py:333-349 | the k-th line is the line of the k-th classified record |
| Process.ExportRecords | src/stance_llm/process.py:332-349 | the loop computes Exported; the older filter (stance_llm/stance_llm/process.py:190-207) is the same loop with "org_text" |
| Process.Kept | src/stance_llm/process.py:383-390 | the kept records are exactly those that are not removed as flagged, in order |
| Process.KeptAll | src/stance_llm/process.py:389-390 | without removal every record is kept |
| Process.KeptConcat | src/stance_llm/process.py:375-390 | filtering distributes over concatenation, so relative order is kept |
| Process.RefactorAll | src/stance_llm/process.py:376-382 | each record becomes the example with id, text, entity, statement and stance_true renamed from it |
| Process.Prepared | src/stance_llm/process.py:360-391 | the only failure is a missing accepted label, and there are never more examples than records |
| Process.PreparedConvertsKept | src/stance_llm/process.py:370-391 | succeeds exactly when every record has an accepted label, flagged or not; the result is the conversion of the kept records, in order |
| Process.PreparedFeedsDetection | src/stance_llm/process.py:376-382 | every prepared example has the entity, text, statement and stance_true keys detection and evaluation look up |
| Process.PrepareProdigyExamples | src/stance_llm/process.py:360-391 | the loop computes Prepared; the older conversion (stance_llm/stance_llm/process.py:215-240) is the same loop with "org_text" |
| LegacyProcess.LegacyChainKeys | stance_llm/stance_llm/base.py:511-517 | no older trace has irrelevance_general; the non-nested chains have the current key sets |
| LegacyProcess.LegacyChainAgrees | stance_llm/stance_llm/process.py:42-55 | every older chain reaches the stance of the current one with the same number of calls; the non-nested chains run identically; the trace has the older key set |
| LegacyProcess.LegacyRequestError | stance_llm/stance_llm/process.py:26-35 | what detect_stance raises before any backend call: the two request checks, then a missing org_text, text or statement in that order; none exactly when all pass, and never the backend's error |
| LegacyProcess.LegacyDetect | stance_llm/stance_llm/process.py:13-56 | a failed check fails with its error; otherwise a missing org_text, then text, then statement fails with that key's error; every failure is LegacyRequestError's; success exactly when all three are present, with the unmasked entity, the statement and a trace with the older key set |
| LegacyProcess.LegacyDetectDispatches | stance_llm/stance_llm/process.py:33-55 | each registered label runs exactly its own older chain on the view masking produced, and a mask is applied to the text and the entity |
| LegacyProcess.LegacyDetectStance | stance_llm/stance_llm/process.py:13-56 | fails exactly when LegacyDetect does; otherwise a fresh task with stance, meta["lms"] and issued calls of its run |
| LegacyProcess.LegacyRunChain | stance_llm/stance_llm/process.py:42-55 | the dispatch sets stance, meta["lms"] and the issued calls to the run of the chain the label names |
| LegacyProcess.LegacyPredict | stance_llm/stance_llm/process.py:100-112 | a record exists exactly when the backend answered and detection succeeded; a request or key error is raised first, before any backend call, and only then does a raising backend fail the example; a record keeps the example, alias and mask, its classification is LegacyDetect's entity, view, stance and trace, its prompt history is the prompt texts of that trace, and its stance_pred is the stance name, never "error" |
| LegacyProcess.LegacyProcessOne | stance_llm/stance_llm/process.py:100-112 | the loop body produces LegacyPredict, with detect_stance's checks and lookups ahead of the backend's error |
| LegacyProcess.LegacyProcessed | stance_llm/stance_llm/process.py:82-124 | a completed batch has one record per input |
| LegacyProcess.LegacyProcessBatch | stance_llm/stance_llm/process.py:82-124 | the loop computes LegacyProcessed |
| LegacyProcess.LegacyBatchRecords | stance_llm/stance_llm/process.py:98-112 | record k of a completed batch is the LegacyPredict record of example k |
| LegacyProcess.LegacyBatchOutcome | stance_llm/stance_llm/process.py:99-112 | the batch completes when every example is classified, and otherwise raises what its first failing example raised: detect_stance's request or key error, or else the backend's error |
| LegacyProcess.CollectedFirstFailure | stance_llm/stance_llm/process.py:99-104 | a batch without exception handling raises the exception of its first failing example |
| LegacyProcess.LegacyEvaluate | stance_llm/stance_llm/process.py:126-140 | succeeds exactly when every record has stance_true; y_pred and y_true are the labels of all records, in order, of equal length |
| LegacyProcess.NothingToFilter | src/stance_llm/process.py:235-244 | with no error records, the current evaluate scores everything and counts no errors |
| LegacyProcess.LegacyEvaluationAgrees | stance_llm/stance_llm/process.py:126-131 | on an older batch, the current and older evaluate hand the same lists to the metrics |

## Left out

- **The guidance backend.** `gen`, `select`, the `user()`/`assistant()` contexts and the model classes are replaced by oracle answers and opaque strings. Of the chat/flat split only the 120/80 summary token budget is kept. A call record's string is the flat rendering, prompt then reply; in chat mode the guidance state puts role markup before the prompt, which the model does not render. A backend that raises is the outcome `Raises` (current) or `Throws` (older).
- **Regular expressions in masking.** `mask_entity` uses `re.sub` with the entity as a pattern. The model replaces the entity as a literal string, scanning left to right without overlaps. An empty entity matches at every position, as it does in `re.sub`. The model makes no claim that the mask removes every occurrence, since a mask can contain or recreate the entity. `re.sub` also reads the mask as a replacement template: backslash escapes in it are expanded, and a bad escape raises `re.error`. The model copies the mask literally.
- **Side effects.** Logging, `__str__`, `make_export_folder`, the JSONL/JSON writes, `date.today()`, `time.sleep`, `tqdm` and `RandomWord` are left out. The run alias is a parameter.
- **Metrics.** sklearn's `classification_report` is left out: floating-point metrics. Only the lists handed to it and the error count are modelled.
- **Streamed export.** The export inside `process` (`stream_out`) is file I/O. The model corresponds to `stream_out=False`, and the export filter is modelled on its own. A KeyError raised by that export is therefore not modelled: in the current code the `except` would catch it, and in the older code it would end the batch.
- **`save_evaluations_json`, `save_run_meta_info_json` and `process_evaluate`.** They only compose the modelled functions with file I/O.
- **In-place mutation of example dicts.** `process` adds `stance_classification`, `run_alias`, `stance_pred` and `meta` to each input dict. The model keeps these in a separate `Prediction` record. An export id or true-stance key that names one of these added keys therefore reads the input example, not the added value.
- **Dict iteration order.** Prompt histories and traces are maps, so key order is not modelled.
- **Annotation records.** They are a fixed datatype. A `flagged` value other than a boolean, a missing or non-string field other than `accept`, and non-string JSON values are not modelled. `remove_flagged` is a boolean: a truthy value other than `True` would pass both flag tests of src/stance_llm/process.py:383-390 and append a record twice, which the model does not capture. Example values are strings.
- **`Recorded` on traces.** It states that every trace entry is an issued call, not the converse; in the nested chains the code overwrites one entry.
- **`__str__`, `get_registered_chains`, `get_allowed_dual_llm_chains` and `CONSTRAINED_GRAMMAR_CHAINS`.** These are display and accessors of the modelled constants; the last is unused.

## Findings

| source | as written | input that shows it | evidently intended | confidence | as-written member | corrected member |
|---|---|---|---|---|---|---|
| stance_llm/stance_llm/base.py:435-443 | the older nested chains build the general-stance prompt, which ends "Antworte mit Bezieht keine Haltung oder Bezieht eine Haltung", but constrain the answer to `select(["Ja", "Nein"])` | any task run through `nise` or `nis2e`: the model must answer "Ja" or "Nein" to a prompt that offers neither | the selectable answers are the ones the prompt offers, as in the current generation (src/stance_llm/base.py:531-547) | not executed | LegacyBase.LegacyGeneralProbeMismatch | LegacyBase.GeneralProbeAnswersAsAsked |
