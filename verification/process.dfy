/**
 * The batch layer of the current generation: request validation and dispatch
 * (detect_stance), the flattening of a task's trace into prompt texts, the batch driver
 * (process), the non-metric part of evaluate, the record filter of the export, and the
 * conversion of annotation-tool exports (prepare_prodigy_egs).
 *
 * Examples are JSON objects with string values. The model's answers for each example are
 * parameters; a backend that raises instead of answering is the outcome `Raises`.
 */
module Process {
  import opened Wrappers
  import opened Calls
  import opened Records
  import opened Chains
  import opened Prompts
  import opened Base

  /** An input example, and the examples prepare_prodigy_egs produces. */
  type Example = map<string, string>

  /** The exceptions of this layer. */
  datatype Error =
    | UnregisteredChain
      // NameError: the chain label is not registered
    | SingleBackendChain(allowed: seq<string>)
      // NameError: the chain is not set up for two backends
    | MissingKey(key: string)
      // KeyError at a dictionary lookup
    | BackendError
      // whatever the backend raised during a chain
    | NoAcceptedLabel
      // IndexError at accept[0]

  /** The key of the entity in an input example of this generation. */
  const ENTITY_KEY: string := "ent_text"

  /**
   * The two checks detect_stance makes before it looks at the example: the label must be
   * registered, and a second backend is accepted only by the dual-backend chains.
   */
  function CheckRequest(chainLabel: string, llm2: Option<Backend>): (r: Result<Chain, Error>)
    ensures r.Success? <==>
      chainLabel in REGISTERED_LLM_CHAINS && (llm2.Some? ==> chainLabel in ALLOWED_DUAL_LLM_CHAINS)
    ensures r.Success? ==> ChainLabel(r.value) == chainLabel
    ensures chainLabel !in REGISTERED_LLM_CHAINS ==> r == Failure(UnregisteredChain)
    ensures chainLabel in REGISTERED_LLM_CHAINS && llm2.Some? && chainLabel !in ALLOWED_DUAL_LLM_CHAINS ==>
      r == Failure(SingleBackendChain(ALLOWED_DUAL_LLM_CHAINS))
  {
    if chainLabel !in REGISTERED_LLM_CHAINS then Failure(UnregisteredChain)
    else if llm2.Some? && chainLabel !in ALLOWED_DUAL_LLM_CHAINS then
      Failure(SingleBackendChain(ALLOWED_DUAL_LLM_CHAINS))
    else Success(ChainOfLabel(chainLabel).value)
  }

  /** What the chains of a task see: the masked text and entity when a mask is given. */
  function MaskedView(text: string, statement: string, entity: string, entityMask: Option<string>): TaskView {
    match entityMask
    case None => TaskView(text, entity, statement)
    case Some(mask) => TaskView(ReplaceAll(text, entity, mask), mask, statement)
  }

  /** A successful detection: the original entity, what the chain saw, and its run. */
  datatype Detection = Detection(entity: string, view: TaskView, run: Run)

  /**
   * detect_stance as a function of the request and the model's answers: the two checks,
   * then the three key lookups, then one run of the chain the label names.
   */
  function Detect(eg: Example, llm: Backend, chainLabel: string, llm2: Option<Backend>, chat: bool,
                  entityMask: Option<string>, a: Answers): (r: Result<Detection, Error>)
    ensures CheckRequest(chainLabel, llm2).Failure? ==> r == Failure(CheckRequest(chainLabel, llm2).error)
    ensures CheckRequest(chainLabel, llm2).Success? && ENTITY_KEY !in eg ==> r == Failure(MissingKey(ENTITY_KEY))
    ensures CheckRequest(chainLabel, llm2).Success? && ENTITY_KEY in eg && "text" !in eg ==>
      r == Failure(MissingKey("text"))
    ensures CheckRequest(chainLabel, llm2).Success? && ENTITY_KEY in eg && "text" in eg && "statement" !in eg ==>
      r == Failure(MissingKey("statement"))
    ensures r.Success? <==>
      CheckRequest(chainLabel, llm2).Success? && ENTITY_KEY in eg && "text" in eg && "statement" in eg
    ensures r.Success? ==>
      r.value.entity == eg[ENTITY_KEY] && r.value.view.statement == eg["statement"]
      && r.value.run.trace.Keys == ChainKeys(CheckRequest(chainLabel, llm2).value)
      && Recorded(r.value.run)
  {
    match CheckRequest(chainLabel, llm2)
    case Failure(e) => Failure(e)
    case Success(c) =>
      if ENTITY_KEY !in eg then Failure(MissingKey(ENTITY_KEY))
      else if "text" !in eg then Failure(MissingKey("text"))
      else if "statement" !in eg then Failure(MissingKey("statement"))
      else
        var v := MaskedView(eg["text"], eg["statement"], eg[ENTITY_KEY], entityMask);
        ChainTraceShape(c, llm, llm2, v, chat, a);
        Success(Detection(eg[ENTITY_KEY], v, ChainRun(c, llm, llm2, v, chat, a)))
  }

  /**
   * Each registered label runs its own chain, with the masking applied before it, and the
   * resulting task keeps the unmasked entity of the example.
   */
  lemma DetectDispatches(c: Chain, eg: Example, llm: Backend, llm2: Option<Backend>, chat: bool,
                         entityMask: Option<string>, a: Answers)
    requires ENTITY_KEY in eg && "text" in eg && "statement" in eg
    requires llm2.Some? ==> c == Is2
    ensures var r := Detect(eg, llm, ChainLabel(c), llm2, chat, entityMask, a);
      var v := MaskedView(eg["text"], eg["statement"], eg[ENTITY_KEY], entityMask);
      r == Success(Detection(eg[ENTITY_KEY], v, ChainRun(c, llm, llm2, v, chat, a)))
      && (entityMask.Some? ==> v.entity == entityMask.value
                               && v.text == ReplaceAll(eg["text"], eg[ENTITY_KEY], entityMask.value))
  {
    RegistryRoundTrip(c);
  }

  /**
   * detect_stance: validates the request, builds a fresh task from the example, masks it
   * when a mask is given and runs the chain the label names on it.
   */
  method DetectStance(eg: Example, llm: Backend, chainLabel: string, llm2: Option<Backend>, chat: bool,
                      entityMask: Option<string>, a: Answers) returns (r: Result<StanceClassification, Error>)
    ensures r.Success? <==> Detect(eg, llm, chainLabel, llm2, chat, entityMask, a).Success?
    ensures r.Failure? ==> r.error == Detect(eg, llm, chainLabel, llm2, chat, entityMask, a).error
    ensures r.Success? ==> fresh(r.value)
    ensures r.Success? ==> var d := Detect(eg, llm, chainLabel, llm2, chat, entityMask, a).value;
      r.value.entity == d.entity && r.value.inputText == eg["text"] && r.value.View() == d.view
      && r.value.stance == Some(d.run.stance) && r.value.meta == Some(map[LLMS_KEY := d.run.trace])
      && r.value.issued == d.run.calls
  {
    if chainLabel !in REGISTERED_LLM_CHAINS {
      return Failure(UnregisteredChain);
    }
    if llm2.Some? {
      if chainLabel !in ALLOWED_DUAL_LLM_CHAINS {
        return Failure(SingleBackendChain(ALLOWED_DUAL_LLM_CHAINS));
      }
    }
    if ENTITY_KEY !in eg {
      return Failure(MissingKey(ENTITY_KEY));
    }
    var entity := eg[ENTITY_KEY];
    if "text" !in eg {
      return Failure(MissingKey("text"));
    }
    var text := eg["text"];
    if "statement" !in eg {
      return Failure(MissingKey("statement"));
    }
    var statement := eg["statement"];
    var task := new StanceClassification(text, statement, entity);
    if entityMask.Some? {
      task := task.MaskEntity(entityMask.value);
    }
    var classification := RunChain(task, chainLabel, llm, llm2, chat, a);
    r := Success(classification);
  }

  /** The dispatch of detect_stance: the chain method whose label was given runs on `task`. */
  method RunChain(task: StanceClassification, chainLabel: string, llm: Backend, llm2: Option<Backend>, chat: bool,
                  a: Answers) returns (r: StanceClassification)
    requires chainLabel in REGISTERED_LLM_CHAINS
    modifies task`stance, task`meta, task`issued
    ensures r == task
    ensures var run := ChainRun(ChainOfLabel(chainLabel).value, llm, llm2, task.View(), chat, a);
      task.stance == Some(run.stance) && task.meta == Some(map[LLMS_KEY := run.trace])
      && task.issued == old(task.issued) + run.calls
  {
    ghost var c := ChainOfLabel(chainLabel).value;
    ghost var run := ChainRun(c, llm, llm2, task.View(), chat, a);
    var classification: Local<StanceClassification> := Unbound;
    if chainLabel == "sis" {
      assert c == Sis;
      var t := task.SummarizeIrrelevantStanceChain(llm, chat, llm2, a.summary, a.irrelevance, a.support);
      assert task.stance == Some(run.stance) && task.meta == Some(map[LLMS_KEY := run.trace])
             && task.issued == old(task.issued) + run.calls;
      classification := Bound(t);
    }
    if chainLabel == "is" {
      assert c == Is;
      var t := task.IrrelevantStanceChain(llm, chat, llm2, a.irrelevance, a.support);
      assert task.stance == Some(run.stance) && task.meta == Some(map[LLMS_KEY := run.trace])
             && task.issued == old(task.issued) + run.calls;
      classification := Bound(t);
    }
    if chainLabel == "nise" {
      assert c == Nise;
      var t := task.NestedIrrelevantSummaryExplicit(llm, chat, llm2, a);
      assert task.stance == Some(run.stance) && task.meta == Some(map[LLMS_KEY := run.trace])
             && task.issued == old(task.issued) + run.calls;
      classification := Bound(t);
    }
    if chainLabel == "s2is" {
      assert c == S2is;
      var t := task.SummarizeV2IrrelevantStanceChain(llm, chat, llm2, a.summary, a.irrelevance, a.support);
      assert task.stance == Some(run.stance) && task.meta == Some(map[LLMS_KEY := run.trace])
             && task.issued == old(task.issued) + run.calls;
      classification := Bound(t);
    }
    if chainLabel == "s2" {
      assert c == S2;
      var t := task.SummarizeV2Chain(llm, chat, llm2, a.inline, a.summary);
      assert task.stance == Some(run.stance) && task.meta == Some(map[LLMS_KEY := run.trace])
             && task.issued == old(task.issued) + run.calls;
      classification := Bound(t);
    }
    if chainLabel == "is2" {
      assert c == Is2;
      var t := task.IrrelevantSummarizeV2Chain(llm, chat, llm2, a.irrelevance, a.inline, a.summary);
      assert task.stance == Some(run.stance) && task.meta == Some(map[LLMS_KEY := run.trace])
             && task.issued == old(task.issued) + run.calls;
      classification := Bound(t);
    }
    if chainLabel == "nis2e" {
      assert c == Nis2e;
      var t := task.NestedIrrelevantSummaryV2Explicit(llm, chat, llm2, a);
      assert task.stance == Some(run.stance) && task.meta == Some(map[LLMS_KEY := run.trace])
             && task.issued == old(task.issued) + run.calls;
      classification := Bound(t);
    }
    r := classification.v;
  }

  /** Extending a prefix by one element. */
  lemma PrefixSnoc<T>(s: seq<T>, i: nat)
    requires i < |s|
    ensures s[..i + 1] == s[..i] + [s[i]]
  {
  }

  // ---- prompt texts ----

  /** The prompt texts of a task: stage name to {"prompt_text": …}. */
  type PromptHistory = map<string, map<string, string>>

  /** str() of a trace entry: the text of the model state after the call, or "None". */
  function EntryText(e: Option<CallRecord>): string {
    match e
    case None => "None"
    case Some(c) => RecordText(c)
  }

  /**
   * get_prompt_texts_from_meta as a function: nothing when the trace key is absent,
   * otherwise the stages of the trace, each with the text of its call, which starts with
   * the whole prompt sent.
   */
  function PromptTexts(meta: Meta, key: string): (h: PromptHistory)
    ensures key !in meta ==> h == map[]
    ensures key in meta ==> h.Keys == meta[key].Keys
    ensures forall k | k in h :: h[k].Keys == {"prompt_text"}
    ensures forall k | k in h && meta[key][k].None? :: h[k]["prompt_text"] == "None"
  {
    if key !in meta then map[]
    else map k | k in meta[key] :: map["prompt_text" := EntryText(meta[key][k])]
  }

  /** The text recorded for a stage that ran starts with the whole prompt that stage sent. */
  lemma PromptTextsCarryPrompts(meta: Meta, key: string, k: string)
    requires key in meta && k in meta[key] && meta[key][k].Some?
    ensures PromptText(meta[key][k].value.prompt) <= PromptTexts(meta, key)[k]["prompt_text"]
  {
  }

  /** get_prompt_texts_from_meta: one pass over the stages of the trace under `key`. */
  method PromptTextsFromMeta(meta: Meta, key: string) returns (components: PromptHistory)
    ensures components == PromptTexts(meta, key)
  {
    if key !in meta {
      return map[];
    }
    components := map[];
    var chainComponents := meta[key];
    var pending := chainComponents.Keys;
    while pending != {}
      invariant pending <= chainComponents.Keys
      invariant components.Keys == chainComponents.Keys - pending
      invariant forall k | k in components :: components[k] == map["prompt_text" := EntryText(chainComponents[k])]
      decreases pending
    {
      var componentKey :| componentKey in pending;
      components := components[componentKey := map["prompt_text" := EntryText(chainComponents[componentKey])]];
      pending := pending - {componentKey};
    }
  }

  // ---- the batch driver ----

  /** How the backend behaves for one example: it answers, or it raises. */
  datatype Outcome = Responds(answers: Answers) | Raises

  /** The `meta` an output example carries. */
  datatype PredictionMeta = PredictionMeta(promptHistory: Option<PromptHistory>, entityMask: Option<string>)

  /** What a task keeps of a finished classification. */
  datatype Classified = Classified(entity: string, view: TaskView, stance: Stance, trace: Trace)

  /**
   * An output example: the input, the classification when there is one
   * (eg["stance_classification"]), the run alias, stance_pred and meta.
   */
  datatype Prediction = Prediction(example: Example, classification: Option<Classified>, runAlias: string,
                                   stancePred: string, meta: PredictionMeta)

  /** The record process writes for an example whose detection failed. */
  function ErrorPrediction(eg: Example, runAlias: string, entityMask: Option<string>): Prediction {
    Prediction(eg, None, runAlias, ERROR_LABEL, PredictionMeta(None, entityMask))
  }

  /**
   * The output record of process for one example: on success the stance name and the
   * prompt texts of the run, on any failure the error sentinel and no prompt history.
   */
  function Predict(eg: Example, llm: Backend, chainUsed: string, llm2: Option<Backend>, chat: bool,
                   entityMask: Option<string>, runAlias: string, o: Outcome): (p: Prediction)
    ensures p.example == eg && p.runAlias == runAlias && p.meta.entityMask == entityMask
    ensures p.stancePred in ALLOWED_STANCE_CATEGORIES
    ensures p.stancePred == ERROR_LABEL <==> p.classification.None?
    ensures p.meta.promptHistory.None? <==> p.classification.None?
    ensures p.classification.None? <==>
      o.Raises? || Detect(eg, llm, chainUsed, llm2, chat, entityMask, o.answers).Failure?
    ensures p.classification.Some? ==> p.stancePred == StanceName(p.classification.value.stance)
    ensures o.Responds? && Detect(eg, llm, chainUsed, llm2, chat, entityMask, o.answers).Success? ==>
      var d := Detect(eg, llm, chainUsed, llm2, chat, entityMask, o.answers).value;
      && p.classification == Some(Classified(d.entity, d.view, d.run.stance, d.run.trace))
      && p.meta.promptHistory == Some(PromptTexts(map[LLMS_KEY := d.run.trace], LLMS_KEY))
  {
    if o.Raises? then ErrorPrediction(eg, runAlias, entityMask)
    else
      match Detect(eg, llm, chainUsed, llm2, chat, entityMask, o.answers)
      case Failure(_) => ErrorPrediction(eg, runAlias, entityMask)
      case Success(d) =>
        Prediction(eg, Some(Classified(d.entity, d.view, d.run.stance, d.run.trace)), runAlias,
                   StanceName(d.run.stance),
                   PredictionMeta(Some(PromptTexts(map[LLMS_KEY := d.run.trace], LLMS_KEY)), entityMask))
  }

  /** The body of process's loop for one example: its classification record, or the error record. */
  method ProcessOne(eg: Example, llm: Backend, chainUsed: string, chat: bool, llm2: Option<Backend>,
                    entityMask: Option<string>, runAlias: string, o: Outcome) returns (p: Prediction)
    ensures p == Predict(eg, llm, chainUsed, llm2, chat, entityMask, runAlias, o)
  {
    p := ErrorPrediction(eg, runAlias, entityMask);
    if o.Responds? {
      var r := DetectStance(eg, llm, chainUsed, llm2, chat, entityMask, o.answers);
      if r.Success? {
        var task := r.value;
        var history := PromptTextsFromMeta(task.meta.value, LLMS_KEY);
        p := Prediction(eg, Some(Classified(task.entity, task.View(), task.stance.value, task.meta.value[LLMS_KEY])),
                        runAlias, StanceName(task.stance.value), PredictionMeta(Some(history), entityMask));
      }
    }
  }

  /**
   * process: one output record per input, in order, all with the same run alias; a
   * failure of one example is caught and recorded, and the loop goes on.
   */
  method Process(egs: seq<Example>, llm: Backend, chainUsed: string, chat: bool, llm2: Option<Backend>,
                 entityMask: Option<string>, runAlias: string, outcomes: seq<Outcome>)
    returns (predEgs: seq<Prediction>)
    requires |outcomes| == |egs|
    ensures |predEgs| == |egs|
    ensures forall k | 0 <= k < |egs| ::
      predEgs[k] == Predict(egs[k], llm, chainUsed, llm2, chat, entityMask, runAlias, outcomes[k])
  {
    predEgs := [];
    var i := 0;
    while i < |egs|
      invariant 0 <= i <= |egs| && |predEgs| == i
      invariant forall k | 0 <= k < i ::
        predEgs[k] == Predict(egs[k], llm, chainUsed, llm2, chat, entityMask, runAlias, outcomes[k])
    {
      var p := ProcessOne(egs[i], llm, chainUsed, chat, llm2, entityMask, runAlias, outcomes[i]);
      predEgs := predEgs + [p];
      i := i + 1;
    }
  }

  /** Every output of process carries the one run alias, and exactly the failed examples carry no prompt history. */
  lemma ProcessRecords(egs: seq<Example>, llm: Backend, chainUsed: string, chat: bool, llm2: Option<Backend>,
                       entityMask: Option<string>, runAlias: string, outcomes: seq<Outcome>, predEgs: seq<Prediction>)
    requires |outcomes| == |egs| == |predEgs|
    requires forall k | 0 <= k < |egs| ::
      predEgs[k] == Predict(egs[k], llm, chainUsed, llm2, chat, entityMask, runAlias, outcomes[k])
    ensures forall p | p in predEgs :: p.runAlias == runAlias && p.stancePred in ALLOWED_STANCE_CATEGORIES
    ensures forall p | p in predEgs :: p.stancePred == ERROR_LABEL <==> p.meta.promptHistory.None?
    ensures chainUsed !in REGISTERED_LLM_CHAINS ==> forall p | p in predEgs :: p.stancePred == ERROR_LABEL
  {
    forall p | p in predEgs
      ensures p.runAlias == runAlias && p.stancePred in ALLOWED_STANCE_CATEGORIES
      ensures p.stancePred == ERROR_LABEL <==> p.meta.promptHistory.None?
      ensures chainUsed !in REGISTERED_LLM_CHAINS ==> p.stancePred == ERROR_LABEL
    {
      var k :| 0 <= k < |predEgs| && predEgs[k] == p;
    }
  }

  // ---- evaluation ----

  /** The examples evaluate scores: those whose prediction is not the error sentinel, in order. */
  function Scored(preds: seq<Prediction>): (r: seq<Prediction>)
    ensures |r| <= |preds|
    ensures forall p | p in r :: p in preds && p.stancePred != ERROR_LABEL
    ensures forall p | p in preds && p.stancePred != ERROR_LABEL :: p in r
  {
    if preds == [] then []
    else
      var rest := Scored(preds[..|preds| - 1]);
      var last := preds[|preds| - 1];
      assert preds == preds[..|preds| - 1] + [last];
      if last.stancePred != ERROR_LABEL then rest + [last] else rest
  }

  /** Scoring one more example appends it exactly when it is not an error. */
  lemma ScoredSnoc(preds: seq<Prediction>, p: Prediction)
    ensures Scored(preds + [p]) == if p.stancePred != ERROR_LABEL then Scored(preds) + [p] else Scored(preds)
  {
    assert (preds + [p])[..|preds|] == preds;
  }

  /** The number of examples whose prediction is the error sentinel. */
  function ErrorCount(preds: seq<Prediction>): nat {
    if preds == [] then 0
    else ErrorCount(preds[..|preds| - 1]) + (if preds[|preds| - 1].stancePred == ERROR_LABEL then 1 else 0)
  }

  /** Every example is either scored or counted as an error. */
  lemma {:induction false} ScoredOrCounted(preds: seq<Prediction>)
    ensures |Scored(preds)| + ErrorCount(preds) == |preds|
  {
    if preds != [] {
      ScoredOrCounted(preds[..|preds| - 1]);
    }
  }

  /** The predicted labels, in order. */
  function PredLabels(preds: seq<Prediction>): (r: seq<string>)
    ensures |r| == |preds|
    ensures forall k | 0 <= k < |preds| :: r[k] == preds[k].stancePred
  {
    if preds == [] then [] else PredLabels(preds[..|preds| - 1]) + [preds[|preds| - 1].stancePred]
  }

  /** The true labels, in order. */
  function TrueLabels(preds: seq<Prediction>): (r: seq<string>)
    requires forall p | p in preds :: "stance_true" in p.example
    ensures |r| == |preds|
    ensures forall k | 0 <= k < |preds| :: r[k] == preds[k].example["stance_true"]
  {
    if preds == [] then []
    else TrueLabels(preds[..|preds| - 1]) + [preds[|preds| - 1].example["stance_true"]]
  }

  /** Both label lists grow by the labels of an appended example. */
  lemma LabelsSnoc(preds: seq<Prediction>, p: Prediction)
    requires forall q | q in preds + [p] :: "stance_true" in q.example
    ensures PredLabels(preds + [p]) == PredLabels(preds) + [p.stancePred]
    ensures TrueLabels(preds + [p]) == TrueLabels(preds) + [p.example["stance_true"]]
  {
    assert (preds + [p])[..|preds|] == preds;
  }

  /** The lists handed to the metrics, and the error count. */
  datatype Evaluation = Evaluation(yTrue: seq<string>, yPred: seq<string>, errorCount: nat)

  /**
   * The non-metric part of evaluate: the paired label lists without the error
   * predictions, and the number of errors; a scored example without a true label is a
   * KeyError.
   */
  method Evaluate(egsWithPreds: seq<Prediction>) returns (r: Result<Evaluation, Error>)
    ensures r.Success? <==> forall p | p in Scored(egsWithPreds) :: "stance_true" in p.example
    ensures r.Failure? ==> r.error == MissingKey("stance_true")
    ensures r.Success? ==>
      r.value.yPred == PredLabels(Scored(egsWithPreds)) && r.value.yTrue == TrueLabels(Scored(egsWithPreds))
      && r.value.errorCount == ErrorCount(egsWithPreds)
  {
    var yTrue: seq<string> := [];
    var yPred: seq<string> := [];
    var i := 0;
    while i < |egsWithPreds|
      invariant 0 <= i <= |egsWithPreds|
      invariant forall p | p in Scored(egsWithPreds[..i]) :: "stance_true" in p.example
      invariant yPred == PredLabels(Scored(egsWithPreds[..i]))
      invariant yTrue == TrueLabels(Scored(egsWithPreds[..i]))
    {
      var eg := egsWithPreds[i];
      ghost var done := egsWithPreds[..i];
      PrefixSnoc(egsWithPreds, i);
      ScoredSnoc(done, eg);
      if eg.stancePred != ERROR_LABEL {
        if "stance_true" !in eg.example {
          ScoredPrefix(egsWithPreds, i + 1);
          assert eg in Scored(egsWithPreds);
          return Failure(MissingKey("stance_true"));
        }
        LabelsSnoc(Scored(done), eg);
        yPred := yPred + [eg.stancePred];
        yTrue := yTrue + [eg.example["stance_true"]];
      }
      i := i + 1;
    }
    assert egsWithPreds[..i] == egsWithPreds;
    r := Success(Evaluation(yTrue, yPred, ErrorCount(egsWithPreds)));
  }

  /** What is scored of a prefix is scored of the whole. */
  lemma ScoredPrefix(preds: seq<Prediction>, n: nat)
    requires n <= |preds|
    ensures forall p | p in Scored(preds[..n]) :: p in Scored(preds)
  {
    forall p | p in Scored(preds[..n])
      ensures p in Scored(preds)
    {
      var k :| 0 <= k < n && preds[..n][k] == p;
      assert preds[k] == p;
    }
  }

  // ---- the export filter ----

  /** One exported line of classifications.jsonl. */
  datatype ExportRecord = ExportRecord(
    text: string, entity: string, statement: string, stancePred: string,
    modelUsed: string, chainUsed: string, runAlias: string, meta: PredictionMeta,
    id: Option<string>, stanceTrue: Option<string>)

  /** The optional lookup `eg[key]` made only when `key` is given. */
  function OptionalField(eg: Example, key: Option<string>): Result<Option<string>, Error> {
    match key
    case None => Success(None)
    case Some(k) => if k in eg then Success(Some(eg[k])) else Failure(MissingKey(k))
  }

  /** The exported line of a classified example, or the KeyError its lookups raise. */
  function ExportLine(p: Prediction, entityKey: string, modelUsed: string, chainUsed: string, runAlias: string,
                      idKey: Option<string>, trueStanceKey: Option<string>): (r: Result<ExportRecord, Error>)
    requires p.classification.Some?
    ensures r.Success? ==> r.value.stancePred == StanceName(p.classification.value.stance)
                           && r.value.stancePred != ERROR_LABEL
    ensures r.Success? ==> (r.value.id.Some? <==> idKey.Some?) && (r.value.stanceTrue.Some? <==> trueStanceKey.Some?)
  {
    var eg := p.example;
    if "text" !in eg then Failure(MissingKey("text"))
    else if entityKey !in eg then Failure(MissingKey(entityKey))
    else if "statement" !in eg then Failure(MissingKey("statement"))
    else
      var line := ExportRecord(eg["text"], eg[entityKey], eg["statement"], StanceName(p.classification.value.stance),
                               modelUsed, chainUsed, runAlias, p.meta, None, None);
      match OptionalField(eg, idKey)
      case Failure(e) => Failure(e)
      case Success(id) =>
        match OptionalField(eg, trueStanceKey)
        case Failure(e) => Failure(e)
        case Success(stanceTrue) => Success(line.(id := id, stanceTrue := stanceTrue))
  }

  /** The examples that carry a classification, in order. */
  function WithClassification(preds: seq<Prediction>): (r: seq<Prediction>)
    ensures |r| <= |preds|
    ensures forall p | p in r :: p in preds && p.classification.Some?
    ensures forall p | p in preds && p.classification.Some? :: p in r
  {
    if preds == [] then []
    else
      var rest := WithClassification(preds[..|preds| - 1]);
      var last := preds[|preds| - 1];
      assert preds == preds[..|preds| - 1] + [last];
      if last.classification.Some? then rest + [last] else rest
  }

  /**
   * What save_classifications_jsonl writes: the lines of the classified examples in
   * order, skipping the others, or the first KeyError a line raises.
   */
  function Exported(preds: seq<Prediction>, entityKey: string, modelUsed: string, chainUsed: string,
                    runAlias: string, idKey: Option<string>, trueStanceKey: Option<string>)
    : (r: Result<seq<ExportRecord>, Error>)
    ensures r.Success? ==> |r.value| <= |preds|
    ensures r.Success? ==> forall line | line in r.value :: line.stancePred != ERROR_LABEL
  {
    if preds == [] then Success([])
    else
      var last := preds[|preds| - 1];
      match Exported(preds[..|preds| - 1], entityKey, modelUsed, chainUsed, runAlias, idKey, trueStanceKey)
      case Failure(e) => Failure(e)
      case Success(init) =>
        if last.classification.None? then Success(init)
        else
          match ExportLine(last, entityKey, modelUsed, chainUsed, runAlias, idKey, trueStanceKey)
          case Failure(e) => Failure(e)
          case Success(line) => Success(init + [line])
  }

  /** A successful export holds exactly one line per classified example. */
  lemma {:induction false} ExportedLength(preds: seq<Prediction>, entityKey: string, modelUsed: string,
                                          chainUsed: string, runAlias: string, idKey: Option<string>,
                                          trueStanceKey: Option<string>)
    ensures var r := Exported(preds, entityKey, modelUsed, chainUsed, runAlias, idKey, trueStanceKey);
      r.Success? ==> |r.value| == |WithClassification(preds)|
  {
    if preds != [] {
      var init := preds[..|preds| - 1];
      assert preds == init + [preds[|preds| - 1]];
      WithClassificationSnoc(init, preds[|preds| - 1]);
      ExportedLength(init, entityKey, modelUsed, chainUsed, runAlias, idKey, trueStanceKey);
    }
  }

  /** The k-th exported line is the line of the k-th classified example. */
  lemma {:induction false} ExportedLineAt(preds: seq<Prediction>, k: nat, entityKey: string, modelUsed: string,
                                          chainUsed: string, runAlias: string, idKey: Option<string>,
                                          trueStanceKey: Option<string>)
    requires Exported(preds, entityKey, modelUsed, chainUsed, runAlias, idKey, trueStanceKey).Success?
    requires k < |WithClassification(preds)|
    ensures var r := Exported(preds, entityKey, modelUsed, chainUsed, runAlias, idKey, trueStanceKey);
      k < |r.value|
      && ExportLine(WithClassification(preds)[k], entityKey, modelUsed, chainUsed, runAlias, idKey, trueStanceKey)
         == Success(r.value[k])
  {
    var init, last := preds[..|preds| - 1], preds[|preds| - 1];
    assert preds == init + [last];
    WithClassificationSnoc(init, last);
    ExportedLength(init, entityKey, modelUsed, chainUsed, runAlias, idKey, trueStanceKey);
    var r := Exported(preds, entityKey, modelUsed, chainUsed, runAlias, idKey, trueStanceKey);
    var before := Exported(init, entityKey, modelUsed, chainUsed, runAlias, idKey, trueStanceKey).value;
    if last.classification.Some? {
      var line := ExportLine(last, entityKey, modelUsed, chainUsed, runAlias, idKey, trueStanceKey);
      assert r.value == before + [line.value];
    } else {
      assert r.value == before;
    }
    if k < |WithClassification(init)| {
      ExportedLineAt(init, k, entityKey, modelUsed, chainUsed, runAlias, idKey, trueStanceKey);
    }
  }

  /** Filtering one more example appends it exactly when it carries a classification. */
  lemma WithClassificationSnoc(preds: seq<Prediction>, p: Prediction)
    ensures WithClassification(preds + [p])
         == if p.classification.Some? then WithClassification(preds) + [p] else WithClassification(preds)
  {
    assert (preds + [p])[..|preds|] == preds;
  }

  /** Exporting one more example extends the export of the examples before it. */
  lemma ExportedStep(preds: seq<Prediction>, i: nat, entityKey: string, modelUsed: string,
                     chainUsed: string, runAlias: string, idKey: Option<string>, trueStanceKey: Option<string>)
    requires i < |preds|
    ensures var p := preds[i];
      Exported(preds[..i + 1], entityKey, modelUsed, chainUsed, runAlias, idKey, trueStanceKey)
         == match Exported(preds[..i], entityKey, modelUsed, chainUsed, runAlias, idKey, trueStanceKey)
            case Failure(e) => Failure(e)
            case Success(init) =>
              if p.classification.None? then Success(init)
              else
                match ExportLine(p, entityKey, modelUsed, chainUsed, runAlias, idKey, trueStanceKey)
                case Failure(e) => Failure(e)
                case Success(line) => Success(init + [line])
  {
    assert preds[..i + 1][..i] == preds[..i];
  }

  /** Once a prefix fails to export, the whole list fails with the same KeyError. */
  lemma {:induction false} ExportedFailureSticks(preds: seq<Prediction>, n: nat, entityKey: string,
                                                 modelUsed: string, chainUsed: string, runAlias: string,
                                                 idKey: Option<string>, trueStanceKey: Option<string>)
    requires n <= |preds|
    requires Exported(preds[..n], entityKey, modelUsed, chainUsed, runAlias, idKey, trueStanceKey).Failure?
    ensures Exported(preds, entityKey, modelUsed, chainUsed, runAlias, idKey, trueStanceKey)
         == Exported(preds[..n], entityKey, modelUsed, chainUsed, runAlias, idKey, trueStanceKey)
    decreases |preds|
  {
    if n < |preds| {
      var init := preds[..|preds| - 1];
      assert init[..n] == preds[..n];
      ExportedFailureSticks(init, n, entityKey, modelUsed, chainUsed, runAlias, idKey, trueStanceKey);
    } else {
      assert preds[..n] == preds;
    }
  }

  /**
   * The record filter of save_classifications_jsonl: only examples that carry a
   * classification are exported, in order, with `id` and `stance_true` added only when
   * their keys are given.
   */
  method ExportRecords(egsWithClassifications: seq<Prediction>, entityKey: string, modelUsed: string,
                       chainUsed: string, runAlias: string, idKey: Option<string>, trueStanceKey: Option<string>)
    returns (r: Result<seq<ExportRecord>, Error>)
    ensures r == Exported(egsWithClassifications, entityKey, modelUsed, chainUsed, runAlias, idKey, trueStanceKey)
  {
    var toExport: seq<ExportRecord> := [];
    var i := 0;
    while i < |egsWithClassifications|
      invariant 0 <= i <= |egsWithClassifications|
      invariant Exported(egsWithClassifications[..i], entityKey, modelUsed, chainUsed, runAlias, idKey, trueStanceKey)
             == Success(toExport)
    {
      var eg := egsWithClassifications[i];
      ExportedStep(egsWithClassifications, i, entityKey, modelUsed, chainUsed, runAlias, idKey, trueStanceKey);
      if eg.classification.Some? {
        var line := ExportLine(eg, entityKey, modelUsed, chainUsed, runAlias, idKey, trueStanceKey);
        if line.Failure? {
          ExportedFailureSticks(egsWithClassifications, i + 1, entityKey, modelUsed, chainUsed, runAlias, idKey,
                                trueStanceKey);
          return Failure(line.error);
        }
        toExport := toExport + [line.value];
      }
      i := i + 1;
    }
    assert egsWithClassifications[..i] == egsWithClassifications;
    r := Success(toExport);
  }

  // ---- annotation-tool exports ----

  /** A record exported from the annotation tool; `flagged` is absent (None) or a boolean. */
  datatype ProdigyExample = ProdigyExample(parId: string, text: string, orgText: string, statementDe: string,
                                           accept: seq<string>, flagged: Option<bool>)

  /** Whether an annotation record is kept: all are kept unless flagged ones are removed. */
  predicate Keep(eg: ProdigyExample, removeFlagged: bool) {
    !removeFlagged || eg.flagged != Some(true)
  }

  /** The kept annotation records, in order. */
  function Kept(egs: seq<ProdigyExample>, removeFlagged: bool): (r: seq<ProdigyExample>)
    ensures |r| <= |egs|
    ensures forall eg | eg in r :: eg in egs && Keep(eg, removeFlagged)
    ensures forall eg | eg in egs && Keep(eg, removeFlagged) :: eg in r
  {
    if egs == [] then []
    else
      var rest := Kept(egs[..|egs| - 1], removeFlagged);
      var last := egs[|egs| - 1];
      assert egs == egs[..|egs| - 1] + [last];
      if Keep(last, removeFlagged) then rest + [last] else rest
  }

  /** Filtering one more record appends it exactly when it is kept. */
  lemma KeptSnoc(egs: seq<ProdigyExample>, eg: ProdigyExample, removeFlagged: bool)
    ensures Kept(egs + [eg], removeFlagged)
         == if Keep(eg, removeFlagged) then Kept(egs, removeFlagged) + [eg] else Kept(egs, removeFlagged)
  {
    assert (egs + [eg])[..|egs|] == egs;
  }

  /** Without removal every record is kept, in its place. */
  lemma {:induction false} KeptAll(egs: seq<ProdigyExample>)
    ensures Kept(egs, false) == egs
  {
    if egs != [] {
      KeptAll(egs[..|egs| - 1]);
      assert egs == egs[..|egs| - 1] + [egs[|egs| - 1]];
    }
  }

  /** Keeping distributes over concatenation, so the kept records keep their relative order. */
  lemma {:induction false} KeptConcat(a: seq<ProdigyExample>, b: seq<ProdigyExample>, removeFlagged: bool)
    ensures Kept(a + b, removeFlagged) == Kept(a, removeFlagged) + Kept(b, removeFlagged)
    decreases |b|
  {
    if b == [] {
      assert a + b == a;
    } else {
      var init, last := b[..|b| - 1], b[|b| - 1];
      assert b == init + [last];
      assert a + b == (a + init) + [last];
      KeptConcat(a, init, removeFlagged);
      KeptSnoc(a + init, last, removeFlagged);
      KeptSnoc(init, last, removeFlagged);
      if Keep(last, removeFlagged) {
        var ka, ki := Kept(a, removeFlagged), Kept(init, removeFlagged);
        assert ka + ki + [last] == ka + (ki + [last]);
      }
    }
  }

  /** The example made of one annotation record, with the entity under `entityKey`. */
  function Refactor(eg: ProdigyExample, entityKey: string): Example
    requires |eg.accept| > 0
  {
    map["id" := eg.parId, "text" := eg.text, entityKey := eg.orgText, "statement" := eg.statementDe,
        "stance_true" := eg.accept[0]]
  }

  /** The examples of a list of records that all have an accepted label. */
  function RefactorAll(egs: seq<ProdigyExample>, entityKey: string): (r: seq<Example>)
    requires forall eg | eg in egs :: |eg.accept| > 0
    ensures |r| == |egs|
    ensures forall k | 0 <= k < |egs| :: r[k] == Refactor(egs[k], entityKey)
  {
    if egs == [] then [] else RefactorAll(egs[..|egs| - 1], entityKey) + [Refactor(egs[|egs| - 1], entityKey)]
  }

  /** Converting one more record appends its example. */
  lemma RefactorAllSnoc(egs: seq<ProdigyExample>, eg: ProdigyExample, entityKey: string)
    requires forall e | e in egs + [eg] :: |e.accept| > 0
    ensures RefactorAll(egs + [eg], entityKey) == RefactorAll(egs, entityKey) + [Refactor(eg, entityKey)]
  {
    assert (egs + [eg])[..|egs|] == egs;
  }

  /**
   * prepare_prodigy_egs as a function: each record is converted before the flag is
   * looked at, so a record without an accepted label fails the call even when it would
   * be removed; the kept records are converted in order.
   */
  function Prepared(egs: seq<ProdigyExample>, entityKey: string, removeFlagged: bool): (r: Result<seq<Example>, Error>)
    ensures r.Failure? ==> r.error == NoAcceptedLabel
    ensures r.Success? ==> |r.value| <= |egs|
  {
    if egs == [] then Success([])
    else
      var last := egs[|egs| - 1];
      match Prepared(egs[..|egs| - 1], entityKey, removeFlagged)
      case Failure(e) => Failure(e)
      case Success(prev) =>
        if |last.accept| == 0 then Failure(NoAcceptedLabel)
        else if Keep(last, removeFlagged) then Success(prev + [Refactor(last, entityKey)])
        else Success(prev)
  }

  /**
   * The conversion succeeds exactly when every record has an accepted label, and then
   * it is the conversion of the kept records, in order.
   */
  lemma {:induction false} PreparedConvertsKept(egs: seq<ProdigyExample>, entityKey: string, removeFlagged: bool)
    ensures Prepared(egs, entityKey, removeFlagged).Success? <==> forall eg | eg in egs :: |eg.accept| > 0
    ensures Prepared(egs, entityKey, removeFlagged).Success? ==>
      Prepared(egs, entityKey, removeFlagged).value == RefactorAll(Kept(egs, removeFlagged), entityKey)
  {
    if egs != [] {
      var init, last := egs[..|egs| - 1], egs[|egs| - 1];
      assert egs == init + [last];
      PreparedConvertsKept(init, entityKey, removeFlagged);
      KeptSnoc(init, last, removeFlagged);
      if Prepared(egs, entityKey, removeFlagged).Success? {
        RefactorAllSnoc(Kept(init, removeFlagged), last, entityKey);
      }
    }
  }

  /** Converting one more record extends the conversion of the records before it. */
  lemma PreparedSnoc(egs: seq<ProdigyExample>, eg: ProdigyExample, entityKey: string, removeFlagged: bool)
    ensures Prepared(egs + [eg], entityKey, removeFlagged)
         == match Prepared(egs, entityKey, removeFlagged)
            case Failure(e) => Failure(e)
            case Success(prev) =>
              if |eg.accept| == 0 then Failure(NoAcceptedLabel)
              else if Keep(eg, removeFlagged) then Success(prev + [Refactor(eg, entityKey)])
              else Success(prev)
  {
    assert (egs + [eg])[..|egs|] == egs;
  }

  /** Once a prefix fails, the whole list fails. */
  lemma {:induction false} PreparedFailureSticks(egs: seq<ProdigyExample>, n: nat, entityKey: string,
                                                 removeFlagged: bool)
    requires n <= |egs|
    requires Prepared(egs[..n], entityKey, removeFlagged).Failure?
    ensures Prepared(egs, entityKey, removeFlagged).Failure?
    decreases |egs|
  {
    if n < |egs| {
      var init := egs[..|egs| - 1];
      assert init[..n] == egs[..n];
      PreparedFailureSticks(init, n, entityKey, removeFlagged);
    } else {
      assert egs[..n] == egs;
    }
  }

  /**
   * prepare_prodigy_egs: converts each record, renaming par_id to id, meta.org_text to
   * the entity key, statement_de to statement and accept[0] to stance_true, and keeps it
   * unless it is flagged and flagged records are removed.
   */
  method PrepareProdigyExamples(prodigyEgs: seq<ProdigyExample>, entityKey: string, removeFlagged: bool)
    returns (r: Result<seq<Example>, Error>)
    ensures r == Prepared(prodigyEgs, entityKey, removeFlagged)
  {
    var egs: seq<Example> := [];
    var i := 0;
    while i < |prodigyEgs|
      invariant 0 <= i <= |prodigyEgs|
      invariant Prepared(prodigyEgs[..i], entityKey, removeFlagged) == Success(egs)
    {
      var eg := prodigyEgs[i];
      PrefixSnoc(prodigyEgs, i);
      PreparedSnoc(prodigyEgs[..i], eg, entityKey, removeFlagged);
      if |eg.accept| == 0 {
        PreparedFailureSticks(prodigyEgs, i + 1, entityKey, removeFlagged);
        return Failure(NoAcceptedLabel);
      }
      var refactored := Refactor(eg, entityKey);
      if removeFlagged {
        if eg.flagged.Some? {
          if eg.flagged != Some(true) {
            egs := egs + [refactored];
          }
        }
        if eg.flagged.None? {
          egs := egs + [refactored];
        }
      }
      if !removeFlagged {
        egs := egs + [refactored];
      }
      i := i + 1;
    }
    assert prodigyEgs[..i] == prodigyEgs;
    r := Success(egs);
  }

  /** The prepared examples carry every key detect_stance and evaluate look up. */
  lemma PreparedFeedsDetection(egs: seq<ProdigyExample>, entityKey: string, removeFlagged: bool)
    requires Prepared(egs, entityKey, removeFlagged).Success?
    ensures forall e | e in Prepared(egs, entityKey, removeFlagged).value ::
      entityKey in e && "text" in e && "statement" in e && "stance_true" in e
  {
    PreparedConvertsKept(egs, entityKey, removeFlagged);
  }
}
