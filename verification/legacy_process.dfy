/**
 * The batch layer of the older generation. It differs from the current one in four places:
 * the entity is read from "org_text", the trace sits under "lms", the nested chains take
 * a Ja/Nein general probe, and process has no exception handling, so the first failing
 * example ends the whole batch. get_prompt_texts_from_meta, the export filter and
 * prepare_prodigy_egs are the current ones with "lms" and "org_text" for the keys.
 */
module LegacyProcess {
  import opened Wrappers
  import opened Calls
  import opened Records
  import opened Chains
  import opened LegacyBase
  import opened Process

  /** The key of the entity in an input example of the older generation. */
  const LEGACY_ENTITY_KEY: string := "org_text"

  /** The run of a chain in the older generation: the nested chains take the Ja/Nein general probe. */
  function LegacyChainRun(c: Chain, llm: Backend, llm2: Option<Backend>, v: TaskView, chat: bool, a: Answers,
                          general: YesNo): Run {
    match c
    case Nise => LegacyNestedRun(llm, v, chat, false, general, a.irrelevance, a.summary, a.support, a.opposition)
    case Nis2e => LegacyNestedRun(llm, v, chat, true, general, a.irrelevance, a.summary, a.support, a.opposition)
    case _ => ChainRun(c, llm, llm2, v, chat, a)
  }

  /** The key set of meta["lms"] for each chain: the nested chains have no "irrelevance_general". */
  function LegacyChainKeys(c: Chain): (keys: set<string>)
    ensures "irrelevance_general" !in keys
    ensures c != Nise && c != Nis2e ==> keys == ChainKeys(c)
  {
    if c == Nise || c == Nis2e then SUMMARY_FIRST_KEYS else ChainKeys(c)
  }

  /**
   * Both generations reach the same stance on every chain once the older general answer
   * is read as the current one, and the chains without a general probe run identically.
   */
  lemma LegacyChainAgrees(c: Chain, llm: Backend, llm2: Option<Backend>, v: TaskView, chat: bool, a: Answers,
                          general: YesNo)
    ensures var older := LegacyChainRun(c, llm, llm2, v, chat, a, general);
      var newer := ChainRun(c, llm, llm2, v, chat, a.(general := GeneralOf(general)));
      older.stance == newer.stance && |older.calls| == |newer.calls|
      && older.trace.Keys == LegacyChainKeys(c) && Recorded(older)
      && (c != Nise && c != Nis2e ==> older == ChainRun(c, llm, llm2, v, chat, a))
  {
    ChainTraceShape(c, llm, llm2, v, chat, a);
    match c
    case Nise =>
      LegacyNestedAgreesWithNested(llm, v, chat, false, general, a.irrelevance, a.summary, a.support, a.opposition);
    case Nis2e =>
      LegacyNestedAgreesWithNested(llm, v, chat, true, general, a.irrelevance, a.summary, a.support, a.opposition);
    case _ =>
  }

  /**
   * What the older detect_stance raises before any backend call: the two checks of the
   * request, then the lookups of "org_text", "text" and "statement"; None when all pass.
   */
  function LegacyRequestError(eg: Example, chainLabel: string, llm2: Option<Backend>): (r: Option<Error>)
    ensures r.None? <==>
      CheckRequest(chainLabel, llm2).Success? && LEGACY_ENTITY_KEY in eg && "text" in eg && "statement" in eg
    ensures r.Some? ==> r.value != BackendError
  {
    match CheckRequest(chainLabel, llm2)
    case Failure(e) => Some(e)
    case Success(_) =>
      if LEGACY_ENTITY_KEY !in eg then Some(MissingKey(LEGACY_ENTITY_KEY))
      else if "text" !in eg then Some(MissingKey("text"))
      else if "statement" !in eg then Some(MissingKey("statement"))
      else None
  }

  /**
   * detect_stance of the older generation as a function: the same two checks, then the
   * lookups of "org_text", "text" and "statement", then one run of the named chain.
   */
  function LegacyDetect(eg: Example, llm: Backend, chainLabel: string, llm2: Option<Backend>, chat: bool,
                        entityMask: Option<string>, a: Answers, general: YesNo): (r: Result<Detection, Error>)
    ensures CheckRequest(chainLabel, llm2).Failure? ==> r == Failure(CheckRequest(chainLabel, llm2).error)
    ensures CheckRequest(chainLabel, llm2).Success? && LEGACY_ENTITY_KEY !in eg ==>
      r == Failure(MissingKey(LEGACY_ENTITY_KEY))
    ensures CheckRequest(chainLabel, llm2).Success? && LEGACY_ENTITY_KEY in eg && "text" !in eg ==>
      r == Failure(MissingKey("text"))
    ensures CheckRequest(chainLabel, llm2).Success? && LEGACY_ENTITY_KEY in eg && "text" in eg && "statement" !in eg ==>
      r == Failure(MissingKey("statement"))
    ensures r.Success? <==>
      CheckRequest(chainLabel, llm2).Success? && LEGACY_ENTITY_KEY in eg && "text" in eg && "statement" in eg
    ensures r.Success? ==>
      r.value.entity == eg[LEGACY_ENTITY_KEY] && r.value.view.statement == eg["statement"]
      && r.value.run.trace.Keys == LegacyChainKeys(CheckRequest(chainLabel, llm2).value)
    ensures r.Failure? ==> Some(r.error) == LegacyRequestError(eg, chainLabel, llm2)
  {
    match LegacyRequestError(eg, chainLabel, llm2)
    case Some(e) => Failure(e)
    case None =>
      var c := CheckRequest(chainLabel, llm2).value;
      var v := MaskedView(eg["text"], eg["statement"], eg[LEGACY_ENTITY_KEY], entityMask);
      LegacyChainAgrees(c, llm, llm2, v, chat, a, general);
      Success(Detection(eg[LEGACY_ENTITY_KEY], v, LegacyChainRun(c, llm, llm2, v, chat, a, general)))
  }

  /**
   * Each registered label runs its own chain (in its older form), with the masking applied
   * before it, and the resulting task keeps the unmasked entity of the example.
   */
  lemma LegacyDetectDispatches(c: Chain, eg: Example, llm: Backend, llm2: Option<Backend>, chat: bool,
                               entityMask: Option<string>, a: Answers, general: YesNo)
    requires LEGACY_ENTITY_KEY in eg && "text" in eg && "statement" in eg
    requires llm2.Some? ==> c == Is2
    ensures var r := LegacyDetect(eg, llm, ChainLabel(c), llm2, chat, entityMask, a, general);
      var v := MaskedView(eg["text"], eg["statement"], eg[LEGACY_ENTITY_KEY], entityMask);
      r == Success(Detection(eg[LEGACY_ENTITY_KEY], v, LegacyChainRun(c, llm, llm2, v, chat, a, general)))
      && (entityMask.Some? ==> v.entity == entityMask.value
                               && v.text == Base.ReplaceAll(eg["text"], eg[LEGACY_ENTITY_KEY], entityMask.value))
  {
    RegistryRoundTrip(c);
  }

  /**
   * detect_stance of the older generation: validates the request, builds a fresh task from
   * the example, masks it when a mask is given and runs the chain the label names on it.
   */
  method LegacyDetectStance(eg: Example, llm: Backend, chainLabel: string, llm2: Option<Backend>, chat: bool,
                            entityMask: Option<string>, a: Answers, general: YesNo)
    returns (r: Result<StanceClassification, Error>)
    ensures r.Success? <==> LegacyDetect(eg, llm, chainLabel, llm2, chat, entityMask, a, general).Success?
    ensures r.Failure? ==> r.error == LegacyDetect(eg, llm, chainLabel, llm2, chat, entityMask, a, general).error
    ensures r.Success? ==> fresh(r.value)
    ensures r.Success? ==> var d := LegacyDetect(eg, llm, chainLabel, llm2, chat, entityMask, a, general).value;
      r.value.entity == d.entity && r.value.inputText == eg["text"] && r.value.View() == d.view
      && r.value.stance == Some(d.run.stance) && r.value.meta == Some(map[LMS_KEY := d.run.trace])
      && r.value.issued == d.run.calls
  {
    if chainLabel !in REGISTERED_LLM_CHAINS {
      return Failure(UnregisteredChain);
    }
    if llm2.Some? {
      if chainLabel !in ALLOWED_DUAL_LLM_CHAINS {
        return Failure(SingleBackendChain(ALLOWED_DUAL_LLM_CHAINS));
      }
    }
    if LEGACY_ENTITY_KEY !in eg {
      return Failure(MissingKey(LEGACY_ENTITY_KEY));
    }
    var entity := eg[LEGACY_ENTITY_KEY];
    if "text" !in eg {
      return Failure(MissingKey("text"));
    }
    var text := eg["text"];
    if "statement" !in eg {
      return Failure(MissingKey("statement"));
    }
    var statement := eg["statement"];
    var task := new StanceClassification(text, statement, entity);
    if entityMask.Some? {
      task := task.MaskEntity(entityMask.value);
    }
    var classification := LegacyRunChain(task, chainLabel, llm, llm2, chat, a, general);
    r := Success(classification);
  }

  /** The dispatch of the older detect_stance: the chain method whose label was given runs on `task`. */
  method LegacyRunChain(task: StanceClassification, chainLabel: string, llm: Backend, llm2: Option<Backend>,
                        chat: bool, a: Answers, general: YesNo) returns (r: StanceClassification)
    requires chainLabel in REGISTERED_LLM_CHAINS
    modifies task`stance, task`meta, task`issued
    ensures r == task
    ensures var run := LegacyChainRun(ChainOfLabel(chainLabel).value, llm, llm2, task.View(), chat, a, general);
      task.stance == Some(run.stance) && task.meta == Some(map[LMS_KEY := run.trace])
      && task.issued == old(task.issued) + run.calls
  {
    ghost var c := ChainOfLabel(chainLabel).value;
    var classification: Base.Local<StanceClassification> := Base.Unbound;
    if chainLabel == "sis" {
      assert c == Sis;
      var t := task.SummarizeIrrelevantStanceChain(llm, chat, llm2, a.summary, a.irrelevance, a.support);
      classification := Base.Bound(t);
    }
    if chainLabel == "is" {
      assert c == Is;
      var t := task.IrrelevantStanceChain(llm, chat, llm2, a.irrelevance, a.support);
      classification := Base.Bound(t);
    }
    if chainLabel == "nise" {
      assert c == Nise;
      var t := task.NestedIrrelevantSummaryExplicit(llm, chat, llm2, general, a);
      classification := Base.Bound(t);
    }
    if chainLabel == "s2is" {
      assert c == S2is;
      var t := task.SummarizeV2IrrelevantStanceChain(llm, chat, llm2, a.summary, a.irrelevance, a.support);
      classification := Base.Bound(t);
    }
    if chainLabel == "s2" {
      assert c == S2;
      var t := task.SummarizeV2Chain(llm, chat, llm2, a.inline, a.summary);
      classification := Base.Bound(t);
    }
    if chainLabel == "is2" {
      assert c == Is2;
      var t := task.IrrelevantSummarizeV2Chain(llm, chat, llm2, a.irrelevance, a.inline, a.summary);
      classification := Base.Bound(t);
    }
    if chainLabel == "nis2e" {
      assert c == Nis2e;
      var t := task.NestedIrrelevantSummaryV2Explicit(llm, chat, llm2, general, a);
      classification := Base.Bound(t);
    }
    r := classification.v;
  }

  // ---- the batch driver ----

  /** How the backend behaves for one example: it answers (with a Ja/Nein general answer), or it raises. */
  datatype LegacyOutcome = Replies(answers: Answers, general: YesNo) | Throws

  /**
   * The output record of the older process for one example, or the exception that ends
   * the batch: the request and key errors come before any backend call, and a classified
   * example always carries its stance, never the error sentinel.
   */
  function LegacyPredict(eg: Example, llm: Backend, chainUsed: string, llm2: Option<Backend>, chat: bool,
                         entityMask: Option<string>, runAlias: string, o: LegacyOutcome): (r: Result<Prediction, Error>)
    ensures r.Success? <==>
      o.Replies? && LegacyDetect(eg, llm, chainUsed, llm2, chat, entityMask, o.answers, o.general).Success?
    ensures r.Success? ==>
      r.value.example == eg && r.value.runAlias == runAlias && r.value.meta.entityMask == entityMask
      && r.value.classification.Some? && r.value.meta.promptHistory.Some?
      && r.value.stancePred == StanceName(r.value.classification.value.stance) && r.value.stancePred != ERROR_LABEL
      && r.value.meta.promptHistory.value.Keys == r.value.classification.value.trace.Keys
    ensures LegacyRequestError(eg, chainUsed, llm2).Some? ==>
      r == Failure(LegacyRequestError(eg, chainUsed, llm2).value)
    ensures LegacyRequestError(eg, chainUsed, llm2).None? && o.Throws? ==> r == Failure(BackendError)
    ensures r.Success? ==>
      var d := LegacyDetect(eg, llm, chainUsed, llm2, chat, entityMask, o.answers, o.general).value;
      && r.value.classification == Some(Classified(d.entity, d.view, d.run.stance, d.run.trace))
      && r.value.meta.promptHistory == Some(PromptTexts(map[LMS_KEY := d.run.trace], LMS_KEY))
  {
    match LegacyRequestError(eg, chainUsed, llm2)
    case Some(e) => Failure(e)
    case None =>
      if o.Throws? then Failure(BackendError)
      else
        var d := LegacyDetect(eg, llm, chainUsed, llm2, chat, entityMask, o.answers, o.general).value;
        Success(Prediction(eg, Some(Classified(d.entity, d.view, d.run.stance, d.run.trace)), runAlias,
                           StanceName(d.run.stance),
                           PredictionMeta(Some(PromptTexts(map[LMS_KEY := d.run.trace], LMS_KEY)), entityMask)))
  }

  /** A batch so far, extended by the outcome of its next example: the first exception wins. */
  function Extend(acc: Result<seq<Prediction>, Error>, next: Result<Prediction, Error>)
    : (r: Result<seq<Prediction>, Error>)
    ensures acc.Failure? ==> r == acc
    ensures acc.Success? && next.Failure? ==> r == Failure(next.error)
    ensures r.Success? <==> acc.Success? && next.Success?
    ensures r.Success? ==> r.value == acc.value + [next.value]
  {
    match acc
    case Failure(_) => acc
    case Success(init) =>
      match next
      case Failure(e) => Failure(e)
      case Success(p) => Success(init + [p])
  }

  /** A batch collected from its per-example results in order: the first exception ends it. */
  function Collected(results: seq<Result<Prediction, Error>>): (r: Result<seq<Prediction>, Error>)
    ensures r.Success? ==> |r.value| == |results|
  {
    if results == [] then Success([])
    else Extend(Collected(results[..|results| - 1]), results[|results| - 1])
  }

  /** Collecting one more result extends the batch collected so far. */
  lemma CollectedSnoc(results: seq<Result<Prediction, Error>>, next: Result<Prediction, Error>)
    ensures Collected(results + [next]) == Extend(Collected(results), next)
  {
    assert (results + [next])[..|results|] == results;
  }

  /** A collected batch holds, at each position, the record that succeeded there. */
  lemma {:induction false} CollectedAt(results: seq<Result<Prediction, Error>>, k: nat)
    requires k < |results| && Collected(results).Success?
    ensures results[k] == Success(Collected(results).value[k])
  {
    var n := |results| - 1;
    if k < n {
      CollectedAt(results[..n], k);
    }
  }

  /** When every example succeeds, so does the batch. */
  lemma {:induction false} CollectedAllSucceed(results: seq<Result<Prediction, Error>>)
    requires forall k | 0 <= k < |results| :: results[k].Success?
    ensures Collected(results).Success?
  {
    if results != [] {
      var n := |results| - 1;
      assert forall k | 0 <= k < n :: results[..n][k] == results[k];
      CollectedAllSucceed(results[..n]);
    }
  }

  /** Once a prefix of the batch fails, the whole batch fails with the same exception. */
  lemma {:induction false} CollectedFailureSticks(results: seq<Result<Prediction, Error>>, n: nat)
    requires n <= |results| && Collected(results[..n]).Failure?
    ensures Collected(results) == Collected(results[..n])
    decreases |results|
  {
    if n < |results| {
      var m := |results| - 1;
      assert results[..m][..n] == results[..n];
      CollectedFailureSticks(results[..m], n);
    } else {
      assert results[..n] == results;
    }
  }

  /** The batch raises exactly the exception of its first failing example. */
  lemma CollectedFirstFailure(results: seq<Result<Prediction, Error>>, i: nat)
    requires i < |results| && results[i].Failure?
    requires forall k | 0 <= k < i :: results[k].Success?
    ensures Collected(results) == Failure(results[i].error)
  {
    assert forall k | 0 <= k < i :: results[..i][k] == results[k];
    CollectedAllSucceed(results[..i]);
    PrefixSnoc(results, i);
    CollectedSnoc(results[..i], results[i]);
    CollectedFailureSticks(results, i + 1);
  }

  /** The outcome of each example of a batch taken on its own. */
  function LegacyResults(egs: seq<Example>, llm: Backend, chainUsed: string, chat: bool, llm2: Option<Backend>,
                         entityMask: Option<string>, runAlias: string, outcomes: seq<LegacyOutcome>)
    : (r: seq<Result<Prediction, Error>>)
    requires |outcomes| == |egs|
    ensures |r| == |egs|
  {
    seq(|egs|, k requires 0 <= k < |egs| => LegacyPredict(egs[k], llm, chainUsed, llm2, chat, entityMask, runAlias, outcomes[k]))
  }

  /** The older process as a function: the records in order, or the first exception. */
  function LegacyProcessed(egs: seq<Example>, llm: Backend, chainUsed: string, chat: bool, llm2: Option<Backend>,
                           entityMask: Option<string>, runAlias: string, outcomes: seq<LegacyOutcome>)
    : (r: Result<seq<Prediction>, Error>)
    requires |outcomes| == |egs|
    ensures r.Success? ==> |r.value| == |egs|
  {
    Collected(LegacyResults(egs, llm, chainUsed, chat, llm2, entityMask, runAlias, outcomes))
  }

  /** The body of the older process's loop for one example: its record, or the exception that ends the batch. */
  method LegacyProcessOne(eg: Example, llm: Backend, chainUsed: string, chat: bool, llm2: Option<Backend>,
                          entityMask: Option<string>, runAlias: string, o: LegacyOutcome)
    returns (r: Result<Prediction, Error>)
    ensures r == LegacyPredict(eg, llm, chainUsed, llm2, chat, entityMask, runAlias, o)
  {
    if o.Throws? {
      var raised := LegacyRequestError(eg, chainUsed, llm2);
      if raised.Some? {
        return Failure(raised.value);
      }
      return Failure(BackendError);
    }
    var detected := LegacyDetectStance(eg, llm, chainUsed, llm2, chat, entityMask, o.answers, o.general);
    if detected.Failure? {
      return Failure(detected.error);
    }
    var task := detected.value;
    var history := PromptTextsFromMeta(task.meta.value, LMS_KEY);
    r := Success(Prediction(eg, Some(Classified(task.entity, task.View(), task.stance.value, task.meta.value[LMS_KEY])),
                            runAlias, StanceName(task.stance.value), PredictionMeta(Some(history), entityMask)));
  }

  /**
   * process of the older generation: one record per input, in order, all with the same
   * run alias; there is no exception handling, so a failing example ends the batch.
   */
  method LegacyProcessBatch(egs: seq<Example>, llm: Backend, chainUsed: string, chat: bool, llm2: Option<Backend>,
                            entityMask: Option<string>, runAlias: string, outcomes: seq<LegacyOutcome>)
    returns (r: Result<seq<Prediction>, Error>)
    requires |outcomes| == |egs|
    ensures r == LegacyProcessed(egs, llm, chainUsed, chat, llm2, entityMask, runAlias, outcomes)
  {
    ghost var results := LegacyResults(egs, llm, chainUsed, chat, llm2, entityMask, runAlias, outcomes);
    var predEgs: seq<Prediction> := [];
    var i := 0;
    while i < |egs|
      invariant 0 <= i <= |egs|
      invariant Collected(results[..i]) == Success(predEgs)
    {
      PrefixSnoc(results, i);
      CollectedSnoc(results[..i], results[i]);
      var one := LegacyProcessOne(egs[i], llm, chainUsed, chat, llm2, entityMask, runAlias, outcomes[i]);
      if one.Failure? {
        CollectedFailureSticks(results, i + 1);
        return Failure(one.error);
      }
      var p := one.value;
      predEgs := predEgs + [p];
      i := i + 1;
    }
    assert results[..i] == results;
    r := Success(predEgs);
  }

  /**
   * A completed batch holds, at each position, the record LegacyPredict gives for the example
   * there, so all share the run alias, all are classified and none carries the error sentinel.
   */
  lemma LegacyBatchRecords(egs: seq<Example>, llm: Backend, chainUsed: string, chat: bool,
                            llm2: Option<Backend>, entityMask: Option<string>, runAlias: string,
                            outcomes: seq<LegacyOutcome>, k: nat)
    requires |outcomes| == |egs| && k < |egs|
    requires LegacyProcessed(egs, llm, chainUsed, chat, llm2, entityMask, runAlias, outcomes).Success?
    ensures Success(LegacyProcessed(egs, llm, chainUsed, chat, llm2, entityMask, runAlias, outcomes).value[k])
         == LegacyPredict(egs[k], llm, chainUsed, llm2, chat, entityMask, runAlias, outcomes[k])
  {
    CollectedAt(LegacyResults(egs, llm, chainUsed, chat, llm2, entityMask, runAlias, outcomes), k);
  }

  /** A batch completes when every example is classified; otherwise it raises what its first failing example raised. */
  lemma LegacyBatchOutcome(egs: seq<Example>, llm: Backend, chainUsed: string, chat: bool,
                           llm2: Option<Backend>, entityMask: Option<string>, runAlias: string,
                           outcomes: seq<LegacyOutcome>, i: nat)
    requires |outcomes| == |egs| && i <= |egs|
    requires forall k | 0 <= k < i :: LegacyPredict(egs[k], llm, chainUsed, llm2, chat, entityMask, runAlias, outcomes[k]).Success?
    ensures i == |egs| ==> LegacyProcessed(egs, llm, chainUsed, chat, llm2, entityMask, runAlias, outcomes).Success?
    ensures i < |egs| && LegacyPredict(egs[i], llm, chainUsed, llm2, chat, entityMask, runAlias, outcomes[i]).Failure? ==>
      LegacyProcessed(egs, llm, chainUsed, chat, llm2, entityMask, runAlias, outcomes)
      == Failure(LegacyPredict(egs[i], llm, chainUsed, llm2, chat, entityMask, runAlias, outcomes[i]).error)
  {
    var results := LegacyResults(egs, llm, chainUsed, chat, llm2, entityMask, runAlias, outcomes);
    if i == |egs| {
      CollectedAllSucceed(results);
    } else if results[i].Failure? {
      CollectedFirstFailure(results, i);
    }
  }

  // ---- evaluation ----

  /** The lists handed to the metrics by the older evaluate. */
  datatype LegacyEvaluation = LegacyEvaluation(yTrue: seq<string>, yPred: seq<string>)

  /**
   * evaluate of the older generation: every prediction is paired with its true label, with
   * no error filtering; an example without a true label is a KeyError.
   */
  method LegacyEvaluate(egsWithPreds: seq<Prediction>) returns (r: Result<LegacyEvaluation, Error>)
    ensures r.Success? <==> forall p | p in egsWithPreds :: "stance_true" in p.example
    ensures r.Failure? ==> r.error == MissingKey("stance_true")
    ensures r.Success? ==>
      r.value.yPred == PredLabels(egsWithPreds) && r.value.yTrue == TrueLabels(egsWithPreds)
      && |r.value.yTrue| == |r.value.yPred| == |egsWithPreds|
  {
    var yTrue: seq<string> := [];
    var yPred: seq<string> := [];
    var i := 0;
    while i < |egsWithPreds|
      invariant 0 <= i <= |egsWithPreds|
      invariant forall p | p in egsWithPreds[..i] :: "stance_true" in p.example
      invariant yPred == PredLabels(egsWithPreds[..i])
      invariant yTrue == TrueLabels(egsWithPreds[..i])
    {
      var eg := egsWithPreds[i];
      PrefixSnoc(egsWithPreds, i);
      if "stance_true" !in eg.example {
        return Failure(MissingKey("stance_true"));
      }
      LabelsSnoc(egsWithPreds[..i], eg);
      yPred := yPred + [eg.stancePred];
      yTrue := yTrue + [eg.example["stance_true"]];
      i := i + 1;
    }
    assert egsWithPreds[..i] == egsWithPreds;
    r := Success(LegacyEvaluation(yTrue, yPred));
  }

  /** With no error predictions, every example is scored and none is counted as an error. */
  lemma {:induction false} NothingToFilter(preds: seq<Prediction>)
    requires forall p | p in preds :: p.stancePred != ERROR_LABEL
    ensures Scored(preds) == preds && ErrorCount(preds) == 0
  {
    if preds != [] {
      var init := preds[..|preds| - 1];
      assert preds == init + [preds[|preds| - 1]];
      NothingToFilter(init);
    }
  }

  /**
   * On the records of a completed older batch, the older evaluate and the non-metric part
   * of the current one hand the same lists to the metrics, with no errors counted.
   */
  lemma LegacyEvaluationAgrees(egs: seq<Example>, llm: Backend, chainUsed: string, chat: bool,
                               llm2: Option<Backend>, entityMask: Option<string>, runAlias: string,
                               outcomes: seq<LegacyOutcome>)
    requires |outcomes| == |egs|
    requires LegacyProcessed(egs, llm, chainUsed, chat, llm2, entityMask, runAlias, outcomes).Success?
    ensures var preds := LegacyProcessed(egs, llm, chainUsed, chat, llm2, entityMask, runAlias, outcomes).value;
      Scored(preds) == preds && ErrorCount(preds) == 0
  {
    var preds := LegacyProcessed(egs, llm, chainUsed, chat, llm2, entityMask, runAlias, outcomes).value;
    forall p | p in preds
      ensures p.stancePred != ERROR_LABEL
    {
      var k :| 0 <= k < |preds| && preds[k] == p;
      LegacyBatchRecords(egs, llm, chainUsed, chat, llm2, entityMask, runAlias, outcomes, k);
    }
    NothingToFilter(preds);
  }
}
