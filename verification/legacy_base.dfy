/**
 * StanceClassification of the older package generation. The prompt builders, the answer
 * tables and the five non-nested chains are those of the current generation; the trace
 * is stored under meta["lms"]. The two nested chains differ: their general probe asks for
 * the two general answers but is constrained to "Ja"/"Nein", and the irrelevance probe
 * reuses the same local, so the trace keeps only the last of the two probes under
 * "irrelevance" and has no "irrelevance_general" key.
 */
module LegacyBase {
  import opened Wrappers
  import opened Calls
  import opened Prompts
  import opened Records
  import opened Chains
  import Base

  /** The top-level key of `meta` in this generation. */
  const LMS_KEY: string := "lms"

  /** The older general probe: the general-stance prompt, answered by "Ja" or "Nein". */
  function LegacyGeneralCall(llm: Backend, v: TaskView, a: YesNo): CallRecord {
    Call(llm, GeneralStanceQuestion(v.text, v.entity), Selected(YesNoOption(a)))
  }

  /** The general answer a "Ja"/"Nein" of the older general probe stands for. */
  function GeneralOf(a: YesNo): (g: GeneralAnswer)
    ensures g == Attitude <==> a == Ja
  {
    if a.Ja? then Attitude else NoAttitude
  }

  /**
   * nested_irrelevant_summary_explicit and its v2 variant in the older generation. The
   * trace has the keys of the summary-first chains; its "irrelevance" entry is the general
   * probe when that answered "Nein", and the irrelevance probe otherwise.
   */
  function LegacyNestedRun(llm: Backend, v: TaskView, chat: bool, specific: bool, general: YesNo,
                           irrelevance: IrrelevanceAnswer, summary: string, support: YesNo, opposition: YesNo): (r: Run)
    ensures r.trace.Keys == SUMMARY_FIRST_KEYS && "irrelevance_general" !in r.trace
    ensures r.stance == NestedStance(GeneralOf(general), irrelevance, support, opposition)
    ensures r.trace["summary"].None? <==> general == Nein || irrelevance == NoPosition
    ensures r.trace["stance"].None? <==> r.trace["summary"].None?
    ensures |r.calls| == if general == Nein then 1
                         else if irrelevance == NoPosition then 2
                         else if support == Ja then 4
                         else 5
    ensures r.trace["irrelevance"] == Some(if general == Nein then r.calls[0] else r.calls[1])
    ensures r.calls[0].prompt.GeneralStanceQuestion?
    ensures general == Ja ==> r.calls[1].prompt.IrrelevanceQuestion?
    ensures Recorded(r) && AllVia(r.calls, llm)
  {
    var g := LegacyGeneralCall(llm, v, general);
    if general.Nein? then
      Run(Irrelevant, SummaryFirstTrace(None, Some(g), None), [g])
    else
      var i := IrrelevanceCall(llm, v.text, v, irrelevance);
      if irrelevance.NoPosition? then
        Run(Irrelevant, SummaryFirstTrace(None, Some(i), None), [g] + [i])
      else
        var s := SummaryCall(llm, v, chat, specific, summary);
        var probes := SupportThenOpposition(llm, summary, v, support, opposition);
        Run(NestedStance(GeneralOf(general), irrelevance, support, opposition),
            SummaryFirstTrace(Some(s), Some(i), Some(probes[|probes| - 1])), [g] + [i] + [s] + probes)
  }

  /**
   * The older nested chains issue the same calls as the current ones, except that the
   * general probe has a different answer, and they reach the same stance.
   */
  lemma LegacyNestedAgreesWithNested(llm: Backend, v: TaskView, chat: bool, specific: bool,
                                     general: YesNo, irrelevance: IrrelevanceAnswer,
                                     summary: string, support: YesNo, opposition: YesNo)
    ensures var older := LegacyNestedRun(llm, v, chat, specific, general, irrelevance, summary, support, opposition);
      var newer := NestedRun(llm, v, chat, specific, GeneralOf(general), irrelevance, summary, support, opposition);
      older.stance == newer.stance
      && older.calls[0].prompt == newer.calls[0].prompt
      && |older.calls| == |newer.calls| && older.calls[1..] == newer.calls[1..]
  {
    var older := LegacyNestedRun(llm, v, chat, specific, general, irrelevance, summary, support, opposition);
    var newer := NestedRun(llm, v, chat, specific, GeneralOf(general), irrelevance, summary, support, opposition);
    var i := IrrelevanceCall(llm, v.text, v, irrelevance);
    if general.Nein? {
      assert older.calls[1..] == [] == newer.calls[1..];
    } else if irrelevance.NoPosition? {
      SameAfterHead(older.calls[0], newer.calls[0], [i]);
    } else {
      var s := SummaryCall(llm, v, chat, specific, summary);
      var probes := SupportThenOpposition(llm, summary, v, support, opposition);
      SameAfterHead(older.calls[0], newer.calls[0], [i] + [s] + probes);
      LogAppend([older.calls[0]], [i] + [s], probes);
      LogAppend([older.calls[0]], [i], [s]);
      LogAppend([newer.calls[0]], [i] + [s], probes);
      LogAppend([newer.calls[0]], [i], [s]);
    }
  }

  /** Two call lists that differ only in their first call agree after it. */
  lemma SameAfterHead(x: CallRecord, y: CallRecord, rest: seq<CallRecord>)
    ensures ([x] + rest)[1..] == rest == ([y] + rest)[1..]
  {
  }

  /**
   * The older and the current nested traces agree on "summary" and "stance"; the older
   * "irrelevance" entry holds the general probe where the current trace has only
   * "irrelevance_general", and the irrelevance probe otherwise.
   */
  lemma LegacyNestedTraceAgrees(llm: Backend, v: TaskView, chat: bool, specific: bool,
                                general: YesNo, irrelevance: IrrelevanceAnswer,
                                summary: string, support: YesNo, opposition: YesNo)
    ensures var older := LegacyNestedRun(llm, v, chat, specific, general, irrelevance, summary, support, opposition);
      var newer := NestedRun(llm, v, chat, specific, GeneralOf(general), irrelevance, summary, support, opposition);
      older.trace["summary"] == newer.trace["summary"]
      && older.trace["stance"] == newer.trace["stance"]
      && older.trace["irrelevance"] == (if general.Nein? then Some(older.calls[0]) else newer.trace["irrelevance"])
  {
  }

  /**
   * As written, the older general probe asks the model to answer with one of the two
   * general answers, yet the only answers it can select are "Ja" and "Nein", neither of
   * which the prompt offers.
   */
  lemma LegacyGeneralProbeMismatch(llm: Backend, v: TaskView, a: YesNo)
    ensures var c := LegacyGeneralCall(llm, v, a);
      AsksFor(PromptText(c.prompt), GeneralOption(NoAttitude), GeneralOption(Attitude))
      && c.reply.option != GeneralOption(NoAttitude) && c.reply.option != GeneralOption(Attitude)
  {
    GeneralStancePromptFrame(v.text, v.entity);
  }

  /** In the current generation the general probe selects exactly among the answers its prompt asks for. */
  lemma GeneralProbeAnswersAsAsked(llm: Backend, v: TaskView, a: GeneralAnswer)
    ensures var c := GeneralCall(llm, v, a);
      AsksFor(PromptText(c.prompt), GeneralOption(NoAttitude), GeneralOption(Attitude))
      && (c.reply.option == GeneralOption(NoAttitude) || c.reply.option == GeneralOption(Attitude))
  {
    GeneralStancePromptFrame(v.text, v.entity);
  }

  class StanceClassification {
    var inputText: string
    var statement: string
    var entity: string
    /** None until a chain has run. */
    var stance: Option<Stance>
    /** None until a chain has run; then one key holding the trace. */
    var meta: Option<Meta>
    var maskedEntity: string
    var maskedInputText: string
    /** The model calls issued on behalf of this task, in order. */
    ghost var issued: seq<CallRecord>

    constructor (inputText: string, statement: string, entity: string)
      ensures this.inputText == inputText && this.statement == statement && this.entity == entity
      ensures stance == None && meta == None
      ensures maskedEntity == entity && maskedInputText == inputText
      ensures issued == []
    {
      this.inputText := inputText;
      this.statement := statement;
      this.entity := entity;
      stance := None;
      meta := None;
      maskedEntity := entity;
      maskedInputText := inputText;
      issued := [];
    }

    /** What the chains read of this classification. */
    function View(): TaskView
      reads this`maskedInputText, this`maskedEntity, this`statement
    {
      TaskView(maskedInputText, maskedEntity, statement)
    }

    /** Replaces the entity in the original text by the mask; only the masked fields change. */
    method MaskEntity(entityMask: string) returns (r: StanceClassification)
      modifies this`maskedInputText, this`maskedEntity
      ensures r == this
      ensures maskedInputText == Base.ReplaceAll(inputText, entity, entityMask)
      ensures maskedEntity == entityMask
      ensures entity == old(entity) && inputText == old(inputText) && statement == old(statement)
    {
      maskedInputText := Base.ReplaceAll(inputText, entity, entityMask);
      maskedEntity := entityMask;
      r := this;
    }

    /** A free summary on `lm`: 120 tokens for a chat backend, 80 otherwise. */
    method GenerateSummary(lm: Backend, chat: bool, prompt: Prompt, summaryText: string) returns (summary: CallRecord)
      ensures summary == Call(lm, prompt, Generated(summaryText, SummaryBudget(chat)))
    {
      var s: Base.Local<CallRecord> := Base.Unbound;
      if chat {
        s := Base.Bound(Call(lm, prompt, Generated(summaryText, CHAT_SUMMARY_TOKENS)));
      }
      if !chat {
        s := Base.Bound(Call(lm, prompt, Generated(summaryText, FLAT_SUMMARY_TOKENS)));
      }
      summary := s.v;
    }

    /** A constrained call on `lm` whose reply is the selected option. */
    method Select(lm: Backend, prompt: Prompt, option: string) returns (c: CallRecord)
      ensures c == Call(lm, prompt, Selected(option))
    {
      c := Call(lm, prompt, Selected(option));
    }

    /** The statement-specific summary on `backend`, forced to open with one of the inline labels. */
    method InlineSummary(backend: Backend, tag: InlineLabel, summaryText: string) returns (c: CallRecord)
      ensures c == InlineCall(backend, View(), tag, summaryText)
    {
      var prompt := StatementSummaryRequest(maskedInputText, maskedEntity, statement);
      c := Call(backend, prompt,
        Inline("Die Organisation " + maskedEntity + " ", InlineOption(tag), summaryText, INLINE_SUMMARY_TOKENS));
    }

    /** summarize_irrelevant_stance_chain; `lm2` is accepted and not used. */
    method SummarizeIrrelevantStanceChain(lm: Backend, chat: bool, lm2: Option<Backend>, summaryText: string,
                                          irrelevanceAnswer: IrrelevanceAnswer, supportAnswer: YesNo)
      returns (r: StanceClassification)
      modifies this`stance, this`meta, this`issued
      ensures r == this
      ensures var run := SummaryFirstRun(lm, View(), chat, false, summaryText, irrelevanceAnswer, supportAnswer);
        stance == Some(run.stance) && meta == Some(map[LMS_KEY := run.trace]) && issued == old(issued) + run.calls
    {
      var summary := GenerateSummary(lm, chat, SummaryRequest(maskedInputText, maskedEntity), summaryText);
      ghost var calls := [summary];
      var irrelevance := Select(lm, IrrelevanceQuestion(summary.reply.text, maskedEntity, statement),
                                IrrelevanceOption(irrelevanceAnswer));
      calls := calls + [irrelevance];
      var stanceCall: Base.Local<Option<CallRecord>> := Base.Unbound;
      if irrelevance.reply.option == IRRELEVANCE_ANSWERS["irrelevant"] {
        stance := Some(Irrelevant);
        stanceCall := Base.Bound(None);
      }
      if irrelevance.reply.option == IRRELEVANCE_ANSWERS["stance"] {
        var c := Select(lm, SupportQuestion(summary.reply.text, maskedEntity, statement), YesNoOption(supportAnswer));
        calls := calls + [c];
        stanceCall := Base.Bound(Some(c));
        if c.reply.option == "Ja" {
          stance := Some(Support);
        }
        if c.reply.option == "Nein" {
          stance := Some(Opposition);
        }
      }
      meta := Some(map[LMS_KEY := map["summary" := Some(summary), "irrelevance" := Some(irrelevance),
                                      "stance" := stanceCall.v]]);
      issued := issued + calls;
      r := this;
    }

    /** summarize_v2_irrelevant_stance_chain: as above, with the statement-specific summary. */
    method SummarizeV2IrrelevantStanceChain(lm: Backend, chat: bool, lm2: Option<Backend>, summaryText: string,
                                            irrelevanceAnswer: IrrelevanceAnswer, supportAnswer: YesNo)
      returns (r: StanceClassification)
      modifies this`stance, this`meta, this`issued
      ensures r == this
      ensures var run := SummaryFirstRun(lm, View(), chat, true, summaryText, irrelevanceAnswer, supportAnswer);
        stance == Some(run.stance) && meta == Some(map[LMS_KEY := run.trace]) && issued == old(issued) + run.calls
    {
      var summary := GenerateSummary(lm, chat, StatementSummaryRequest(maskedInputText, maskedEntity, statement),
                                     summaryText);
      ghost var calls := [summary];
      var irrelevance := Select(lm, IrrelevanceQuestion(summary.reply.text, maskedEntity, statement),
                                IrrelevanceOption(irrelevanceAnswer));
      calls := calls + [irrelevance];
      var stanceCall: Base.Local<Option<CallRecord>> := Base.Unbound;
      if irrelevance.reply.option == IRRELEVANCE_ANSWERS["irrelevant"] {
        stance := Some(Irrelevant);
        stanceCall := Base.Bound(None);
      }
      if irrelevance.reply.option == IRRELEVANCE_ANSWERS["stance"] {
        var c := Select(lm, SupportQuestion(summary.reply.text, maskedEntity, statement), YesNoOption(supportAnswer));
        calls := calls + [c];
        stanceCall := Base.Bound(Some(c));
        if c.reply.option == "Ja" {
          stance := Some(Support);
        }
        if c.reply.option == "Nein" {
          stance := Some(Opposition);
        }
      }
      meta := Some(map[LMS_KEY := map["summary" := Some(summary), "irrelevance" := Some(irrelevance),
                                      "stance" := stanceCall.v]]);
      issued := issued + calls;
      r := this;
    }

    /** summarize_v2_chain: the inline label of a single call is the stance. */
    method SummarizeV2Chain(lm: Backend, chat: bool, lm2: Option<Backend>, tag: InlineLabel, summaryText: string)
      returns (r: StanceClassification)
      modifies this`stance, this`meta, this`issued
      ensures r == this
      ensures var run := InlineRun(lm, View(), tag, summaryText);
        stance == Some(run.stance) && meta == Some(map[LMS_KEY := run.trace]) && issued == old(issued) + run.calls
    {
      var summary := InlineSummary(lm, tag, summaryText);
      if summary.reply.option == "drückt keine Haltung aus dazu, dass" {
        stance := Some(Irrelevant);
      }
      if summary.reply.option == "unterstützt, dass" {
        stance := Some(Support);
      }
      if summary.reply.option == "lehnt ab, dass" {
        stance := Some(Opposition);
      }
      meta := Some(map[LMS_KEY := map["summary" := Some(summary)]]);
      issued := issued + [summary];
      r := this;
    }

    /** irrelevant_summarize_v2_chain: the summary stage goes to `lm2`, or to `lm` when none is given. */
    method IrrelevantSummarizeV2Chain(lm: Backend, chat: bool, lm2: Option<Backend>,
                                      irrelevanceAnswer: IrrelevanceAnswer, tag: InlineLabel, summaryText: string)
      returns (r: StanceClassification)
      modifies this`stance, this`meta, this`issued
      ensures r == this
      ensures var run := ProbeThenInlineRun(lm, lm2, View(), irrelevanceAnswer, tag, summaryText);
        stance == Some(run.stance) && meta == Some(map[LMS_KEY := run.trace]) && issued == old(issued) + run.calls
    {
      var second := lm2;
      if second.None? {
        second := Some(lm);
      }
      var irrelevance := Select(lm, IrrelevanceQuestion(maskedInputText, maskedEntity, statement),
                                IrrelevanceOption(irrelevanceAnswer));
      ghost var calls := [irrelevance];
      var summary: Base.Local<Option<CallRecord>> := Base.Unbound;
      if irrelevance.reply.option == IRRELEVANCE_ANSWERS["irrelevant"] {
        stance := Some(Irrelevant);
        summary := Base.Bound(None);
      }
      if irrelevance.reply.option == IRRELEVANCE_ANSWERS["stance"] {
        var c := InlineSummary(second.value, tag, summaryText);
        calls := calls + [c];
        summary := Base.Bound(Some(c));
        if c.reply.option == "drückt keine Haltung aus dazu, dass" {
          stance := Some(Irrelevant);
        }
        if c.reply.option == "unterstützt, dass" {
          stance := Some(Support);
        }
        if c.reply.option == "lehnt ab, dass" {
          stance := Some(Opposition);
        }
      }
      meta := Some(map[LMS_KEY := map["summary" := summary.v, "irrelevance" := Some(irrelevance)]]);
      issued := issued + calls;
      r := this;
    }

    /** irrelevant_stance_chain: both probes read the masked text. */
    method IrrelevantStanceChain(lm: Backend, chat: bool, lm2: Option<Backend>,
                                 irrelevanceAnswer: IrrelevanceAnswer, supportAnswer: YesNo)
      returns (r: StanceClassification)
      modifies this`stance, this`meta, this`issued
      ensures r == this
      ensures var run := ProbeRun(lm, View(), irrelevanceAnswer, supportAnswer);
        stance == Some(run.stance) && meta == Some(map[LMS_KEY := run.trace]) && issued == old(issued) + run.calls
    {
      var irrelevance := Select(lm, IrrelevanceQuestion(maskedInputText, maskedEntity, statement),
                                IrrelevanceOption(irrelevanceAnswer));
      ghost var calls := [irrelevance];
      var stanceCall: Base.Local<Option<CallRecord>> := Base.Unbound;
      if irrelevance.reply.option == IRRELEVANCE_ANSWERS["irrelevant"] {
        stance := Some(Irrelevant);
        stanceCall := Base.Bound(None);
      }
      if irrelevance.reply.option == IRRELEVANCE_ANSWERS["stance"] {
        var c := Select(lm, SupportQuestion(maskedInputText, maskedEntity, statement), YesNoOption(supportAnswer));
        calls := calls + [c];
        stanceCall := Base.Bound(Some(c));
        if c.reply.option == "Ja" {
          stance := Some(Support);
        }
        if c.reply.option == "Nein" {
          stance := Some(Opposition);
        }
      }
      meta := Some(map[LMS_KEY := map["irrelevance" := Some(irrelevance), "stance" := stanceCall.v]]);
      issued := issued + calls;
      r := this;
    }

    /**
     * The last stage of the nested chains: support is asked about the summary; only when
     * it is denied is opposition asked. Returns the call whose answer decided, and the
     * calls issued.
     */
    method SupportThenOpposition(lm: Backend, summaryText: string, support: YesNo, opposition: YesNo)
      returns (c: CallRecord, ghost probes: seq<CallRecord>)
      modifies this`stance
      ensures probes == Chains.SupportThenOpposition(lm, summaryText, View(), support, opposition)
      ensures stance == Some(NestedStance(Attitude, Position, support, opposition)) && c == probes[|probes| - 1]
    {
      c := Select(lm, SupportQuestion(summaryText, maskedEntity, statement), YesNoOption(support));
      probes := [c];
      if c.reply.option == "Ja" {
        stance := Some(Support);
      }
      if c.reply.option == "Nein" {
        c := Select(lm, OppositionQuestion(summaryText, maskedEntity, statement), YesNoOption(opposition));
        probes := probes + [c];
        if c.reply.option == "Ja" {
          stance := Some(Opposition);
        }
        if c.reply.option == "Nein" {
          stance := Some(Irrelevant);
        }
      }
    }

    /** nested_irrelevant_summary_explicit of the older generation. */
    method NestedIrrelevantSummaryExplicit(lm: Backend, chat: bool, lm2: Option<Backend>, general: YesNo,
                                           answers: Answers)
      returns (r: StanceClassification)
      modifies this`stance, this`meta, this`issued
      ensures r == this
      ensures var run := LegacyNestedRun(lm, View(), chat, false, general, answers.irrelevance,
                                         answers.summary, answers.support, answers.opposition);
        stance == Some(run.stance) && meta == Some(map[LMS_KEY := run.trace]) && issued == old(issued) + run.calls
    {
      r := NestedChain(lm, chat, false, general, answers);
    }

    /** nested_irrelevant_summary_v2_explicit of the older generation. */
    method NestedIrrelevantSummaryV2Explicit(lm: Backend, chat: bool, lm2: Option<Backend>, general: YesNo,
                                             answers: Answers)
      returns (r: StanceClassification)
      modifies this`stance, this`meta, this`issued
      ensures r == this
      ensures var run := LegacyNestedRun(lm, View(), chat, true, general, answers.irrelevance,
                                         answers.summary, answers.support, answers.opposition);
        stance == Some(run.stance) && meta == Some(map[LMS_KEY := run.trace]) && issued == old(issued) + run.calls
    {
      r := NestedChain(lm, chat, true, general, answers);
    }

    /**
     * The two older nested chains, which differ only in the summary prompt (`specific`).
     * The general probe and the irrelevance probe share the local `irrelevance`.
     */
    method NestedChain(lm: Backend, chat: bool, specific: bool, general: YesNo, answers: Answers)
      returns (r: StanceClassification)
      modifies this`stance, this`meta, this`issued
      ensures r == this
      ensures var run := LegacyNestedRun(lm, View(), chat, specific, general, answers.irrelevance,
                                         answers.summary, answers.support, answers.opposition);
        stance == Some(run.stance) && meta == Some(map[LMS_KEY := run.trace]) && issued == old(issued) + run.calls
    {
      var irrelevance := Select(lm, GeneralStanceQuestion(maskedInputText, maskedEntity), YesNoOption(general));
      ghost var calls := [irrelevance];
      var summary: Base.Local<Option<CallRecord>> := Base.Unbound;
      var stanceCall: Base.Local<Option<CallRecord>> := Base.Unbound;
      if irrelevance.reply.option == "Nein" {
        stance := Some(Irrelevant);
        stanceCall := Base.Bound(None);
        summary := Base.Bound(None);
      }
      if irrelevance.reply.option == "Ja" {
        irrelevance := Select(lm, IrrelevanceQuestion(maskedInputText, maskedEntity, statement),
                              IrrelevanceOption(answers.irrelevance));
        calls := calls + [irrelevance];
        if irrelevance.reply.option == IRRELEVANCE_ANSWERS["irrelevant"] {
          stance := Some(Irrelevant);
          stanceCall := Base.Bound(None);
          summary := Base.Bound(None);
        }
        if irrelevance.reply.option == IRRELEVANCE_ANSWERS["stance"] {
          var prompt := if specific then StatementSummaryRequest(maskedInputText, maskedEntity, statement)
                        else SummaryRequest(maskedInputText, maskedEntity);
          var s := GenerateSummary(lm, chat, prompt, answers.summary);
          calls := calls + [s];
          summary := Base.Bound(Some(s));
          var c, probes := SupportThenOpposition(lm, s.reply.text, answers.support, answers.opposition);
          calls := calls + probes;
          stanceCall := Base.Bound(Some(c));
        }
      }
      meta := Some(map[LMS_KEY := map["summary" := summary.v, "irrelevance" := Some(irrelevance),
                                      "stance" := stanceCall.v]]);
      issued := issued + calls;
      r := this;
    }
  }
}
