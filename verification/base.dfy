/**
 * StanceClassification of the current package generation: one task (a text, a statement
 * and the entity whose stance is wanted), entity masking, and the seven prompt chains.
 *
 * Each chain method takes the oracle's answers as parameters, issues its calls in the
 * order of the source (recorded in the ghost call log `issued`), assigns `stance` by
 * comparing the selected strings as the source does, and stores the trace under
 * meta["llms"]. Its contract ties the new state to the chain's reference run in module
 * Chains, whose properties are proved there.
 */
module Base {
  import opened Wrappers
  import opened Calls
  import opened Prompts
  import opened Records
  import opened Chains

  /** The top-level key of `meta` in this generation. */
  const LLMS_KEY: string := "llms"

  /** A Python local that the branches of a chain may leave unassigned. */
  datatype Local<T> = Unbound | Bound(v: T)

  /**
   * re.sub(pattern, mask, text) for a pattern without regular-expression syntax: every
   * leftmost non-overlapping occurrence of `pattern` is replaced by `mask`; an empty
   * pattern matches at every position, before each character and at the end.
   */
  function ReplaceAll(text: string, pattern: string, mask: string): string
    decreases |text|
  {
    if pattern == [] then
      if text == [] then mask else mask + [text[0]] + ReplaceAll(text[1..], pattern, mask)
    else if |pattern| <= |text| && text[..|pattern|] == pattern then
      mask + ReplaceAll(text[|pattern|..], pattern, mask)
    else if text == [] then []
    else [text[0]] + ReplaceAll(text[1..], pattern, mask)
  }

  /** A text in which the pattern does not occur is left as it is. */
  lemma {:induction false} ReplaceAbsent(text: string, pattern: string, mask: string)
    requires pattern != [] && !Embeds(text, pattern)
    ensures ReplaceAll(text, pattern, mask) == text
    decreases |text|
  {
    EmbedsPrefix(text, pattern);
    if text != [] {
      EmbedsTail(text, pattern);
      ReplaceAbsent(text[1..], pattern, mask);
    }
  }

  /** An occurrence at the start of a text is an occurrence in the text. */
  lemma EmbedsPrefix(text: string, pattern: string)
    ensures |pattern| <= |text| && text[..|pattern|] == pattern ==> Embeds(text, pattern)
  {
    if |pattern| <= |text| && text[..|pattern|] == pattern {
      assert text[0..|pattern|] == pattern;
    }
  }

  /** An occurrence in the tail of a text is an occurrence in the text. */
  lemma EmbedsTail(text: string, pattern: string)
    requires text != []
    ensures Embeds(text[1..], pattern) ==> Embeds(text, pattern)
  {
    if Embeds(text[1..], pattern) {
      var i, j :| 0 <= i <= j <= |text[1..]| && text[1..][i..j] == pattern;
      assert text[i + 1..j + 1] == text[1..][i..j];
    }
  }

  /** Masking an entity with itself changes nothing. */
  lemma {:induction false} ReplaceBySelf(text: string, pattern: string)
    ensures ReplaceAll(text, pattern, pattern) == text
    decreases |text|
  {
    if pattern == [] {
      if text != [] {
        ReplaceBySelf(text[1..], pattern);
        assert text == [text[0]] + text[1..];
      }
    } else if |pattern| <= |text| && text[..|pattern|] == pattern {
      ReplaceBySelf(text[|pattern|..], pattern);
      assert text == text[..|pattern|] + text[|pattern|..];
    } else if text != [] {
      ReplaceBySelf(text[1..], pattern);
      assert text == [text[0]] + text[1..];
    }
  }

  class StanceClassification {
    var inputText: string
    var statement: string
    var entity: string
    /** None until a chain has run. */
    var stance: Option<Stance>
    /** None until a chain has run; then one key holding the trace. */
    var meta: Option<Meta>
    var maskedEntity: string
    var maskedInputText: string
    /** The model calls issued on behalf of this task, in order. */
    ghost var issued: seq<CallRecord>

    constructor (inputText: string, statement: string, entity: string)
      ensures this.inputText == inputText && this.statement == statement && this.entity == entity
      ensures stance == None && meta == None
      ensures maskedEntity == entity && maskedInputText == inputText
      ensures issued == []
    {
      this.inputText := inputText;
      this.statement := statement;
      this.entity := entity;
      stance := None;
      meta := None;
      maskedEntity := entity;
      maskedInputText := inputText;
      issued := [];
    }

    /** What the chains read of this classification. */
    function View(): TaskView
      reads this`maskedInputText, this`maskedEntity, this`statement
    {
      TaskView(maskedInputText, maskedEntity, statement)
    }

    /**
     * Replaces the entity in the original text by the mask and makes the mask the entity
     * the prompts name; the original entity, text and statement are kept.
     */
    method MaskEntity(entityMask: string) returns (r: StanceClassification)
      modifies this`maskedInputText, this`maskedEntity
      ensures r == this
      ensures maskedInputText == ReplaceAll(inputText, entity, entityMask)
      ensures maskedEntity == entityMask
      ensures entity == old(entity) && inputText == old(inputText) && statement == old(statement)
    {
      maskedInputText := ReplaceAll(inputText, entity, entityMask);
      maskedEntity := entityMask;
      r := this;
    }

    /** A free summary on `llm`: 120 tokens for a chat backend, 80 otherwise. */
    method GenerateSummary(llm: Backend, chat: bool, prompt: Prompt, summaryText: string) returns (summary: CallRecord)
      ensures summary == Call(llm, prompt, Generated(summaryText, SummaryBudget(chat)))
    {
      var s: Local<CallRecord> := Unbound;
      if chat {
        s := Bound(Call(llm, prompt, Generated(summaryText, CHAT_SUMMARY_TOKENS)));
      }
      if !chat {
        s := Bound(Call(llm, prompt, Generated(summaryText, FLAT_SUMMARY_TOKENS)));
      }
      summary := s.v;
    }

    /** A constrained call on `llm` whose reply is the selected option. */
    method Select(llm: Backend, prompt: Prompt, option: string) returns (c: CallRecord)
      ensures c == Call(llm, prompt, Selected(option))
    {
      c := Call(llm, prompt, Selected(option));
    }

    /** The statement-specific summary on `backend`, forced to open with one of the inline labels. */
    method InlineSummary(backend: Backend, tag: InlineLabel, summaryText: string) returns (c: CallRecord)
      ensures c == InlineCall(backend, View(), tag, summaryText)
    {
      var prompt := StatementSummaryRequest(maskedInputText, maskedEntity, statement);
      c := Call(backend, prompt,
        Inline("Die Organisation " + maskedEntity + " ", InlineOption(tag), summaryText, INLINE_SUMMARY_TOKENS));
    }

    /** summarize_irrelevant_stance_chain; `llm2` is accepted and not used. */
    method SummarizeIrrelevantStanceChain(llm: Backend, chat: bool, llm2: Option<Backend>, summaryText: string,
                                          irrelevanceAnswer: IrrelevanceAnswer, supportAnswer: YesNo)
      returns (r: StanceClassification)
      modifies this`stance, this`meta, this`issued
      ensures r == this
      ensures var run := SummaryFirstRun(llm, View(), chat, false, summaryText, irrelevanceAnswer, supportAnswer);
        stance == Some(run.stance) && meta == Some(map[LLMS_KEY := run.trace]) && issued == old(issued) + run.calls
    {
      var summary := GenerateSummary(llm, chat, SummaryRequest(maskedInputText, maskedEntity), summaryText);
      ghost var calls := [summary];
      var irrelevance := Select(llm, IrrelevanceQuestion(summary.reply.text, maskedEntity, statement),
                                IrrelevanceOption(irrelevanceAnswer));
      calls := calls + [irrelevance];
      var stanceCall: Local<Option<CallRecord>> := Unbound;
      if irrelevance.reply.option == IRRELEVANCE_ANSWERS["irrelevant"] {
        stance := Some(Irrelevant);
        stanceCall := Bound(None);
      }
      if irrelevance.reply.option == IRRELEVANCE_ANSWERS["stance"] {
        var c := Select(llm, SupportQuestion(summary.reply.text, maskedEntity, statement), YesNoOption(supportAnswer));
        calls := calls + [c];
        stanceCall := Bound(Some(c));
        if c.reply.option == "Ja" {
          stance := Some(Support);
        }
        if c.reply.option == "Nein" {
          stance := Some(Opposition);
        }
      }
      meta := Some(map[LLMS_KEY := map["summary" := Some(summary), "irrelevance" := Some(irrelevance),
                                       "stance" := stanceCall.v]]);
      issued := issued + calls;
      r := this;
    }

    /** summarize_v2_irrelevant_stance_chain: as above, with the statement-specific summary. */
    method SummarizeV2IrrelevantStanceChain(llm: Backend, chat: bool, llm2: Option<Backend>, summaryText: string,
                                            irrelevanceAnswer: IrrelevanceAnswer, supportAnswer: YesNo)
      returns (r: StanceClassification)
      modifies this`stance, this`meta, this`issued
      ensures r == this
      ensures var run := SummaryFirstRun(llm, View(), chat, true, summaryText, irrelevanceAnswer, supportAnswer);
        stance == Some(run.stance) && meta == Some(map[LLMS_KEY := run.trace]) && issued == old(issued) + run.calls
    {
      var summary := GenerateSummary(llm, chat, StatementSummaryRequest(maskedInputText, maskedEntity, statement),
                                     summaryText);
      ghost var calls := [summary];
      var irrelevance := Select(llm, IrrelevanceQuestion(summary.reply.text, maskedEntity, statement),
                                IrrelevanceOption(irrelevanceAnswer));
      calls := calls + [irrelevance];
      var stanceCall: Local<Option<CallRecord>> := Unbound;
      if irrelevance.reply.option == IRRELEVANCE_ANSWERS["irrelevant"] {
        stance := Some(Irrelevant);
        stanceCall := Bound(None);
      }
      if irrelevance.reply.option == IRRELEVANCE_ANSWERS["stance"] {
        var c := Select(llm, SupportQuestion(summary.reply.text, maskedEntity, statement), YesNoOption(supportAnswer));
        calls := calls + [c];
        stanceCall := Bound(Some(c));
        if c.reply.option == "Ja" {
          stance := Some(Support);
        }
        if c.reply.option == "Nein" {
          stance := Some(Opposition);
        }
      }
      meta := Some(map[LLMS_KEY := map["summary" := Some(summary), "irrelevance" := Some(irrelevance),
                                       "stance" := stanceCall.v]]);
      issued := issued + calls;
      r := this;
    }

    /** summarize_v2_chain: the inline label of a single call is the stance. */
    method SummarizeV2Chain(llm: Backend, chat: bool, llm2: Option<Backend>, tag: InlineLabel, summaryText: string)
      returns (r: StanceClassification)
      modifies this`stance, this`meta, this`issued
      ensures r == this
      ensures var run := InlineRun(llm, View(), tag, summaryText);
        stance == Some(run.stance) && meta == Some(map[LLMS_KEY := run.trace]) && issued == old(issued) + run.calls
    {
      var summary := InlineSummary(llm, tag, summaryText);
      if summary.reply.option == "drückt keine Haltung aus dazu, dass" {
        stance := Some(Irrelevant);
      }
      if summary.reply.option == "unterstützt, dass" {
        stance := Some(Support);
      }
      if summary.reply.option == "lehnt ab, dass" {
        stance := Some(Opposition);
      }
      meta := Some(map[LLMS_KEY := map["summary" := Some(summary)]]);
      issued := issued + [summary];
      r := this;
    }

    /** irrelevant_summarize_v2_chain: the summary stage goes to `llm2`, or to `llm` when none is given. */
    method IrrelevantSummarizeV2Chain(llm: Backend, chat: bool, llm2: Option<Backend>,
                                      irrelevanceAnswer: IrrelevanceAnswer, tag: InlineLabel, summaryText: string)
      returns (r: StanceClassification)
      modifies this`stance, this`meta, this`issued
      ensures r == this
      ensures var run := ProbeThenInlineRun(llm, llm2, View(), irrelevanceAnswer, tag, summaryText);
        stance == Some(run.stance) && meta == Some(map[LLMS_KEY := run.trace]) && issued == old(issued) + run.calls
    {
      var second := llm2;
      if second.None? {
        second := Some(llm);
      }
      var irrelevance := Select(llm, IrrelevanceQuestion(maskedInputText, maskedEntity, statement),
                                IrrelevanceOption(irrelevanceAnswer));
      ghost var calls := [irrelevance];
      var summary: Local<Option<CallRecord>> := Unbound;
      if irrelevance.reply.option == IRRELEVANCE_ANSWERS["irrelevant"] {
        stance := Some(Irrelevant);
        summary := Bound(None);
      }
      if irrelevance.reply.option == IRRELEVANCE_ANSWERS["stance"] {
        var c := InlineSummary(second.value, tag, summaryText);
        calls := calls + [c];
        summary := Bound(Some(c));
        if c.reply.option == "drückt keine Haltung aus dazu, dass" {
          stance := Some(Irrelevant);
        }
        if c.reply.option == "unterstützt, dass" {
          stance := Some(Support);
        }
        if c.reply.option == "lehnt ab, dass" {
          stance := Some(Opposition);
        }
      }
      meta := Some(map[LLMS_KEY := map["summary" := summary.v, "irrelevance" := Some(irrelevance)]]);
      issued := issued + calls;
      r := this;
    }

    /** irrelevant_stance_chain: both probes read the masked text. */
    method IrrelevantStanceChain(llm: Backend, chat: bool, llm2: Option<Backend>,
                                 irrelevanceAnswer: IrrelevanceAnswer, supportAnswer: YesNo)
      returns (r: StanceClassification)
      modifies this`stance, this`meta, this`issued
      ensures r == this
      ensures var run := ProbeRun(llm, View(), irrelevanceAnswer, supportAnswer);
        stance == Some(run.stance) && meta == Some(map[LLMS_KEY := run.trace]) && issued == old(issued) + run.calls
    {
      var irrelevance := Select(llm, IrrelevanceQuestion(maskedInputText, maskedEntity, statement),
                                IrrelevanceOption(irrelevanceAnswer));
      ghost var calls := [irrelevance];
      var stanceCall: Local<Option<CallRecord>> := Unbound;
      if irrelevance.reply.option == IRRELEVANCE_ANSWERS["irrelevant"] {
        stance := Some(Irrelevant);
        stanceCall := Bound(None);
      }
      if irrelevance.reply.option == IRRELEVANCE_ANSWERS["stance"] {
        var c := Select(llm, SupportQuestion(maskedInputText, maskedEntity, statement), YesNoOption(supportAnswer));
        calls := calls + [c];
        stanceCall := Bound(Some(c));
        if c.reply.option == "Ja" {
          stance := Some(Support);
        }
        if c.reply.option == "Nein" {
          stance := Some(Opposition);
        }
      }
      meta := Some(map[LLMS_KEY := map["irrelevance" := Some(irrelevance), "stance" := stanceCall.v]]);
      issued := issued + calls;
      r := this;
    }

    /**
     * The last stage of the nested chains: support is asked about the summary; only when
     * it is denied is opposition asked, and its answer then decides between opposition and
     * no stance. Returns the call whose answer decided, and the calls issued.
     */
    method SupportThenOpposition(llm: Backend, summaryText: string, support: YesNo, opposition: YesNo)
      returns (c: CallRecord, ghost probes: seq<CallRecord>)
      modifies this`stance
      ensures probes == Chains.SupportThenOpposition(llm, summaryText, View(), support, opposition)
      ensures stance == Some(NestedStance(Attitude, Position, support, opposition)) && c == probes[|probes| - 1]
    {
      c := Select(llm, SupportQuestion(summaryText, maskedEntity, statement), YesNoOption(support));
      probes := [c];
      if c.reply.option == "Ja" {
        stance := Some(Support);
      }
      if c.reply.option == "Nein" {
        c := Select(llm, OppositionQuestion(summaryText, maskedEntity, statement), YesNoOption(opposition));
        probes := probes + [c];
        if c.reply.option == "Ja" {
          stance := Some(Opposition);
        }
        if c.reply.option == "Nein" {
          stance := Some(Irrelevant);
        }
      }
    }

    /** nested_irrelevant_summary_explicit: the nested chain with the plain summary. */
    method NestedIrrelevantSummaryExplicit(llm: Backend, chat: bool, llm2: Option<Backend>, answers: Answers)
      returns (r: StanceClassification)
      modifies this`stance, this`meta, this`issued
      ensures r == this
      ensures var run := NestedRun(llm, View(), chat, false, answers.general, answers.irrelevance,
                                   answers.summary, answers.support, answers.opposition);
        stance == Some(run.stance) && meta == Some(map[LLMS_KEY := run.trace]) && issued == old(issued) + run.calls
    {
      r := NestedChain(llm, chat, false, answers);
    }

    /** nested_irrelevant_summary_v2_explicit: the nested chain with the statement-specific summary. */
    method NestedIrrelevantSummaryV2Explicit(llm: Backend, chat: bool, llm2: Option<Backend>, answers: Answers)
      returns (r: StanceClassification)
      modifies this`stance, this`meta, this`issued
      ensures r == this
      ensures var run := NestedRun(llm, View(), chat, true, answers.general, answers.irrelevance,
                                   answers.summary, answers.support, answers.opposition);
        stance == Some(run.stance) && meta == Some(map[LLMS_KEY := run.trace]) && issued == old(issued) + run.calls
    {
      r := NestedChain(llm, chat, true, answers);
    }

    /**
     * The two nested chains, which differ only in the summary prompt (`specific`): the
     * general probe, the irrelevance probe, the summary, then support and, after a denial,
     * opposition.
     */
    method NestedChain(llm: Backend, chat: bool, specific: bool, answers: Answers)
      returns (r: StanceClassification)
      modifies this`stance, this`meta, this`issued
      ensures r == this
      ensures var run := NestedRun(llm, View(), chat, specific, answers.general, answers.irrelevance,
                                   answers.summary, answers.support, answers.opposition);
        stance == Some(run.stance) && meta == Some(map[LLMS_KEY := run.trace]) && issued == old(issued) + run.calls
    {
      var general := Select(llm, GeneralStanceQuestion(maskedInputText, maskedEntity), GeneralOption(answers.general));
      ghost var calls := [general];
      var irrelevance: Local<Option<CallRecord>> := Unbound;
      var summary: Local<Option<CallRecord>> := Unbound;
      var stanceCall: Local<Option<CallRecord>> := Unbound;
      if general.reply.option == IRRELEVANCE_ANSWERS2["irrelevant"] {
        stance := Some(Irrelevant);
        irrelevance := Bound(None);
        stanceCall := Bound(None);
        summary := Bound(None);
      }
      if general.reply.option == IRRELEVANCE_ANSWERS2["stance"] {
        var i := Select(llm, IrrelevanceQuestion(maskedInputText, maskedEntity, statement),
                        IrrelevanceOption(answers.irrelevance));
        calls := calls + [i];
        irrelevance := Bound(Some(i));
        if i.reply.option == IRRELEVANCE_ANSWERS["irrelevant"] {
          stance := Some(Irrelevant);
          stanceCall := Bound(None);
          summary := Bound(None);
        }
        if i.reply.option == IRRELEVANCE_ANSWERS["stance"] {
          var prompt := if specific then StatementSummaryRequest(maskedInputText, maskedEntity, statement)
                        else SummaryRequest(maskedInputText, maskedEntity);
          var s := GenerateSummary(llm, chat, prompt, answers.summary);
          calls := calls + [s];
          summary := Bound(Some(s));
          var c, probes := SupportThenOpposition(llm, s.reply.text, answers.support, answers.opposition);
          stanceCall := Bound(Some(c));
          calls := calls + probes;
        }
      }
      meta := Some(map[LLMS_KEY := map["irrelevance_general" := Some(general), "irrelevance" := irrelevance.v,
                                       "summary" := summary.v, "stance" := stanceCall.v]]);
      issued := issued + calls;
      r := this;
    }
  }
}
