/**
 * The chain registry and, for each of the seven registered prompt chains, a reference
 * definition of what one run does: the stance it assigns, the trace it leaves under
 * meta["llms"] and the model calls it issues, in order. The chain methods of
 * Base.StanceClassification are proved to behave exactly like these definitions.
 */
module Chains {
  import opened Wrappers
  import opened Calls
  import opened Prompts
  import opened Records

  /** The registered chains, one per key of REGISTERED_LLM_CHAINS. */
  datatype Chain = Sis | S2is | S2 | Is | Is2 | Nise | Nis2e

  const REGISTERED_LLM_CHAINS: map<string, string> := map[
    "sis" := "summarize_irrelevant_stance",
    "s2is" := "summarize_v2_irrelevant_stance",
    "s2" := "summarize_v2",
    "is" := "irrelevant_stance",
    "is2" := "irrelevant_summarize_v2",
    "nise" := "nested_irrelevant_summary_explicit",
    "nis2e" := "nested_irrelevant_summary_v2_explicit"
  ]

  /** The only chain that accepts a second backend. */
  const ALLOWED_DUAL_LLM_CHAINS: seq<string> := ["is2"]

  function ChainLabel(c: Chain): string {
    match c
    case Sis => "sis"
    case S2is => "s2is"
    case S2 => "s2"
    case Is => "is"
    case Is2 => "is2"
    case Nise => "nise"
    case Nis2e => "nis2e"
  }

  /** The chain a label names: defined exactly on the registered labels. */
  function ChainOfLabel(name: string): (r: Option<Chain>)
    ensures r.Some? <==> name in REGISTERED_LLM_CHAINS
    ensures r.Some? ==> ChainLabel(r.value) == name
  {
    if name == "sis" then Some(Sis)
    else if name == "s2is" then Some(S2is)
    else if name == "s2" then Some(S2)
    else if name == "is" then Some(Is)
    else if name == "is2" then Some(Is2)
    else if name == "nise" then Some(Nise)
    else if name == "nis2e" then Some(Nis2e)
    else None
  }

  /** Every chain is registered under its label, and the label leads back to it. */
  lemma RegistryRoundTrip(c: Chain)
    ensures ChainLabel(c) in REGISTERED_LLM_CHAINS
    ensures ChainOfLabel(ChainLabel(c)) == Some(c)
    ensures ChainLabel(c) in ALLOWED_DUAL_LLM_CHAINS <==> c == Is2
  {
  }

  /** What a chain reads of a classification: the masked text, the masked entity and the statement. */
  datatype TaskView = TaskView(text: string, entity: string, statement: string)

  /** The answers an oracle gives a run; each chain reads only those of the stages it reaches. */
  datatype Answers = Answers(
    general: GeneralAnswer,
    irrelevance: IrrelevanceAnswer,
    summary: string,
    support: YesNo,
    opposition: YesNo,
    inline: InlineLabel)

  /** One finished run: the stance assigned, the trace stored, the calls issued in order. */
  datatype Run = Run(stance: Stance, trace: Trace, calls: seq<CallRecord>)

  /** No speculative entries: every record in the trace is a call the run issued. */
  ghost predicate Recorded(r: Run) {
    forall e | e in r.trace.Values && e.Some? :: e.value in r.calls
  }

  /** Every call of the sequence went to backend `b`. */
  ghost predicate AllVia(calls: seq<CallRecord>, b: Backend) {
    forall c | c in calls :: c.backend == b
  }

  // ---- the individual calls ----

  /** The free summary, statement-specific (`specific`) or not, of the masked text. */
  function SummaryCall(llm: Backend, v: TaskView, chat: bool, specific: bool, summary: string): CallRecord {
    var prompt := if specific then StatementSummaryRequest(v.text, v.entity, v.statement)
                  else SummaryRequest(v.text, v.entity);
    Call(llm, prompt, Generated(summary, SummaryBudget(chat)))
  }

  /** The irrelevance probe on `text`. */
  function IrrelevanceCall(llm: Backend, text: string, v: TaskView, a: IrrelevanceAnswer): CallRecord {
    Call(llm, IrrelevanceQuestion(text, v.entity, v.statement), Selected(IrrelevanceOption(a)))
  }

  /** The support probe on `text`. */
  function SupportCall(llm: Backend, text: string, v: TaskView, a: YesNo): CallRecord {
    Call(llm, SupportQuestion(text, v.entity, v.statement), Selected(YesNoOption(a)))
  }

  /** The opposition probe on `text`. */
  function OppositionCall(llm: Backend, text: string, v: TaskView, a: YesNo): CallRecord {
    Call(llm, OppositionQuestion(text, v.entity, v.statement), Selected(YesNoOption(a)))
  }

  /** The general-stance probe of the newer nested chains, on the masked text. */
  function GeneralCall(llm: Backend, v: TaskView, a: GeneralAnswer): CallRecord {
    Call(llm, GeneralStanceQuestion(v.text, v.entity), Selected(GeneralOption(a)))
  }

  /** The forced start of the model's answer in the inline-stance call. */
  function InlineOpening(entity: string): string {
    "Die Organisation " + entity + " "
  }

  /** The statement-specific summary whose first words are one of the three inline labels. */
  function InlineCall(backend: Backend, v: TaskView, tag: InlineLabel, summary: string): CallRecord {
    Call(backend, StatementSummaryRequest(v.text, v.entity, v.statement),
      Inline(InlineOpening(v.entity), InlineOption(tag), summary, INLINE_SUMMARY_TOKENS))
  }

  /** The stance an inline label stands for. */
  function InlineStance(l: InlineLabel): (s: Stance)
    ensures s == Irrelevant <==> l == NoStanceInline
    ensures s == Support <==> l == SupportsInline
    ensures s == Opposition <==> l == OpposesInline
  {
    match l
    case NoStanceInline => Irrelevant
    case SupportsInline => Support
    case OpposesInline => Opposition
  }

  // ---- the traces: meta["llms"] of each chain, from its stage entries ----

  const SUMMARY_FIRST_KEYS: set<string> := {"summary", "irrelevance", "stance"}

  function SummaryFirstTrace(summary: Option<CallRecord>, irrelevance: Option<CallRecord>,
                             stance: Option<CallRecord>): (t: Trace)
    ensures t.Keys == SUMMARY_FIRST_KEYS
    ensures t["summary"] == summary && t["irrelevance"] == irrelevance && t["stance"] == stance
    ensures forall e | e in t.Values :: e == summary || e == irrelevance || e == stance
  {
    map["summary" := summary, "irrelevance" := irrelevance, "stance" := stance]
  }

  const INLINE_KEYS: set<string> := {"summary"}

  function InlineTrace(summary: Option<CallRecord>): (t: Trace)
    ensures t.Keys == INLINE_KEYS && t["summary"] == summary
    ensures forall e | e in t.Values :: e == summary
  {
    map["summary" := summary]
  }

  const PROBE_KEYS: set<string> := {"irrelevance", "stance"}

  function ProbeTrace(irrelevance: Option<CallRecord>, stance: Option<CallRecord>): (t: Trace)
    ensures t.Keys == PROBE_KEYS
    ensures t["irrelevance"] == irrelevance && t["stance"] == stance
    ensures forall e | e in t.Values :: e == irrelevance || e == stance
  {
    map["irrelevance" := irrelevance, "stance" := stance]
  }

  const PROBE_INLINE_KEYS: set<string> := {"summary", "irrelevance"}

  function ProbeInlineTrace(summary: Option<CallRecord>, irrelevance: Option<CallRecord>): (t: Trace)
    ensures t.Keys == PROBE_INLINE_KEYS
    ensures t["summary"] == summary && t["irrelevance"] == irrelevance
    ensures forall e | e in t.Values :: e == summary || e == irrelevance
  {
    map["summary" := summary, "irrelevance" := irrelevance]
  }

  const NESTED_KEYS: set<string> := {"irrelevance_general", "irrelevance", "summary", "stance"}

  function NestedTrace(general: Option<CallRecord>, irrelevance: Option<CallRecord>,
                       summary: Option<CallRecord>, stance: Option<CallRecord>): (t: Trace)
    ensures t.Keys == NESTED_KEYS
    ensures t["irrelevance_general"] == general && t["irrelevance"] == irrelevance
    ensures t["summary"] == summary && t["stance"] == stance
    ensures forall e | e in t.Values :: e == general || e == irrelevance || e == summary || e == stance
  {
    map["irrelevance_general" := general, "irrelevance" := irrelevance,
        "summary" := summary, "stance" := stance]
  }

  // ---- the chains ----

  /**
   * summarize_irrelevant_stance_chain (`specific` false) and
   * summarize_v2_irrelevant_stance_chain (`specific` true): summary, then the irrelevance
   * probe and the support probe, both asked about the summary.
   */
  function SummaryFirstRun(llm: Backend, v: TaskView, chat: bool, specific: bool,
                           summary: string, irrelevance: IrrelevanceAnswer, support: YesNo): (r: Run)
    ensures r.trace.Keys == SUMMARY_FIRST_KEYS
    ensures r.stance == Irrelevant <==> irrelevance == NoPosition
    ensures r.stance == Support <==> irrelevance == Position && support == Ja
    ensures r.stance == Opposition <==> irrelevance == Position && support == Nein
    ensures r.trace["summary"].Some? && r.trace["irrelevance"].Some?
    ensures r.trace["stance"].None? <==> irrelevance == NoPosition
    ensures |r.calls| == if irrelevance == NoPosition then 2 else 3
    ensures Recorded(r) && AllVia(r.calls, llm)
  {
    var s := SummaryCall(llm, v, chat, specific, summary);
    var i := IrrelevanceCall(llm, summary, v, irrelevance);
    if irrelevance.NoPosition? then
      Run(Irrelevant, SummaryFirstTrace(Some(s), Some(i), None), [s] + [i])
    else
      var p := SupportCall(llm, summary, v, support);
      Run(if support.Ja? then Support else Opposition,
          SummaryFirstTrace(Some(s), Some(i), Some(p)), [s] + [i] + [p])
  }

  /** summarize_v2_chain: one call whose inline label is the stance. */
  function InlineRun(llm: Backend, v: TaskView, tag: InlineLabel, summary: string): (r: Run)
    ensures r.trace.Keys == INLINE_KEYS && r.trace["summary"].Some?
    ensures r.stance == InlineStance(tag)
    ensures |r.calls| == 1 && r.calls[0].reply.Inline? && r.calls[0].reply.option == InlineOption(tag)
    ensures Recorded(r) && AllVia(r.calls, llm)
  {
    var s := InlineCall(llm, v, tag, summary);
    Run(InlineStance(tag), InlineTrace(Some(s)), [s])
  }

  /** irrelevant_stance_chain: the irrelevance probe and the support probe on the masked text. */
  function ProbeRun(llm: Backend, v: TaskView, irrelevance: IrrelevanceAnswer, support: YesNo): (r: Run)
    ensures r.trace.Keys == PROBE_KEYS && r.trace["irrelevance"].Some?
    ensures r.stance == Irrelevant <==> irrelevance == NoPosition
    ensures r.stance == Support <==> irrelevance == Position && support == Ja
    ensures r.stance == Opposition <==> irrelevance == Position && support == Nein
    ensures r.trace["stance"].None? <==> irrelevance == NoPosition
    ensures |r.calls| == if irrelevance == NoPosition then 1 else 2
    ensures Recorded(r) && AllVia(r.calls, llm)
  {
    var i := IrrelevanceCall(llm, v.text, v, irrelevance);
    if irrelevance.NoPosition? then
      Run(Irrelevant, ProbeTrace(Some(i), None), [i])
    else
      var p := SupportCall(llm, v.text, v, support);
      Run(if support.Ja? then Support else Opposition,
          ProbeTrace(Some(i), Some(p)), [i] + [p])
  }

  /**
   * irrelevant_summarize_v2_chain: the irrelevance probe on the masked text, then, unless it
   * answers "no position", the inline-stance summary, issued to `llm2` when one is given.
   */
  function ProbeThenInlineRun(llm: Backend, llm2: Option<Backend>, v: TaskView,
                              irrelevance: IrrelevanceAnswer, tag: InlineLabel, summary: string): (r: Run)
    ensures r.trace.Keys == PROBE_INLINE_KEYS && r.trace["irrelevance"].Some?
    ensures r.stance == if irrelevance == NoPosition then Irrelevant else InlineStance(tag)
    ensures r.trace["summary"].None? <==> irrelevance == NoPosition
    ensures |r.calls| == if irrelevance == NoPosition then 1 else 2
    ensures r.calls[0].backend == llm
    ensures irrelevance == Position ==> r.calls[1].backend == llm2.GetOr(llm)
    ensures Recorded(r)
  {
    var i := IrrelevanceCall(llm, v.text, v, irrelevance);
    if irrelevance.NoPosition? then
      Run(Irrelevant, ProbeInlineTrace(None, Some(i)), [i])
    else
      var s := InlineCall(llm2.GetOr(llm), v, tag, summary);
      Run(InlineStance(tag), ProbeInlineTrace(Some(s), Some(i)), [i] + [s])
  }

  /**
   * The last stage of the nested chains: the support probe on the summary and, when it
   * is denied, the opposition probe.
   */
  function SupportThenOpposition(llm: Backend, summary: string, v: TaskView, support: YesNo, opposition: YesNo)
    : (r: seq<CallRecord>)
    ensures |r| == if support.Ja? then 1 else 2
    ensures r[0] == SupportCall(llm, summary, v, support)
    ensures support.Nein? ==> r[1] == OppositionCall(llm, summary, v, opposition)
  {
    var p := SupportCall(llm, summary, v, support);
    if support.Ja? then [p] else [p, OppositionCall(llm, summary, v, opposition)]
  }

  /**
   * nested_irrelevant_summary_explicit (`specific` false) and
   * nested_irrelevant_summary_v2_explicit (`specific` true): general probe and irrelevance
   * probe on the masked text, summary, support probe and, after a "Nein", the opposition
   * probe, both asked about the summary.
   */
  function NestedRun(llm: Backend, v: TaskView, chat: bool, specific: bool, general: GeneralAnswer,
                     irrelevance: IrrelevanceAnswer, summary: string, support: YesNo, opposition: YesNo): (r: Run)
    ensures r.trace.Keys == NESTED_KEYS && r.trace["irrelevance_general"].Some?
    ensures r.stance == NestedStance(general, irrelevance, support, opposition)
    ensures r.trace["irrelevance"].None? <==> general == NoAttitude
    ensures r.trace["summary"].None? <==> general == NoAttitude || irrelevance == NoPosition
    ensures r.trace["stance"].None? <==> r.trace["summary"].None?
    ensures |r.calls| == if general == NoAttitude then 1
                         else if irrelevance == NoPosition then 2
                         else if support == Ja then 4
                         else 5
    ensures r.trace["stance"].Some? ==> r.trace["stance"] == Some(r.calls[|r.calls| - 1])
    ensures Recorded(r) && AllVia(r.calls, llm)
  {
    var g := GeneralCall(llm, v, general);
    if general.NoAttitude? then
      Run(Irrelevant, NestedTrace(Some(g), None, None, None), [g])
    else
      var i := IrrelevanceCall(llm, v.text, v, irrelevance);
      if irrelevance.NoPosition? then
        Run(Irrelevant, NestedTrace(Some(g), Some(i), None, None), [g] + [i])
      else
        var s := SummaryCall(llm, v, chat, specific, summary);
        var probes := SupportThenOpposition(llm, summary, v, support, opposition);
        Run(NestedStance(general, irrelevance, support, opposition),
            NestedTrace(Some(g), Some(i), Some(s), Some(probes[|probes| - 1])), [g] + [i] + [s] + probes)
  }

  /** The stance the four answers of a nested run lead to. */
  function NestedStance(general: GeneralAnswer, irrelevance: IrrelevanceAnswer,
                        support: YesNo, opposition: YesNo): (s: Stance)
    ensures s == Support <==> general == Attitude && irrelevance == Position && support == Ja
    ensures s == Opposition <==>
      general == Attitude && irrelevance == Position && support == Nein && opposition == Ja
    ensures s == Irrelevant <==>
      general == NoAttitude || irrelevance == NoPosition || (support == Nein && opposition == Nein)
  {
    if general.NoAttitude? || irrelevance.NoPosition? then Irrelevant
    else if support.Ja? then Support
    else if opposition.Ja? then Opposition
    else Irrelevant
  }

  /** The run of chain `c` (the dispatch of detect_stance, as a function). */
  function ChainRun(c: Chain, llm: Backend, llm2: Option<Backend>, v: TaskView, chat: bool, a: Answers): Run {
    match c
    case Sis => SummaryFirstRun(llm, v, chat, false, a.summary, a.irrelevance, a.support)
    case S2is => SummaryFirstRun(llm, v, chat, true, a.summary, a.irrelevance, a.support)
    case S2 => InlineRun(llm, v, a.inline, a.summary)
    case Is => ProbeRun(llm, v, a.irrelevance, a.support)
    case Is2 => ProbeThenInlineRun(llm, llm2, v, a.irrelevance, a.inline, a.summary)
    case Nise => NestedRun(llm, v, chat, false, a.general, a.irrelevance, a.summary, a.support, a.opposition)
    case Nis2e => NestedRun(llm, v, chat, true, a.general, a.irrelevance, a.summary, a.support, a.opposition)
  }

  /** The key set of meta["llms"] for each chain. */
  function ChainKeys(c: Chain): set<string> {
    match c
    case Sis | S2is => SUMMARY_FIRST_KEYS
    case S2 => INLINE_KEYS
    case Is => PROBE_KEYS
    case Is2 => PROBE_INLINE_KEYS
    case Nise | Nis2e => NESTED_KEYS
  }

  /**
   * Whichever branch a run takes, its trace has exactly its chain's key set (skipped stages
   * are present as None) and holds only calls the run issued.
   */
  lemma ChainTraceShape(c: Chain, llm: Backend, llm2: Option<Backend>, v: TaskView, chat: bool, a: Answers)
    ensures ChainRun(c, llm, llm2, v, chat, a).trace.Keys == ChainKeys(c)
    ensures Recorded(ChainRun(c, llm, llm2, v, chat, a))
  {
    match c
    case Sis =>
    case S2is =>
    case S2 =>
    case Is =>
    case Is2 =>
    case Nise =>
    case Nis2e =>
  }

  // ---- which stage outputs feed which prompts ----

  /**
   * In the summary-first chains both probes are asked about the generated summary, not
   * about the input text.
   */
  lemma SummaryFeedsProbes(llm: Backend, v: TaskView, chat: bool, specific: bool,
                           summary: string, irrelevance: IrrelevanceAnswer, support: YesNo)
    ensures var r := SummaryFirstRun(llm, v, chat, specific, summary, irrelevance, support);
      && r.calls[0].reply == Generated(summary, SummaryBudget(chat))
      && r.calls[1].prompt == IrrelevanceQuestion(summary, v.entity, v.statement)
      && (irrelevance.Position? ==> r.calls[2].prompt == SupportQuestion(summary, v.entity, v.statement))
  {
  }

  /** irrelevant_stance_chain asks both probes about the masked input text itself. */
  lemma ProbesReadMaskedText(llm: Backend, v: TaskView, irrelevance: IrrelevanceAnswer, support: YesNo)
    ensures var r := ProbeRun(llm, v, irrelevance, support);
      && r.calls[0].prompt == IrrelevanceQuestion(v.text, v.entity, v.statement)
      && (irrelevance.Position? ==> r.calls[1].prompt == SupportQuestion(v.text, v.entity, v.statement))
  {
  }

  /**
   * In the nested chains the general probe, the irrelevance probe and the summary read
   * the masked input text, while the support and opposition probes read the summary.
   */
  lemma NestedProbesRead(llm: Backend, v: TaskView, chat: bool, specific: bool, general: GeneralAnswer,
                         irrelevance: IrrelevanceAnswer, summary: string, support: YesNo, opposition: YesNo)
    ensures var r := NestedRun(llm, v, chat, specific, general, irrelevance, summary, support, opposition);
      && r.calls[0].prompt == GeneralStanceQuestion(v.text, v.entity)
      && (general == Attitude ==> r.calls[1].prompt == IrrelevanceQuestion(v.text, v.entity, v.statement))
      && (general == Attitude && irrelevance == Position ==>
            && r.calls[2].prompt == (if specific then StatementSummaryRequest(v.text, v.entity, v.statement)
                                     else SummaryRequest(v.text, v.entity))
            && r.calls[2].reply == Generated(summary, SummaryBudget(chat))
            && r.calls[3].prompt == SupportQuestion(summary, v.entity, v.statement)
            && (support == Nein ==> r.calls[4].prompt == OppositionQuestion(summary, v.entity, v.statement)))
  {
  }
}
