/**
 * The vocabulary shared by every prompt chain: the stance labels, the closed answer
 * sets that the constrained `select` calls enforce, the backends and the token budgets.
 *
 * The language model itself is an oracle: a constrained call is represented by the
 * answer datatype it returns, a free `gen` call by an arbitrary string.
 */
module Calls {

  /** The three labels a chain assigns to `stance`. */
  datatype Stance = Support | Opposition | Irrelevant

  /** The sentinel the batch driver writes when a detection fails. */
  const ERROR_LABEL: string := "error"

  /** The three stance names and the error sentinel. */
  const ALLOWED_STANCE_CATEGORIES: seq<string> := ["support", "opposition", "irrelevant", ERROR_LABEL]

  /** The string a chain stores in `self.stance`: an allowed category other than the error sentinel. */
  function StanceName(s: Stance): (r: string)
    ensures r in ALLOWED_STANCE_CATEGORIES && r != ERROR_LABEL
  {
    match s
    case Support => "support"
    case Opposition => "opposition"
    case Irrelevant => "irrelevant"
  }

  const IRRELEVANCE_ANSWERS: map<string, string> :=
    map["irrelevant" := "Bezieht keine Stellung", "stance" := "Bezieht Stellung"]

  const IRRELEVANCE_ANSWERS2: map<string, string> :=
    map["irrelevant" := "Bezieht keine Haltung", "stance" := "Bezieht eine Haltung"]

  /** Answers of the irrelevance probe. */
  datatype IrrelevanceAnswer = NoPosition | Position

  function IrrelevanceOption(a: IrrelevanceAnswer): string {
    match a
    case NoPosition => IRRELEVANCE_ANSWERS["irrelevant"]
    case Position => IRRELEVANCE_ANSWERS["stance"]
  }

  /** Answers of the general-stance probe of the newer nested chains. */
  datatype GeneralAnswer = NoAttitude | Attitude

  function GeneralOption(a: GeneralAnswer): string {
    match a
    case NoAttitude => IRRELEVANCE_ANSWERS2["irrelevant"]
    case Attitude => IRRELEVANCE_ANSWERS2["stance"]
  }

  /** Answers of the support and opposition probes, `select(["Ja", "Nein"])`. */
  datatype YesNo = Ja | Nein

  function YesNoOption(a: YesNo): string {
    match a
    case Ja => "Ja"
    case Nein => "Nein"
  }

  /** The three continuations the summary-with-inline-stance call selects from. */
  datatype InlineLabel = NoStanceInline | SupportsInline | OpposesInline

  function InlineOption(a: InlineLabel): string {
    match a
    case NoStanceInline => "drückt keine Haltung aus dazu, dass"
    case SupportsInline => "unterstützt, dass"
    case OpposesInline => "lehnt ab, dass"
  }

  /**
   * Each closed set consists of distinct strings, so comparing the selected string with
   * the options (as the chains do) identifies the answer.
   */
  lemma OptionsDistinct()
    ensures forall a: IrrelevanceAnswer, b: IrrelevanceAnswer :: IrrelevanceOption(a) == IrrelevanceOption(b) ==> a == b
    ensures forall a: GeneralAnswer, b: GeneralAnswer :: GeneralOption(a) == GeneralOption(b) ==> a == b
    ensures forall a: YesNo, b: YesNo :: YesNoOption(a) == YesNoOption(b) ==> a == b
    ensures forall a: InlineLabel, b: InlineLabel :: InlineOption(a) == InlineOption(b) ==> a == b
    ensures forall a: Stance, b: Stance :: StanceName(a) == StanceName(b) ==> a == b
  {
  }

  /** A model backend (`llm` or `llm2`), known only by name. */
  datatype Backend = Backend(name: string)

  /** Token budget of a free summary: 120 for chat backends, 80 for completion backends. */
  const CHAT_SUMMARY_TOKENS: nat := 120
  const FLAT_SUMMARY_TOKENS: nat := 80
  /** Token budget of the free text after an inline stance label (both backend kinds). */
  const INLINE_SUMMARY_TOKENS: nat := 80

  function SummaryBudget(chat: bool): nat {
    if chat then CHAT_SUMMARY_TOKENS else FLAT_SUMMARY_TOKENS
  }
}
