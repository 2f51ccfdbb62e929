/**
 * The six prompt builders. Each interpolates its inputs into a fixed German frame and
 * never calls a model. The lemma beside each builder states that every input appears
 * verbatim in the prompt and that the probes close by asking for exactly the options
 * their constrained call accepts.
 */
module Prompts {
  import opened Calls

  /** `t` occurs verbatim somewhere in `p`. */
  ghost predicate Embeds(p: string, t: string) {
    exists i, j :: 0 <= i <= j <= |p| && p[i..j] == t
  }

  /** `p` ends with `tail`. */
  ghost predicate EndsWith(p: string, tail: string) {
    |tail| <= |p| && p[|p| - |tail|..] == tail
  }

  /** The prompt closes by asking for one of the two strings `a` and `b`. */
  ghost predicate AsksFor(p: string, a: string, b: string) {
    EndsWith(p, "Antworte mit " + a + " oder " + b)
  }

  /**
   * A prompt assembled as pre + t + mid + u + post + v + rest contains its three
   * interpolated values and ends with `rest`.
   */
  lemma Frame(pre: string, t: string, mid: string, u: string, post: string, v: string, rest: string)
    ensures Embeds(pre + t + mid + u + post + v + rest, t)
    ensures Embeds(pre + t + mid + u + post + v + rest, u)
    ensures Embeds(pre + t + mid + u + post + v + rest, v)
    ensures EndsWith(pre + t + mid + u + post + v + rest, rest)
  {
    var p := pre + t + mid + u + post + v + rest;
    var a := |pre|;
    var b := a + |t| + |mid|;
    var c := b + |u| + |post|;
    assert p[a..a + |t|] == t;
    assert p[b..b + |u|] == u;
    assert p[c..c + |v|] == v;
    assert p[|p| - |rest|..] == rest;
  }

  /** The same for a prompt with two interpolated values: pre + t + mid + u + rest. */
  lemma Frame2(pre: string, t: string, mid: string, u: string, rest: string)
    ensures Embeds(pre + t + mid + u + rest, t)
    ensures Embeds(pre + t + mid + u + rest, u)
    ensures EndsWith(pre + t + mid + u + rest, rest)
  {
    var p := pre + t + mid + u + rest;
    var b := |pre| + |t| + |mid|;
    assert p[|pre|..|pre| + |t|] == t;
    assert p[b..b + |u|] == u;
    assert p[|p| - |rest|..] == rest;
  }

  lemma EmbedsSuffix(p: string, rest: string, t: string)
    requires EndsWith(p, rest) && Embeds(rest, t)
    ensures Embeds(p, t)
  {
    var i, j :| 0 <= i <= j <= |rest| && rest[i..j] == t;
    var k := |p| - |rest|;
    assert p[k + i..k + j] == rest[i..j];
  }

  lemma EndsWithTail(p: string, rest: string, head: string, tail: string)
    requires EndsWith(p, rest) && rest == head + tail
    ensures EndsWith(p, tail)
  {
    assert p[|p| - |tail|..] == rest[|head|..];
  }

  /** construct_irrelevance_prompt: does the entity take a position on the statement? */
  function IrrelevancePrompt(inputText: string, entity: string, statement: string): string {
    "Analysiere den folgenden Text: " + inputText + ". Bezieht die Organisation " + entity
      + " Stellung zur folgenden Aussage: " + statement + IRRELEVANCE_CLOSING
  }

  const IRRELEVANCE_ASK: string := "Antworte mit " + IrrelevanceOption(NoPosition) + " oder " + IrrelevanceOption(Position)
  const IRRELEVANCE_CLOSING: string := "? Beziehe dich nur auf den Text. " + IRRELEVANCE_ASK

  /** The irrelevance prompt carries its three inputs and asks for the two irrelevance answers. */
  lemma IrrelevancePromptFrame(inputText: string, entity: string, statement: string)
    ensures var p := IrrelevancePrompt(inputText, entity, statement);
      Embeds(p, inputText) && Embeds(p, entity) && Embeds(p, statement)
      && AsksFor(p, IrrelevanceOption(NoPosition), IrrelevanceOption(Position))
  {
    var p := IrrelevancePrompt(inputText, entity, statement);
    Frame("Analysiere den folgenden Text: ", inputText, ". Bezieht die Organisation ", entity,
      " Stellung zur folgenden Aussage: ", statement, IRRELEVANCE_CLOSING);
    EndsWithTail(p, IRRELEVANCE_CLOSING, "? Beziehe dich nur auf den Text. ", IRRELEVANCE_ASK);
  }

  /** The forced opening every summary prompt asks the model to start with. */
  function SummaryOpening(entity: string): string {
    "starte deine Zusammenfassung mit: Die Organisation " + entity
  }

  /** construct_summary_prompt: a short free summary of the entity's position in the text. */
  function SummaryPrompt(inputText: string, entity: string): string {
    "Fasse die Position der Organisation " + entity + " im folgenden Text zusammen: \n " + inputText
      + ". Fasse dich kurz und " + SummaryOpening(entity) + "..."
  }

  /** The summary prompt carries the text and the entity and asks for the fixed opening. */
  lemma SummaryPromptFrame(inputText: string, entity: string)
    ensures var p := SummaryPrompt(inputText, entity);
      Embeds(p, inputText) && Embeds(p, entity) && Embeds(p, SummaryOpening(entity))
  {
    Frame("Fasse die Position der Organisation ", entity, " im folgenden Text zusammen: \n ", inputText,
      ". Fasse dich kurz und ", SummaryOpening(entity), "...");
  }

  /** construct_summary_statementspecific_prompt: as SummaryPrompt, but with respect to the statement. */
  function StatementSummaryPrompt(inputText: string, entity: string, statement: string): string {
    "Fasse die Position der Organisation " + entity + " im folgenden Text in Bezug auf die Aussage \""
      + statement + "\" zusammen: \n " + inputText + SummaryClosing(entity)
  }

  /** The closing of the statement-specific summary prompt. */
  function SummaryClosing(entity: string): string {
    ". \n Fasse dich kurz und " + SummaryOpening(entity) + "..."
  }

  /** The statement-specific summary prompt carries its three inputs and asks for the fixed opening. */
  lemma StatementSummaryPromptFrame(inputText: string, entity: string, statement: string)
    ensures var p := StatementSummaryPrompt(inputText, entity, statement);
      Embeds(p, inputText) && Embeds(p, entity) && Embeds(p, statement)
      && Embeds(p, SummaryOpening(entity))
  {
    var p := StatementSummaryPrompt(inputText, entity, statement);
    var rest := SummaryClosing(entity);
    Frame("Fasse die Position der Organisation ", entity, " im folgenden Text in Bezug auf die Aussage \"",
      statement, "\" zusammen: \n ", inputText, rest);
    var k := |". \n Fasse dich kurz und "|;
    assert rest[k..k + |SummaryOpening(entity)|] == SummaryOpening(entity);
    EmbedsSuffix(p, rest, SummaryOpening(entity));
  }

  /** construct_general_stance_prompt: does the entity voice any stance at all? */
  function GeneralStancePrompt(inputText: string, entity: string): string {
    "Analysiere den folgenden Text: " + inputText + ". Äussert die Organisation " + entity + GENERAL_CLOSING
  }

  const GENERAL_ASK: string := "Antworte mit " + GeneralOption(NoAttitude) + " oder " + GeneralOption(Attitude)
  const GENERAL_CLOSING: string := " eine implizite oder explizite Haltung? Beziehe dich nur auf den Text. " + GENERAL_ASK

  /** The general-stance prompt carries the text and the entity and asks for the two general answers. */
  lemma GeneralStancePromptFrame(inputText: string, entity: string)
    ensures var p := GeneralStancePrompt(inputText, entity);
      Embeds(p, inputText) && Embeds(p, entity)
      && AsksFor(p, GeneralOption(NoAttitude), GeneralOption(Attitude))
  {
    var p := GeneralStancePrompt(inputText, entity);
    Frame2("Analysiere den folgenden Text: ", inputText, ". Äussert die Organisation ", entity, GENERAL_CLOSING);
    EndsWithTail(p, GENERAL_CLOSING, " eine implizite oder explizite Haltung? Beziehe dich nur auf den Text. ", GENERAL_ASK);
  }

  /** The closing question of both yes/no probes. */
  const ASK_YES_NO: string := "Antworte mit " + YesNoOption(Ja) + " oder " + YesNoOption(Nein)
  const YES_NO_CLOSING: string := "? Beziehe dich nur auf den Text. " + ASK_YES_NO

  /** construct_support_stance_prompt: does the entity support the statement? */
  function SupportPrompt(inputText: string, entity: string, statement: string): string {
    "Analysiere den folgenden Text: " + inputText + ". Befürwortet die Organisation " + entity
      + " die Aussage: " + statement + YES_NO_CLOSING
  }

  /** The support prompt carries its three inputs and asks for "Ja" or "Nein". */
  lemma SupportPromptFrame(inputText: string, entity: string, statement: string)
    ensures var p := SupportPrompt(inputText, entity, statement);
      Embeds(p, inputText) && Embeds(p, entity) && Embeds(p, statement)
      && AsksFor(p, YesNoOption(Ja), YesNoOption(Nein))
  {
    var p := SupportPrompt(inputText, entity, statement);
    Frame("Analysiere den folgenden Text: ", inputText, ". Befürwortet die Organisation ", entity,
      " die Aussage: ", statement, YES_NO_CLOSING);
    EndsWithTail(p, YES_NO_CLOSING, "? Beziehe dich nur auf den Text. ", ASK_YES_NO);
  }

  /** construct_opposition_stance_prompt: does the entity oppose the statement? */
  function OppositionPrompt(inputText: string, entity: string, statement: string): string {
    "Analysiere den folgenden Text: " + inputText + ". Lehnt die Organisation " + entity
      + " folgende die Aussage ab: " + statement + YES_NO_CLOSING
  }

  /** The opposition prompt carries its three inputs and asks for "Ja" or "Nein". */
  lemma OppositionPromptFrame(inputText: string, entity: string, statement: string)
    ensures var p := OppositionPrompt(inputText, entity, statement);
      Embeds(p, inputText) && Embeds(p, entity) && Embeds(p, statement)
      && AsksFor(p, YesNoOption(Ja), YesNoOption(Nein))
  {
    var p := OppositionPrompt(inputText, entity, statement);
    Frame("Analysiere den folgenden Text: ", inputText, ". Lehnt die Organisation ", entity,
      " folgende die Aussage ab: ", statement, YES_NO_CLOSING);
    EndsWithTail(p, YES_NO_CLOSING, "? Beziehe dich nur auf den Text. ", ASK_YES_NO);
  }

  /** A prompt, as the builder that made it and the values it interpolated. */
  datatype Prompt =
    | IrrelevanceQuestion(inputText: string, entity: string, statement: string)
    | SummaryRequest(inputText: string, entity: string)
    | StatementSummaryRequest(inputText: string, entity: string, statement: string)
    | GeneralStanceQuestion(inputText: string, entity: string)
    | SupportQuestion(inputText: string, entity: string, statement: string)
    | OppositionQuestion(inputText: string, entity: string, statement: string)

  /** The text sent to the model. */
  function PromptText(p: Prompt): string {
    match p
    case IrrelevanceQuestion(t, e, s) => IrrelevancePrompt(t, e, s)
    case SummaryRequest(t, e) => SummaryPrompt(t, e)
    case StatementSummaryRequest(t, e, s) => StatementSummaryPrompt(t, e, s)
    case GeneralStanceQuestion(t, e) => GeneralStancePrompt(t, e)
    case SupportQuestion(t, e, s) => SupportPrompt(t, e, s)
    case OppositionQuestion(t, e, s) => OppositionPrompt(t, e, s)
  }

  /** Every prompt text contains the text and the entity it was built from, and the statement if it has one. */
  lemma PromptCarriesInputs(p: Prompt)
    ensures Embeds(PromptText(p), p.inputText) && Embeds(PromptText(p), p.entity)
    ensures !p.SummaryRequest? && !p.GeneralStanceQuestion? ==> Embeds(PromptText(p), p.statement)
  {
    match p
    case IrrelevanceQuestion(t, e, s) => IrrelevancePromptFrame(t, e, s);
    case SummaryRequest(t, e) => SummaryPromptFrame(t, e);
    case StatementSummaryRequest(t, e, s) => StatementSummaryPromptFrame(t, e, s);
    case GeneralStanceQuestion(t, e) => GeneralStancePromptFrame(t, e);
    case SupportQuestion(t, e, s) => SupportPromptFrame(t, e, s);
    case OppositionQuestion(t, e, s) => OppositionPromptFrame(t, e, s);
  }
}
