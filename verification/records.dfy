/**
 * The record a chain keeps of each language-model call it issues, and the trace of
 * records stored in a task's `meta`.
 */
module Records {
  import opened Wrappers
  import opened Calls
  import opened Prompts

  /** What the model appended to a prompt in one call. */
  datatype Reply =
    | Generated(text: string, maxTokens: nat)
      // gen(name="summary", max_tokens=…)
    | Selected(option: string)
      // select([...], name="answer")
    | Inline(opening: string, option: string, text: string, maxTokens: nat)
      // forced opening + select([...], name="stance") + gen(name="summary", …)

  /** One issued call: the backend, the prompt sent and the reply; the value a trace entry holds. */
  datatype CallRecord = Call(backend: Backend, prompt: Prompt, reply: Reply)

  /** The per-chain trace stored under meta["llms"]: stage name to call record, None for a skipped stage. */
  type Trace = map<string, Option<CallRecord>>

  /** The `meta` attribute: one top-level key holding the trace. */
  type Meta = map<string, Trace>

  function ReplyText(r: Reply): string {
    match r
    case Generated(text, _) => text
    case Selected(option) => option
    case Inline(opening, option, text, _) => opening + option + text
  }

  /** The text of the model state after the call: the prompt followed by what was appended. */
  function RecordText(c: CallRecord): (r: string)
    ensures |PromptText(c.prompt)| <= |r| && r[..|PromptText(c.prompt)|] == PromptText(c.prompt)
  {
    PromptText(c.prompt) + ReplyText(c.reply)
  }

  /** Appending to a call log in two steps is appending once. */
  lemma LogAppend(log: seq<CallRecord>, calls: seq<CallRecord>, more: seq<CallRecord>)
    ensures log + calls + more == log + (calls + more)
  {
  }
}
