/**
 * `ReportState`, the dictionary the workflow nodes read and update in place.
 * Each key is a field of the class `ReportState`; a key that may be missing
 * from the dictionary, or bound to None, is a `Slot`. `Snapshot` is the same
 * dictionary as a value, which the node specifications are written against.
 */
module ReportStates {
  import opened Wrappers
  import opened Verdicts
  import opened Base
  import opened Environment

  /** A constructed `genai.Client`, remembered by the key it was built with. */
  datatype Client = Client(apiKey: string)

  /**
   * The dictionary as a value. Attempt counters are never bound to None by
   * any node, so they are `Option` (missing or present) rather than `Slot`.
   */
  datatype Snapshot = Snapshot(
    sessionId: string,
    apiKey: Option<string>,
    maxAttempts: int,
    researchPromptPath: Slot<string>,
    validationPromptPath: Slot<string>,
    createPromptPath: Slot<string>,
    researchPrompt: Slot<string>,
    validationPrompt: Slot<string>,
    createPrompt: Slot<string>,
    researchContent: Slot<string>,
    reportContent: Slot<string>,
    validationResult: Slot<Verdict>,
    interfaceContent: Slot<string>,
    realtimeData: Slot<Record>,
    htmlContent: Slot<string>,
    cssContent: Slot<string>,
    jsContent: Slot<string>,
    htmlContentEn: Slot<string>,
    jsContentEn: Slot<string>,
    reportId: Slot<int>,
    currentAttempt: int,
    errors: seq<string>,
    success: bool,
    htmlAttempt: Option<int>,
    jsAttempt: Option<int>,
    cssAttempt: Option<int>,
    interfaceAttempt: Option<int>,
    createdAt: Slot<string>,
    client: Slot<Client>,
    model: Slot<string>)

  /** What one node did to the outside world. */
  datatype Effects = Effects(calls: nat, commits: nat, waits: seq<int>, prompts: seq<string>, events: seq<Event>)

  const NoEffects := Effects(0, 0, [], [], [])

  /** A node's new state, its effects, and the exception that escaped it, if any. */
  datatype NodeOut = NodeOut(state: Snapshot, fx: Effects, raised: Option<string>)

  /** `str(KeyError(key))`. */
  function KeyErrorText(key: string): string {
    "'" + key + "'"
  }

  const NoneHasNoModels := "'NoneType' object has no attribute 'models'"
  const NoneHasNoReplace := "'NoneType' object has no attribute 'replace'"

  /**
   * The exception `state["client"].models.generate_content(model=state["model"], ...)`
   * raises before the service is reached: a missing client key, a None
   * client, or a missing model key, in evaluation order.
   */
  function CallError(s: Snapshot): Option<string> {
    match s.client
    case Absent => Some(KeyErrorText("client"))
    case Null => Some(NoneHasNoModels)
    case Val(_) => if s.model.Absent? then Some(KeyErrorText("model")) else None
  }

  /** Python's `f"{x}"` of an optional string. */
  function Show(s: Slot<string>): string {
    match s
    case Val(v) => v
    case _ => "None"
  }

  /** `state.get(key, "")` interpolated into an f-string. */
  function ShowOr(s: Slot<string>, default: string): string {
    match s
    case Absent => default
    case Null => "None"
    case Val(v) => v
  }

  /** `str(n)` for any integer. */
  function IntToString(n: int): string {
    if n < 0 then "-" + Text.NatToString(-n) else Text.NatToString(n)
  }

  /**
   * The workflow state dictionary, shared by reference between the nodes and
   * updated in place: each `state[key] = value` of a node reassigns that key
   * of `data`.
   */
  class ReportState {
    var data: Snapshot

    /** A dictionary holding exactly the keys of `s`. */
    constructor (s: Snapshot)
      ensures data == s
    {
      data := s;
    }
  }

  /** The node's effects have been applied to the environment, and nothing else. */
  twostate predicate Applied(env: Env, fx: Effects)
    reads env
  {
    env.pos == old(env.pos) + fx.calls
    && env.dbPos == old(env.dbPos) + fx.commits
    && env.sleeps == old(env.sleeps) + fx.waits
    && env.prompts == old(env.prompts) + fx.prompts
    && env.events == old(env.events) + fx.events
  }

  /** The snapshot after `state["error_messages"].append(msg); state["success"] = False`. */
  function WithError(s: Snapshot, msg: string): Snapshot {
    s.(errors := s.errors + [msg], success := false)
  }
}
