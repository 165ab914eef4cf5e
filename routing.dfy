/**
 * The routing functions the workflows consult on their conditional edges.
 * They only read the state. `should_retry_or_continue` and
 * `should_retry_interface_or_continue` are the two defined in the routing
 * module; the HTML, JavaScript and CSS routers of the second workflow are
 * imported from it but not part of this model's source, so they follow the
 * rule the component nodes are built around: go on once the part is made,
 * stop after three attempts, retry otherwise.
 */
module Routing {
  import opened Wrappers
  import opened Verdicts
  import opened ReportStates
  import opened Components

  /** The labels the routers return, named after the strings the edge tables map. */
  datatype Route = Continue | Retry | RetryInterface | RetryHtml | RetryJs | RetryCss | End

  /** Attempts each interface or component node gets before the router ends the run. */
  const MaxInterfaceAttempts := 3

  /**
   * `should_retry_or_continue`, after validation. The source reads
   * `state["validation_result"]`, so the key must be present.
   */
  function ShouldRetryOrContinue(s: Snapshot): (r: Route)
    requires s.validationResult != Absent
    ensures r == Continue || r == Retry || r == End
  {
    if s.validationResult == Val(PASS) then Continue
    else if s.currentAttempt >= s.maxAttempts then End
    else Retry
  }

  /** `state.get(key, 0)` of a counter. */
  function CountOf(n: Option<int>): int {
    if n.Some? then n.value else 0
  }

  /** `should_retry_interface_or_continue`, after code extraction. */
  function ShouldRetryInterfaceOrContinue(s: Snapshot): (r: Route)
    ensures r == Continue || r == RetryInterface || r == End
  {
    if s.success then Continue
    else if CountOf(s.interfaceAttempt) >= MaxInterfaceAttempts then End
    else RetryInterface
  }

  function PartContent(p: Part, s: Snapshot): Slot<string> {
    match p
    case HtmlPart => s.htmlContent
    case JsPart => s.jsContent
    case CssPart => s.cssContent
  }

  function RetryOf(p: Part): Route {
    match p
    case HtmlPart => RetryHtml
    case JsPart => RetryJs
    case CssPart => RetryCss
  }

  /** `should_retry_html_or_continue` and its JavaScript and CSS twins. */
  function ShouldRetryPartOrContinue(p: Part, s: Snapshot): (r: Route)
    ensures r == Continue || r == RetryOf(p) || r == End
  {
    if s.success && TruthySlot(PartContent(p, s)) then Continue
    else if CountOf(AttemptOf(p, s)) >= MaxInterfaceAttempts then End
    else RetryOf(p)
  }

  /**
   * How many more times a node guarded by a three-attempt router can run,
   * given its counter.
   */
  function Left(a: Option<int>): nat {
    if CountOf(a) >= 2 then 1 else 3 - CountOf(a)
  }

  /** The most research rounds left when `current_attempt` stands at `c` of `m`. */
  function Rounds(m: int, c: int): nat {
    if m - c >= 1 then m - c else 1
  }

  /** The research rounds validation may still send the run back for. */
  function Spare(m: int, c: int): nat {
    if m - c >= 1 then m - c else 0
  }

  /**
   * After validation: a PASS continues whatever the counters say; any other
   * verdict ends the run once `current_attempt` has reached `max_attempts`
   * and retries the research otherwise.
   */
  lemma ValidationRouting(s: Snapshot)
    requires s.validationResult != Absent
    ensures ShouldRetryOrContinue(s) == Continue <==> s.validationResult == Val(PASS)
    ensures ShouldRetryOrContinue(s) == End <==> s.validationResult != Val(PASS) && s.currentAttempt >= s.maxAttempts
    ensures ShouldRetryOrContinue(s) == Retry <==> s.validationResult != Val(PASS) && s.currentAttempt < s.maxAttempts
  {
  }

  /**
   * After extraction: success continues; otherwise a missing counter counts
   * as 0, three or more attempts end the run, and fewer retry the interface.
   */
  lemma InterfaceRouting(s: Snapshot)
    ensures ShouldRetryInterfaceOrContinue(s) == Continue <==> s.success
    ensures ShouldRetryInterfaceOrContinue(s) == End <==>
      !s.success && s.interfaceAttempt.Some? && s.interfaceAttempt.value >= 3
    ensures ShouldRetryInterfaceOrContinue(s) == RetryInterface <==>
      !s.success && (s.interfaceAttempt.None? || s.interfaceAttempt.value < 3)
  {
  }

  /** The three cases the workflow tests check for `should_retry_or_continue`. */
  lemma ValidationRoutingExamples(s: Snapshot)
    ensures ShouldRetryOrContinue(s.(validationResult := Val(PASS))) == Continue
    ensures ShouldRetryOrContinue(s.(validationResult := Val(FAIL), currentAttempt := 5, maxAttempts := 3)) == End
    ensures ShouldRetryOrContinue(s.(validationResult := Val(FAIL), currentAttempt := 1, maxAttempts := 3)) == Retry
  {
  }

  /**
   * The two cases the second workflow's tests check for the component
   * routers: a made part continues, and a failed part after five attempts ends.
   */
  lemma ComponentRoutingExamples(s: Snapshot)
    ensures ShouldRetryPartOrContinue(HtmlPart, s.(success := true, htmlContent := Val("<html></html>"))) == Continue
    ensures ShouldRetryPartOrContinue(HtmlPart, s.(success := false, htmlContent := Val(""), htmlAttempt := Some(5))) == End
    ensures ShouldRetryPartOrContinue(JsPart, s.(success := true, jsContent := Val("console.log(\"test\");"))) == Continue
    ensures ShouldRetryPartOrContinue(CssPart, s.(success := true, cssContent := Val("body { margin: 0; }"))) == Continue
  {
  }
}
