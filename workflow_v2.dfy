/**
 * The second report workflow, `create_report_workflow_v2`: its stages, the
 * edge table that links them, a run of the graph from the entry point, and
 * how `generate_auto_research_report_langgraph_v2` turns the final state (or
 * an exception) into its result dictionary.
 */
module WorkflowV2 {
  import opened Wrappers
  import opened Verdicts
  import opened Environment
  import opened ReportStates
  import opened PrepareData
  import opened Research
  import opened Validate
  import opened Components
  import opened Translate
  import opened Save
  import opened Routing
  import opened Graph

  datatype Stage =
    | PrepareStage | ResearchStage | ValidateStage | GenerateStage
    | HtmlStage | JsStage | CssStage | TranslateStage | SaveStage | Finish

  // ---------------------------------------------------------------------------
  // The edge table
  // ---------------------------------------------------------------------------

  /** A three-way conditional edge: "continue", "end", or the retry label. */
  function Branch(r: Route, retry: Stage, next: Stage): Stage {
    if r == Continue then next else if r == End then Finish else retry
  }

  /** The stage that follows `st`, given the state the node of `st` left behind. */
  function NextStage(st: Stage, s: Snapshot): Next<Stage> {
    match st
    case PrepareStage => Go(ResearchStage)
    case ResearchStage => Go(ValidateStage)
    case ValidateStage =>
      if s.validationResult.Absent? then Fault(KeyErrorText("validation_result"))
      else Go(Branch(ShouldRetryOrContinue(s), ResearchStage, GenerateStage))
    case GenerateStage => Go(HtmlStage)
    case HtmlStage => Go(Branch(ShouldRetryPartOrContinue(HtmlPart, s), HtmlStage, JsStage))
    case JsStage => Go(Branch(ShouldRetryPartOrContinue(JsPart, s), JsStage, CssStage))
    case CssStage => Go(Branch(ShouldRetryPartOrContinue(CssPart, s), CssStage, TranslateStage))
    case TranslateStage => Go(SaveStage)
    case SaveStage => Go(Finish)
    case Finish => Go(Finish)
  }

  /** The declared targets of each stage's edges. */
  function Targets(st: Stage): set<Stage> {
    match st
    case PrepareStage => {ResearchStage}
    case ResearchStage => {ValidateStage}
    case ValidateStage => {ResearchStage, GenerateStage, Finish}
    case GenerateStage => {HtmlStage}
    case HtmlStage => {HtmlStage, JsStage, Finish}
    case JsStage => {JsStage, CssStage, Finish}
    case CssStage => {CssStage, TranslateStage, Finish}
    case TranslateStage => {SaveStage}
    case SaveStage => {Finish}
    case Finish => {}
  }

  /** Position of a stage along the main line of the graph. */
  function Rank(st: Stage): nat {
    match st
    case PrepareStage => 0
    case ResearchStage => 1
    case ValidateStage => 2
    case GenerateStage => 3
    case HtmlStage => 4
    case JsStage => 5
    case CssStage => 6
    case TranslateStage => 7
    case SaveStage => 8
    case Finish => 9
  }

  /** Every step the graph takes follows a declared edge. */
  lemma StepsFollowTable(st: Stage, s: Snapshot)
    requires st != Finish
    ensures NextStage(st, s).Go? ==> NextStage(st, s).stage in Targets(st)
    ensures NextStage(st, s).Fault? ==> st == ValidateStage && s.validationResult.Absent?
  {
  }

  /** A state that makes the stage's routing take the declared edge to `t`. */
  function Steer(st: Stage, t: Stage, s: Snapshot): Snapshot {
    var failed := s.(success := false, validationResult := Val(FAIL));
    if t == Finish then failed.(currentAttempt := s.maxAttempts, htmlAttempt := Some(3), jsAttempt := Some(3), cssAttempt := Some(3))
    else if t == st || t == ResearchStage then
      failed.(currentAttempt := s.maxAttempts - 1, htmlAttempt := Some(0), jsAttempt := Some(0), cssAttempt := Some(0))
    else s.(success := true, validationResult := Val(PASS),
            htmlContent := Val("h"), jsContent := Val("j"), cssContent := Val("c"))
  }

  /** Conversely, every declared edge is taken from some state. */
  lemma TableEdgesTaken(st: Stage, t: Stage, s: Snapshot)
    requires t in Targets(st)
    ensures NextStage(st, Steer(st, t, s)) == Go(t)
  {
  }

  /**
   * The only edges that lead back along the main line are validation's retry
   * of the research and each component's retry of itself; a JavaScript or
   * CSS retry never re-enters HTML generation, and nothing ever returns to
   * data preparation.
   */
  lemma BackEdges(st: Stage, s: Snapshot)
    requires st != Finish && NextStage(st, s).Go?
    ensures var t := NextStage(st, s).stage;
      Rank(t) <= Rank(st) ==>
        (st == ValidateStage && t == ResearchStage) || (t == st && (st == HtmlStage || st == JsStage || st == CssStage))
    ensures NextStage(st, s).stage != PrepareStage
  {
  }

  /**
   * Preparation, research and translation go on unconditionally: a failed
   * preparation still runs the research, and translation always leads to saving.
   */
  lemma UnconditionalEdges(s: Snapshot)
    ensures NextStage(PrepareStage, s) == Go(ResearchStage)
    ensures NextStage(ResearchStage, s) == Go(ValidateStage)
    ensures NextStage(TranslateStage, s) == Go(SaveStage)
    ensures NextStage(SaveStage, s) == Go(Finish)
  {
  }

  // ---------------------------------------------------------------------------
  // The nodes
  // ---------------------------------------------------------------------------

  /**
   * `generate_report_content_node`, which is not part of this model: it is
   * taken to store the report text the outside world supplies and nothing else.
   */
  function GenerateSpec(s: Snapshot, w: World): NodeOut {
    NodeOut(s.(reportContent := w.draft), NoEffects, None)
  }

  /** The node registered for each stage. */
  function NodeV2(st: Stage, s: Snapshot, w: World): NodeOut {
    match st
    case PrepareStage => PrepareSpec(s, w)
    case ResearchStage => ResearchSpec(s, w)
    case ValidateStage => ValidateSpec(s)
    case GenerateStage => GenerateSpec(s, w)
    case HtmlStage => ComponentSpec(HtmlPart, s, w)
    case JsStage => ComponentSpec(JsPart, s, w)
    case CssStage => ComponentSpec(CssPart, s, w)
    case TranslateStage => TranslateSpec(s, w)
    case SaveStage => SaveSpec(s, w)
    case Finish => NodeOut(s, NoEffects, None)
  }

  // ---------------------------------------------------------------------------
  // A run of the graph
  // ---------------------------------------------------------------------------

  /** The most nodes the run still executes from generation on. */
  function Tail(s: Snapshot): nat {
    1 + Left(s.htmlAttempt) + Left(s.jsAttempt) + Left(s.cssAttempt) + 2
  }

  /** The most nodes the run still executes from stage `st` in state `s`. */
  function Potential(st: Stage, s: Snapshot): nat {
    match st
    case PrepareStage => 1 + 2 * Rounds(s.maxAttempts, if s.currentAttempt < 0 then s.currentAttempt else 0) + Tail(s)
    case ResearchStage => 2 * Rounds(s.maxAttempts, s.currentAttempt) + Tail(s)
    case ValidateStage => 1 + 2 * Spare(s.maxAttempts, s.currentAttempt) + Tail(s)
    case GenerateStage => Tail(s)
    case HtmlStage => Left(s.htmlAttempt) + Left(s.jsAttempt) + Left(s.cssAttempt) + 2
    case JsStage => Left(s.jsAttempt) + Left(s.cssAttempt) + 2
    case CssStage => Left(s.cssAttempt) + 2
    case TranslateStage => 2
    case SaveStage => 1
    case Finish => 0
  }

  /** The counter discipline of the workflow's nodes, stage by stage. */
  predicate Keeps(st: Stage, s: Snapshot, t: Snapshot) {
    var same := t.maxAttempts == s.maxAttempts;
    var comps := t.htmlAttempt == s.htmlAttempt && t.jsAttempt == s.jsAttempt && t.cssAttempt == s.cssAttempt;
    match st
    case PrepareStage => same && comps && (t.currentAttempt == s.currentAttempt || t.currentAttempt == 0)
    case ResearchStage => same && comps && t.currentAttempt == s.currentAttempt + 1
    case ValidateStage => same && comps && t.currentAttempt == s.currentAttempt
    case GenerateStage => comps
    case HtmlStage => t.htmlAttempt == Some(CountOf(s.htmlAttempt) + 1) && t.jsAttempt == s.jsAttempt && t.cssAttempt == s.cssAttempt
    case JsStage => t.jsAttempt == Some(CountOf(s.jsAttempt) + 1) && t.cssAttempt == s.cssAttempt
    case CssStage => t.cssAttempt == Some(CountOf(s.cssAttempt) + 1)
    case _ => true
  }

  /** Every step of the graph lowers the potential. */
  lemma StepLowersPotential(st: Stage, s: Snapshot, t: Snapshot)
    requires st != Finish && Keeps(st, s, t) && NextStage(st, t).Go?
    ensures Potential(NextStage(st, t).stage, t) < Potential(st, s)
  {
    match st
    case ValidateStage =>
      if NextStage(st, t).stage == ResearchStage {
        assert t.currentAttempt < t.maxAttempts;
      }
    case _ =>
  }

  /** Every step of the workflow lowers the potential. */
  lemma NodesLower()
    ensures Lowers(NodeV2, NextStage, Finish, Potential)
  {
    forall st: Stage, s: Snapshot | st != Finish
      ensures Potential(st, s) > 0
    {
    }
    forall st: Stage, s: Snapshot, w: World |
      st != Finish && NodeV2(st, s, w).raised.None? && NextStage(st, NodeV2(st, s, w).state).Go?
      ensures Potential(NextStage(st, NodeV2(st, s, w).state).stage, NodeV2(st, s, w).state) < Potential(st, s)
    {
      NodeKeeps(st, s, w);
      StepLowersPotential(st, s, NodeV2(st, s, w).state);
    }
  }

  lemma NodeKeeps(st: Stage, s: Snapshot, w: World)
    ensures Keeps(st, s, NodeV2(st, s, w).state)
  {
    match st
    case PrepareStage => PrepareKeeps(s, w);
    case ResearchStage => ResearchKeeps(s, w);
    case ValidateStage => ValidateKeeps(s);
    case GenerateStage => GenerateKeeps(s, w);
    case HtmlStage => HtmlKeeps(s, w);
    case JsStage => JsKeeps(s, w);
    case CssStage => CssKeeps(s, w);
    case _ =>
  }

  lemma PrepareKeeps(s: Snapshot, w: World)
    ensures Keeps(PrepareStage, s, PrepareSpec(s, w).state)
  {
    PrepareCounters(s, w);
  }

  lemma ResearchKeeps(s: Snapshot, w: World)
    ensures Keeps(ResearchStage, s, ResearchSpec(s, w).state)
  {
    ResearchFrame(s, w);
  }

  lemma ValidateKeeps(s: Snapshot)
    ensures Keeps(ValidateStage, s, ValidateSpec(s).state)
  {
    ValidateSuccessIffPass(s);
  }

  lemma GenerateKeeps(s: Snapshot, w: World)
    ensures Keeps(GenerateStage, s, GenerateSpec(s, w).state)
  {
  }

  lemma HtmlKeeps(s: Snapshot, w: World)
    ensures Keeps(HtmlStage, s, ComponentSpec(HtmlPart, s, w).state)
  {
    ComponentFrame(HtmlPart, s, w);
  }

  lemma JsKeeps(s: Snapshot, w: World)
    ensures Keeps(JsStage, s, ComponentSpec(JsPart, s, w).state)
  {
    ComponentFrame(JsPart, s, w);
  }

  lemma CssKeeps(s: Snapshot, w: World)
    ensures Keeps(CssStage, s, ComponentSpec(CssPart, s, w).state)
  {
    ComponentFrame(CssPart, s, w);
  }

  // ---------------------------------------------------------------------------
  // generate_auto_research_report_langgraph_v2
  // ---------------------------------------------------------------------------

  /** LangGraph's default limit on the nodes one invocation executes. */
  const RecursionLimit := 25

  /** The initial state: the counters at 0, no success, no errors, and no other key. */
  function InitialV2(sessionId: string, apiKey: Option<string>, maxAttempts: int, createdAt: string): (s: Snapshot) {
    Snapshot(sessionId, apiKey, maxAttempts,
             Absent, Absent, Absent, Absent, Absent, Absent, Absent, Absent, Absent, Absent, Absent,
             Absent, Absent, Absent, Absent, Absent, Absent,
             0, [], false, Some(0), Some(0), Some(0), None, Val(createdAt), Absent, Absent)
  }

  /**
   * The result dictionary: the short success form, or the long form (which
   * the exception handler fills with fixed values).
   */
  datatype V2Result =
    | Stored(sessionId: string, reportId: int)
    | Summary(success: bool, sessionId: string, htmlContent: Slot<string>, cssContent: Slot<string>,
              jsContent: Slot<string>, researchContent: Slot<string>, errorMessages: seq<string>,
              validationResult: Slot<string>, createdAt: Slot<string>,
              htmlAttempt: int, jsAttempt: int, cssAttempt: int)

  /** `state.get(key, default)` of a text key. */
  function GetOr(v: Slot<string>, default: string): Slot<string> {
    if v.Absent? then Val(default) else v
  }

  function VerdictOr(v: Slot<Verdict>): Slot<string> {
    match v
    case Absent => Val("UNKNOWN")
    case Null => Null
    case Val(x) => Val(VerdictName(x))
  }

  const WorkflowErrorPrefix := "Lỗi trong workflow: "

  /** What the exception handler returns. */
  function ExceptionResult(sessionId: string, message: string, now: string): V2Result {
    Summary(false, sessionId, Val(""), Val(""), Val(""), Val(""), [WorkflowErrorPrefix + message],
            Val("ERROR"), Val(now), 0, 0, 0)
  }

  /**
   * The result for a run's ending. `limitError` is the text of LangGraph's
   * recursion error and `now` the time the handler reads.
   */
  function Shape(sessionId: string, e: Ending, limitError: string, now: string): V2Result {
    match e
    case OverBudget => ExceptionResult(sessionId, limitError, now)
    case Crashed(m, _) => ExceptionResult(sessionId, m, now)
    case Ended(f, _, _) =>
      if f.success && f.reportId.Val? && f.reportId.value != 0 then Stored(sessionId, f.reportId.value)
      else Summary(f.success, sessionId, GetOr(f.htmlContent, ""), GetOr(f.cssContent, ""), GetOr(f.jsContent, ""),
                   GetOr(f.researchContent, ""), f.errors, VerdictOr(f.validationResult), GetOr(f.createdAt, ""),
                   CountOf(f.htmlAttempt), CountOf(f.jsAttempt), CountOf(f.cssAttempt))
  }

  /** `generate_auto_research_report_langgraph_v2` for a given outside world. */
  function GenerateReportV2(sessionId: string, apiKey: Option<string>, maxAttempts: int, w: World,
                            createdAt: string, limitError: string, now: string): V2Result {
    var e := Run(NodeV2, NextStage, Finish, PrepareStage, InitialV2(sessionId, apiKey, maxAttempts, createdAt), w, RecursionLimit);
    Shape(sessionId, e, limitError, now)
  }

  /**
   * From the initial state the run executes at most 2·max(1, max_attempts) + 13
   * nodes; so with at most six research attempts it always reaches END or an
   * exception within LangGraph's limit.
   */
  lemma InitialRunBounded(sessionId: string, apiKey: Option<string>, maxAttempts: int, w: World, createdAt: string)
    requires maxAttempts <= 6
    ensures var s := InitialV2(sessionId, apiKey, maxAttempts, createdAt);
      Potential(PrepareStage, s) == 2 * (if maxAttempts >= 1 then maxAttempts else 1) + 13
      && Run(NodeV2, NextStage, Finish, PrepareStage, s, w, RecursionLimit) != OverBudget
  {
    var s := InitialV2(sessionId, apiKey, maxAttempts, createdAt);
    NodesLower();
    RunWithinPotential(NodeV2, NextStage, Finish, Potential, PrepareStage, s, w, RecursionLimit);
  }

  /**
   * A saved report gives the short success form with no errors; an
   * exception gives the long form with success false, the one message,
   * verdict "ERROR", empty contents and zero counters.
   */
  lemma ShapeCases(sessionId: string, e: Ending, limitError: string, now: string)
    ensures var r := Shape(sessionId, e, limitError, now);
      r.Stored? <==> e.Ended? && e.state.success && e.state.reportId.Val? && e.state.reportId.value != 0
    ensures var r := Shape(sessionId, e, limitError, now);
      r.Stored? ==> r.reportId == e.state.reportId.value && r.sessionId == sessionId
    ensures var r := Shape(sessionId, e, limitError, now);
      !e.Ended? ==>
        r.Summary? && !r.success && |r.errorMessages| == 1 && r.validationResult == Val("ERROR")
        && r.htmlAttempt == 0 && r.jsAttempt == 0 && r.cssAttempt == 0 && r.htmlContent == Val("")
    ensures var r := Shape(sessionId, e, limitError, now);
      e.Ended? && r.Summary? ==> r.errorMessages == e.state.errors && r.success == e.state.success
  {
  }

  /**
   * An unusable API key does not stop the graph at preparation: the research
   * node then finds no prompt, and validation raises on the research text
   * that was never stored, so the caller receives the exception form.
   */
  lemma BadKeyCrashes(sessionId: string, apiKey: Option<string>, maxAttempts: int, w: World,
                      createdAt: string, limitError: string, now: string)
    requires !TruthyStr(apiKey)
    ensures GenerateReportV2(sessionId, apiKey, maxAttempts, w, createdAt, limitError, now)
      == ExceptionResult(sessionId, "'research_content'", now)
  {
    var s := InitialV2(sessionId, apiKey, maxAttempts, createdAt);
    var o1 := PrepareSpec(s, w);
    PrepareBadKey(s, w);
    var w1 := Advance(w, o1.fx);
    var o2 := ResearchSpec(o1.state, w1);
    assert o2.state.researchContent.Absent?;
    var w2 := Advance(w1, o2.fx);
    assert ValidateSpec(o2.state).raised == Some(KeyErrorText("research_content"));
    assert Run(NodeV2, NextStage, Finish, ValidateStage, o2.state, w2, RecursionLimit - 2) == Crashed(KeyErrorText("research_content"), 1);
    assert Run(NodeV2, NextStage, Finish, ResearchStage, o1.state, w1, RecursionLimit - 1) == Crashed(KeyErrorText("research_content"), 2);
    assert Run(NodeV2, NextStage, Finish, PrepareStage, s, w, RecursionLimit) == Crashed(KeyErrorText("research_content"), 3);
    assert KeyErrorText("research_content") == "'research_content'";
  }
}
