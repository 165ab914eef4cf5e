/**
 * The first report workflow, `create_report_workflow`: research, validation,
 * then the whole interface in one model call split into its three parts,
 * and saving; plus how `generate_auto_research_report_langgraph` turns the
 * final state (or an exception) into its result dictionary.
 */
module ReportWorkflow {
  import opened Wrappers
  import opened Verdicts
  import opened Environment
  import opened ReportStates
  import opened PrepareData
  import opened Research
  import opened Validate
  import opened LegacyNodes
  import opened Save
  import opened Routing
  import opened Graph

  datatype Stage = PrepareStage | ResearchStage | ValidateStage | InterfaceStage | ExtractStage | SaveStage | Finish

  // ---------------------------------------------------------------------------
  // The edge table
  // ---------------------------------------------------------------------------

  /** The stage that follows `st`, given the state the node of `st` left behind. */
  function NextStage(st: Stage, s: Snapshot): Next<Stage> {
    match st
    case PrepareStage => Go(ResearchStage)
    case ResearchStage => Go(ValidateStage)
    case ValidateStage =>
      if s.validationResult.Absent? then Fault(KeyErrorText("validation_result"))
      else
        var r := ShouldRetryOrContinue(s);
        Go(if r == Continue then InterfaceStage else if r == End then Finish else ResearchStage)
    case InterfaceStage => Go(ExtractStage)
    case ExtractStage =>
      var r := ShouldRetryInterfaceOrContinue(s);
      Go(if r == Continue then SaveStage else if r == End then Finish else InterfaceStage)
    case SaveStage => Go(Finish)
    case Finish => Go(Finish)
  }

  /** The declared targets of each stage's edges. */
  function Targets(st: Stage): set<Stage> {
    match st
    case PrepareStage => {ResearchStage}
    case ResearchStage => {ValidateStage}
    case ValidateStage => {ResearchStage, InterfaceStage, Finish}
    case InterfaceStage => {ExtractStage}
    case ExtractStage => {InterfaceStage, SaveStage, Finish}
    case SaveStage => {Finish}
    case Finish => {}
  }

  /**
   * Every step the graph takes follows a declared edge, and only validation
   * can fail to route (when no verdict was ever stored).
   */
  lemma StepsFollowTable(st: Stage, s: Snapshot)
    requires st != Finish
    ensures NextStage(st, s).Go? ==> NextStage(st, s).stage in Targets(st)
    ensures NextStage(st, s).Fault? <==> st == ValidateStage && s.validationResult.Absent?
  {
  }

  /** A state that makes the routing of stage `st` take the declared edge to `t`. */
  function Steer(st: Stage, t: Stage, s: Snapshot): Snapshot {
    if t == Finish then s.(success := false, validationResult := Val(FAIL), currentAttempt := s.maxAttempts,
                           interfaceAttempt := Some(3))
    else if t == ResearchStage || (st == ExtractStage && t == InterfaceStage) then
      s.(success := false, validationResult := Val(FAIL), currentAttempt := s.maxAttempts - 1,
         interfaceAttempt := Some(0))
    else s.(success := true, validationResult := Val(PASS))
  }

  /** Conversely, every declared edge is taken from some state. */
  lemma TableEdgesTaken(st: Stage, t: Stage, s: Snapshot)
    requires t in Targets(st)
    ensures NextStage(st, Steer(st, t, s)) == Go(t)
  {
  }

  /** The node registered for each stage. */
  function Node(st: Stage, s: Snapshot, w: World): NodeOut {
    match st
    case PrepareStage => PrepareSpec(s, w)
    case ResearchStage => ResearchSpec(s, w)
    case ValidateStage => ValidateSpec(s)
    case InterfaceStage => InterfaceSpec(s, w)
    case ExtractStage => ExtractSpec(s)
    case SaveStage => SaveSpec(s, w)
    case Finish => NodeOut(s, NoEffects, None)
  }

  // ---------------------------------------------------------------------------
  // Termination
  // ---------------------------------------------------------------------------

  /** The most nodes the run still executes from the interface node on. */
  function InterfaceTail(s: Snapshot): nat {
    2 * Left(s.interfaceAttempt) + 1
  }

  /** The most nodes the run still executes from stage `st` in state `s`. */
  function Potential(st: Stage, s: Snapshot): nat {
    match st
    case PrepareStage => 1 + 2 * Rounds(s.maxAttempts, if s.currentAttempt < 0 then s.currentAttempt else 0) + InterfaceTail(s)
    case ResearchStage => 2 * Rounds(s.maxAttempts, s.currentAttempt) + InterfaceTail(s)
    case ValidateStage => 1 + 2 * Spare(s.maxAttempts, s.currentAttempt) + InterfaceTail(s)
    case InterfaceStage => InterfaceTail(s)
    case ExtractStage => 2 + 2 * Spare(MaxInterfaceAttempts, CountOf(s.interfaceAttempt))
    case SaveStage => 1
    case Finish => 0
  }

  /** The counter discipline of the workflow's nodes, stage by stage. */
  predicate Keeps(st: Stage, s: Snapshot, t: Snapshot) {
    var same := t.maxAttempts == s.maxAttempts && t.interfaceAttempt == s.interfaceAttempt;
    match st
    case PrepareStage => same && (t.currentAttempt == s.currentAttempt || t.currentAttempt == 0)
    case ResearchStage => same && t.currentAttempt == s.currentAttempt + 1
    case ValidateStage => same && t.currentAttempt == s.currentAttempt
    case InterfaceStage => t.interfaceAttempt == Some(CountOf(s.interfaceAttempt) + 1)
    case ExtractStage => t.interfaceAttempt == s.interfaceAttempt
    case _ => true
  }

  /** Every step of the graph that keeps the counter discipline lowers the potential. */
  lemma StepLowersPotential(st: Stage, s: Snapshot, t: Snapshot)
    requires st != Finish && Keeps(st, s, t) && NextStage(st, t).Go?
    ensures Potential(NextStage(st, t).stage, t) < Potential(st, s)
  {
    match st
    case ValidateStage =>
      if NextStage(st, t).stage == ResearchStage {
        assert t.currentAttempt < t.maxAttempts;
      }
    case _ =>
  }

  /** Every node keeps the counter discipline. */
  lemma NodeKeeps(st: Stage, s: Snapshot, w: World)
    ensures Keeps(st, s, Node(st, s, w).state)
  {
    match st
    case PrepareStage => PrepareCounters(s, w);
    case ResearchStage => ResearchFrame(s, w);
    case ValidateStage => ValidateSuccessIffPass(s);
    case InterfaceStage => InterfaceFrame(s, w);
    case ExtractStage => ExtractFrame(s);
    case _ =>
  }

  /** Every step of the workflow lowers the potential. */
  lemma NodesLower()
    ensures Lowers(Node, NextStage, Finish, Potential)
  {
    forall st: Stage, s: Snapshot | st != Finish
      ensures Potential(st, s) > 0
    {
    }
    forall st: Stage, s: Snapshot, w: World |
      st != Finish && Node(st, s, w).raised.None? && NextStage(st, Node(st, s, w).state).Go?
      ensures Potential(NextStage(st, Node(st, s, w).state).stage, Node(st, s, w).state) < Potential(st, s)
    {
      NodeKeeps(st, s, w);
      StepLowersPotential(st, s, Node(st, s, w).state);
    }
  }

  // ---------------------------------------------------------------------------
  // generate_auto_research_report_langgraph
  // ---------------------------------------------------------------------------

  /** LangGraph's default limit on the nodes one invocation executes. */
  const RecursionLimit := 25

  /**
   * The initial state: every optional key present as None, the counter at
   * 0, the model name set; the keys of the second workflow, and
   * `interface_attempt`, are missing.
   */
  function Initial(sessionId: string, apiKey: Option<string>, maxAttempts: int): Snapshot {
    Snapshot(sessionId, apiKey, maxAttempts,
             Null, Null, Null, Null, Null, Null, Null, Absent, Null, Null, Null,
             Null, Null, Null, Absent, Absent, Null,
             0, [], false, None, None, None, None, Absent, Null, Val(ModelName))
  }

  /** The result dictionary. */
  datatype Report = Report(success: bool, sessionId: string, reportId: Option<int>, errors: seq<string>)

  const ExceptionPrefix := "Lỗi workflow: "
  const UnsuccessfulMsg := "Workflow hoàn thành nhưng không thành công"

  /**
   * The result for a run's ending; `limitError` is the text of LangGraph's
   * recursion error.
   */
  function Shape(sessionId: string, e: Ending, limitError: string): Report {
    match e
    case OverBudget => Report(false, sessionId, None, [ExceptionPrefix + limitError])
    case Crashed(m, _) => Report(false, sessionId, None, [ExceptionPrefix + m])
    case Ended(f, _, _) =>
      if f.success && f.reportId.Val? && f.reportId.value != 0 then Report(true, sessionId, Some(f.reportId.value), [])
      else Report(false, sessionId, None, f.errors)
  }

  /** The message handed to the progress tracker's `error_progress`, if it is called. */
  function ProgressError(e: Ending, limitError: string): Option<string> {
    match e
    case OverBudget => Some(ExceptionPrefix + limitError)
    case Crashed(m, _) => Some(ExceptionPrefix + m)
    case Ended(f, _, _) =>
      if f.success && f.reportId.Val? && f.reportId.value != 0 then None else Some(UnsuccessfulMsg)
  }

  /** The run from the entry point for a given outside world. */
  function RunFrom(sessionId: string, apiKey: Option<string>, maxAttempts: int, w: World): Ending {
    Run(Node, NextStage, Finish, PrepareStage, Initial(sessionId, apiKey, maxAttempts), w, RecursionLimit)
  }

  /** `generate_auto_research_report_langgraph` for a given outside world. */
  function GenerateReport(sessionId: string, apiKey: Option<string>, maxAttempts: int, w: World,
                          limitError: string): Report {
    Shape(sessionId, RunFrom(sessionId, apiKey, maxAttempts, w), limitError)
  }

  /**
   * A report counts as made exactly when the run reached END with the flag
   * set and a non-zero id; then the errors are dropped. Otherwise the caller
   * gets the final error list, or the one exception message, and the
   * progress tracker is told of the failure, and only then.
   */
  lemma ShapeCases(sessionId: string, e: Ending, limitError: string)
    ensures var r := Shape(sessionId, e, limitError);
      (r.success <==> e.Ended? && e.state.success && e.state.reportId.Val? && e.state.reportId.value != 0)
      && r.sessionId == sessionId && (r.reportId.Some? <==> r.success)
    ensures var r := Shape(sessionId, e, limitError);
      r.success ==> r.reportId == Some(e.state.reportId.value) && r.errors == []
    ensures var r := Shape(sessionId, e, limitError);
      !r.success && e.Ended? ==> r.errors == e.state.errors
    ensures var r := Shape(sessionId, e, limitError);
      !e.Ended? ==> |r.errors| == 1 && r.errors[0][..|ExceptionPrefix|] == ExceptionPrefix
    ensures ProgressError(e, limitError).None? <==> Shape(sessionId, e, limitError).success
  {
  }

  /**
   * From the initial state the run executes at most 2·max(1, max_attempts) + 8
   * nodes; so with at most eight research attempts it always stops before
   * LangGraph's limit.
   */
  lemma InitialRunBounded(sessionId: string, apiKey: Option<string>, maxAttempts: int, w: World)
    requires maxAttempts <= 8
    ensures Potential(PrepareStage, Initial(sessionId, apiKey, maxAttempts)) == 2 * (if maxAttempts >= 1 then maxAttempts else 1) + 8
    ensures RunFrom(sessionId, apiKey, maxAttempts, w) != OverBudget
  {
    NodesLower();
    RunWithinPotential(Node, NextStage, Finish, Potential, PrepareStage, Initial(sessionId, apiKey, maxAttempts), w, RecursionLimit);
  }

  // ---------------------------------------------------------------------------
  // What every run from the initial state keeps
  // ---------------------------------------------------------------------------

  /**
   * The keys the nodes read with `state[...]` are present, and the interface
   * counter stands where its router allows: unset before the interface node,
   * at most 2 on entering it, and at most 3 after it.
   */
  predicate Safe(st: Stage, s: Snapshot) {
    match st
    case PrepareStage | ResearchStage | ValidateStage =>
      !s.createPrompt.Absent? && !s.researchContent.Absent? && s.interfaceAttempt.None?
    case InterfaceStage =>
      !s.createPrompt.Absent? && !s.researchContent.Absent? && 0 <= CountOf(s.interfaceAttempt) <= 2
    case ExtractStage =>
      !s.createPrompt.Absent? && !s.researchContent.Absent? && 1 <= CountOf(s.interfaceAttempt) <= 3
    case SaveStage | Finish => 0 <= CountOf(s.interfaceAttempt) <= 3
  }

  /** Preparation stores the prompt or keeps it, and never touches the research text. */
  lemma PreparePresent(s: Snapshot, w: World)
    ensures var t := PrepareSpec(s, w).state;
      (t.createPrompt == s.createPrompt || t.createPrompt.Val?) && t.researchContent == s.researchContent
  {
  }

  /** Research stores its text or keeps the old one, and never touches the prompt. */
  lemma ResearchPresent(s: Snapshot, w: World)
    ensures var t := ResearchSpec(s, w).state;
      (t.researchContent == s.researchContent || t.researchContent.Val?) && t.createPrompt == s.createPrompt
  {
    ResearchFrame(s, w);
    var s0 := s.(currentAttempt := s.currentAttempt + 1);
    if s0.researchPrompt.Val? {
      var a := Environment.Retry(w.script, w.pos, CallError(s0), ResearchWait).outcome;
      assert AnswerError(a).None? ==> a.reply.body.Some?;
    }
  }

  lemma SafeStep(st: Stage, s: Snapshot, w: World)
    requires Safe(st, s) && st != Finish
    ensures Node(st, s, w).raised.None? && NextStage(st, Node(st, s, w).state).Go?
    ensures Safe(NextStage(st, Node(st, s, w).state).stage, Node(st, s, w).state)
  {
    match st
    case PrepareStage => PrepareCounters(s, w); PreparePresent(s, w);
    case ResearchStage => ResearchFrame(s, w); ResearchPresent(s, w);
    case ValidateStage => ValidateSuccessIffPass(s); ValidateRaises(s);
    case InterfaceStage => InterfaceFrame(s, w); InterfaceRaises(s, w);
    case ExtractStage => ExtractFrame(s);
    case SaveStage =>
  }

  lemma SafeClosed()
    ensures Closed(Node, NextStage, Finish, Safe)
  {
    forall st: Stage, s: Snapshot, w: World | Safe(st, s) && st != Finish
      ensures Node(st, s, w).raised.None? && NextStage(st, Node(st, s, w).state).Go?
        && Safe(NextStage(st, Node(st, s, w).state).stage, Node(st, s, w).state)
    {
      SafeStep(st, s, w);
    }
  }

  /**
   * No exception escapes a node or a router in a run from the initial state
   * (only LangGraph's step limit can end it early), and at END the interface
   * counter is at most 3: the interface node, the only one that moves it,
   * runs at most three times.
   */
  lemma RunIsSafe(sessionId: string, apiKey: Option<string>, maxAttempts: int, w: World)
    ensures var e := RunFrom(sessionId, apiKey, maxAttempts, w);
      !e.Crashed? && (e.Ended? ==> CountOf(e.state.interfaceAttempt) <= MaxInterfaceAttempts)
  {
    SafeClosed();
    RunStaysIn(Node, NextStage, Finish, Safe, PrepareStage, Initial(sessionId, apiKey, maxAttempts), w, RecursionLimit);
  }

  // ---------------------------------------------------------------------------
  // An unusable API key
  // ---------------------------------------------------------------------------

  /**
   * With an unusable key the run circles between research and validation:
   * no prompt and no research text, the key's message first in the error
   * list, and no success at END.
   */
  predicate Stuck(st: Stage, s: Snapshot) {
    s.researchPrompt == Null && s.researchContent == Null && |s.errors| >= 1 && s.errors[0] == BadKeyMsg
    && (st == ResearchStage || st == ValidateStage || (st == Finish && !s.success))
  }

  lemma StuckStep(st: Stage, s: Snapshot, w: World)
    requires Stuck(st, s) && st != Finish
    ensures Node(st, s, w).raised.None? && NextStage(st, Node(st, s, w).state).Go?
    ensures Stuck(NextStage(st, Node(st, s, w).state).stage, Node(st, s, w).state)
  {
    if st == ResearchStage {
      ResearchFrame(s, w);
    }
  }

  lemma StuckClosed()
    ensures Closed(Node, NextStage, Finish, Stuck)
  {
    forall st: Stage, s: Snapshot, w: World | Stuck(st, s) && st != Finish
      ensures Node(st, s, w).raised.None? && NextStage(st, Node(st, s, w).state).Go?
        && Stuck(NextStage(st, Node(st, s, w).state).stage, Node(st, s, w).state)
    {
      StuckStep(st, s, w);
    }
  }

  /**
   * Unlike the second workflow, the first does not raise on an unusable key:
   * the fields it starts with are None rather than missing, so the run retries
   * the research until the attempts are spent and reports failure, with the
   * key's message first when it reached END.
   */
  lemma BadKeyFails(sessionId: string, apiKey: Option<string>, maxAttempts: int, w: World, limitError: string)
    requires !TruthyStr(apiKey)
    ensures var r := GenerateReport(sessionId, apiKey, maxAttempts, w, limitError);
      !r.success && r.reportId.None? && |r.errors| >= 1
    ensures maxAttempts <= 8 ==> GenerateReport(sessionId, apiKey, maxAttempts, w, limitError).errors[0] == BadKeyMsg
  {
    var s := Initial(sessionId, apiKey, maxAttempts);
    var o := Node(PrepareStage, s, w);
    BadKeyStart(sessionId, apiKey, maxAttempts, w);
    StuckClosed();
    RunStaysIn(Node, NextStage, Finish, Stuck, ResearchStage, o.state, Advance(w, o.fx), RecursionLimit - 1);
    if maxAttempts <= 8 {
      InitialRunBounded(sessionId, apiKey, maxAttempts, w);
    }
  }

  /** Preparation fails on the key and leaves the run stuck at the research node. */
  lemma BadKeyStart(sessionId: string, apiKey: Option<string>, maxAttempts: int, w: World)
    requires !TruthyStr(apiKey)
    ensures var s := Initial(sessionId, apiKey, maxAttempts);
      var o := Node(PrepareStage, s, w);
      Stuck(ResearchStage, o.state)
      && RunFrom(sessionId, apiKey, maxAttempts, w)
         == Counted(Run(Node, NextStage, Finish, ResearchStage, o.state, Advance(w, o.fx), RecursionLimit - 1))
  {
    PrepareBadKey(Initial(sessionId, apiKey, maxAttempts), w);
  }
}
