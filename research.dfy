/**
 * `research_deep_node`: one combined research-and-validation call to the
 * model, with the real-time market data injected into the prompt, and the
 * verdict read off the answer.
 */
module Research {
  import opened Wrappers
  import opened Text
  import opened Verdicts
  import opened Base
  import opened Environment
  import opened ReportStates

  const Placeholder := "{{REAL_TIME_DATA}}"
  const NoDataNotice := "{\n  \"notice\": \"Real-time data không khả dụng, sử dụng Google Search để lấy dữ liệu mới nhất\"\n}"
  /** Seconds slept after the first failed try; the second waits twice as long. */
  const ResearchWait := 45

  const InvalidResponse := "Combined response không hợp lệ từ AI"
  const EmptyResponse := "Không nhận được nội dung từ Combined AI"
  const CallFailed := "Lỗi khi gọi Combined AI: "

  /** The "Lần thử {n}: " prefix of every message of attempt `n`. */
  function AttemptPrefix(n: int): string {
    "Lần thử " + IntToString(n) + ": "
  }

  /** `if realtime_data:`: present, not None, and a non-empty dict. */
  predicate HasRealtime(d: Slot<Record>) {
    d.Val? && d.value != map[]
  }

  /** The text that takes the place of the placeholder. */
  function Injected(d: Slot<Record>, renderJson: Record -> string): string {
    if HasRealtime(d) then renderJson(d.value) else NoDataNotice
  }

  /** The combined prompt: the placeholder replaced by the data, or by the notice. */
  function CombinedPrompt(p: string, d: Slot<Record>, renderJson: Record -> string): string {
    ReplaceAll(p, Placeholder, Injected(d, renderJson))
  }

  /** The node, as a function of the state and the outside world. */
  function ResearchSpec(s: Snapshot, w: World): NodeOut {
    var s0 := s.(currentAttempt := s.currentAttempt + 1);
    if !s0.researchPrompt.Val? then
      NodeOut(WithError(s0, AttemptPrefix(s0.currentAttempt) + CallFailed + PromptError(s0.researchPrompt)), NoEffects, None)
    else Ask(s0, w, CombinedPrompt(s0.researchPrompt.value, s0.realtimeData, w.renderJson))
  }

  /**
   * The exception `state["research_analysis_prompt"].replace(...)` raises: a
   * missing key, or None.
   */
  function PromptError(p: Slot<string>): string {
    if p.Absent? then KeyErrorText("research_analysis_prompt") else NoneHasNoReplace
  }

  /** The retry loop around the model and what the node makes of its answer. */
  function Ask(s: Snapshot, w: World, prompt: string): NodeOut {
    var r := Retry(w.script, w.pos, CallError(s), ResearchWait);
    var fx := Effects(r.used, 0, r.waits, [prompt], []);
    match AnswerError(r.outcome)
    case Some(msg) => NodeOut(WithError(s, AttemptPrefix(s.currentAttempt) + msg), fx, None)
    case None =>
      var text := r.outcome.reply.body;
      var v := CheckReportValidation(text);
      NodeOut(s.(validationResult := Val(v), researchContent := Val(text.value), success := v != FAIL), fx, None)
  }

  /**
   * What is wrong with the loop's outcome, after the attempt prefix: the
   * exception re-raised by the third failure, no usable response object, or
   * an empty text. None means there is a text to read the verdict from.
   */
  function AnswerError(a: Attempted): (m: Option<string>)
    ensures m.None? <==> a.Answered? && a.reply.Text? && TruthyStr(a.reply.body)
  {
    match a
    case GaveUp(e) => Some(CallFailed + e)
    case Answered(reply) =>
      if reply.NoResponse? then Some(InvalidResponse)
      else if reply.Raised? || !TruthyStr(reply.body) then Some(EmptyResponse)
      else None
  }

  /** The node on the shared state. */
  method ResearchDeep(st: ReportState, env: Env) returns (ghost o: NodeOut)
    modifies st, env
    ensures o == ResearchSpec(old(st.data), env.Inputs(old(env.pos), old(env.dbPos)))
    ensures st.data == o.state && Applied(env, o.fx)
  {
    o := ResearchSpec(st.data, env.Inputs(env.pos, env.dbPos));
    st.data := st.data.(currentAttempt := st.data.currentAttempt + 1);
    var prefix := AttemptPrefix(st.data.currentAttempt);
    if !st.data.researchPrompt.Val? {
      st.data := WithError(st.data, prefix + CallFailed + PromptError(st.data.researchPrompt));
      return;
    }
    var prompt := CombinedPrompt(st.data.researchPrompt.value, st.data.realtimeData, env.renderJson);
    assert o == Ask(st.data, env.Inputs(env.pos, env.dbPos), prompt);
    o := AskModel(st, env, prompt);
  }

  /** `Ask` on the shared state. */
  method AskModel(st: ReportState, env: Env, prompt: string) returns (ghost o: NodeOut)
    modifies st, env
    ensures o == Ask(old(st.data), env.Inputs(old(env.pos), old(env.dbPos)), prompt)
    ensures st.data == o.state && Applied(env, o.fx)
  {
    o := Ask(st.data, env.Inputs(env.pos, env.dbPos), prompt);
    var prefix := AttemptPrefix(st.data.currentAttempt);
    var answer := env.Generate(prompt, CallError(st.data), ResearchWait);
    var problem := AnswerError(answer);
    if problem.Some? {
      st.data := WithError(st.data, prefix + problem.value);
    } else {
      var text := answer.reply.body;
      var v := CheckReportValidation(text);
      st.data := st.data.(validationResult := Val(v), researchContent := Val(text.value), success := v != FAIL);
    }
  }

  /**
   * The node bumps the attempt counter and touches only the verdict, the
   * research text, the error list and the success flag; it never reports to
   * the progress tracker's error log and never commits.
   */
  lemma ResearchFrame(s: Snapshot, w: World)
    ensures var o := ResearchSpec(s, w);
      o.state == s.(currentAttempt := s.currentAttempt + 1, errors := o.state.errors, success := o.state.success,
                    validationResult := o.state.validationResult, researchContent := o.state.researchContent)
      && o.fx.events == [] && o.fx.commits == 0 && o.raised.None?
  {
    var s0 := s.(currentAttempt := s.currentAttempt + 1);
    if s.researchPrompt.Val? {
      AskFrame(s0, w, CombinedPrompt(s.researchPrompt.value, s.realtimeData, w.renderJson));
    }
  }

  lemma AskFrame(s: Snapshot, w: World, prompt: string)
    ensures var o := Ask(s, w, prompt);
      o.state == s.(errors := o.state.errors, success := o.state.success,
                    validationResult := o.state.validationResult, researchContent := o.state.researchContent)
      && o.fx.events == [] && o.fx.commits == 0 && o.raised.None?
  {
  }

  /**
   * With a usable answer the text and its verdict are stored, and the node
   * succeeds unless the verdict is FAIL (an UNKNOWN verdict is accepted);
   * no error is recorded.
   */
  lemma ResearchAnswered(s: Snapshot, w: World)
    ensures var o := ResearchSpec(s, w);
      o.state.errors == s.errors ==>
        o.state.researchContent.Val? && o.state.researchContent.value != ""
        && o.state.validationResult == Val(CheckReportValidation(Some(o.state.researchContent.value)))
        && (o.state.success <==> o.state.validationResult != Val(FAIL))
  {
  }

  /**
   * Every other outcome appends exactly one message, prefixed with the
   * attempt number, fails the node and keeps the previous research text and
   * verdict.
   */
  lemma ResearchFails(s: Snapshot, w: World)
    ensures var o := ResearchSpec(s, w);
      o.state.errors != s.errors ==>
        |o.state.errors| == |s.errors| + 1 && o.state.errors[..|s.errors|] == s.errors
        && StartsWith(o.state.errors[|s.errors|], AttemptPrefix(s.currentAttempt + 1))
        && !o.state.success
        && o.state.researchContent == s.researchContent && o.state.validationResult == s.validationResult
  {
    var s0 := s.(currentAttempt := s.currentAttempt + 1);
    var prefix := AttemptPrefix(s0.currentAttempt);
    if !s.researchPrompt.Val? {
      PrefixedError(s0, prefix, CallFailed + PromptError(s.researchPrompt));
    } else {
      var r := Retry(w.script, w.pos, CallError(s0), ResearchWait);
      if AnswerError(r.outcome).Some? {
        PrefixedError(s0, prefix, AnswerError(r.outcome).value);
      }
    }
  }

  /** Appending a prefixed message. */
  lemma PrefixedError(s: Snapshot, prefix: string, msg: string)
    ensures var t := WithError(s, prefix + msg);
      |t.errors| == |s.errors| + 1 && t.errors[..|s.errors|] == s.errors
      && StartsWith(t.errors[|s.errors|], prefix)
  {
    var t := WithError(s, prefix + msg);
    assert t.errors[..|s.errors|] == s.errors;
    assert (prefix + msg)[..|prefix|] == prefix;
  }

  /**
   * The model is asked once, with the combined prompt, whenever the prompt
   * key holds text; the retry loop sleeps 45 s and then 90 s at most.
   */
  lemma ResearchCalls(s: Snapshot, w: World)
    ensures var o := ResearchSpec(s, w);
      o.fx.waits == [] || o.fx.waits == [45] || o.fx.waits == [45, 90]
    ensures var o := ResearchSpec(s, w);
      o.fx.calls <= 3
      && (s.researchPrompt.Val? ==> o.fx.prompts == [CombinedPrompt(s.researchPrompt.value, s.realtimeData, w.renderJson)])
      && (!s.researchPrompt.Val? ==> o.fx.prompts == [] && o.fx.calls == 0)
  {
    var s0 := s.(currentAttempt := s.currentAttempt + 1);
    RetryWaits(w.script, w.pos, CallError(s0), ResearchWait);
  }

  /** A prompt without the placeholder is sent unchanged, with or without market data. */
  lemma PromptWithoutPlaceholder(p: string, d: Slot<Record>, renderJson: Record -> string)
    requires !Contains(p, Placeholder)
    ensures CombinedPrompt(p, d, renderJson) == p
  {
    ContainsIff(p, Placeholder);
    ReplaceAllAbsent(p, Placeholder, Injected(d, renderJson));
  }

  /** An empty market record counts as no data: the notice is injected. */
  lemma EmptyRecordGivesNotice(p: string, renderJson: Record -> string)
    ensures CombinedPrompt(p, Val(map[]), renderJson) == CombinedPrompt(p, Null, renderJson)
    ensures CombinedPrompt(Placeholder, Null, renderJson) == NoDataNotice
  {
    assert Placeholder[..|Placeholder|] == Placeholder;
    assert Placeholder[|Placeholder|..] == [];
  }
}
