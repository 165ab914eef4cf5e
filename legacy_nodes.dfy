/**
 * The two nodes of the first workflow that build the interface in one go:
 * `create_interface_node`, which asks the model for the whole interface, and
 * `extract_code_node`, which splits the answer into HTML, CSS and JavaScript.
 */
module LegacyNodes {
  import opened Wrappers
  import opened Text
  import opened Fences
  import opened Base
  import opened Environment
  import opened ReportStates
  import opened Components

  /** Seconds slept after the first failed try; the second waits twice as long. */
  const InterfaceWait := 20

  const InterfaceGaveUp := "Không thể tạo interface sau 3 lần thử"
  const InvalidInterface := "Interface response không hợp lệ từ AI"
  const EmptyInterface := "Không nhận được nội dung interface từ AI"
  const NoInterface := "Không có nội dung interface để trích xuất"
  const NotExtracted := "Không thể trích xuất mã nguồn từ phản hồi AI"

  // ---------------------------------------------------------------------------
  // create_interface_node
  // ---------------------------------------------------------------------------

  /** `if "interface_attempt" not in state: state[...] = 0`, then `+= 1`. */
  function BumpInterface(s: Snapshot): Snapshot {
    s.(interfaceAttempt := Some((if s.interfaceAttempt.Some? then s.interfaceAttempt.value else 0) + 1))
  }

  /**
   * The KeyError that building the request raises before the loop: the
   * prompt key is read first, then the research text.
   */
  function RequestError(s: Snapshot): Option<string> {
    if s.createPrompt.Absent? then Some(KeyErrorText("create_report_prompt"))
    else if s.researchContent.Absent? then Some(KeyErrorText("research_content"))
    else None
  }

  /** The prompt, a rule and the research text, each printed as an f-string prints it. */
  function InterfaceRequest(s: Snapshot): string {
    Show(s.createPrompt) + "\n\n---\n\n**NỘI DUNG BÁO CÁO CẦN XỬ LÝ:**\n\n" + Show(s.researchContent)
  }

  /**
   * What the node makes of the loop's outcome: the answer's text as it
   * came, or the message of what went wrong.
   */
  function InterfaceAnswer(a: Attempted): (m: Made)
    ensures m.Made? <==> a.Answered? && a.reply.Text? && TruthyStr(a.reply.body)
    ensures m.Made? ==> m.content == a.reply.body.value
  {
    match a
    case GaveUp(_) => Refused(InterfaceGaveUp)
    case Answered(reply) =>
      if reply.NoResponse? then Refused(InvalidInterface)
      else if reply.Text? && TruthyStr(reply.body) then Made(reply.body.value)
      else Refused(EmptyInterface)
  }

  /** The node, as a function of the state and the outside world. */
  function InterfaceSpec(s: Snapshot, w: World): NodeOut {
    var s0 := BumpInterface(s);
    match RequestError(s0)
    case Some(e) => NodeOut(s0, NoEffects, Some(e))
    case None =>
      var request := InterfaceRequest(s0);
      var r := Retry(w.script, w.pos, CallError(s0), InterfaceWait);
      var fx := Effects(r.used, 0, r.waits, [request], []);
      match InterfaceAnswer(r.outcome)
      case Refused(msg) => Refuse(s0, fx, msg)
      case Made(c) => NodeOut(s0.(interfaceContent := Val(c), success := true), fx, None)
  }

  /** The node on the shared state; `raised` is the KeyError that escapes it, if any. */
  method CreateInterface(st: ReportState, env: Env) returns (raised: Option<string>, ghost o: NodeOut)
    modifies st, env
    ensures o == InterfaceSpec(old(st.data), env.Inputs(old(env.pos), old(env.dbPos)))
    ensures st.data == o.state && Applied(env, o.fx) && raised == o.raised
  {
    o := InterfaceSpec(st.data, env.Inputs(env.pos, env.dbPos));
    st.data := BumpInterface(st.data);
    raised := RequestError(st.data);
    if raised.Some? {
      return;
    }
    var answer := env.Generate(InterfaceRequest(st.data), CallError(st.data), InterfaceWait);
    var made := InterfaceAnswer(answer);
    if made.Refused? {
      st.data := WithError(st.data, made.message);
      env.events := env.events + [Failed(st.data.sessionId, made.message)];
    } else {
      st.data := st.data.(interfaceContent := Val(made.content), success := true);
    }
  }

  /**
   * The counter goes up by exactly one, from 0 when the key was missing, on
   * every path; besides it the node changes only the interface text, the
   * error list and the success flag.
   */
  lemma InterfaceFrame(s: Snapshot, w: World)
    ensures var t := InterfaceSpec(s, w).state;
      t.interfaceAttempt == Some((if s.interfaceAttempt.Some? then s.interfaceAttempt.value else 0) + 1)
      && t == s.(interfaceAttempt := t.interfaceAttempt, interfaceContent := t.interfaceContent,
                 errors := t.errors, success := t.success)
  {
  }

  /**
   * Unless building the request raises, the node succeeds exactly when the
   * model answers with non-empty text, and then it stores that text unchanged
   * and records nothing; otherwise it appends one message, reports it, and
   * keeps the previous interface text.
   */
  lemma InterfaceOutcome(s: Snapshot, w: World)
    ensures var o := InterfaceSpec(s, w);
      var r := Retry(w.script, w.pos, CallError(BumpInterface(s)), InterfaceWait);
      o.raised.None? ==>
        (o.state.success <==> r.outcome.Answered? && r.outcome.reply.Text? && TruthyStr(r.outcome.reply.body))
    ensures var o := InterfaceSpec(s, w);
      o.raised.None? && o.state.success ==>
        o.state.interfaceContent == Val(Retry(w.script, w.pos, CallError(BumpInterface(s)), InterfaceWait).outcome.reply.body.value)
        && o.state.errors == s.errors && o.fx.events == []
    ensures var o := InterfaceSpec(s, w);
      o.raised.None? && !o.state.success ==>
        |o.state.errors| == |s.errors| + 1 && o.state.errors[..|s.errors|] == s.errors
        && o.fx.events == [Failed(s.sessionId, o.state.errors[|s.errors|])]
        && o.state.interfaceContent == s.interfaceContent
  {
    var o := InterfaceSpec(s, w);
    if o.raised.None? && !o.state.success {
      assert o.state.errors[..|s.errors|] == s.errors;
    }
  }

  /**
   * The node raises exactly when the prompt or the research text key is
   * missing; it then has only bumped its counter and called nothing.
   */
  lemma InterfaceRaises(s: Snapshot, w: World)
    ensures var o := InterfaceSpec(s, w);
      (o.raised.Some? <==> s.createPrompt.Absent? || s.researchContent.Absent?)
      && (o.raised.Some? ==> o.state == BumpInterface(s) && o.fx == NoEffects)
  {
  }

  /**
   * Three failed tries end the node with the fixed message, after waiting
   * 20 s and 40 s; the model is never asked more than three times.
   */
  lemma InterfaceGivesUp(s: Snapshot, w: World)
    requires !s.createPrompt.Absent? && !s.researchContent.Absent? && CallError(s).None?
    requires w.script(w.pos).Raised? && w.script(w.pos + 1).Raised? && w.script(w.pos + 2).Raised?
    ensures var o := InterfaceSpec(s, w);
      o.state.errors == s.errors + [InterfaceGaveUp] && !o.state.success
      && o.fx.calls == 3 && o.fx.waits == [20, 40] && o.fx.prompts == [InterfaceRequest(BumpInterface(s))]
  {
    RetryGivesUp(w.script, w.pos, InterfaceWait);
    assert CallError(BumpInterface(s)) == CallError(s);
  }

  /** At most three calls, one request, and waits of 20 s and then 40 s at most. */
  lemma InterfaceCalls(s: Snapshot, w: World)
    ensures var o := InterfaceSpec(s, w);
      o.fx.calls <= 3 && o.fx.commits == 0
      && (o.fx.waits == [] || o.fx.waits == [20] || o.fx.waits == [20, 40])
      && (o.fx.prompts == [] || o.fx.prompts == [InterfaceRequest(BumpInterface(s))])
  {
    RetryWaits(w.script, w.pos, CallError(BumpInterface(s)), InterfaceWait);
  }

  // ---------------------------------------------------------------------------
  // extract_code_node
  // ---------------------------------------------------------------------------

  /** An empty part after stripping is replaced by the given default. */
  function OrDefault(part: string, default: string): string {
    var t := Strip(part);
    if t == "" then default else t
  }

  /** What the node does with the extractor's blocks once there is interface text. */
  function Adopt(s: Snapshot, b: Blocks): NodeOut {
    if !b.success then Refuse(s, NoEffects, NotExtracted)
    else NodeOut(s.(htmlContent := Val(Strip(b.html)), cssContent := Val(OrDefault(b.css, DefaultCss)),
                    jsContent := Val(OrDefault(b.js, DefaultJs)), success := true), NoEffects, None)
  }

  /** The node, as a function of the state; it calls nothing outside. */
  function ExtractSpec(s: Snapshot): NodeOut {
    if !TruthySlot(s.interfaceContent) then Refuse(s, NoEffects, NoInterface)
    else Adopt(s, ExtractCodeBlocks(s.interfaceContent.Get()))
  }

  /** The node on the shared state. */
  method ExtractCode(st: ReportState, env: Env) returns (ghost o: NodeOut)
    modifies st, env
    ensures o == ExtractSpec(old(st.data))
    ensures st.data == o.state && Applied(env, o.fx)
  {
    o := ExtractSpec(st.data);
    if !TruthySlot(st.data.interfaceContent) {
      st.data := WithError(st.data, NoInterface);
      env.events := env.events + [Failed(st.data.sessionId, NoInterface)];
      return;
    }
    var blocks := ExtractCodeBlocks(st.data.interfaceContent.Get());
    o := AdoptBlocks(st, env, blocks);
  }

  /** `Adopt` on the shared state. */
  method AdoptBlocks(st: ReportState, env: Env, blocks: Blocks) returns (ghost o: NodeOut)
    modifies st, env
    ensures o == Adopt(old(st.data), blocks)
    ensures st.data == o.state && Applied(env, o.fx)
  {
    o := Adopt(st.data, blocks);
    if !blocks.success {
      st.data := WithError(st.data, NotExtracted);
      env.events := env.events + [Failed(st.data.sessionId, NotExtracted)];
      return;
    }
    var html := Strip(blocks.html);
    var css := Strip(blocks.css);
    var js := Strip(blocks.js);
    if css == "" {
      css := DefaultCss;
    }
    if js == "" {
      js := DefaultJs;
    }
    st.data := st.data.(htmlContent := Val(html), cssContent := Val(css), jsContent := Val(js), success := true);
  }

  /**
   * Once there is interface text, the node succeeds exactly when the
   * extractor does. It then writes all three parts, stripped, with CSS and
   * JavaScript never empty; otherwise it appends one message, reports it,
   * and leaves the three parts as they were.
   */
  lemma AdoptOutcome(s: Snapshot, b: Blocks)
    ensures var o := Adopt(s, b);
      (o.state.success <==> b.success) && o.fx.calls == 0 && o.raised.None?
    ensures var o := Adopt(s, b);
      o.state.success ==>
        o.state == s.(htmlContent := o.state.htmlContent, cssContent := o.state.cssContent,
                      jsContent := o.state.jsContent, success := true)
        && o.state.htmlContent == Val(Strip(b.html)) && o.fx.events == []
        && o.state.cssContent.Val? && o.state.cssContent.value != "" && Trimmed(o.state.cssContent.value)
        && o.state.jsContent.Val? && o.state.jsContent.value != "" && Trimmed(o.state.jsContent.value)
    ensures var o := Adopt(s, b);
      !o.state.success ==>
        o.state == WithError(s, NotExtracted) && o.fx.events == [Failed(s.sessionId, NotExtracted)]
  {
    if b.success {
      DefaultsTrimmed();
      StripTrimmed(b.css);
      StripTrimmed(b.js);
    }
  }

  /** Both defaults are non-empty and have no whitespace at either end. */
  lemma DefaultsTrimmed()
    ensures DefaultCss != "" && Trimmed(DefaultCss) && DefaultJs != "" && Trimmed(DefaultJs)
  {
  }

  /**
   * The node succeeds exactly when there is interface text and the extractor
   * accepts it; without interface text it appends its own message and
   * changes nothing else.
   */
  lemma ExtractOutcome(s: Snapshot)
    ensures var o := ExtractSpec(s);
      o.state.success <==> TruthySlot(s.interfaceContent) && ExtractCodeBlocks(s.interfaceContent.Get()).success
    ensures var o := ExtractSpec(s);
      !TruthySlot(s.interfaceContent) ==>
        o.state == WithError(s, NoInterface) && o.fx.events == [Failed(s.sessionId, NoInterface)]
  {
    if TruthySlot(s.interfaceContent) {
      AdoptOutcome(s, ExtractCodeBlocks(s.interfaceContent.Get()));
    }
  }

  /**
   * The node touches only the three parts, the error list and the success
   * flag; it never raises, calls the model or commits.
   */
  lemma ExtractFrame(s: Snapshot)
    ensures var o := ExtractSpec(s);
      o.state == s.(htmlContent := o.state.htmlContent, cssContent := o.state.cssContent,
                    jsContent := o.state.jsContent, errors := o.state.errors, success := o.state.success)
      && o.raised.None? && o.fx.calls == 0 && o.fx.commits == 0
  {
    if TruthySlot(s.interfaceContent) {
      AdoptOutcome(s, ExtractCodeBlocks(s.interfaceContent.Get()));
    }
  }

  /** What `strip()` returns has no whitespace at either end. */
  lemma StripTrimmed(t: string)
    ensures Trimmed(Strip(t))
  {
  }

  /**
   * CSS and JavaScript fences with no html fence and no html-looking tag
   * still succeed, leaving the HTML part empty.
   */
  lemma ExtractWithoutHtml(s: Snapshot)
    requires TruthySlot(s.interfaceContent)
    requires FenceBody(s.interfaceContent.value, "html").None? && !HasHtmlTag(s.interfaceContent.value)
    requires FenceBody(s.interfaceContent.value, "css").Some? && FenceBody(s.interfaceContent.value, "js").Some?
    ensures ExtractSpec(s).state.success && ExtractSpec(s).state.htmlContent == Val("")
  {
    assert Strip("") == "";
  }
}
