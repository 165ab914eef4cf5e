/**
 * The component nodes of the second workflow, `create_html_node`,
 * `create_javascript_node` and `create_css_node`, and their extractors. The
 * three nodes differ only in their counter, prompt file, request, messages,
 * extractor and what an empty extraction means, so they are one node over a
 * `Part`.
 */
module Components {
  import opened Wrappers
  import opened Text
  import opened Fences
  import opened Environment
  import opened ReportStates

  datatype Part = HtmlPart | JsPart | CssPart

  /** Seconds slept after the first failed try; the second waits twice as long. */
  const ComponentWait := 20

  const DefaultJs := "// JavaScript được tạo tự động" + "\n" + "console.log('Report loaded successfully');"
  const DefaultCss := "/* CSS được tạo tự động */" + "\n" + "body { font-family: Arial, sans-serif; margin: 20px; }"
  const NoHtmlExtracted := "Không thể trích xuất HTML từ phản hồi AI"

  // ---------------------------------------------------------------------------
  // The extractors
  // ---------------------------------------------------------------------------

  /**
   * `_extract_html`: the stripped body of the first html fence; without a
   * fence, the whole stripped response when it holds an html-looking tag.
   * A fence whose body is blank gives "" even when tags follow.
   */
  function ExtractHtml(text: string): (r: string)
    ensures Trimmed(r)
  {
    if text == "" then ""
    else match FenceBody(text, "html")
      case Some(body) => Strip(body)
      case None => if HasHtmlTag(text) then Strip(text) else ""
  }

  /** `_extract_javascript`: a "```javascript" fence, else a "```js" fence, else "". */
  function ExtractJavascript(text: string): (r: string)
    ensures Trimmed(r)
  {
    if text == "" then ""
    else match FenceBody(text, "javascript")
      case Some(body) => Strip(body)
      case None =>
        match FenceBody(text, "js")
        case Some(body) => Strip(body)
        case None => ""
  }

  /** `_extract_css`: the stripped body of the first css fence, or "". */
  function ExtractCss(text: string): (r: string)
    ensures Trimmed(r)
  {
    if text == "" then ""
    else match FenceBody(text, "css")
      case Some(body) => Strip(body)
      case None => ""
  }

  function Extract(p: Part, text: string): string {
    match p
    case HtmlPart => ExtractHtml(text)
    case JsPart => ExtractJavascript(text)
    case CssPart => ExtractCss(text)
  }

  /** No whitespace at either end; what every extractor returns. */
  predicate Trimmed(r: string) {
    r == "" || (!IsSpace(r[0]) && !IsSpace(r[|r| - 1]))
  }

  /** A fence written after backtick-free text is found, and its body comes back stripped. */
  lemma ExtractRoundTrip(p: Part, pre: string, body: string, post: string)
    requires NoTicks(pre) && NoTicks(body)
    ensures var lang := if p == HtmlPart then "html" else if p == JsPart then "javascript" else "css";
      Extract(p, pre + Opener(lang) + body + Tick + post) == Strip(body)
  {
    var lang := if p == HtmlPart then "html" else if p == JsPart then "javascript" else "css";
    FenceRoundTrip(pre, lang, body, post);
  }

  /** "```js" is read only when there is no "```javascript" fence anywhere. */
  lemma JavascriptPreferred(text: string)
    requires text != ""
    ensures HasFence(text, "javascript") ==> ExtractJavascript(text) == Strip(FenceBody(text, "javascript").value)
    ensures !HasFence(text, "javascript") ==>
      ExtractJavascript(text) == (if HasFence(text, "js") then Strip(FenceBody(text, "js").value) else "")
  {
    FenceBodyFound(text, "javascript");
    FenceBodyFound(text, "js");
  }

  /**
   * A tag-bearing response without an html fence is kept whole (stripped),
   * but a blank html fence hides the tags.
   */
  lemma HtmlWithoutFence(text: string)
    requires text != "" && HasHtmlTag(text)
    ensures !HasFence(text, "html") ==> ExtractHtml(text) == Strip(text)
    ensures FenceBody(text, "html") == Some("") ==> ExtractHtml(text) == ""
  {
    FenceBodyFound(text, "html");
    assert Strip("") == "";
  }

  // ---------------------------------------------------------------------------
  // The nodes
  // ---------------------------------------------------------------------------

  function PromptFile(p: Part): string {
    match p
    case HtmlPart => "prompt_create_html.md"
    case JsPart => "prompt_create_javascript.md"
    case CssPart => "prompt_create_css.md"
  }

  function Name(p: Part): string {
    match p
    case HtmlPart => "HTML"
    case JsPart => "JavaScript"
    case CssPart => "CSS"
  }

  function NoPromptMsg(p: Part): string {
    "Không thể đọc prompt tạo " + Name(p)
  }

  function GaveUpMsg(p: Part, e: string): string {
    "Không thể tạo " + Name(p) + " sau 3 lần thử: " + e
  }

  function NoContentMsg(p: Part): string {
    "Không nhận được nội dung " + Name(p) + " từ AI"
  }

  /** The part's attempt counter, when the key is present. */
  function AttemptOf(p: Part, s: Snapshot): Option<int> {
    match p
    case HtmlPart => s.htmlAttempt
    case JsPart => s.jsAttempt
    case CssPart => s.cssAttempt
  }

  /** `state.setdefault(key, 0); state[key] += 1`. */
  function Bump(p: Part, s: Snapshot): Snapshot {
    var n := Some((if AttemptOf(p, s).Some? then AttemptOf(p, s).value else 0) + 1);
    match p
    case HtmlPart => s.(htmlAttempt := n)
    case JsPart => s.(jsAttempt := n)
    case CssPart => s.(cssAttempt := n)
  }

  function Store(p: Part, s: Snapshot, content: string): Snapshot {
    match p
    case HtmlPart => s.(htmlContent := Val(content), success := true)
    case JsPart => s.(jsContent := Val(content), success := true)
    case CssPart => s.(cssContent := Val(content), success := true)
  }

  /** `state.get('report_content') or state.get('research_content', '')`. */
  function ReportText(s: Snapshot): string {
    if TruthySlot(s.reportContent) then s.reportContent.value else ShowOr(s.researchContent, "")
  }

  /** The request: the prompt, a rule, and the report (HTML) or the HTML built so far (JS, CSS). */
  function Request(p: Part, s: Snapshot, prompt: string): string {
    if p == HtmlPart then prompt + "\n\n---\n\n**NỘI DUNG BÁO CÁO:**\n\n" + ReportText(s)
    else prompt + "\n\n---\n\n**HTML ĐÃ TẠO:**\n\n" + ShowOr(s.htmlContent, "")
  }

  /** What the node makes of the retry loop's outcome: content to store, or an error. */
  datatype Made = Made(content: string) | Refused(message: string)

  function Produce(p: Part, a: Attempted): (m: Made)
    ensures m.Made? ==> m.content != ""
  {
    match a
    case GaveUp(e) => Refused(GaveUpMsg(p, e))
    case Answered(reply) =>
      if !(reply.Text? && TruthyStr(reply.body)) then Refused(NoContentMsg(p))
      else
        var c := Extract(p, reply.body.value);
        if c != "" then Made(c)
        else if p == HtmlPart then Refused(NoHtmlExtracted)
        else if p == JsPart then Made(DefaultJs)
        else Made(DefaultCss)
  }

  /** A failure: one message appended and reported to the progress tracker. */
  function Refuse(s: Snapshot, fx: Effects, msg: string): NodeOut {
    NodeOut(WithError(s, msg), fx.(events := [Failed(s.sessionId, msg)]), None)
  }

  /** The node, as a function of the state and the outside world. */
  function ComponentSpec(p: Part, s: Snapshot, w: World): NodeOut {
    var s0 := Bump(p, s);
    match ReadPrompt(w.files, PromptFile(p))
    case None => Refuse(s0, NoEffects, NoPromptMsg(p))
    case Some(prompt) =>
      var request := Request(p, s0, prompt);
      var r := Retry(w.script, w.pos, CallError(s0), ComponentWait);
      var fx := Effects(r.used, 0, r.waits, [request], []);
      match Produce(p, r.outcome)
      case Refused(msg) => Refuse(s0, fx, msg)
      case Made(c) => NodeOut(Store(p, s0, c), fx, None)
  }

  /** The node on the shared state. */
  method CreateComponent(p: Part, st: ReportState, env: Env) returns (ghost o: NodeOut)
    modifies st, env
    ensures o == ComponentSpec(p, old(st.data), env.Inputs(old(env.pos), old(env.dbPos)))
    ensures st.data == o.state && Applied(env, o.fx)
  {
    o := ComponentSpec(p, st.data, env.Inputs(env.pos, env.dbPos));
    st.data := Bump(p, st.data);
    var session := st.data.sessionId;
    var prompt := ReadPrompt(env.files, PromptFile(p));
    if prompt.None? {
      st.data := WithError(st.data, NoPromptMsg(p));
      env.events := env.events + [Failed(session, NoPromptMsg(p))];
      return;
    }
    var answer := env.Generate(Request(p, st.data, prompt.value), CallError(st.data), ComponentWait);
    var made := Produce(p, answer);
    if made.Refused? {
      st.data := WithError(st.data, made.message);
      env.events := env.events + [Failed(session, made.message)];
    } else {
      st.data := Store(p, st.data, made.content);
    }
  }

  /**
   * The node increments its own counter (from 0 when the key is missing)
   * and changes only its content, the error list and the success flag.
   */
  lemma ComponentFrame(p: Part, s: Snapshot, w: World)
    ensures var t := ComponentSpec(p, s, w).state;
      var base := Bump(p, s).(errors := t.errors, success := t.success);
      AttemptOf(p, t) == Some((if AttemptOf(p, s).Some? then AttemptOf(p, s).value else 0) + 1)
      && (p == HtmlPart ==> t == base.(htmlContent := t.htmlContent))
      && (p == JsPart ==> t == base.(jsContent := t.jsContent))
      && (p == CssPart ==> t == base.(cssContent := t.cssContent))
  {
    var s0 := Bump(p, s);
    if ReadPrompt(w.files, PromptFile(p)).Some? {
      var r := Retry(w.script, w.pos, CallError(s0), ComponentWait);
      match Produce(p, r.outcome)
      case Refused(msg) =>
      case Made(c) => assert ComponentSpec(p, s, w).state == Store(p, s0, c);
    }
  }

  /**
   * The node succeeds exactly when its prompt is readable and the model
   * answers with text; for HTML that text must also yield HTML. JavaScript
   * and CSS fall back to a fixed default instead.
   */
  lemma ComponentSucceedsIff(p: Part, s: Snapshot, w: World)
    ensures var o := ComponentSpec(p, s, w);
      var r := Retry(w.script, w.pos, CallError(Bump(p, s)), ComponentWait);
      o.state.success <==>
        ReadPrompt(w.files, PromptFile(p)).Some?
        && r.outcome.Answered? && r.outcome.reply.Text? && TruthyStr(r.outcome.reply.body)
        && (p == HtmlPart ==> ExtractHtml(r.outcome.reply.body.value) != "")
  {
  }

  /**
   * On success the part's content is non-empty and nothing is reported; on
   * failure exactly one message is appended and the same message reported.
   */
  lemma ComponentOutcome(p: Part, s: Snapshot, w: World)
    ensures var o := ComponentSpec(p, s, w);
      o.state.success ==>
        (o.state.errors == s.errors && o.fx.events == []
         && match p
            case HtmlPart => TruthySlot(o.state.htmlContent)
            case JsPart => TruthySlot(o.state.jsContent)
            case CssPart => TruthySlot(o.state.cssContent))
    ensures var o := ComponentSpec(p, s, w);
      !o.state.success ==>
        (|o.state.errors| == |s.errors| + 1 && o.state.errors[..|s.errors|] == s.errors
         && o.fx.events == [Failed(s.sessionId, o.state.errors[|s.errors|])])
  {
    var o := ComponentSpec(p, s, w);
    if !o.state.success {
      assert o.state.errors[..|s.errors|] == s.errors;
    }
  }

  /**
   * The model is asked at most three times, with one request, sleeping 20 s
   * and then 40 s at most; the JavaScript and CSS requests carry the HTML
   * built so far.
   */
  lemma ComponentCalls(p: Part, s: Snapshot, w: World)
    ensures var o := ComponentSpec(p, s, w);
      o.fx.calls <= 3 && o.fx.commits == 0 && o.raised.None?
      && (o.fx.waits == [] || o.fx.waits == [20] || o.fx.waits == [20, 40])
    ensures var o := ComponentSpec(p, s, w);
      p != HtmlPart && ReadPrompt(w.files, PromptFile(p)).Some? ==>
        o.fx.prompts == [w.files[PromptFile(p)] + "\n\n---\n\n**HTML ĐÃ TẠO:**\n\n" + ShowOr(s.htmlContent, "")]
  {
    RetryWaits(w.script, w.pos, CallError(Bump(p, s)), ComponentWait);
  }
}
