/**
 * The background report generator of app/services/auto_report_scheduler.py:
 * `generate_auto_research_report` (a research loop of at most `max_attempts`
 * rounds, each a three-try call to the model, kept only on a PASS verdict,
 * with a search-less fallback after an internal server error on the last
 * round; then a three-try interface call, code extraction and one database
 * row) and `start_auto_report_scheduler` (the environment switches).
 *
 * The model service, the prompt files, the client constructor, the clock's
 * date and the database are the scripted `Env` of the workflow model.
 */
module AutoReport {
  import opened Wrappers
  import opened Text
  import opened Fences
  import opened Base
  import opened Verdicts
  import opened Environment
  import ConfigManagement

  const DeepResearchPromptFile := "prompt_deep_research_report.md"
  const CreateReportPromptFile := "prompt_create_report.md"

  /** The first wait of each three-try loop; the second is twice as long. */
  const ResearchWait := 30
  const InterfaceWait := 20

  const FallbackNote := "\n\n**LUU Ý: Tạo báo cáo dựa trên kiến thức có sẵn do không thể truy cập internet.**"
  const RequestRule := "\n\n---\n\n**NỘI DUNG BÁO CÁO CẦN XỬ LÝ:**\n\n"

  // ---------------------------------------------------------------------------
  // _extract_code_blocks and _check_report_validation

  /** The dictionary `{"html", "css", "js"}` of the scheduler's extractor. */
  datatype Code = Code(html: string, css: string, js: string)

  /**
   * The scheduler's copy of the extractor: the fences and fallbacks of
   * `Base.ExtractCodeBlocks`, without the success flag.
   */
  function ExtractCode(response: Option<string>): (r: Code)
    ensures !TruthyStr(response) ==> r == Code("", NoResponseCss, NoResponseJs)
    ensures TruthyStr(response) ==>
      r.html == StrippedOr(FenceBody(response.value, "html"), "")
      && r.css == StrippedOr(FenceBody(response.value, "css"), NoCss)
      && r.js == StrippedOr(JsFence(response.value), NoJs)
  {
    var b := ExtractCodeBlocks(response);
    Code(b.html, b.css, b.js)
  }

  /**
   * A reply whose html fence, standing after backtick-free text, has a
   * non-blank body yields that stripped body as the page.
   */
  lemma ExtractCodeHtml(pre: string, body: string, post: string)
    requires NoTicks(pre) && NoTicks(body)
    ensures ExtractCode(Some(pre + Opener("html") + body + Tick + post)).html == Strip(body)
  {
    ExtractHtmlRoundTrip(pre, body, post);
  }

  // ---------------------------------------------------------------------------
  // The outside world as seen by one run

  /** The fixed parts of the world: the service script, files, client, date and database. */
  datatype Service = Service(
    script: nat -> Reply,
    files: map<string, string>,
    clientError: Option<string>,
    today: Date,
    db: nat -> DbOutcome)

  /** How far a run has got: the next reply, and the waits and prompts so far. */
  datatype Trace = Trace(pos: nat, sleeps: seq<int>, prompts: seq<string>)

  function ServiceOf(env: Env): Service {
    Service(env.script, env.files, env.clientError, env.today, env.db)
  }

  ghost function TraceOf(env: Env): Trace
    reads env
  {
    Trace(env.pos, env.sleeps, env.prompts)
  }

  /** One three-try loop with first wait `base`, and how the trace advances. */
  function Tried(script: nat -> Reply, t: Trace, prompt: string, base: int): (Attempted, Trace) {
    var o := Retry(script, t.pos, None, base);
    (o.outcome, Trace(t.pos + o.used, t.sleeps + o.waits, t.prompts + [prompt]))
  }

  // ---------------------------------------------------------------------------
  // The research loop

  /** An exception message that marks a 500 INTERNAL server error. */
  predicate Internal500(error: string) {
    Contains(error, "500") && Contains(error, "INTERNAL")
  }

  /** `_create_fallback_report_without_search`'s result: a non-empty text, or None. */
  function FallbackText(reply: Reply): (r: Option<string>)
    ensures r.Some? ==> r.value != ""
  {
    if reply.Text? && TruthyStr(reply.body) then reply.body else None
  }

  /** A research answer is kept only when it is a non-empty text with a PASS verdict. */
  function Kept(reply: Reply): (r: Option<string>)
    ensures r.Some? ==> r.value != "" && CheckReportValidation(r) == PASS
  {
    if reply.Text? && TruthyStr(reply.body) && CheckReportValidation(reply.body) == PASS then reply.body else None
  }

  /**
   * Round `attempt`: the three-try call with the search tool; its answer is
   * kept on PASS. When it gives up with a 500 INTERNAL error on the last
   * round and the fallback is enabled, one search-less call is made, and its
   * text is accepted unless its verdict is FAIL.
   */
  function ResearchRound(script: nat -> Reply, t: Trace, prompt: string, attempt: int, maxAttempts: int, useFallback: bool): (r: (Option<string>, Trace)) {
    var (out, t1) := Tried(script, t, prompt, ResearchWait);
    match out
    case Answered(reply) => (Kept(reply), t1)
    case GaveUp(error) =>
      if Internal500(error) && useFallback && attempt == maxAttempts then Fallback(script, t1, prompt)
      else (None, t1)
  }

  /** The one search-less call of the last round: its text, unless its verdict is FAIL. */
  function Fallback(script: nat -> Reply, t: Trace, prompt: string): (r: (Option<string>, Trace)) {
    var text := FallbackText(script(t.pos));
    (if text.Some? && CheckReportValidation(text) != FAIL then text else None,
     Trace(t.pos + 1, t.sleeps, t.prompts + [prompt + FallbackNote]))
  }

  /** `for attempt in range(attempt, max_attempts + 1)`, stopping at the first accepted report. */
  function ResearchLoop(script: nat -> Reply, t: Trace, prompt: string, attempt: int, maxAttempts: int, useFallback: bool): (r: (Option<string>, Trace))
    decreases maxAttempts + 1 - attempt
  {
    if attempt > maxAttempts then (None, t)
    else
      var (accepted, t1) := ResearchRound(script, t, prompt, attempt, maxAttempts, useFallback);
      if accepted.Some? then (accepted, t1)
      else ResearchLoop(script, t1, prompt, attempt + 1, maxAttempts, useFallback)
  }

  /** The rounds left from `attempt` on. */
  function Rounds(attempt: int, maxAttempts: int): nat {
    if attempt <= maxAttempts then maxAttempts - attempt + 1 else 0
  }

  /**
   * An accepted report is never empty and never has a FAIL verdict; without
   * the fallback it has a PASS verdict, so an UNKNOWN one can only come from
   * the fallback.
   */
  lemma {:induction false} AcceptedReport(script: nat -> Reply, t: Trace, prompt: string, attempt: int, maxAttempts: int, useFallback: bool)
    ensures var (accepted, _) := ResearchLoop(script, t, prompt, attempt, maxAttempts, useFallback);
      accepted.Some? ==>
        accepted.value != "" && CheckReportValidation(accepted) != FAIL
        && (!useFallback ==> CheckReportValidation(accepted) == PASS)
    decreases maxAttempts + 1 - attempt
  {
    if attempt <= maxAttempts {
      var (a, t1) := ResearchRound(script, t, prompt, attempt, maxAttempts, useFallback);
      if a.None? {
        AcceptedReport(script, t1, prompt, attempt + 1, maxAttempts, useFallback);
      }
    }
  }

  /** The trace only grows: `t2` extends `t1`, with at most `calls` more replies and `asks` more prompts. */
  predicate Extends(t1: Trace, t2: Trace, calls: nat, asks: nat) {
    t1.pos <= t2.pos <= t1.pos + calls
    && |t1.prompts| <= |t2.prompts| <= |t1.prompts| + asks && t2.prompts[..|t1.prompts|] == t1.prompts
    && |t1.sleeps| <= |t2.sleeps| && t2.sleeps[..|t1.sleeps|] == t1.sleeps
  }

  /** The waits added after `t1` are all among `waits`. */
  predicate WaitsFrom(t1: Trace, t2: Trace, a: int, b: int)
    requires |t1.sleeps| <= |t2.sleeps|
  {
    forall i :: |t1.sleeps| <= i < |t2.sleeps| ==> t2.sleeps[i] == a || t2.sleeps[i] == b
  }

  lemma TriedBounded(script: nat -> Reply, t: Trace, prompt: string, base: int)
    ensures var (_, t1) := Tried(script, t, prompt, base);
      Extends(t, t1, 3, 1) && WaitsFrom(t, t1, base, 2 * base)
  {
    RetryWaits(script, t.pos, None, base);
    var (_, t1) := Tried(script, t, prompt, base);
    assert t1.prompts[..|t.prompts|] == t.prompts;
    assert t1.sleeps[..|t.sleeps|] == t.sleeps;
  }

  lemma RoundBounded(script: nat -> Reply, t: Trace, prompt: string, attempt: int, maxAttempts: int, useFallback: bool)
    ensures var (_, t1) := ResearchRound(script, t, prompt, attempt, maxAttempts, useFallback);
      var extra := if useFallback && attempt == maxAttempts then 1 else 0;
      Extends(t, t1, 3 + extra, 1 + extra) && WaitsFrom(t, t1, ResearchWait, 2 * ResearchWait)
  {
    TriedBounded(script, t, prompt, ResearchWait);
    var (_, t1) := Tried(script, t, prompt, ResearchWait);
    var t2 := Trace(t1.pos + 1, t1.sleeps, t1.prompts + [prompt + FallbackNote]);
    assert t2.prompts[..|t.prompts|] == t1.prompts[..|t.prompts|];
  }

  /** Extension composes, adding up the bounds. */
  lemma ExtendsTrans(t1: Trace, t2: Trace, t3: Trace, c1: nat, a1: nat, c2: nat, a2: nat)
    requires Extends(t1, t2, c1, a1) && Extends(t2, t3, c2, a2)
    ensures Extends(t1, t3, c1 + c2, a1 + a2)
  {
    assert t3.prompts[..|t1.prompts|] == t3.prompts[..|t2.prompts|][..|t1.prompts|];
    assert t3.sleeps[..|t1.sleeps|] == t3.sleeps[..|t2.sleeps|][..|t1.sleeps|];
  }

  /** The waits of two extensions in a row, when both stay among `a` and `b`. */
  lemma WaitsTrans(t1: Trace, t2: Trace, t3: Trace, a: int, b: int)
    requires |t1.sleeps| <= |t2.sleeps| <= |t3.sleeps| && t3.sleeps[..|t2.sleeps|] == t2.sleeps
    requires WaitsFrom(t1, t2, a, b) && WaitsFrom(t2, t3, a, b)
    ensures WaitsFrom(t1, t3, a, b)
  {
    forall i | |t2.sleeps| > i >= |t1.sleeps|
      ensures t3.sleeps[i] == t2.sleeps[i]
    {
      assert t3.sleeps[i] == t3.sleeps[..|t2.sleeps|][i];
    }
  }

  /**
   * The research loop makes at most three calls per remaining round, plus
   * one fallback call, sends at most one prompt per round plus the fallback
   * one, and only ever waits 30 or 60 seconds.
   */
  lemma {:induction false} ResearchBounded(script: nat -> Reply, t: Trace, prompt: string, attempt: int, maxAttempts: int, useFallback: bool)
    ensures var (_, t1) := ResearchLoop(script, t, prompt, attempt, maxAttempts, useFallback);
      var n := Rounds(attempt, maxAttempts);
      var extra := if useFallback && n > 0 then 1 else 0;
      Extends(t, t1, 3 * n + extra, n + extra) && WaitsFrom(t, t1, ResearchWait, 2 * ResearchWait)
    decreases maxAttempts + 1 - attempt
  {
    var n := Rounds(attempt, maxAttempts);
    if attempt > maxAttempts {
      assert t.prompts[..|t.prompts|] == t.prompts && t.sleeps[..|t.sleeps|] == t.sleeps;
    } else {
      RoundBounded(script, t, prompt, attempt, maxAttempts, useFallback);
      var (a, t1) := ResearchRound(script, t, prompt, attempt, maxAttempts, useFallback);
      if a.None? {
        ResearchBounded(script, t1, prompt, attempt + 1, maxAttempts, useFallback);
        var t2 := ResearchLoop(script, t1, prompt, attempt + 1, maxAttempts, useFallback).1;
        var e1 := if useFallback && attempt == maxAttempts then 1 else 0;
        var m := Rounds(attempt + 1, maxAttempts);
        var e2 := if useFallback && m > 0 then 1 else 0;
        ExtendsTrans(t, t1, t2, 3 + e1, 1 + e1, 3 * m + e2, m + e2);
        WaitsTrans(t, t1, t2, ResearchWait, 2 * ResearchWait);
      }
    }
  }

  /** A PASS answer on the first try of a round is taken at once: one call, no wait. */
  lemma PassOnFirstTry(script: nat -> Reply, t: Trace, prompt: string, attempt: int, maxAttempts: int, useFallback: bool, text: string)
    requires attempt <= maxAttempts
    requires script(t.pos) == Reply.Text(Some(text)) && text != "" && CheckReportValidation(Some(text)) == PASS
    ensures ResearchLoop(script, t, prompt, attempt, maxAttempts, useFallback)
         == (Some(text), Trace(t.pos + 1, t.sleeps, t.prompts + [prompt]))
  {
    RetryAnswers(script, t.pos, ResearchWait, 0);
    assert Waits(ResearchWait, 0) == [] && t.sleeps + [] == t.sleeps;
  }

  /**
   * A round whose three tries all fail without a 500 INTERNAL error makes no
   * fallback call, whatever the settings: the next round starts after the
   * three calls and the two waits.
   */
  lemma FailedRoundMovesOn(script: nat -> Reply, t: Trace, prompt: string, attempt: int, maxAttempts: int, useFallback: bool)
    requires attempt <= maxAttempts
    requires script(t.pos).Raised? && script(t.pos + 1).Raised? && script(t.pos + 2).Raised?
    requires !Internal500(script(t.pos + 2).error)
    ensures ResearchLoop(script, t, prompt, attempt, maxAttempts, useFallback)
         == ResearchLoop(script, Trace(t.pos + 3, t.sleeps + [ResearchWait, 2 * ResearchWait], t.prompts + [prompt]),
                         prompt, attempt + 1, maxAttempts, useFallback)
  {
    RetryGivesUp(script, t.pos, ResearchWait);
  }

  // ---------------------------------------------------------------------------
  // The interface call and the whole run

  /** The interface call: its html-bearing code, or None on give-up, an empty reply or no html. */
  function Interface(script: nat -> Reply, t: Trace, request: string): (r: (Option<Code>, Trace))
    ensures r.0.Some? ==> r.0.value.html != ""
  {
    var (out, t1) := Tried(script, t, request, InterfaceWait);
    if out.Answered? && out.reply.Text? && TruthyStr(out.reply.body) then
      var code := ExtractCode(out.reply.body);
      (if code.html != "" then Some(code) else None, t1)
    else (None, t1)
  }

  /** What one run returns, the row it stored, and how far it got in the world. */
  datatype Outcome = Outcome(ok: bool, saved: Option<Code>, trace: Trace, dbPos: nat)

  /** The new row is committed: True with the row, or the exception's False without it. */
  function Persisted(s: Service, code: Code, t: Trace, dbPos: nat): Outcome {
    if s.db(dbPos).Committed? then Outcome(true, Some(code), t, dbPos + 1)
    else Outcome(false, None, t, dbPos + 1)
  }

  /** From an accepted report: the interface prompt, the interface call, the row. */
  function Presented(s: Service, report: string, t: Trace, dbPos: nat): Outcome {
    match ReadPrompt(s.files, CreateReportPromptFile)
    case None => Outcome(false, None, t, dbPos)
    case Some(createPrompt) =>
      var (code, t1) := Interface(s.script, t, createPrompt + RequestRule + report);
      if code.None? then Outcome(false, None, t1, dbPos) else Persisted(s, code.value, t1, dbPos)
  }

  /** `generate_auto_research_report(api_key, max_attempts, use_fallback_on_500)`. */
  function Generated(s: Service, apiKey: Option<string>, maxAttempts: int, useFallback: bool, t: Trace, dbPos: nat): Outcome {
    if !TruthyStr(apiKey) then Outcome(false, None, t, dbPos)
    else match ReadPrompt(s.files, DeepResearchPromptFile)
      case None => Outcome(false, None, t, dbPos)
      case Some(raw) =>
        if s.clientError.Some? then Outcome(false, None, t, dbPos)
        else
          var prompt := ReplaceDatePlaceholders(raw, s.today);
          var (accepted, t1) := ResearchLoop(s.script, t, prompt, 1, maxAttempts, useFallback);
          if accepted.None? then Outcome(false, None, t1, dbPos) else Presented(s, accepted.value, t1, dbPos)
  }

  /**
   * The run reports success exactly when it stored a row, and then the row
   * has a page and its commit went through; it commits at most once.
   */
  lemma OkMeansStored(s: Service, apiKey: Option<string>, maxAttempts: int, useFallback: bool, t: Trace, dbPos: nat)
    ensures var o := Generated(s, apiKey, maxAttempts, useFallback, t, dbPos);
      (o.ok <==> o.saved.Some?)
      && (o.ok ==> o.saved.value.html != "" && o.dbPos == dbPos + 1 && s.db(dbPos).Committed?)
      && (o.dbPos == dbPos || o.dbPos == dbPos + 1)
  {
  }

  /** A falsy key stops the run before it reads, calls, waits or writes anything. */
  lemma BadKeyDoesNothing(s: Service, apiKey: Option<string>, maxAttempts: int, useFallback: bool, t: Trace, dbPos: nat)
    requires !TruthyStr(apiKey)
    ensures Generated(s, apiKey, maxAttempts, useFallback, t, dbPos) == Outcome(false, None, t, dbPos)
  {
  }

  /** With no rounds (`max_attempts < 1`) the run fails without calling the model. */
  lemma NoRoundsNoReport(s: Service, apiKey: Option<string>, maxAttempts: int, useFallback: bool, t: Trace, dbPos: nat)
    requires maxAttempts < 1
    ensures var o := Generated(s, apiKey, maxAttempts, useFallback, t, dbPos);
      !o.ok && o.trace == t && o.dbPos == dbPos
  {
  }

  /**
   * A stored report came from an accepted research report: with the fallback
   * disabled, the model's text of some round had a PASS verdict, which is
   * what the interface request carries after the create-report prompt.
   */
  lemma StoredNeedsAcceptedReport(s: Service, apiKey: Option<string>, maxAttempts: int, useFallback: bool, t: Trace, dbPos: nat)
    requires Generated(s, apiKey, maxAttempts, useFallback, t, dbPos).ok
    ensures TruthyStr(apiKey) && s.clientError.None? && 1 <= maxAttempts
    ensures var prompt := ReplaceDatePlaceholders(ReadPrompt(s.files, DeepResearchPromptFile).value, s.today);
      var accepted := ResearchLoop(s.script, t, prompt, 1, maxAttempts, useFallback).0;
      accepted.Some? && CheckReportValidation(accepted) != FAIL
      && (!useFallback ==> CheckReportValidation(accepted) == PASS)
  {
    var prompt := ReplaceDatePlaceholders(ReadPrompt(s.files, DeepResearchPromptFile).value, s.today);
    AcceptedReport(s.script, t, prompt, 1, maxAttempts, useFallback);
  }

  /** The interface stage makes at most three calls, one prompt, and waits 20 or 40 seconds. */
  lemma PresentedBounded(s: Service, report: string, t: Trace, dbPos: nat)
    ensures var o := Presented(s, report, t, dbPos);
      Extends(t, o.trace, 3, 1) && WaitsFrom(t, o.trace, InterfaceWait, 2 * InterfaceWait)
  {
    var o := Presented(s, report, t, dbPos);
    if ReadPrompt(s.files, CreateReportPromptFile).Some? {
      var request := ReadPrompt(s.files, CreateReportPromptFile).value + RequestRule + report;
      TriedBounded(s.script, t, request, InterfaceWait);
      assert o.trace == Tried(s.script, t, request, InterfaceWait).1;
    } else {
      assert t.prompts[..|t.prompts|] == t.prompts && t.sleeps[..|t.sleeps|] == t.sleeps;
    }
  }

  /** Every wait added after `t1` is one of the four back-off delays. */
  predicate Backoffs(t1: Trace, t2: Trace)
    requires |t1.sleeps| <= |t2.sleeps|
  {
    forall i :: |t1.sleeps| <= i < |t2.sleeps| ==> t2.sleeps[i] in {20, 30, 40, 60}
  }

  lemma BackoffsJoin(t1: Trace, t2: Trace, t3: Trace, c1: nat, a1: nat, c2: nat, a2: nat)
    requires Extends(t1, t2, c1, a1) && Extends(t2, t3, c2, a2)
    requires WaitsFrom(t1, t2, ResearchWait, 2 * ResearchWait) && WaitsFrom(t2, t3, InterfaceWait, 2 * InterfaceWait)
    ensures Extends(t1, t3, c1 + c2, a1 + a2) && Backoffs(t1, t3)
  {
    ExtendsTrans(t1, t2, t3, c1, a1, c2, a2);
    forall i | |t1.sleeps| <= i < |t3.sleeps|
      ensures t3.sleeps[i] in {20, 30, 40, 60}
    {
      if i < |t2.sleeps| {
        assert t3.sleeps[i] == t3.sleeps[..|t2.sleeps|][i];
      }
    }
  }

  /**
   * A whole run makes at most `3 * max_attempts + 1 + 3` model calls, sends
   * at most `max_attempts + 2` prompts, and only waits 30 or 60 seconds
   * (research) or 20 or 40 seconds (interface).
   */
  lemma RunBounded(s: Service, apiKey: Option<string>, maxAttempts: int, useFallback: bool, t: Trace, dbPos: nat)
    ensures var o := Generated(s, apiKey, maxAttempts, useFallback, t, dbPos);
      Extends(t, o.trace, 3 * Rounds(1, maxAttempts) + 4, Rounds(1, maxAttempts) + 2) && Backoffs(t, o.trace)
  {
    var o := Generated(s, apiKey, maxAttempts, useFallback, t, dbPos);
    var n := Rounds(1, maxAttempts);
    if TruthyStr(apiKey) && ReadPrompt(s.files, DeepResearchPromptFile).Some? && s.clientError.None? {
      var prompt := ReplaceDatePlaceholders(ReadPrompt(s.files, DeepResearchPromptFile).value, s.today);
      ResearchBounded(s.script, t, prompt, 1, maxAttempts, useFallback);
      var (accepted, t1) := ResearchLoop(s.script, t, prompt, 1, maxAttempts, useFallback);
      var e := if useFallback && n > 0 then 1 else 0;
      if accepted.Some? {
        PresentedBounded(s, accepted.value, t1, dbPos);
        assert o == Presented(s, accepted.value, t1, dbPos);
        BackoffsJoin(t, t1, o.trace, 3 * n + e, n + e, 3, 1);
      } else {
        assert o.trace == t1;
      }
    } else {
      assert t.prompts[..|t.prompts|] == t.prompts && t.sleeps[..|t.sleeps|] == t.sleeps;
    }
  }

  // ---------------------------------------------------------------------------
  // The imperative run

  /** One research round against the world. */
  method Round(env: Env, prompt: string, attempt: int, maxAttempts: int, useFallback: bool) returns (accepted: Option<string>)
    modifies env
    ensures (accepted, TraceOf(env)) == ResearchRound(env.script, old(TraceOf(env)), prompt, attempt, maxAttempts, useFallback)
    ensures env.dbPos == old(env.dbPos) && env.events == old(env.events)
  {
    var out := env.Generate(prompt, None, ResearchWait);
    ghost var t1 := TraceOf(env);
    assert (out, t1) == Tried(env.script, old(TraceOf(env)), prompt, ResearchWait);
    match out
    case Answered(reply) =>
      accepted := Kept(reply);
    case GaveUp(error) =>
      accepted := None;
      if Internal500(error) && useFallback && attempt == maxAttempts {
        accepted := AskFallback(env, prompt);
      }
  }

  /** The fallback call against the world. */
  method AskFallback(env: Env, prompt: string) returns (accepted: Option<string>)
    modifies env
    ensures (accepted, TraceOf(env)) == Fallback(env.script, old(TraceOf(env)), prompt)
    ensures env.dbPos == old(env.dbPos) && env.events == old(env.events)
  {
    var reply := env.Ask(prompt + FallbackNote);
    var text := FallbackText(reply);
    accepted := None;
    if text.Some? && CheckReportValidation(text) != FAIL {
      accepted := text;
    }
  }

  /** The research loop against the world. */
  method Research(env: Env, prompt: string, maxAttempts: int, useFallback: bool) returns (accepted: Option<string>)
    modifies env
    ensures (accepted, TraceOf(env)) == ResearchLoop(env.script, old(TraceOf(env)), prompt, 1, maxAttempts, useFallback)
    ensures env.dbPos == old(env.dbPos) && env.events == old(env.events)
  {
    var attempt := 1;
    while attempt <= maxAttempts
      invariant attempt >= 1
      invariant ResearchLoop(env.script, old(TraceOf(env)), prompt, 1, maxAttempts, useFallback)
             == ResearchLoop(env.script, TraceOf(env), prompt, attempt, maxAttempts, useFallback)
      invariant env.dbPos == old(env.dbPos) && env.events == old(env.events)
      decreases maxAttempts + 1 - attempt
    {
      accepted := Round(env, prompt, attempt, maxAttempts, useFallback);
      if accepted.Some? {
        return;
      }
      attempt := attempt + 1;
    }
    accepted := None;
  }

  /** The interface call against the world. */
  method InterfaceCall(env: Env, request: string) returns (code: Option<Code>)
    modifies env
    ensures (code, TraceOf(env)) == Interface(env.script, old(TraceOf(env)), request)
    ensures env.dbPos == old(env.dbPos) && env.events == old(env.events)
  {
    var out := env.Generate(request, None, InterfaceWait);
    assert (out, TraceOf(env)) == Tried(env.script, old(TraceOf(env)), request, InterfaceWait);
    code := None;
    if out.Answered? && out.reply.Text? && TruthyStr(out.reply.body) {
      var c := ExtractCode(out.reply.body);
      if c.html != "" {
        code := Some(c);
      }
    }
  }

  /** The interface prompt, the interface call and the row, from an accepted report. */
  method Present(env: Env, report: string) returns (ok: bool, ghost saved: Option<Code>)
    modifies env
    ensures var o := Presented(ServiceOf(env), report, old(TraceOf(env)), old(env.dbPos));
      ok == o.ok && saved == o.saved && TraceOf(env) == o.trace && env.dbPos == o.dbPos
    ensures env.events == old(env.events)
  {
    var createPrompt := ReadPrompt(env.files, CreateReportPromptFile);
    if createPrompt.None? {
      return false, None;
    }
    var code := InterfaceCall(env, createPrompt.value + RequestRule + report);
    if code.None? {
      return false, None;
    }
    var committed := env.Commit();
    if committed.Committed? {
      return true, code;
    }
    return false, None;
  }

  /** `generate_auto_research_report` against the world. */
  method GenerateAutoResearchReport(env: Env, apiKey: Option<string>, maxAttempts: int, useFallback: bool)
    returns (ok: bool, ghost saved: Option<Code>)
    modifies env
    ensures var o := Generated(ServiceOf(env), apiKey, maxAttempts, useFallback, old(TraceOf(env)), old(env.dbPos));
      ok == o.ok && saved == o.saved && TraceOf(env) == o.trace && env.dbPos == o.dbPos
    ensures env.events == old(env.events)
  {
    if !TruthyStr(apiKey) {
      return false, None;
    }
    var raw := ReadPrompt(env.files, DeepResearchPromptFile);
    if raw.None? || env.clientError.Some? {
      return false, None;
    }
    var prompt := ReplaceDatePlaceholders(raw.value, env.today);
    var accepted := Research(env, prompt, maxAttempts, useFallback);
    if accepted.None? {
      return false, None;
    }
    ok, saved := Present(env, accepted.value);
  }

  // ---------------------------------------------------------------------------
  // start_auto_report_scheduler

  /** What starting the scheduler does: schedules runs, declines, or raises on a bad interval. */
  datatype Start = Scheduled(apiKey: string, intervalHours: int) | NotStarted | BadInterval

  /** `os.getenv(name, default)`. */
  function GetenvOr(vars: map<string, string>, name: string, default: string): string {
    var v := ConfigManagement.Getenv(vars, name);
    if v.Some? then v.value else default
  }

  /** `int(s)` for an optional sign and decimal digits between whitespace; None where it raises. */
  function ParseInt(s: string): (r: Option<int>) {
    var t := Strip(s);
    if |t| > 1 && (t[0] == '+' || t[0] == '-') && AllDigits(t[1..]) then
      var v: int := DigitsValue(t[1..]);
      Some(if t[0] == '-' then -v else v)
    else if t != "" && AllDigits(t) then Some(DigitsValue(t))
    else None
  }

  /** `int(str(n)) == n`: the interval written as digits is read back. */
  lemma ParseIntRoundTrip(n: nat)
    ensures ParseInt(NatToString(n)) == Some(n)
  {
    var s := NatToString(n);
    assert !IsSpace(s[0]) && !IsSpace(s[|s| - 1]);
    assert StripLeft(s) == s;
    assert StripRight(s) == s;
    NatToStringRoundTrip(n);
  }

  /**
   * `start_auto_report_scheduler`: no `GEMINI_API_KEY` (or an empty one)
   * declines; so does `ENABLE_AUTO_REPORT_SCHEDULER` being anything but
   * "true" in any letter case (default "false"); otherwise runs are scheduled
   * every `AUTO_REPORT_INTERVAL_HOURS` hours (default 3).
   */
  function StartAutoReportScheduler(vars: map<string, string>): Start {
    var key := ConfigManagement.Getenv(vars, "GEMINI_API_KEY");
    if !TruthyStr(key) then NotStarted
    else if Lower(GetenvOr(vars, "ENABLE_AUTO_REPORT_SCHEDULER", "false")) != "true" then NotStarted
    else match ParseInt(GetenvOr(vars, "AUTO_REPORT_INTERVAL_HOURS", "3"))
      case None => BadInterval
      case Some(h) => Scheduled(key.value, h)
  }

  /**
   * The function returns True exactly when it schedules: a non-empty key and
   * the switch equal to "true" in any letter case schedule runs every parsed
   * interval, or raise on an interval `int()` refuses; anything else declines.
   */
  lemma StartMeaning(vars: map<string, string>)
    ensures var r := StartAutoReportScheduler(vars);
      var key := ConfigManagement.Getenv(vars, "GEMINI_API_KEY");
      var on := Lower(GetenvOr(vars, "ENABLE_AUTO_REPORT_SCHEDULER", "false")) == "true";
      var hours := ParseInt(GetenvOr(vars, "AUTO_REPORT_INTERVAL_HOURS", "3"));
      (r.Scheduled? ==> TruthyStr(key) && on)
      && (TruthyStr(key) && on && hours.Some? ==> r == Scheduled(key.value, hours.value))
      && (TruthyStr(key) && on && hours.None? <==> r == BadInterval)
      && (!TruthyStr(key) || !on <==> r == NotStarted)
      && ("ENABLE_AUTO_REPORT_SCHEDULER" !in vars ==> r == NotStarted)
  {
    SwitchDefaultOff("false");
  }

  /** The switch's default reads as off. */
  lemma SwitchDefaultOff(d: string)
    requires d == "false"
    ensures Lower(d) != "true"
  {
    assert Lower(d)[0] == 'f';
  }

  /**
   * With a non-empty key, the switch on and no interval given, runs are
   * every 3 hours, whatever else the environment holds.
   */
  lemma StartDefaultInterval(vars: map<string, string>)
    requires TruthyStr(ConfigManagement.Getenv(vars, "GEMINI_API_KEY"))
    requires Lower(GetenvOr(vars, "ENABLE_AUTO_REPORT_SCHEDULER", "false")) == "true"
    requires "AUTO_REPORT_INTERVAL_HOURS" !in vars
    ensures StartAutoReportScheduler(vars) == Scheduled(vars["GEMINI_API_KEY"], 3)
  {
    DefaultIntervalParsed("3");
  }

  /** The default interval text reads as 3. */
  lemma DefaultIntervalParsed(d: string)
    requires d == "3"
    ensures ParseInt(d) == Some(3)
  {
    ParseIntRoundTrip(3);
    assert NatToString(3) == d;
  }

  /** For example, a key and "TRUE" alone schedule runs every 3 hours. */
  lemma StartExample(vars: map<string, string>, key: string)
    requires key != "" && vars == map["GEMINI_API_KEY" := key, "ENABLE_AUTO_REPORT_SCHEDULER" := "TRUE"]
    ensures StartAutoReportScheduler(vars) == Scheduled(key, 3)
  {
    ExampleIntervalAbsent(vars, key);
    SwitchOn(vars["ENABLE_AUTO_REPORT_SCHEDULER"]);
    StartDefaultInterval(vars);
  }

  /** In that example the interval variable is not set. */
  lemma ExampleIntervalAbsent(vars: map<string, string>, key: string)
    requires vars == map["GEMINI_API_KEY" := key, "ENABLE_AUTO_REPORT_SCHEDULER" := "TRUE"]
    ensures "AUTO_REPORT_INTERVAL_HOURS" !in vars
    ensures vars["GEMINI_API_KEY"] == key && vars["ENABLE_AUTO_REPORT_SCHEDULER"] == "TRUE"
  {
    assert |"AUTO_REPORT_INTERVAL_HOURS"| == 26;
    assert |"GEMINI_API_KEY"| == 14 && |"ENABLE_AUTO_REPORT_SCHEDULER"| == 28;
  }

  /** "TRUE" lowers to the switch's "true". */
  lemma SwitchOn(v: string)
    requires v == "TRUE"
    ensures Lower(v) == "true"
  {
  }
}
