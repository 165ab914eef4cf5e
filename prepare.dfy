/**
 * `prepare_data_node`: checks the API key, reads the three prompt files,
 * builds the Gemini client and caches the real-time market data, returning at
 * the first step that fails.
 */
module PrepareData {
  import opened Wrappers
  import opened Base
  import opened Environment
  import opened ReportStates

  const ResearchPromptFile := "prompt_combined_research_validation.md"
  const ValidationPromptFile := "prompt_data_validation.md"
  const CreatePromptFile := "prompt_create_report.md"
  const ModelName := "gemini-2.5-flash"

  const BadKeyMsg := "API key không hợp lệ"
  const NoResearchPromptMsg := "Không thể đọc prompt combined research + validation"
  const ClientErrorPrefix := "Lỗi khi khởi tạo Gemini client: "
  const NoValidationPromptMsg := "Không thể đọc prompt data validation"
  const NoCreatePromptMsg := "Không thể đọc prompt tạo giao diện"

  /** Appending `msg` and telling the progress tracker about it. */
  function Fail(s: Snapshot, msg: string): NodeOut {
    NodeOut(WithError(s, msg), NoEffects.(events := [Failed(s.sessionId, msg)]), None)
  }

  /** The node, as a function of the state and the outside world. */
  function PrepareSpec(s: Snapshot, w: World): NodeOut {
    if !TruthyStr(s.apiKey) then Fail(s, BadKeyMsg)
    else
      var s1 := s.(researchPromptPath := Val(ResearchPromptFile),
                   validationPromptPath := Val(ValidationPromptFile),
                   createPromptPath := Val(CreatePromptFile));
      match ReadPrompt(w.files, ResearchPromptFile)
      case None => Fail(s1, NoResearchPromptMsg)
      case Some(research) =>
        var s2 := s1.(researchPrompt := Val(ReplaceDatePlaceholders(research, w.today)));
        if w.clientError.Some? then Fail(s2, ClientErrorPrefix + w.clientError.value)
        else LoadRest(s2.(client := Val(Client(s.apiKey.value)), model := Val(ModelName)), w)
  }

  /** The rest of the node once the client exists: the other two prompts, then the market data. */
  function LoadRest(s: Snapshot, w: World): NodeOut {
    match ReadPrompt(w.files, ValidationPromptFile)
    case None => Fail(s, NoValidationPromptMsg)
    case Some(validation) =>
      var s1 := s.(validationPrompt := Val(validation));
      match ReadPrompt(w.files, CreatePromptFile)
      case None => Fail(s1, NoCreatePromptMsg)
      case Some(create) =>
        var data := MergeRealtime(w.market.0, w.market.1, w.market.2);
        var s2 := s1.(createPrompt := Val(create), currentAttempt := 0,
                      realtimeData := if data.Some? then Val(data.value) else Null,
                      success := true);
        NodeOut(s2, NoEffects, None)
  }

  /**
   * The node on the shared state. `o` is what the node specification says it
   * does; the state and the environment end up exactly as `o` describes.
   */
  method Prepare(st: ReportState, env: Env) returns (ghost o: NodeOut)
    modifies st, env
    ensures o == PrepareSpec(old(st.data), env.Inputs(old(env.pos), old(env.dbPos)))
    ensures st.data == o.state && Applied(env, o.fx)
  {
    o := PrepareSpec(st.data, env.Inputs(env.pos, env.dbPos));
    var session := st.data.sessionId;
    if !TruthyStr(st.data.apiKey) {
      assert o == Fail(st.data, BadKeyMsg);
      st.data := WithError(st.data, BadKeyMsg);
      env.events := env.events + [Failed(session, BadKeyMsg)];
      return;
    }
    st.data := st.data.(researchPromptPath := Val(ResearchPromptFile),
                        validationPromptPath := Val(ValidationPromptFile),
                        createPromptPath := Val(CreatePromptFile));
    var research := ReadPrompt(env.files, ResearchPromptFile);
    if research.None? {
      assert o == Fail(st.data, NoResearchPromptMsg);
      st.data := WithError(st.data, NoResearchPromptMsg);
      env.events := env.events + [Failed(session, NoResearchPromptMsg)];
      return;
    }
    st.data := st.data.(researchPrompt := Val(ReplaceDatePlaceholders(research.value, env.today)));
    if env.clientError.Some? {
      var msg := ClientErrorPrefix + env.clientError.value;
      assert o == Fail(st.data, msg);
      st.data := WithError(st.data, msg);
      env.events := env.events + [Failed(session, msg)];
      return;
    }
    st.data := st.data.(client := Val(Client(st.data.apiKey.value)), model := Val(ModelName));
    assert o == LoadRest(st.data, env.Inputs(env.pos, env.dbPos));
    o := PrepareRest(st, env);
  }

  /** `LoadRest` on the shared state. */
  method PrepareRest(st: ReportState, env: Env) returns (ghost o: NodeOut)
    modifies st, env
    ensures o == LoadRest(old(st.data), env.Inputs(old(env.pos), old(env.dbPos)))
    ensures st.data == o.state && Applied(env, o.fx)
  {
    o := LoadRest(st.data, env.Inputs(env.pos, env.dbPos));
    var session := st.data.sessionId;
    var validation := ReadPrompt(env.files, ValidationPromptFile);
    if validation.None? {
      assert o == Fail(st.data, NoValidationPromptMsg);
      st.data := WithError(st.data, NoValidationPromptMsg);
      env.events := env.events + [Failed(session, NoValidationPromptMsg)];
      return;
    }
    st.data := st.data.(validationPrompt := Val(validation.value));
    var create := ReadPrompt(env.files, CreatePromptFile);
    if create.None? {
      assert o == Fail(st.data, NoCreatePromptMsg);
      st.data := WithError(st.data, NoCreatePromptMsg);
      env.events := env.events + [Failed(session, NoCreatePromptMsg)];
      return;
    }
    var data := MergeRealtime(env.market.0, env.market.1, env.market.2);
    st.data := st.data.(createPrompt := Val(create.value), currentAttempt := 0,
                        realtimeData := if data.Some? then Val(data.value) else Null, success := true);
    assert o == NodeOut(st.data, NoEffects, None);
  }

  /** The node succeeds exactly when the key is usable, all three prompts read and the client builds. */
  lemma PrepareSucceedsIff(s: Snapshot, w: World)
    ensures PrepareSpec(s, w).state.success <==>
      TruthyStr(s.apiKey) && w.clientError.None?
      && ReadPrompt(w.files, ResearchPromptFile).Some?
      && ReadPrompt(w.files, ValidationPromptFile).Some?
      && ReadPrompt(w.files, CreatePromptFile).Some?
  {
  }

  /**
   * Every path appends at most one error, and a failing one appends exactly one
   * and reports it to the progress tracker; the service is never called.
   */
  lemma PrepareErrors(s: Snapshot, w: World)
    ensures var o := PrepareSpec(s, w);
      o.fx.calls == 0 && o.fx.waits == [] && o.raised.None?
    ensures var o := PrepareSpec(s, w);
      o.state.success ==> o.state.errors == s.errors && o.fx.events == []
    ensures var o := PrepareSpec(s, w);
      !o.state.success ==> OneError(s, o)
  {
    var o := PrepareSpec(s, w);
    var s1 := s.(researchPromptPath := Val(ResearchPromptFile),
                 validationPromptPath := Val(ValidationPromptFile),
                 createPromptPath := Val(CreatePromptFile));
    if !TruthyStr(s.apiKey) {
      FailOneError(s, s, BadKeyMsg);
    } else if ReadPrompt(w.files, ResearchPromptFile).None? {
      FailOneError(s, s1, NoResearchPromptMsg);
    } else {
      var s2 := s1.(researchPrompt := Val(ReplaceDatePlaceholders(w.files[ResearchPromptFile], w.today)));
      if w.clientError.Some? {
        FailOneError(s, s2, ClientErrorPrefix + w.clientError.value);
      } else {
        var s3 := s2.(client := Val(Client(s.apiKey.value)), model := Val(ModelName));
        assert o == LoadRest(s3, w);
        if ReadPrompt(w.files, ValidationPromptFile).None? {
          FailOneError(s, s3, NoValidationPromptMsg);
        } else if ReadPrompt(w.files, CreatePromptFile).None? {
          FailOneError(s, s3.(validationPrompt := Val(w.files[ValidationPromptFile])), NoCreatePromptMsg);
        }
      }
    }
  }

  /** A failing step appended exactly one message and reported exactly that message. */
  predicate OneError(s: Snapshot, o: NodeOut) {
    |o.state.errors| == |s.errors| + 1 && o.state.errors[..|s.errors|] == s.errors
    && o.fx.events == [Failed(s.sessionId, o.state.errors[|s.errors|])]
  }

  lemma FailOneError(s: Snapshot, t: Snapshot, msg: string)
    requires t.errors == s.errors && t.sessionId == s.sessionId
    ensures OneError(s, Fail(t, msg)) && !Fail(t, msg).state.success
  {
    assert Fail(t, msg).state.errors[..|s.errors|] == s.errors;
  }

  /** An unusable key fails before any path, prompt or client is stored. */
  lemma PrepareBadKey(s: Snapshot, w: World)
    requires !TruthyStr(s.apiKey)
    ensures PrepareSpec(s, w).state == s.(errors := s.errors + [BadKeyMsg], success := false)
  {
  }

  /**
   * An unreadable research prompt stops the node after the paths are set: no
   * client is built and no later prompt is read.
   */
  lemma PrepareNoResearchPrompt(s: Snapshot, w: World)
    requires TruthyStr(s.apiKey) && ReadPrompt(w.files, ResearchPromptFile).None?
    ensures var t := PrepareSpec(s, w).state;
      t.researchPrompt == s.researchPrompt && t.client == s.client && t.validationPrompt == s.validationPrompt
      && t.createPrompt == s.createPrompt && t.errors == s.errors + [NoResearchPromptMsg]
  {
  }

  /**
   * On success the research prompt is stored date-substituted, the attempt
   * counter is reset, and the market data is cached once, as None when it
   * could not be fetched; success does not depend on the market data.
   */
  lemma PrepareSuccessState(s: Snapshot, w: World)
    requires PrepareSpec(s, w).state.success
    ensures var t := PrepareSpec(s, w).state;
      t.researchPrompt == Val(ReplaceDatePlaceholders(w.files[ResearchPromptFile], w.today))
      && t.currentAttempt == 0
      && t.client == Val(Client(s.apiKey.value)) && t.model == Val(ModelName)
      && (t.realtimeData.Null? <==> MergeRealtime(w.market.0, w.market.1, w.market.2).None?)
      && t.researchContent == s.researchContent && t.validationResult == s.validationResult
  {
  }

  /**
   * The node never raises and leaves every attempt counter alone, except
   * `current_attempt`, which it either keeps or (on success) resets to 0.
   */
  lemma PrepareCounters(s: Snapshot, w: World)
    ensures var o := PrepareSpec(s, w);
      o.raised.None? && o.state.maxAttempts == s.maxAttempts
      && (o.state.currentAttempt == s.currentAttempt || o.state.currentAttempt == 0)
      && o.state.htmlAttempt == s.htmlAttempt && o.state.jsAttempt == s.jsAttempt
      && o.state.cssAttempt == s.cssAttempt && o.state.interfaceAttempt == s.interfaceAttempt
  {
  }
}
