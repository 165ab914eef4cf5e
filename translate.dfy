/**
 * `translate_content_node` and `_translate_with_ai`: an English copy of the
 * HTML, made by the model. The node never fails the workflow: whatever goes
 * wrong, it only makes sure the two translation keys exist.
 */
module Translate {
  import opened Wrappers
  import opened Text
  import opened Environment
  import opened ReportStates

  const TranslatePromptFile := "prompt_translate_html.md"
  const ContentTag := "{content}"
  /** Seconds slept after the first failed try; the second waits twice as long. */
  const TranslateWait := 10

  // ---------------------------------------------------------------------------
  // Cleaning the answer
  // ---------------------------------------------------------------------------

  /**
   * The answer, stripped; when it opens with "```" and has more than two
   * lines, its first and last lines (the fence markers) are dropped.
   */
  function CleanTranslation(text: string): string {
    var t := Strip(text);
    var lines := Split(t, '\n');
    if StartsWith(t, "```") && |lines| > 2 then Join(lines[1..|lines| - 1], "\n") else t
  }

  /** Splitting at a separator that was put between two texts splits each text on its own. */
  lemma {:induction false} SplitConcat(x: string, y: string, sep: char)
    ensures Split(x + [sep] + y, sep) == Split(x, sep) + Split(y, sep)
    decreases |x|
  {
    if sep in x {
      var i := FirstChar(x, sep);
      var head, tail := x[..i], x[i + 1..];
      assert x == head + [sep] + tail;
      SplitConcat(tail, y, sep);
      SplitConcatStep(head, tail, y, sep);
    } else {
      SplitConcatLast(x, y, sep);
    }
  }

  /** The step of the lemma above: the first part of `x` comes off both sides. */
  lemma SplitConcatStep(head: string, tail: string, y: string, sep: char)
    requires sep !in head
    requires Split(tail + [sep] + y, sep) == Split(tail, sep) + Split(y, sep)
    ensures Split(head + [sep] + tail + [sep] + y, sep) == Split(head + [sep] + tail, sep) + Split(y, sep)
  {
    var rest := Split(y, sep);
    calc {
      Split(head + [sep] + tail + [sep] + y, sep);
      { SplitCons(head + [sep] + tail + [sep] + y, sep, head, tail + [sep] + y); }
      [head] + Split(tail + [sep] + y, sep);
      [head] + (Split(tail, sep) + rest);
      { assert [head] + (Split(tail, sep) + rest) == ([head] + Split(tail, sep)) + rest; }
      ([head] + Split(tail, sep)) + rest;
      { SplitCons(head + [sep] + tail, sep, head, tail); }
      Split(head + [sep] + tail, sep) + rest;
    }
  }

  /** The base of the lemma above: `x` holds no separator and is one part. */
  lemma SplitConcatLast(x: string, y: string, sep: char)
    requires sep !in x
    ensures Split(x + [sep] + y, sep) == Split(x, sep) + Split(y, sep)
  {
    SplitCons(x + [sep] + y, sep, x, y);
  }

  /** A text whose first separator follows `head` splits into `head` and the parts of the rest. */
  lemma SplitCons(s: string, sep: char, head: string, tail: string)
    requires s == head + [sep] + tail && sep !in head
    ensures Split(s, sep) == [head] + Split(tail, sep)
  {
    assert s == head + ([sep] + tail);
    FirstCharAfter(head, [sep] + tail, sep);
    assert s[..|head|] == head && s[|head| + 1..] == tail;
  }

  /** The first separator of `x + z` is the first of `x` when `x` holds one. */
  lemma {:induction false} FirstCharOfPrefix(x: string, z: string, c: char)
    requires c in x
    ensures c in x + z && FirstChar(x + z, c) == FirstChar(x, c)
    decreases |x|
  {
    if x[0] != c {
      assert (x + z)[1..] == x[1..] + z;
      FirstCharOfPrefix(x[1..], z, c);
    }
  }

  /** ... and the first of `z`, shifted, when `x` holds none. */
  lemma {:induction false} FirstCharAfter(x: string, z: string, c: char)
    requires c !in x && |z| > 0 && z[0] == c
    ensures c in x + z && FirstChar(x + z, c) == |x|
    decreases |x|
  {
    assert (x + z)[|x|] == c;
    if |x| > 0 {
      assert (x + z)[1..] == x[1..] + z;
      FirstCharAfter(x[1..], z, c);
    }
  }

  /**
   * An answer wrapped in a fence, with the markers on lines of their own, is
   * unwrapped to exactly the text between them.
   */
  lemma CleanFencedAnswer(opener: string, body: string, closer: string)
    requires '\n' !in opener && '\n' !in closer
    requires StartsWith(opener, "```") && |closer| > 0 && !IsSpace(closer[|closer| - 1])
    ensures CleanTranslation(opener + "\n" + body + "\n" + closer) == body
  {
    var rest := "\n" + body + "\n" + closer;
    var t := opener + rest;
    StartsWithExtended(opener, rest, "```");
    assert t == opener + "\n" + body + "\n" + closer;
    assert Strip(t) == t by {
      assert t[0] == '`' && t[|t| - 1] == closer[|closer| - 1];
      StripUnchanged(t);
    }
    FencedInner(opener, body, closer);
    SplitJoin(body, '\n');
  }

  /** A text keeps its prefix when more is appended. */
  lemma StartsWithExtended(a: string, b: string, p: string)
    requires StartsWith(a, p)
    ensures StartsWith(a + b, p)
  {
    assert (a + b)[..|p|] == a[..|p|];
  }

  /** The lines of a fenced answer between its first and its last are the body's lines. */
  lemma FencedInner(opener: string, body: string, closer: string)
    requires '\n' !in opener && '\n' !in closer
    ensures var lines := Split(opener + "\n" + body + "\n" + closer, '\n');
      |lines| > 2 && lines[1..|lines| - 1] == Split(body, '\n')
  {
    FencedLines(opener, body, closer);
    var inner := Split(body, '\n');
    var lines := [opener] + inner + [closer];
    assert lines[1..|lines| - 1] == inner;
  }

  /** The lines of a fenced answer: the opener, the body's lines, the closer. */
  lemma FencedLines(opener: string, body: string, closer: string)
    requires '\n' !in opener && '\n' !in closer
    ensures Split(opener + "\n" + body + "\n" + closer, '\n') == [opener] + Split(body, '\n') + [closer]
  {
    var rest := body + ['\n'] + closer;
    assert opener + "\n" + body + "\n" + closer == opener + ['\n'] + rest;
    calc {
      Split(opener + ['\n'] + rest, '\n');
      { SplitConcat(opener, rest, '\n'); }
      Split(opener, '\n') + Split(rest, '\n');
      { SplitConcat(body, closer, '\n'); }
      Split(opener, '\n') + (Split(body, '\n') + Split(closer, '\n'));
      { assert Split(opener, '\n') == [opener]; assert Split(closer, '\n') == [closer]; }
      [opener] + (Split(body, '\n') + [closer]);
    }
  }

  /** Text that neither starts nor ends with whitespace is left alone by `strip()`. */
  lemma StripUnchanged(t: string)
    requires |t| > 0 && !IsSpace(t[0]) && !IsSpace(t[|t| - 1])
    ensures Strip(t) == t
  {
  }

  // ---------------------------------------------------------------------------
  // _translate_with_ai
  // ---------------------------------------------------------------------------

  /**
   * What `_translate_with_ai` ends with: a translation (possibly empty),
   * None, or the AttributeError of a missing prompt template escaping it.
   */
  datatype Translation = Translated(text: string) | NotTranslated | NoTemplate

  /** `_translate_with_ai(client, model, content, "html")` with its effects. */
  function TranslateWithAiSpec(w: World, clientIsNone: bool, content: string): (Translation, Effects) {
    if Strip(content) == "" then (NotTranslated, NoEffects)
    else match ReadPrompt(w.files, TranslatePromptFile)
      case None => (NoTemplate, NoEffects)
      case Some(template) => AskTranslation(w, clientIsNone, ReplaceAll(template, ContentTag, content))
  }

  /** The retry loop of `_translate_with_ai` on a prepared prompt. */
  function AskTranslation(w: World, clientIsNone: bool, prompt: string): (Translation, Effects) {
    var r := Retry(w.script, w.pos, if clientIsNone then Some(NoneHasNoModels) else None, TranslateWait);
    var fx := Effects(r.used, 0, r.waits, [prompt], []);
    if r.outcome.Answered? && r.outcome.reply.Text? && TruthyStr(r.outcome.reply.body)
    then (Translated(CleanTranslation(r.outcome.reply.body.value)), fx)
    else (NotTranslated, fx)
  }

  /**
   * The helper on the environment. Unlike the other nodes' loops, an answer
   * without text ends the loop at once with None, and the third exception
   * gives None instead of being raised.
   */
  method TranslateWithAi(env: Env, clientIsNone: bool, content: string) returns (t: Translation)
    modifies env
    ensures var spec := TranslateWithAiSpec(env.Inputs(old(env.pos), old(env.dbPos)), clientIsNone, content);
      t == spec.0 && Applied(env, spec.1)
  {
    if Strip(content) == "" {
      return NotTranslated;
    }
    var template := ReadPrompt(env.files, TranslatePromptFile);
    if template.None? {
      return NoTemplate;
    }
    var prompt := ReplaceAll(template.value, ContentTag, content);
    t := AskForTranslation(env, clientIsNone, prompt);
  }

  /** `AskTranslation` on the environment. */
  method AskForTranslation(env: Env, clientIsNone: bool, prompt: string) returns (t: Translation)
    modifies env
    ensures var spec := AskTranslation(env.Inputs(old(env.pos), old(env.dbPos)), clientIsNone, prompt);
      t == spec.0 && Applied(env, spec.1)
  {
    var answer := env.Generate(prompt, if clientIsNone then Some(NoneHasNoModels) else None, TranslateWait);
    if answer.Answered? && answer.reply.Text? && TruthyStr(answer.reply.body) {
      t := Translated(CleanTranslation(answer.reply.body.value));
    } else {
      t := NotTranslated;
    }
  }

  // ---------------------------------------------------------------------------
  // The node
  // ---------------------------------------------------------------------------

  /** `state.setdefault(key, None)`. */
  function SetDefault<T>(k: Slot<T>): (r: Slot<T>)
    ensures r != Absent && (k != Absent ==> r == k)
  {
    if k.Absent? then Null else k
  }

  /** Both translation keys made to exist, with what they held kept. */
  function KeysExist(s: Snapshot): Snapshot {
    s.(htmlContentEn := SetDefault(s.htmlContentEn), jsContentEn := SetDefault(s.jsContentEn))
  }

  /** The node, as a function of the state and the outside world. */
  function TranslateSpec(s: Snapshot, w: World): NodeOut {
    if !TruthySlot(s.htmlContent) || s.client.Absent? || s.model.Absent? then NodeOut(KeysExist(s), NoEffects, None)
    else
      var (t, fx) := TranslateWithAiSpec(w, s.client.Null?, s.htmlContent.value);
      if t.Translated? && t.text != "" then NodeOut(KeysExist(s.(htmlContentEn := Val(t.text))), fx, None)
      else NodeOut(KeysExist(s), fx, None)
  }

  /** The node on the shared state. */
  method TranslateContent(st: ReportState, env: Env) returns (ghost o: NodeOut)
    modifies st, env
    ensures o == TranslateSpec(old(st.data), env.Inputs(old(env.pos), old(env.dbPos)))
    ensures st.data == o.state && Applied(env, o.fx)
  {
    o := TranslateSpec(st.data, env.Inputs(env.pos, env.dbPos));
    if TruthySlot(st.data.htmlContent) && !st.data.client.Absent? && !st.data.model.Absent? {
      var t := TranslateWithAi(env, st.data.client.Null?, st.data.htmlContent.value);
      if t.Translated? && t.text != "" {
        st.data := st.data.(htmlContentEn := Val(t.text));
      }
    }
    st.data := KeysExist(st.data);
  }

  /**
   * The node never fails the workflow: it records no error, keeps the
   * success flag, reports nothing and changes only the translation keys,
   * both of which exist afterwards.
   */
  lemma TranslateNeverFails(s: Snapshot, w: World)
    ensures var o := TranslateSpec(s, w);
      o.state == s.(htmlContentEn := o.state.htmlContentEn, jsContentEn := o.state.jsContentEn)
      && o.state.htmlContentEn != Absent && o.state.jsContentEn == SetDefault(s.jsContentEn)
      && o.fx.events == [] && o.fx.commits == 0 && o.raised.None?
  {
    if TruthySlot(s.htmlContent) && !s.client.Absent? && !s.model.Absent? {
      TranslateWithAiQuiet(w, s.client.Null?, s.htmlContent.value);
    }
  }

  /** The helper reports nothing and commits nothing. */
  lemma TranslateWithAiQuiet(w: World, clientIsNone: bool, content: string)
    ensures var fx := TranslateWithAiSpec(w, clientIsNone, content).1;
      fx.events == [] && fx.commits == 0
  {
  }

  /**
   * The English HTML is either a non-empty translation of the current HTML,
   * or what the key held before (None when it was missing).
   */
  lemma TranslateStores(s: Snapshot, w: World)
    ensures var t := TranslateSpec(s, w).state.htmlContentEn;
      (t.Val? && t.value != "" && TruthySlot(s.htmlContent)) || t == SetDefault(s.htmlContentEn)
  {
  }

  /**
   * Without HTML, or with a missing client or model key, the model is not
   * called at all; otherwise it is asked at most three times with the
   * template's "{content}" replaced by the HTML, sleeping 10 s and 20 s at most.
   */
  lemma TranslateCalls(s: Snapshot, w: World)
    ensures var o := TranslateSpec(s, w);
      !TruthySlot(s.htmlContent) || s.client.Absent? || s.model.Absent? ==> o.fx == NoEffects
    ensures var o := TranslateSpec(s, w);
      o.fx.calls <= 3 && (o.fx.waits == [] || o.fx.waits == [10] || o.fx.waits == [10, 20])
      && (o.fx.prompts == [] || o.fx.prompts == [ReplaceAll(w.files[TranslatePromptFile], ContentTag, s.htmlContent.value)])
  {
    if TruthySlot(s.htmlContent) && !s.client.Absent? && !s.model.Absent? {
      TranslateWithAiCalls(w, s.client.Null?, s.htmlContent.value);
    }
  }

  lemma TranslateWithAiCalls(w: World, clientIsNone: bool, content: string)
    ensures var fx := TranslateWithAiSpec(w, clientIsNone, content).1;
      fx.calls <= 3 && (fx.waits == [] || fx.waits == [10] || fx.waits == [10, 20])
      && (fx.prompts == [] || fx.prompts == [ReplaceAll(w.files[TranslatePromptFile], ContentTag, content)])
  {
    if Strip(content) != "" && ReadPrompt(w.files, TranslatePromptFile).Some? {
      AskTranslationCalls(w, clientIsNone, ReplaceAll(w.files[TranslatePromptFile], ContentTag, content));
    }
  }

  /** The retry loop asks at most three times, with the one prompt. */
  lemma AskTranslationCalls(w: World, clientIsNone: bool, prompt: string)
    ensures var fx := AskTranslation(w, clientIsNone, prompt).1;
      fx.calls <= 3 && (fx.waits == [] || fx.waits == [10] || fx.waits == [10, 20]) && fx.prompts == [prompt]
  {
    RetryWaits(w.script, w.pos, if clientIsNone then Some(NoneHasNoModels) else None, TranslateWait);
  }
}
