/**
 * `validate_report_node`: confirms the verdict the research call produced,
 * re-scans the research text when there is none, and, when the scanner still
 * finds no marker, falls back to a content-quality score. As written, that
 * score adds the `re.search` result (a match object or None) to an int, so
 * every long marker-free text ends in the node's `except` branch; the
 * intended score, with the match read as a truth value, is `ValidateCorrected`.
 */
module Validate {
  import opened Wrappers
  import opened Text
  import opened Verdicts
  import opened Environment
  import opened ReportStates
  import opened Research

  /** Reports of at most this many characters fail the quality fallback. */
  const MinFallbackLength := 2000
  /** Signals out of five a long report needs to pass the fallback. */
  const MinQualityScore := 4

  /** `any(k in t for k in keys)`. */
  predicate AnyIn(t: string, keys: seq<string>) {
    exists k :: 0 <= k < |keys| && Contains(t, keys[k])
  }

  /**
   * The text `t[..k]`, less its trailing whitespace, ends as `\d+\.?\d*`
   * can: with a digit, or with a digit and a dot.
   */
  predicate NumberEndsAt(t: string, k: nat)
    requires k <= |t|
  {
    var u := StripRight(t[..k]);
    (|u| >= 1 && IsDigit(u[|u| - 1])) || (|u| >= 2 && u[|u| - 1] == '.' && IsDigit(u[|u| - 2]))
  }

  /**
   * `re.search(r'\d+\.?\d*\s*%|\$\d+', t)` finds something: a percent sign
   * after a number and optional whitespace, or a dollar sign directly before
   * a digit.
   */
  predicate HasNumbers(t: string) {
    (exists k :: 0 <= k < |t| && t[k] == '%' && NumberEndsAt(t, k))
    || (exists k :: 0 <= k < |t| - 1 && t[k] == '$' && IsDigit(t[k + 1]))
  }

  function B(b: bool): nat {
    if b then 1 else 0
  }

  /** The Python values the quality list holds: booleans, a match object, or None. */
  datatype PyValue = PyBool(b: bool) | PyMatch | PyNone

  function TypeName(v: PyValue): string {
    match v
    case PyBool(_) => "bool"
    case PyMatch => "re.Match"
    case PyNone => "NoneType"
  }

  /** `str(TypeError)` of `int + v`. */
  function AddError(v: PyValue): string {
    "unsupported operand type(s) for +: 'int' and '" + TypeName(v) + "'"
  }

  /** What `sum` gives: a total, or the text of the TypeError it raises. */
  datatype Summed = Total(n: int) | Unsupported(message: string)

  /**
   * `sum(vs)` continuing from `acc`: booleans add as 0 or 1; the first value
   * that is not a boolean raises, because an int cannot be added to it.
   */
  function Sum(vs: seq<PyValue>, acc: int): (r: Summed)
    ensures r.Total? <==> forall i :: 0 <= i < |vs| ==> vs[i].PyBool?
    ensures r.Total? ==> acc <= r.n <= acc + |vs|
    ensures r.Unsupported? ==> r.message == AddError(PyMatch) || r.message == AddError(PyNone)
  {
    if vs == [] then Total(acc)
    else match vs[0]
      case PyBool(b) =>
        var r := Sum(vs[1..], acc + B(b));
        assert forall i :: 1 <= i < |vs| ==> vs[i] == vs[1..][i - 1];
        r
      case _ => Unsupported(AddError(vs[0]))
  }

  /** `has_numbers` as the source binds it: the match object, or None. */
  function MatchValue(content: string): PyValue {
    if HasNumbers(content) then PyMatch else PyNone
  }

  /** `[has_btc, has_analysis, has_numbers, has_fng, has_validation_table]`. */
  function Signals(content: string, numbers: PyValue): seq<PyValue> {
    var low := Lower(content);
    [PyBool(AnyIn(low, ["bitcoin", "btc"])),
     PyBool(AnyIn(low, ["phân tích", "analysis", "thị trường", "market"])),
     numbers,
     PyBool(AnyIn(low, ["fear", "greed", "sợ hãi", "tham lam"])),
     PyBool(AnyIn(content, ["Bảng Đối chiếu", "Validation Summary", "| Dữ liệu", "| BTC Price"]))]
  }

  /** The five quality signals of a research text, counted with the match read as a truth value. */
  function QualityScore(content: string): (n: nat)
    ensures n <= 5
  {
    var low := Lower(content);
    B(AnyIn(low, ["bitcoin", "btc"]))
    + B(AnyIn(low, ["phân tích", "analysis", "thị trường", "market"]))
    + B(HasNumbers(content))
    + B(AnyIn(low, ["fear", "greed", "sợ hãi", "tham lam"]))
    + B(AnyIn(content, ["Bảng Đối chiếu", "Validation Summary", "| Dữ liệu", "| BTC Price"]))
  }

  const ParseErrorText := "Lỗi khi parse validation result: "

  /**
   * The node, as a function of the state; it calls nothing outside. With
   * `intended`, `has_numbers` is read as `bool(...)`; without it, as written.
   */
  function ValidateWith(s: Snapshot, intended: bool): NodeOut {
    match s.researchContent
    case Absent => NodeOut(s, NoEffects, Some(KeyErrorText("research_content")))
    case Null => NodeOut(s.(validationResult := Val(UNKNOWN), success := false), NoEffects, None)
    case Val(content) =>
      if content == "" then NodeOut(s.(validationResult := Val(UNKNOWN), success := false), NoEffects, None)
      else if s.validationResult == Val(PASS) then NodeOut(s.(success := true), NoEffects, None)
      else if s.validationResult == Val(FAIL) then NodeOut(s.(success := false), NoEffects, None)
      else
        var scanned := CheckReportValidation(Some(content));
        if scanned != UNKNOWN then NodeOut(s.(validationResult := Val(scanned), success := scanned == PASS), NoEffects, None)
        else if |content| <= MinFallbackLength then NodeOut(s.(validationResult := Val(FAIL), success := false), NoEffects, None)
        else
          var numbers := if intended then PyBool(HasNumbers(content)) else MatchValue(content);
          match Sum(Signals(content, numbers), 0)
          case Unsupported(e) =>
            NodeOut(WithError(s.(validationResult := Val(UNKNOWN)), AttemptPrefix(s.currentAttempt) + ParseErrorText + e), NoEffects, None)
          case Total(n) =>
            var v := if n >= MinQualityScore then PASS else FAIL;
            NodeOut(s.(validationResult := Val(v), success := v == PASS), NoEffects, None)
  }

  /** The node as written. */
  function ValidateSpec(s: Snapshot): NodeOut {
    ValidateWith(s, false)
  }

  /** The node with the quality score it evidently means to compute. */
  function ValidateCorrected(s: Snapshot): NodeOut {
    ValidateWith(s, true)
  }

  /**
   * The node on the shared state. `raised` is the exception that escapes the
   * node: reading a research text that was never stored.
   */
  method ValidateReport(st: ReportState) returns (raised: Option<string>, ghost o: NodeOut)
    modifies st
    ensures o == ValidateSpec(old(st.data))
    ensures st.data == o.state && raised == o.raised
  {
    o := ValidateSpec(st.data);
    raised := None;
    if st.data.researchContent.Absent? {
      raised := Some(KeyErrorText("research_content"));
      return;
    }
    if !TruthySlot(st.data.researchContent) {
      st.data := st.data.(validationResult := Val(UNKNOWN), success := false);
      return;
    }
    var content := st.data.researchContent.value;
    var current := st.data.validationResult;
    if current == Val(PASS) {
      st.data := st.data.(success := true);
    } else if current == Val(FAIL) {
      st.data := st.data.(success := false);
    } else {
      var v := CheckReportValidation(Some(content));
      st.data := st.data.(validationResult := Val(v));
      if v == PASS {
        st.data := st.data.(success := true);
      } else if v == FAIL {
        st.data := st.data.(success := false);
      } else if |content| > MinFallbackLength {
        var total := Sum(Signals(content, MatchValue(content)), 0);
        match total
        case Unsupported(e) =>
          st.data := WithError(st.data.(validationResult := Val(UNKNOWN)), AttemptPrefix(st.data.currentAttempt) + ParseErrorText + e);
        case Total(n) =>
          var w := if n >= MinQualityScore then PASS else FAIL;
          st.data := st.data.(validationResult := Val(w), success := w == PASS);
      } else {
        st.data := st.data.(validationResult := Val(FAIL), success := false);
      }
    }
  }

  /**
   * As written, the quality sum always raises: the third item is a match
   * object or None, and `int + ` either is a TypeError.
   */
  lemma QualitySumRaises(content: string)
    ensures Sum(Signals(content, MatchValue(content)), 0) == Unsupported(AddError(MatchValue(content)))
  {
    var vs := Signals(content, MatchValue(content));
    SumStopsAtThird(vs[0].b, vs[1].b, vs[2], vs[3], vs[4]);
    assert vs == [vs[0], vs[1], vs[2], vs[3], vs[4]];
  }

  lemma SumStopsAtThird(b0: bool, b1: bool, v: PyValue, w: PyValue, x: PyValue)
    requires !v.PyBool?
    ensures Sum([PyBool(b0), PyBool(b1), v, w, x], 0) == Unsupported(AddError(v))
  {
    var vs := [PyBool(b0), PyBool(b1), v, w, x];
    assert vs[1..] == [PyBool(b1), v, w, x];
    assert vs[1..][1..] == [v, w, x];
    calc {
      Sum(vs, 0);
      Sum(vs[1..], B(b0));
      Sum(vs[1..][1..], B(b0) + B(b1));
      Unsupported(AddError(v));
    }
  }

  /** Read as a truth value, the match makes the sum the quality score. */
  lemma IntendedSumIsScore(content: string)
    ensures Sum(Signals(content, PyBool(HasNumbers(content))), 0) == Total(QualityScore(content))
  {
    var vs := Signals(content, PyBool(HasNumbers(content)));
    SumOfFive(vs[0].b, vs[1].b, vs[2].b, vs[3].b, vs[4].b);
    assert vs == [PyBool(vs[0].b), PyBool(vs[1].b), PyBool(vs[2].b), PyBool(vs[3].b), PyBool(vs[4].b)];
  }

  lemma SumOfFive(b0: bool, b1: bool, b2: bool, b3: bool, b4: bool)
    ensures Sum([PyBool(b0), PyBool(b1), PyBool(b2), PyBool(b3), PyBool(b4)], 0) == Total(B(b0) + B(b1) + B(b2) + B(b3) + B(b4))
  {
    var r4: seq<PyValue> := [PyBool(b4)];
    var r3 := [PyBool(b3)] + r4;
    var r2 := [PyBool(b2)] + r3;
    var r1 := [PyBool(b1)] + r2;
    var r0 := [PyBool(b0)] + r1;
    var a1 := B(b0);
    var a2 := a1 + B(b1);
    var a3 := a2 + B(b2);
    var a4 := a3 + B(b3);
    SumCons(b0, r1, 0);
    SumCons(b1, r2, a1);
    SumCons(b2, r3, a2);
    SumCons(b3, r4, a3);
    SumCons(b4, [], a4);
    assert r0 == [PyBool(b0), PyBool(b1), PyBool(b2), PyBool(b3), PyBool(b4)];
  }

  lemma SumCons(b: bool, rest: seq<PyValue>, acc: int)
    ensures Sum([PyBool(b)] + rest, acc) == Sum(rest, acc + B(b))
  {
    assert ([PyBool(b)] + rest)[1..] == rest;
  }

  /**
   * Unless it raises, the node leaves a verdict behind and succeeds exactly
   * when that verdict is PASS; it changes nothing but the verdict, the flag
   * and, at most, one appended error, and calls nothing.
   */
  lemma ValidateSuccessIffPass(s: Snapshot)
    ensures var o := ValidateSpec(s);
      o.raised.None? ==> o.state.validationResult.Val? && (o.state.success <==> o.state.validationResult == Val(PASS))
    ensures var o := ValidateSpec(s);
      o.state == s.(validationResult := o.state.validationResult, success := o.state.success, errors := o.state.errors)
      && o.fx == NoEffects
      && (o.state.errors == s.errors || (|o.state.errors| == |s.errors| + 1 && o.state.errors[..|s.errors|] == s.errors))
  {
    if LongUnmarked(s) {
      ValidateParseError(s);
      var o := ValidateSpec(s);
      assert o.state.errors[..|s.errors|] == s.errors;
    } else {
      ValidateDecides(s);
    }
  }

  /** The case that reaches the quality sum: a long text, no stored verdict, no marker. */
  predicate LongUnmarked(s: Snapshot) {
    TruthySlot(s.researchContent) && s.validationResult != Val(PASS) && s.validationResult != Val(FAIL)
    && CheckReportValidation(s.researchContent.Get()) == UNKNOWN && |s.researchContent.value| > MinFallbackLength
  }

  /** Outside that case the node sets at most the verdict and the flag, and records no error. */
  lemma ValidateDecides(s: Snapshot)
    requires !LongUnmarked(s)
    ensures var o := ValidateSpec(s);
      o.state == s.(validationResult := o.state.validationResult, success := o.state.success)
      && o.fx == NoEffects
      && (o.raised.None? ==> o.state.validationResult.Val? && (o.state.success <==> o.state.validationResult == Val(PASS)))
  {
  }

  /** The node raises exactly when the research text was never stored. */
  lemma ValidateRaises(s: Snapshot)
    ensures ValidateSpec(s).raised.Some? <==> s.researchContent.Absent?
    ensures ValidateSpec(s).raised.Some? ==> ValidateSpec(s).state == s
  {
  }

  /** A PASS or FAIL left by the research call is kept, and the text is not re-read. */
  lemma ValidateKeepsVerdict(s: Snapshot)
    requires TruthySlot(s.researchContent) && (s.validationResult == Val(PASS) || s.validationResult == Val(FAIL))
    ensures ValidateSpec(s).state.validationResult == s.validationResult
  {
  }

  /**
   * A long text without a marker ends in the `except` branch: the verdict is
   * UNKNOWN, the flag false, and one message naming the attempt and the
   * TypeError of the sum is appended.
   */
  lemma ValidateParseError(s: Snapshot)
    requires TruthySlot(s.researchContent) && s.validationResult != Val(PASS) && s.validationResult != Val(FAIL)
    requires CheckReportValidation(s.researchContent.Get()) == UNKNOWN
    requires |s.researchContent.value| > MinFallbackLength
    ensures ValidateSpec(s) == NodeOut(
      s.(validationResult := Val(UNKNOWN), success := false,
         errors := s.errors + [AttemptPrefix(s.currentAttempt) + ParseErrorText + AddError(MatchValue(s.researchContent.value))]),
      NoEffects, None)
  {
    QualitySumRaises(s.researchContent.value);
  }

  /**
   * As written, a text without a marker never passes: a short one fails, a
   * long one ends UNKNOWN with one more error message.
   */
  lemma ValidateFallback(s: Snapshot)
    requires TruthySlot(s.researchContent) && s.validationResult != Val(PASS) && s.validationResult != Val(FAIL)
    requires CheckReportValidation(s.researchContent.Get()) == UNKNOWN
    ensures var t := ValidateSpec(s).state;
      !t.success
      && t.validationResult == Val(if |s.researchContent.value| > MinFallbackLength then UNKNOWN else FAIL)
      && (|t.errors| == |s.errors| + 1 <==> |s.researchContent.value| > MinFallbackLength)
      && |t.errors| <= |s.errors| + 1
  {
    if |s.researchContent.value| > MinFallbackLength {
      ValidateParseError(s);
    }
  }

  /**
   * With the match read as a truth value, the fallback decides instead: the
   * verdict is never UNKNOWN, no error is recorded, and it passes exactly a
   * text longer than 2000 characters showing at least four of the five signals.
   */
  lemma CorrectedFallbackDecides(s: Snapshot)
    requires TruthySlot(s.researchContent) && s.validationResult != Val(PASS) && s.validationResult != Val(FAIL)
    requires CheckReportValidation(s.researchContent.Get()) == UNKNOWN
    ensures var t := ValidateCorrected(s).state;
      t.validationResult != Val(UNKNOWN) && t.errors == s.errors
      && (t.success <==> t.validationResult == Val(PASS))
      && (t.validationResult == Val(PASS) <==> |s.researchContent.value| > MinFallbackLength && QualityScore(s.researchContent.value) >= MinQualityScore)
  {
    IntendedSumIsScore(s.researchContent.value);
  }

  /** A short text without a marker always fails, whatever its content. */
  lemma ShortReportFails(s: Snapshot)
    requires TruthySlot(s.researchContent) && |s.researchContent.value| <= MinFallbackLength
    requires s.validationResult != Val(PASS)
    requires CheckReportValidation(s.researchContent.Get()) != PASS
    ensures !ValidateSpec(s).state.success
  {
  }

  /** A dollar sign directly before a digit counts as a number. */
  lemma DollarAmountIsNumber(pre: string, d: char, post: string)
    requires IsDigit(d)
    ensures HasNumbers(pre + "$" + [d] + post)
  {
    var t := pre + "$" + [d] + post;
    var k := |pre|;
    assert t[k] == '$' && t[k + 1] == d;
  }

  /** So does a percentage written with or without a space before the sign. */
  lemma PercentIsNumber(pre: string, d: char, space: string, post: string)
    requires IsDigit(d) && AllSpace(space)
    ensures HasNumbers(pre + [d] + space + "%" + post)
  {
    var t := pre + [d] + space + "%" + post;
    var k := |pre| + 1 + |space|;
    assert t[k] == '%';
    assert t[..k] == pre + [d] + space;
    StripRightOver(pre + [d], space);
    assert NumberEndsAt(t, k);
  }

  /** Trailing whitespace is what `StripRight` removes, and no more when the text ends otherwise. */
  lemma {:induction false} StripRightOver(a: string, space: string)
    requires AllSpace(space) && |a| > 0 && !IsSpace(a[|a| - 1])
    ensures StripRight(a + space) == a
    decreases |space|
  {
    if |space| > 0 {
      assert (a + space)[..|a + space| - 1] == a + space[..|space| - 1];
      StripRightOver(a, space[..|space| - 1]);
    } else {
      assert a + space == a;
    }
  }
}
