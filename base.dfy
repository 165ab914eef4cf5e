/**
 * The shared helpers of the workflow nodes: the code-block extractor
 * `extract_code_blocks`, the date-placeholder substitution
 * `replace_date_placeholders`, and the merge rule of
 * `get_realtime_dashboard_data`.
 */
module Base {
  import opened Wrappers
  import opened Text
  import opened Fences

  // ---------------------------------------------------------------------------
  // extract_code_blocks
  // ---------------------------------------------------------------------------

  /** The dictionary `{"html", "css", "js", "success"}` the extractor returns. */
  datatype Blocks = Blocks(html: string, css: string, js: string, success: bool)

  const NoResponseCss: string := "/* Lỗi: Không có nội dung phản hồi */"
  const NoResponseJs: string := "// Lỗi: Không có nội dung phản hồi"
  const NoCss: string := "/* Lỗi: Không trích xuất được CSS */"
  const NoJs: string := "// Lỗi: Không trích xuất được JS"

  /** The JavaScript fence: "```javascript" first, "```js" only when there is none. */
  function JsFence(text: string): (r: Option<string>)
    ensures FenceBody(text, "javascript").Some? ==> r == FenceBody(text, "javascript")
    ensures FenceBody(text, "javascript").None? ==> r == FenceBody(text, "js")
  {
    match FenceBody(text, "javascript")
    case Some(b) => Some(b)
    case None => FenceBody(text, "js")
  }

  function StrippedOr(o: Option<string>, default: string): string {
    match o
    case Some(b) => Strip(b)
    case None => default
  }

  /**
   * The extractor. A missing or empty response gives the "no response"
   * comments; otherwise each part is the stripped body of its first fence,
   * and the extraction succeeds on a non-empty html body, an html-looking tag
   * anywhere in the response, or fences for both CSS and JavaScript.
   */
  function ExtractCodeBlocks(response: Option<string>): (r: Blocks)
    ensures !TruthyStr(response) ==> r == Blocks("", NoResponseCss, NoResponseJs, false)
    ensures r.success ==> TruthyStr(response)
    ensures r.html != "" ==> r.success
    ensures TruthyStr(response) && HasHtmlTag(response.value) ==> r.success
  {
    if !TruthyStr(response) then Blocks("", NoResponseCss, NoResponseJs, false)
    else
      var text := response.value;
      var css := FenceBody(text, "css");
      var js := JsFence(text);
      var html := StrippedOr(FenceBody(text, "html"), "");
      Blocks(html, StrippedOr(css, NoCss), StrippedOr(js, NoJs),
             html != "" || HasHtmlTag(text) || (css.Some? && js.Some?))
  }

  /**
   * A response holding one html fence, after backtick-free text, yields the
   * fence's stripped body, and succeeds when that body is not blank.
   */
  lemma ExtractHtmlRoundTrip(pre: string, body: string, post: string)
    requires NoTicks(pre) && NoTicks(body)
    ensures var r := ExtractCodeBlocks(Some(pre + Opener("html") + body + Tick + post));
      r.html == Strip(body) && (Strip(body) != "" ==> r.success)
  {
    FenceRoundTrip(pre, "html", body, post);
  }

  /** The CSS part is the stripped body of its fence, and the error comment without one. */
  lemma ExtractCssRoundTrip(pre: string, body: string, post: string)
    requires NoTicks(pre) && NoTicks(body)
    ensures ExtractCodeBlocks(Some(pre + Opener("css") + body + Tick + post)).css == Strip(body)
  {
    FenceRoundTrip(pre, "css", body, post);
  }

  /** Without a "```css" fence the CSS part is the extraction-error comment. */
  lemma ExtractCssMissing(text: string)
    requires text != "" && !HasFence(text, "css")
    ensures ExtractCodeBlocks(Some(text)).css == NoCss
  {
    FenceBodyFound(text, "css");
  }

  /**
   * A "```javascript" fence wins over a "```js" fence wherever each stands;
   * the "```js" fence is used only when there is no "```javascript" one.
   */
  lemma ExtractJsPreference(text: string)
    requires text != ""
    ensures HasFence(text, "javascript") ==>
      ExtractCodeBlocks(Some(text)).js == Strip(FenceBody(text, "javascript").value)
    ensures !HasFence(text, "javascript") && HasFence(text, "js") ==>
      ExtractCodeBlocks(Some(text)).js == Strip(FenceBody(text, "js").value)
    ensures !HasFence(text, "javascript") && !HasFence(text, "js") ==>
      ExtractCodeBlocks(Some(text)).js == NoJs
  {
    FenceBodyFound(text, "javascript");
    FenceBodyFound(text, "js");
  }

  /** Success holds exactly in the three cases the extractor names. */
  lemma ExtractSuccessCases(text: string)
    requires text != ""
    ensures ExtractCodeBlocks(Some(text)).success <==>
      (HasFence(text, "html") && Strip(FenceBody(text, "html").value) != "")
      || HasHtmlTag(text)
      || (HasFence(text, "css") && (HasFence(text, "javascript") || HasFence(text, "js")))
  {
    FenceBodyFound(text, "html");
    FenceBodyFound(text, "css");
    FenceBodyFound(text, "javascript");
    FenceBodyFound(text, "js");
  }

  /**
   * A response whose only fence is an empty html one, and which has no
   * html-looking tag, is not a successful extraction: an empty html fence
   * alone does not count.
   */
  lemma EmptyHtmlFenceFails(text: string)
    requires text != "" && NoAngle(text)
    requires FenceBody(text, "html") == Some("") && FenceBody(text, "css").None?
    ensures !ExtractCodeBlocks(Some(text)).success
  {
    NoAngleNoTag(text);
    assert Strip("") == "";
  }

  /** The smallest such response: "```html```". */
  lemma EmptyHtmlFenceExample(text: string)
    requires text == "```html```"
    ensures !ExtractCodeBlocks(Some(text)).success
  {
    HtmlFenceOfExample(text);
    NoOpenerIn(text, "css");
    ExampleHasNoAngle(text);
    EmptyHtmlFenceFails(text);
  }

  lemma HtmlFenceOfExample(text: string)
    requires text == "```html```"
    ensures FenceBody(text, "html") == Some("")
  {
    FenceRoundTrip("", "html", "", "");
    assert "" + Opener("html") + "" + Tick + "" == text;
  }

  lemma ExampleHasNoAngle(text: string)
    requires text == "```html```"
    ensures text != "" && NoAngle(text)
  {
    assert forall k :: 0 <= k < |text| ==> text[k] == '`' || 'a' <= text[k] <= 'z';
  }

  /** Lower-casing never produces '<'. */
  lemma LowerKeepsNoAngle(s: string)
    requires NoAngle(s)
    ensures NoAngle(Lower(s))
  {
  }

  /** A response without '<' has no html-looking tag. */
  lemma NoAngleNoTag(text: string)
    requires NoAngle(text)
    ensures !HasHtmlTag(text)
  {
    var t := Lower(text);
    LowerKeepsNoAngle(text);
    NoTagIn(t, "<html");
    NoTagIn(t, "<!doctype");
    NoTagIn(t, "<div");
    NoTagIn(t, "<body");
    NoTagIn(t, "<head");
  }

  /** A text without '<' holds no tag that starts with '<'. */
  lemma NoTagIn(t: string, tag: string)
    requires |tag| > 0 && tag[0] == '<'
    requires NoAngle(t)
    ensures !Contains(t, tag)
  {
    ContainsIff(t, tag);
    forall i: nat ensures !OccursAt(t, tag, i) {
      if i + |tag| <= |t| {
        assert t[i..i + |tag|][0] == t[i];
      }
    }
  }

  /** "```html```" opens no fence of a language other than html. */
  lemma NoOpenerIn(text: string, lang: string)
    requires text == "```html```" && |lang| > 0 && lang[0] != 'h'
    ensures FenceBody(text, lang).None?
  {
    var open := Opener(lang);
    forall i: nat ensures !OccursAt(text, open, i) {
      if i + |open| <= |text| {
        var w := text[i..i + |open|];
        if i == 0 {
          assert w[3] == text[3] == 'h';
        } else if i == 1 {
          assert w[2] == text[3] == 'h';
        } else if i == 2 {
          assert w[1] == text[3] == 'h';
        } else {
          assert w[0] == text[i] != '`';
        }
      }
    }
  }

  // ---------------------------------------------------------------------------
  // replace_date_placeholders
  // ---------------------------------------------------------------------------

  /** A calendar date in UTC, as `datetime.now(timezone.utc)` gives it. */
  datatype Date = Date(day: nat, month: nat, year: nat)

  const DayTag: string := "<<@day>>"
  const MonthTag: string := "<<@month>>"
  const YearTag: string := "<<@year>>"

  /** Day, then month, then year, each replaced everywhere by its unpadded decimal value. */
  function ReplaceDatePlaceholders(text: string, today: Date): string {
    var t1 := ReplaceAll(text, DayTag, NatToString(today.day));
    var t2 := ReplaceAll(t1, MonthTag, NatToString(today.month));
    ReplaceAll(t2, YearTag, NatToString(today.year))
  }

  /** Decimal digits share no character with a placeholder. */
  lemma DigitsDisjointFromTag(s: string, tag: string)
    requires AllDigits(s)
    requires tag == DayTag || tag == MonthTag || tag == YearTag
    ensures Disjoint(s, tag)
  {
  }

  /** After the substitution no placeholder is left. */
  lemma NoPlaceholderRemains(text: string, today: Date)
    ensures var out := ReplaceDatePlaceholders(text, today);
      forall i: nat :: !OccursAt(out, DayTag, i) && !OccursAt(out, MonthTag, i) && !OccursAt(out, YearTag, i)
  {
    var d, m, y := NatToString(today.day), NatToString(today.month), NatToString(today.year);
    DigitsDisjointFromTag(d, DayTag);
    DigitsDisjointFromTag(m, DayTag);
    DigitsDisjointFromTag(m, MonthTag);
    DigitsDisjointFromTag(y, DayTag);
    DigitsDisjointFromTag(y, MonthTag);
    DigitsDisjointFromTag(y, YearTag);
    var t1 := ReplaceAll(text, DayTag, d);
    var t2 := ReplaceAll(t1, MonthTag, m);
    ReplaceAllLeavesNo(text, DayTag, d, DayTag);
    ReplaceAllLeavesNo(t1, MonthTag, m, DayTag);
    ReplaceAllLeavesNo(t1, MonthTag, m, MonthTag);
    ReplaceAllLeavesNo(t2, YearTag, y, DayTag);
    ReplaceAllLeavesNo(t2, YearTag, y, MonthTag);
    ReplaceAllLeavesNo(t2, YearTag, y, YearTag);
  }

  /** Replacement passes over a prefix at which the pattern never starts. */
  lemma {:induction false} ReplaceAllKeepsPrefix(a: string, s: string, p: string, r: string)
    requires |p| > 0
    requires forall k :: 0 <= k < |a| ==> !OccursAt(a + s, p, k)
    ensures ReplaceAll(a + s, p, r) == a + ReplaceAll(s, p, r)
    decreases |a|
  {
    if |a| > 0 {
      var t := a + s;
      if |t| >= |p| {
        assert t[..|p|] != p by {
          assert !OccursAt(t, p, 0);
        }
      }
      forall k | 0 <= k < |a| - 1 ensures !OccursAt(a[1..] + s, p, k) {
        assert !OccursAt(t, p, k + 1);
        if k + |p| <= |a[1..] + s| {
          assert (a[1..] + s)[k..k + |p|] == t[k + 1..k + 1 + |p|];
        }
      }
      assert t[1..] == a[1..] + s;
      ReplaceAllKeepsPrefix(a[1..], s, p, r);
      if |t| >= |p| {
        assert ReplaceAll(t, p, r) == [t[0]] + ReplaceAll(t[1..], p, r);
        assert ReplaceAll(t, p, r) == [a[0]] + (a[1..] + ReplaceAll(s, p, r));
        assert a == [a[0]] + a[1..];
      } else {
        assert ReplaceAll(s, p, r) == s;
      }
    } else {
      assert a + s == s;
    }
  }

  /** Replacement at a leading occurrence. */
  lemma ReplaceAllAtPattern(s: string, p: string, r: string)
    requires |p| > 0
    ensures ReplaceAll(p + s, p, r) == r + ReplaceAll(s, p, r)
  {
    assert (p + s)[..|p|] == p;
    assert (p + s)[|p|..] == s;
  }

  /** A text with no '<' never starts a placeholder. */
  predicate NoAngle(a: string) {
    forall k :: 0 <= k < |a| ==> a[k] != '<'
  }

  lemma AnglelessPrefix(a: string, s: string, p: string)
    requires NoAngle(a) && |p| > 0 && p[0] == '<'
    ensures forall k :: 0 <= k < |a| ==> !OccursAt(a + s, p, k)
  {
    forall k | 0 <= k < |a| ensures !OccursAt(a + s, p, k) {
      if k + |p| <= |a + s| {
        assert (a + s)[k..k + |p|][0] == a[k];
      }
    }
  }

  lemma DigitsAngleless(s: string)
    requires AllDigits(s)
    ensures NoAngle(s)
  {
  }

  /** Text without '<' passes through the substitution unchanged. */
  lemma DatePlainPrefix(a: string, s: string, today: Date)
    requires NoAngle(a)
    ensures ReplaceDatePlaceholders(a + s, today) == a + ReplaceDatePlaceholders(s, today)
  {
    var d, m, y := NatToString(today.day), NatToString(today.month), NatToString(today.year);
    AnglelessPrefix(a, s, DayTag);
    ReplaceAllKeepsPrefix(a, s, DayTag, d);
    var s1 := ReplaceAll(s, DayTag, d);
    AnglelessPrefix(a, s1, MonthTag);
    ReplaceAllKeepsPrefix(a, s1, MonthTag, m);
    var s2 := ReplaceAll(s1, MonthTag, m);
    AnglelessPrefix(a, s2, YearTag);
    ReplaceAllKeepsPrefix(a, s2, YearTag, y);
  }

  /** A leading day placeholder becomes the day number. */
  lemma DateDayTag(s: string, today: Date)
    ensures ReplaceDatePlaceholders(DayTag + s, today)
         == NatToString(today.day) + ReplaceDatePlaceholders(s, today)
  {
    var d, m, y := NatToString(today.day), NatToString(today.month), NatToString(today.year);
    ReplaceAllAtPattern(s, DayTag, d);
    var s1 := ReplaceAll(s, DayTag, d);
    DigitsAngleless(d);
    AnglelessPrefix(d, s1, MonthTag);
    ReplaceAllKeepsPrefix(d, s1, MonthTag, m);
    var s2 := ReplaceAll(s1, MonthTag, m);
    AnglelessPrefix(d, s2, YearTag);
    ReplaceAllKeepsPrefix(d, s2, YearTag, y);
  }

  /** A leading month placeholder becomes the month number. */
  lemma DateMonthTag(s: string, today: Date)
    ensures ReplaceDatePlaceholders(MonthTag + s, today)
         == NatToString(today.month) + ReplaceDatePlaceholders(s, today)
  {
    var d, m, y := NatToString(today.day), NatToString(today.month), NatToString(today.year);
    TagNotAt(MonthTag, s, DayTag);
    ReplaceAllKeepsPrefix(MonthTag, s, DayTag, d);
    var s1 := ReplaceAll(s, DayTag, d);
    ReplaceAllAtPattern(s1, MonthTag, m);
    var s2 := ReplaceAll(s1, MonthTag, m);
    DigitsAngleless(m);
    AnglelessPrefix(m, s2, YearTag);
    ReplaceAllKeepsPrefix(m, s2, YearTag, y);
  }

  /** A leading year placeholder becomes the year number. */
  lemma DateYearTag(s: string, today: Date)
    ensures ReplaceDatePlaceholders(YearTag + s, today)
         == NatToString(today.year) + ReplaceDatePlaceholders(s, today)
  {
    var d, m, y := NatToString(today.day), NatToString(today.month), NatToString(today.year);
    TagNotAt(YearTag, s, DayTag);
    ReplaceAllKeepsPrefix(YearTag, s, DayTag, d);
    var s1 := ReplaceAll(s, DayTag, d);
    TagNotAt(YearTag, s1, MonthTag);
    ReplaceAllKeepsPrefix(YearTag, s1, MonthTag, m);
    var s2 := ReplaceAll(s1, MonthTag, m);
    ReplaceAllAtPattern(s2, YearTag, y);
  }

  /** One placeholder never starts inside another, different one. */
  lemma TagNotAt(tag: string, s: string, other: string)
    requires tag in {DayTag, MonthTag, YearTag} && other in {DayTag, MonthTag, YearTag} && tag != other
    ensures forall k :: 0 <= k < |tag| ==> !OccursAt(tag + s, other, k)
  {
    forall k | 0 <= k < |tag| ensures !OccursAt(tag + s, other, k) {
      TagNotAtOne(tag, s, other, k);
    }
  }

  /** The same, at one position `k` inside `tag`. */
  lemma TagNotAtOne(tag: string, s: string, other: string, k: nat)
    requires tag in {DayTag, MonthTag, YearTag} && other in {DayTag, MonthTag, YearTag} && tag != other
    requires k < |tag|
    ensures !OccursAt(tag + s, other, k)
  {
    var t := tag + s;
    if k + |other| <= |t| {
      var w := t[k..k + |other|];
      if k == 0 {
        assert w[3] == tag[3];
      } else if k == 1 {
        assert w[1] == tag[2];
      } else {
        assert w[0] == tag[k];
      }
    }
  }

  // ---------------------------------------------------------------------------
  // get_realtime_dashboard_data: the merge rule
  // ---------------------------------------------------------------------------

  /** A JSON-like scalar of the market data dictionaries. */
  datatype Value = NoneValue | IntValue(i: int) | NumValue(x: real) | StrValue(s: string)

  /** A market-data dictionary; `{**a, **b}` is the right-biased union `a + b`. */
  type Record = map<string, Value>

  /** What one provider call gave back: its `(data, error, status)` triple, or no answer. */
  datatype Fetch = Done(data: Option<Record>, error: Option<string>) | TimedOut | Crashed

  const FngDefault: Record := map["fng_value" := IntValue(50), "fng_value_classification" := StrValue("Neutral")]

  const FallbackRecord: Record := map[
    "market_cap" := NoneValue, "volume_24h" := NoneValue,
    "btc_price_usd" := NoneValue, "btc_change_24h" := NoneValue,
    "fng_value" := IntValue(50), "fng_classification" := StrValue("Neutral"),
    "data_source" := StrValue("fallback")]

  /** `d or {}`. */
  function OrEmpty(d: Option<Record>): Record {
    if d.Some? then d.value else map[]
  }

  /** The F&G record after the error substitution. */
  function FngData(f: Fetch): Option<Record>
    requires f.Done?
  {
    if TruthyStr(f.error) then Some(FngDefault) else f.data
  }

  /**
   * The combined real-time record: None when any call timed out or raised;
   * the fixed fallback record when both the global and the BTC call report an
   * error; otherwise global, BTC and F&G data merged with later sources
   * winning, tagged "real_time".
   */
  function MergeRealtime(global: Fetch, btc: Fetch, fng: Fetch): (r: Option<Record>)
    ensures !(global.Done? && btc.Done? && fng.Done?) ==> r.None?
    ensures global.Done? && btc.Done? && fng.Done? && TruthyStr(global.error) && TruthyStr(btc.error)
      ==> r == Some(FallbackRecord)
    ensures r.Some? ==> "data_source" in r.value && r.value["data_source"] != StrValue("real_time") ==> r == Some(FallbackRecord)
  {
    if !(global.Done? && btc.Done? && fng.Done?) then None
    else if TruthyStr(global.error) && TruthyStr(btc.error) then Some(FallbackRecord)
    else
      Some(OrEmpty(global.data) + OrEmpty(btc.data) + OrEmpty(FngData(fng)) + map["data_source" := StrValue("real_time")])
  }

  /**
   * When at least one market call succeeds, every key of the result comes from
   * a source, the later source wins, and "data_source" is "real_time".
   */
  lemma MergeRightBiased(global: Fetch, btc: Fetch, fng: Fetch, k: string)
    requires global.Done? && btc.Done? && fng.Done?
    requires !(TruthyStr(global.error) && TruthyStr(btc.error))
    ensures var r := MergeRealtime(global, btc, fng).value;
      var g, b, f := OrEmpty(global.data), OrEmpty(btc.data), OrEmpty(FngData(fng));
      r["data_source"] == StrValue("real_time")
      && (k in r <==> k == "data_source" || k in g || k in b || k in f)
      && (k != "data_source" && k in f ==> r[k] == f[k])
      && (k != "data_source" && k !in f && k in b ==> r[k] == b[k])
      && (k != "data_source" && k !in f && k !in b && k in g ==> r[k] == g[k])
  {
  }

  /** An F&G error puts the neutral reading 50 in the merged record. */
  lemma FngErrorGivesNeutral(global: Fetch, btc: Fetch, fng: Fetch)
    requires global.Done? && btc.Done? && fng.Done? && TruthyStr(fng.error)
    ensures var r := MergeRealtime(global, btc, fng).value;
      r["fng_value"] == IntValue(50)
      && (r != FallbackRecord ==> r["fng_value_classification"] == StrValue("Neutral"))
  {
  }
}
