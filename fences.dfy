/**
 * The fenced-code-block searches `re.search(r"```LANG(.*?)```", text, re.DOTALL)`
 * and the HTML-tag probe shared by every extractor of the report pipeline.
 *
 * A leftmost, lazy match of that pattern starts at the first occurrence of the
 * opener "```LANG" and ends at the first "```" after the opener; when that
 * opener has no closer after it, no later opener has one either, so there is
 * no match at all.
 */
module Fences {
  import opened Wrappers
  import opened Text

  const Tick: string := "```"

  function Opener(lang: string): string {
    Tick + lang
  }

  /** The raw group(1) of the first fence opened by "```" + lang, or None. */
  function FenceBody(text: string, lang: string): Option<string> {
    var open := Opener(lang);
    match IndexOf(text, open, 0)
    case None => None
    case Some(i) =>
      match IndexOf(text, Tick, i + |open|)
      case None => None
      case Some(j) => Some(text[i + |open|..j])
  }

  /** Some opener of the language is followed, somewhere after it, by a closer. */
  ghost predicate HasFence(text: string, lang: string) {
    exists i: nat, j: nat :: OccursAt(text, Opener(lang), i) && i + |Opener(lang)| <= j && OccursAt(text, Tick, j)
  }

  /** The search succeeds exactly when the regular expression has a match. */
  lemma FenceBodyFound(text: string, lang: string)
    ensures FenceBody(text, lang).Some? <==> HasFence(text, lang)
  {
    var open := Opener(lang);
    if HasFence(text, lang) {
      var i: nat, j: nat :| OccursAt(text, open, i) && i + |open| <= j && OccursAt(text, Tick, j);
      var i0 := IndexOf(text, open, 0).value;
      assert i0 <= i;
      assert IndexOf(text, Tick, i0 + |open|).Some? by {
        assert i0 + |open| <= j;
      }
    }
  }

  /** The lazy group never contains the closing "```". */
  lemma FenceBodyHasNoTicks(text: string, lang: string)
    requires FenceBody(text, lang).Some?
    ensures !Contains(FenceBody(text, lang).value, Tick)
  {
    var open := Opener(lang);
    var i := IndexOf(text, open, 0).value;
    var j := IndexOf(text, Tick, i + |open|).value;
    var body := text[i + |open|..j];
    assert FenceBody(text, lang).value == body;
    forall k: nat ensures !OccursAt(body, Tick, k) {
      NoTickInside(text, i + |open|, j, k);
    }
  }

  /** Before the first closer found from `b`, the text between holds no closer. */
  lemma NoTickInside(text: string, b: nat, j: nat, k: nat)
    requires IndexOf(text, Tick, b) == Some(j)
    ensures !OccursAt(text[b..j], Tick, k)
  {
    if k + 3 <= j - b {
      assert !OccursAt(text, Tick, b + k);
      assert text[b..j][k..k + 3] == text[b + k..b + k + 3];
    }
  }

  /** No character of `s` is a backtick. */
  predicate NoTicks(s: string) {
    forall k :: 0 <= k < |s| ==> s[k] != '`'
  }

  /**
   * The search from `from` stops at `m` when `p` occurs there and no character
   * in between could start `p`.
   */
  lemma IndexOfAfterPlain(s: string, p: string, from: nat, m: nat)
    requires from <= m && OccursAt(s, p, m) && |p| > 0
    requires forall k :: from <= k < m ==> s[k] != p[0]
    ensures IndexOf(s, p, from) == Some(m)
  {
    forall k | from <= k < m ensures !OccursAt(s, p, k) {
      if k + |p| <= |s| {
        assert s[k..k + |p|][0] == s[k];
      }
    }
  }

  /**
   * Decoding a fence written after backtick-free text gives back the body,
   * provided the body holds no backtick either.
   */
  lemma FenceRoundTrip(pre: string, lang: string, body: string, post: string)
    requires NoTicks(pre) && NoTicks(body)
    ensures FenceBody(pre + Opener(lang) + body + Tick + post, lang) == Some(body)
  {
    var open := Opener(lang);
    var text := pre + open + body + Tick + post;
    var b := |pre| + |open|;
    assert text == pre + (open + (body + (Tick + post)));
    FenceAt(text, lang, |pre|, body);
  }

  /** The fence decoder on a text laid out as backtick-free prefix, opener, body, closer. */
  lemma FenceAt(text: string, lang: string, i: nat, body: string)
    requires i + |Opener(lang)| + |body| + 3 <= |text|
    requires forall k :: 0 <= k < i ==> text[k] != '`'
    requires OccursAt(text, Opener(lang), i)
    requires text[i + |Opener(lang)|..i + |Opener(lang)| + |body|] == body && NoTicks(body)
    requires OccursAt(text, Tick, i + |Opener(lang)| + |body|)
    ensures FenceBody(text, lang) == Some(body)
  {
    var b := i + |Opener(lang)|;
    OpenerFirst(text, lang, i);
    CloserAfterBody(text, b, body);
    FenceBodyBetween(text, lang, i, b + |body|);
  }

  /** The opener after backtick-free text is the first one. */
  lemma OpenerFirst(text: string, lang: string, i: nat)
    requires OccursAt(text, Opener(lang), i)
    requires forall k :: 0 <= k < i ==> text[k] != '`'
    ensures IndexOf(text, Opener(lang), 0) == Some(i)
  {
    assert Opener(lang) == Tick + lang;
    assert Opener(lang)[0] == '`';
    IndexOfAfterPlain(text, Opener(lang), 0, i);
  }

  /** The closer after a backtick-free body is the first one after the opener. */
  lemma CloserAfterBody(text: string, b: nat, body: string)
    requires b + |body| <= |text| && text[b..b + |body|] == body && NoTicks(body)
    requires OccursAt(text, Tick, b + |body|)
    ensures IndexOf(text, Tick, b) == Some(b + |body|)
  {
    forall k | b <= k < b + |body| ensures text[k] != Tick[0] {
      assert text[k] == text[b..b + |body|][k - b];
    }
    IndexOfAfterPlain(text, Tick, b, b + |body|);
  }

  /** The fence decoder, from where the two searches stop. */
  lemma FenceBodyBetween(text: string, lang: string, i: nat, j: nat)
    requires IndexOf(text, Opener(lang), 0) == Some(i)
    requires IndexOf(text, Tick, i + |Opener(lang)|) == Some(j)
    ensures FenceBody(text, lang) == Some(text[i + |Opener(lang)|..j])
  {
  }

  /** `re.search(r'<html|<!doctype|<div|<body|<head', text, re.IGNORECASE)`. */
  predicate HasHtmlTag(text: string) {
    var t := Lower(text);
    Contains(t, "<html") || Contains(t, "<!doctype") || Contains(t, "<div") || Contains(t, "<body") || Contains(t, "<head")
  }

  lemma LowerIdempotent(s: string)
    ensures Lower(Lower(s)) == Lower(s)
  {
    forall k | 0 <= k < |s| ensures Lower(Lower(s))[k] == Lower(s)[k] {
      LowerCharIdempotent(s[k]);
    }
  }

  /** The probe ignores letter case: a lower-cased response answers the same. */
  lemma HtmlTagIgnoresCase(text: string)
    ensures HasHtmlTag(Lower(text)) == HasHtmlTag(text)
  {
    LowerIdempotent(text);
  }
}
