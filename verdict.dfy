/**
 * The validation-verdict scanner `check_report_validation` (and its copy in the
 * auto-report scheduler): a report passes when it contains the marker
 * "KẾT QUẢ KIỂM TRA:" followed by optional whitespace and "PASS", compared
 * without regard to letter case.
 */
module Verdicts {
  import opened Wrappers
  import opened Text

  datatype Verdict = PASS | FAIL | UNKNOWN

  /** The marker as the report writes it. */
  const MarkerHead: string := "KẾT QUẢ KIỂM TRA:"
  /** The same marker after lower-casing. */
  const LowerHead: string := "kết quả kiểm tra:"

  lemma LowerHeadIsLowered()
    ensures Lower(MarkerHead) == LowerHead
  {
  }

  /** The end of the whitespace run that starts at `k`. */
  function SkipSpaces(t: string, k: nat): (j: nat)
    requires k <= |t|
    ensures k <= j <= |t| && AllSpace(t[k..j])
    ensures j == |t| || !IsSpace(t[j])
    decreases |t| - k
  {
    if k < |t| && IsSpace(t[k]) then
      var j := SkipSpaces(t, k + 1);
      assert t[k..j] == [t[k]] + t[k + 1..j];
      j
    else k
  }

  /**
   * In the lower-cased text `t`, the marker starts at `i` and, after its
   * whitespace, `word` follows. As `word` starts with a letter, the greedy
   * `\s*` never has to give back whitespace, so one whitespace run is tried.
   */
  predicate MarkerAt(t: string, i: nat, word: string) {
    OccursAt(t, LowerHead, i) && OccursAt(t, word, SkipSpaces(t, i + |LowerHead|))
  }

  /** `re.search(r"KẾT QUẢ KIỂM TRA:\s*WORD", text, re.IGNORECASE)` for a lower-case word. */
  predicate HasMarker(text: string, word: string) {
    exists i :: 0 <= i < |text| && MarkerAt(Lower(text), i, word)
  }

  /** The scanner: PASS is looked for first, then FAIL. */
  function CheckReportValidation(text: Option<string>): (v: Verdict)
    ensures !TruthyStr(text) ==> v == UNKNOWN
    ensures v == PASS <==> TruthyStr(text) && HasMarker(text.value, "pass")
    ensures v == FAIL <==> TruthyStr(text) && !HasMarker(text.value, "pass") && HasMarker(text.value, "fail")
  {
    if !TruthyStr(text) then UNKNOWN
    else if HasMarker(text.value, "pass") then PASS
    else if HasMarker(text.value, "fail") then FAIL
    else UNKNOWN
  }

  function VerdictName(v: Verdict): string {
    match v
    case PASS => "PASS"
    case FAIL => "FAIL"
    case UNKNOWN => "UNKNOWN"
  }

  lemma LowerConcat(a: string, b: string)
    ensures Lower(a + b) == Lower(a) + Lower(b)
  {
  }

  /**
   * A PASS marker anywhere in a report, in any letter case, with any run of
   * whitespace after the colon, makes the verdict PASS; what comes before or
   * after it, a FAIL marker included, does not matter.
   */
  lemma PassMarkerAnywhere(pre: string, space: string, post: string)
    requires AllSpace(space)
    ensures CheckReportValidation(Some(pre + MarkerHead + space + "PASS" + post)) == PASS
  {
    var text := pre + MarkerHead + space + "PASS" + post;
    LoweredPassMarker(pre, space, post);
    MarkerInLowered(Lower(pre), space, Lower(post));
    assert MarkerAt(Lower(text), |Lower(pre)|, "pass");
  }

  /** Lower-casing the report keeps the whitespace and lowers the marker and the word. */
  lemma LoweredPassMarker(pre: string, space: string, post: string)
    requires AllSpace(space)
    ensures Lower(pre + MarkerHead + space + "PASS" + post) == Lower(pre) + LowerHead + space + "pass" + Lower(post)
  {
    LowerConcat(pre + MarkerHead + space + "PASS", post);
    LowerConcat(pre + MarkerHead + space, "PASS");
    LowerConcat(pre + MarkerHead, space);
    LowerConcat(pre, MarkerHead);
    LowerHeadIsLowered();
    assert Lower(space) == space by {
      forall k | 0 <= k < |space| ensures Lower(space)[k] == space[k] {
        assert IsSpace(space[k]);
      }
    }
  }

  /** In an already lowered text, the marker, a whitespace run and "pass" form a match. */
  lemma MarkerInLowered(pre: string, space: string, post: string)
    requires AllSpace(space)
    ensures MarkerAt(pre + LowerHead + space + "pass" + post, |pre|, "pass")
  {
    var t := pre + LowerHead + space + "pass" + post;
    var i := |pre|;
    var h := i + |LowerHead|;
    assert OccursAt(t, LowerHead, i) by {
      assert t[i..h] == LowerHead;
    }
    assert t[h..h + |space|] == space;
    assert t[h + |space|..h + |space| + 4] == "pass";
    SkipSpacesOver(t, h, |space|);
  }

  /** Skipping whitespace crosses a whole run and stops at the letter after it. */
  lemma {:induction false} SkipSpacesOver(t: string, k: nat, n: nat)
    requires k + n < |t| && AllSpace(t[k..k + n]) && !IsSpace(t[k + n])
    ensures SkipSpaces(t, k) == k + n
    decreases n
  {
    if n > 0 {
      assert IsSpace(t[k..k + n][0]);
      assert t[k + 1..k + 1 + (n - 1)] == t[k..k + n][1..];
      SkipSpacesOver(t, k + 1, n - 1);
    }
  }

  /** Letter case does not affect the verdict. */
  lemma VerdictIgnoresCase(text: string)
    ensures CheckReportValidation(Some(Lower(text))) == CheckReportValidation(Some(text))
  {
    assert Lower(Lower(text)) == Lower(text) by {
      forall k | 0 <= k < |text| ensures Lower(Lower(text))[k] == Lower(text)[k] {
        LowerCharIdempotent(text[k]);
      }
    }
  }
}
