/**
 * The dashboard's progress card (`ProgressTracker` in the browser): it polls
 * the progress record of one report session, ignores records that are not
 * newer than the last one shown, turns the record's step queue into log
 * lines at most once each, keeps the last twenty lines, and shows the final
 * success or error. The DOM is reduced to the values it displays; polling,
 * timers and scrolling are reduced to flags and parameters.
 */
module ProgressView {
  import opened Wrappers
  import opened Text

  /** Log lines the progress log keeps. */
  const MaxLogLines := 20

  /** One entry of a progress record's `step_queue`. */
  datatype LogEntry = LogEntry(kind: string, timestamp: string, details: string)

  /** A displayed log line: its CSS class and its text. */
  datatype Line = Line(className: string, text: string)

  /** The progress record as the poll returns it; a missing field is `None`. */
  datatype Record = Record(
    lastUpdate: Option<real>,
    status: string,
    percentage: Option<real>,
    currentStepName: Option<string>,
    details: Option<string>,
    stepQueue: Option<seq<LogEntry>>,
    reportId: string)

  /** What the card does after adding log lines. */
  datatype Follow = ScrollDown | ShowIndicator | StayPut

  /** The success or error overlay. */
  datatype Overlay = Overlay(success: bool, message: string)

  // ---------------------------------------------------------------------------
  // Text of the log lines
  // ---------------------------------------------------------------------------

  /** The `[hh:mm:ss]` stamp the pattern `^\[\d{2}:\d{2}:\d{2}\]` matches at the start. */
  predicate HasStamp(s: string) {
    |s| >= 10 && s[0] == '[' && IsDigit(s[1]) && IsDigit(s[2]) && s[3] == ':' && IsDigit(s[4]) && IsDigit(s[5])
    && s[6] == ':' && IsDigit(s[7]) && IsDigit(s[8]) && s[9] == ']'
  }

  /** `replace(/^\[\d{2}:\d{2}:\d{2}\]\s*\/, '')`. */
  function Unstamped(s: string): (r: string)
    ensures HasStamp(s) ==> r == StripLeft(s[10..])
    ensures !HasStamp(s) ==> r == s
    ensures |r| <= |s|
  {
    if HasStamp(s) then StripLeft(s[10..]) else s
  }

  /** One `if (details.includes(key)) details = details.replace(key, value)`. */
  function Relabel(d: string, pair: (string, string)): string {
    if Contains(d, pair.0) then ReplaceFirst(d, pair.0, pair.1) else d
  }

  /** The formatters' loop over a mapping table, in the table's order. */
  function Relabelled(d: string, table: seq<(string, string)>): string
    decreases |table|
  {
    if table == [] then d else Relabelled(Relabel(d, table[0]), table[1..])
  }

  const StepMappings: seq<(string, string)> := [
    ("prepare_data", "📋 Chuẩn bị dữ liệu"),
    ("research_deep", "🔬 Nghiên cứu sâu + Validation"),
    ("validate_report", "✅ Kiểm tra kết quả"),
    ("create_interface", "🎨 Tạo giao diện"),
    ("extract_code", "📄 Trích xuất mã nguồn"),
    ("save_database", "\U{FFFD} Lưu báo cáo")]

  const LegacyMappings: seq<(string, string)> := [
    ("Research + Validation", "🔬 Nghiên cứu sâu + Validation"),
    ("Parse validation", "✅ Kiểm tra kết quả"),
    ("Chuẩn bị dữ liệu", "📋 Chuẩn bị dữ liệu"),
    ("Tạo giao diện", "🎨 Tạo giao diện"),
    ("Trích xuất mã nguồn", "📄 Trích xuất mã nguồn"),
    ("Lưu báo cáo", "💾 Lưu báo cáo")]

  const DetailMappings: seq<(string, string)> := [
    ("inject real-time data", "📊 Đã inject real-time data"),
    ("Combined Research + Validation", "🔬 Combined Research + Validation"),
    ("Combined response", "📝 Phản hồi Combined"),
    ("Parse validation", "✅ Kiểm tra kết quả"),
    ("Parsed validation result", "✅ Đã parse kết quả validation"),
    ("PASS", "✅ PASS"),
    ("FAIL", "❌ FAIL"),
    ("UNKNOWN", "⚠️ UNKNOWN"),
    ("Chuẩn bị dữ liệu", "📋 Chuẩn bị dữ liệu"),
    ("Nghiên cứu sâu", "🔬 Nghiên cứu sâu"),
    ("Tạo giao diện", "🎨 Tạo giao diện"),
    ("Trích xuất mã nguồn", "📄 Trích xuất mã nguồn"),
    ("Lưu báo cáo", "💾 Lưu báo cáo")]

  /** `formatStepName` as written: the workflow table, then the legacy table on the result. */
  function StepNameAsWritten(d: string): string {
    Relabelled(Relabelled(d, StepMappings), LegacyMappings)
  }

  /** Some key of the table occurs in the text. */
  predicate AnyKey(d: string, table: seq<(string, string)>)
    decreases |table|
  {
    table != [] && (Contains(d, table[0].0) || AnyKey(d, table[1..]))
  }

  /**
   * `formatStepName` as intended: the legacy table only for a name in which
   * no key of the workflow table occurs.
   */
  function StepName(d: string): string {
    if AnyKey(d, StepMappings) then Relabelled(d, StepMappings) else Relabelled(d, LegacyMappings)
  }

  /** `formatDetailMessage`. */
  function DetailMessage(d: string): string {
    Relabelled(d, DetailMappings)
  }

  /** `details.includes(m)` for some marker `m`, tried in order. */
  predicate AnyOf(d: string, marks: seq<string>)
    decreases |marks|
  {
    marks != [] && (Contains(d, marks[0]) || AnyOf(d, marks[1..]))
  }

  const SuccessMarks: seq<string> := ["✓", "Hoàn thành", "thành công", "PASS"]
  const ErrorMarks: seq<string> := ["✗", "Lỗi", "thất bại", "FAIL"]
  const WarningMarks: seq<string> := ["⚠️", "UNKNOWN"]
  const TopicMarks: seq<string> := ["🔬", "📊", "📝"]

  /** `determineLogType`: the first group of markers that occurs decides. */
  function LogType(d: string): (r: string)
    ensures r == "log-success" <==> AnyOf(d, SuccessMarks)
    ensures r == "log-error" <==> !AnyOf(d, SuccessMarks) && AnyOf(d, ErrorMarks)
    ensures r == "log-info" <==>
      !AnyOf(d, SuccessMarks) && !AnyOf(d, ErrorMarks) && (AnyOf(d, WarningMarks) || AnyOf(d, TopicMarks))
    ensures r == "log-step-complete" <==>
      !AnyOf(d, SuccessMarks) && !AnyOf(d, ErrorMarks) && !AnyOf(d, WarningMarks) && !AnyOf(d, TopicMarks)
  {
    if Contains(d, "✓") || Contains(d, "Hoàn thành") || Contains(d, "thành công") || Contains(d, "PASS") then
      "log-success"
    else if Contains(d, "✗") || Contains(d, "Lỗi") || Contains(d, "thất bại") || Contains(d, "FAIL") then
      "log-error"
    else if Contains(d, "⚠️") || Contains(d, "UNKNOWN") then
      "log-info"
    else if Contains(d, "🔬") || Contains(d, "📊") || Contains(d, "📝") then
      "log-info"
    else
      "log-step-complete"
  }

  /** The entry types that make a log line. */
  predicate MakesLine(e: LogEntry) {
    e.kind == "step" || e.kind == "detail"
  }

  /** `createLogElement`: a line for 'step' and 'detail' entries, nothing for any other type. */
  function LogLine(e: LogEntry): (r: Option<Line>)
    ensures r.Some? <==> MakesLine(e)
    ensures e.kind == "step" ==> r == Some(Line("log-entry log-info", StepName(Unstamped(e.details))))
    ensures e.kind == "detail" ==>
      r.Some? && r.value.text == "📋 " + DetailMessage(Unstamped(e.details))
      && r.value.className == "log-entry " + LogType(DetailMessage(Unstamped(e.details)))
  {
    var clean := Unstamped(e.details);
    if e.kind == "step" then
      Some(Line("log-entry log-info", StepName(clean)))
    else if e.kind == "detail" then
      var msg := DetailMessage(clean);
      Some(Line("log-entry " + LogType(msg), "📋 " + msg))
    else
      None
  }

  // ---------------------------------------------------------------------------
  // The log
  // ---------------------------------------------------------------------------

  /** `${this.sessionId}` of a session id that may be `null`. */
  function SessionText(session: Option<string>): string {
    if session.Some? then session.value else "null"
  }

  /** The id under which a log entry is remembered. */
  function LogId(session: Option<string>, e: LogEntry): string {
    SessionText(session) + "_" + e.kind + "_" + e.timestamp + "_" + e.details
  }

  /**
   * `processLogEntries` over `queue`, before trimming: the ids remembered
   * afterwards and the lines appended, in queue order.
   */
  function Absorbed(session: Option<string>, seen: set<string>, queue: seq<LogEntry>): (set<string>, seq<Line>)
    decreases |queue|
  {
    if queue == [] then (seen, [])
    else
      var id := LogId(session, queue[0]);
      if id !in seen && MakesLine(queue[0]) then
        var rest := Absorbed(session, seen + {id}, queue[1..]);
        (rest.0, [LogLine(queue[0]).value] + rest.1)
      else
        Absorbed(session, seen, queue[1..])
  }

  /** The loop of `processLogEntries` after `i` entries: what is left to absorb completes `total`. */
  predicate AbsorbedSoFar(session: Option<string>, queue: seq<LogEntry>, i: nat, ids: set<string>,
                          lines: seq<Line>, total: (set<string>, seq<Line>))
    requires i <= |queue|
  {
    Absorbed(session, ids, queue[i..]).0 == total.0 && lines + Absorbed(session, ids, queue[i..]).1 == total.1
  }

  /** An entry with a new id that makes a line adds its line and its id. */
  lemma AbsorbedTakes(session: Option<string>, queue: seq<LogEntry>, i: nat, ids: set<string>,
                      lines: seq<Line>, total: (set<string>, seq<Line>))
    requires i < |queue| && AbsorbedSoFar(session, queue, i, ids, lines, total)
    requires LogId(session, queue[i]) !in ids && MakesLine(queue[i])
    ensures AbsorbedSoFar(session, queue, i + 1, ids + {LogId(session, queue[i])},
                          lines + [LogLine(queue[i]).value], total)
  {
    assert queue[i..][0] == queue[i] && queue[i..][1..] == queue[i + 1..];
    var after := Absorbed(session, ids + {LogId(session, queue[i])}, queue[i + 1..]);
    assert lines + ([LogLine(queue[i]).value] + after.1) == (lines + [LogLine(queue[i]).value]) + after.1;
  }

  /** An entry whose id was seen, or that makes no line, is passed over. */
  lemma AbsorbedSkips(session: Option<string>, queue: seq<LogEntry>, i: nat, ids: set<string>,
                      lines: seq<Line>, total: (set<string>, seq<Line>))
    requires i < |queue| && AbsorbedSoFar(session, queue, i, ids, lines, total)
    requires LogId(session, queue[i]) in ids || !MakesLine(queue[i])
    ensures AbsorbedSoFar(session, queue, i + 1, ids, lines, total)
  {
    assert queue[i..][0] == queue[i] && queue[i..][1..] == queue[i + 1..];
  }

  /** At the end of the queue the loop has produced `total`. */
  lemma AbsorbedDone(session: Option<string>, queue: seq<LogEntry>, ids: set<string>,
                     lines: seq<Line>, total: (set<string>, seq<Line>))
    requires AbsorbedSoFar(session, queue, |queue|, ids, lines, total)
    ensures (ids, lines) == total
  {
    assert queue[|queue|..] == [];
    assert lines + [] == lines;
  }

  /** The ids of the entries of `queue` that make a line. */
  function LineIds(session: Option<string>, queue: seq<LogEntry>): set<string> {
    set i | 0 <= i < |queue| && MakesLine(queue[i]) :: LogId(session, queue[i])
  }

  /** `while (children.length > 20) removeChild(firstChild)`. */
  function Trimmed(lines: seq<Line>): (r: seq<Line>)
    ensures |r| <= MaxLogLines
  {
    if |lines| > MaxLogLines then lines[|lines| - MaxLogLines..] else lines
  }

  /** What the card does once the new lines are in. */
  function FollowUp(added: bool, atBottom: bool): Follow {
    if added && atBottom then ScrollDown else if added then ShowIndicator else StayPut
  }

  /** `progress.last_update || 0`. */
  function UpdateTime(p: Record): real {
    if p.lastUpdate.Some? then p.lastUpdate.value else 0.0
  }

  // ---------------------------------------------------------------------------
  // Properties
  // ---------------------------------------------------------------------------

  /** The line ids of a queue: those of its first entry and of the rest. */
  lemma LineIdsCons(session: Option<string>, queue: seq<LogEntry>)
    requires queue != []
    ensures LineIds(session, queue)
      == (if MakesLine(queue[0]) then {LogId(session, queue[0])} else {}) + LineIds(session, queue[1..])
  {
    var head: set<string> := if MakesLine(queue[0]) then {LogId(session, queue[0])} else {};
    var tail := LineIds(session, queue[1..]);
    forall x | x in LineIds(session, queue)
      ensures x in head + tail
    {
      var i :| 0 <= i < |queue| && MakesLine(queue[i]) && LogId(session, queue[i]) == x;
      if i > 0 {
        assert queue[1..][i - 1] == queue[i];
      }
    }
    forall x | x in tail
      ensures x in LineIds(session, queue)
    {
      var i :| 0 <= i < |queue[1..]| && MakesLine(queue[1..][i]) && LogId(session, queue[1..][i]) == x;
      assert queue[i + 1] == queue[1..][i];
    }
  }

  /**
   * Processing a queue remembers exactly the ids of its entries that make a
   * line, besides those it had already seen.
   */
  lemma {:induction false} AbsorbedIds(session: Option<string>, seen: set<string>, queue: seq<LogEntry>)
    ensures Absorbed(session, seen, queue).0 == seen + LineIds(session, queue)
    decreases |queue|
  {
    if queue != [] {
      var id := LogId(session, queue[0]);
      LineIdsCons(session, queue);
      if id !in seen && MakesLine(queue[0]) {
        AbsorbedIds(session, seen + {id}, queue[1..]);
      } else {
        AbsorbedIds(session, seen, queue[1..]);
      }
    }
  }

  /** One line is appended per id that was not remembered before. */
  lemma {:induction false} AbsorbedOncePerId(session: Option<string>, seen: set<string>, queue: seq<LogEntry>)
    ensures seen <= Absorbed(session, seen, queue).0
    ensures |Absorbed(session, seen, queue).1| == |Absorbed(session, seen, queue).0| - |seen|
    decreases |queue|
  {
    if queue != [] {
      var id := LogId(session, queue[0]);
      if id !in seen && MakesLine(queue[0]) {
        AbsorbedOncePerId(session, seen + {id}, queue[1..]);
      } else {
        AbsorbedOncePerId(session, seen, queue[1..]);
      }
    }
  }

  /** Processing the same queue again adds no line. */
  lemma RepeatAddsNothing(session: Option<string>, seen: set<string>, queue: seq<LogEntry>)
    ensures Absorbed(session, Absorbed(session, seen, queue).0, queue).1 == []
  {
    var again := Absorbed(session, seen, queue).0;
    AbsorbedIds(session, seen, queue);
    AbsorbedIds(session, again, queue);
    AbsorbedOncePerId(session, again, queue);
    assert again + LineIds(session, queue) == again;
  }

  /** Trimming keeps the newest twenty lines, in order, and drops the oldest. */
  lemma TrimKeepsNewest(lines: seq<Line>)
    ensures Trimmed(lines) == lines[|lines| - |Trimmed(lines)|..]
    ensures |Trimmed(lines)| == if |lines| < MaxLogLines then |lines| else MaxLogLines
  {
  }

  /**
   * A record without `last_update` reads as time 0 and is never newer than
   * what the card has shown: nothing of it is displayed.
   */
  lemma UndatedRecordIgnored(p: Record, last: real)
    requires p.lastUpdate.None? && last >= 0.0
    ensures UpdateTime(p) <= last
  {
  }

  /** A formatter changes nothing in a text in which none of its keys occurs. */
  lemma {:induction false} RelabelledAbsent(d: string, table: seq<(string, string)>)
    requires forall i :: 0 <= i < |table| ==> !Contains(d, table[i].0)
    ensures Relabelled(d, table) == d
    decreases |table|
  {
    if table != [] {
      RelabelledAbsent(d, table[1..]);
    }
  }

  /** Running two tables one after the other is running their concatenation. */
  lemma {:induction false} RelabelledConcat(d: string, t1: seq<(string, string)>, t2: seq<(string, string)>)
    ensures Relabelled(Relabelled(d, t1), t2) == Relabelled(d, t1 + t2)
    decreases |t1|
  {
    if t1 == [] {
      assert t1 + t2 == t2;
    } else {
      assert (t1 + t2)[0] == t1[0];
      assert (t1 + t2)[1..] == t1[1..] + t2;
      RelabelledConcat(Relabel(d, t1[0]), t1[1..], t2);
    }
  }

  /** Keys longer than the text cannot occur in it. */
  lemma {:induction false} LongKeysSkip(d: string, table: seq<(string, string)>)
    requires forall i :: 0 <= i < |table| ==> |table[i].0| > |d|
    ensures Relabelled(d, table) == d
    decreases |table|
  {
    if table != [] {
      LongKeysSkip(d, table[1..]);
    }
  }

  /** A key holding a character the text lacks does not occur in it. */
  lemma MissingChar(d: string, key: string, c: char)
    requires c in key && c !in d
    ensures !Contains(d, key)
  {
  }

  /** A text is its own first occurrence. */
  lemma RelabelWhole(d: string, v: string)
    ensures Relabel(d, (d, v)) == v
  {
    assert OccursAt(d, d, 0);
  }

  /** No later workflow key occurs in the label of "prepare_data". */
  lemma StepKeepsPrepareLabel(v: string, i: nat)
    requires v == StepMappings[0].1 && 0 < i < 6
    ensures Relabel(v, StepMappings[i]) == v
  {
    MissingChar(v, StepMappings[i].0, '_');
  }

  /** A table that leaves the text alone at every entry leaves it alone. */
  lemma {:induction false} RelabelledFixed(d: string, table: seq<(string, string)>)
    requires forall i :: 0 <= i < |table| ==> Relabel(d, table[i]) == d
    ensures Relabelled(d, table) == d
    decreases |table|
  {
    if table != [] {
      RelabelledFixed(d, table[1..]);
    }
  }

  /**
   * A table whose entries before index `k` leave the text alone, whose entry
   * `k` turns it into `e`, and whose later entries leave `e` alone, turns
   * the text into `e`.
   */
  lemma RelabelledAround(d: string, e: string, table: seq<(string, string)>, k: nat)
    requires k < |table|
    requires forall i :: 0 <= i < k ==> Relabel(d, table[i]) == d
    requires Relabel(d, table[k]) == e
    requires forall i :: k < i < |table| ==> Relabel(e, table[i]) == e
    ensures Relabelled(d, table) == e
  {
    var t1, t2 := table[..k], table[k + 1..];
    assert t1 + ([table[k]] + t2) == table;
    RelabelledFixed(d, t1);
    RelabelledFixed(e, t2);
    RelabelledConcat(d, t1, [table[k]] + t2);
    assert ([table[k]] + t2)[1..] == t2;
  }

  /** The label of "prepare_data" after the workflow table. */
  lemma PrepareDataLabel(d: string)
    requires d == "prepare_data"
    ensures Relabelled(d, StepMappings) == StepMappings[0].1
  {
    var v := StepMappings[0].1;
    RelabelWhole(d, v);
    forall i | 0 < i < |StepMappings|
      ensures Relabel(v, StepMappings[i]) == v
    {
      StepKeepsPrepareLabel(v, i);
    }
    RelabelledAround(d, v, StepMappings, 0);
  }

  /** The first two legacy keys do not occur in the label of "prepare_data". */
  lemma LegacyKeepsPrepareLabel(v: string, i: nat)
    requires v == StepMappings[0].1 && i < 2
    ensures Relabel(v, LegacyMappings[i]) == v
  {
    if i == 0 {
      assert |LegacyMappings[0].0| > |v|;
    } else {
      MissingChar(v, LegacyMappings[1].0, 'P');
    }
  }

  /**
   * As written, the legacy key "Chuẩn bị dữ liệu" occurs in the label the
   * workflow table gives "prepare_data", and the legacy label replaces it:
   * the icon is prefixed a second time.
   */
  lemma LegacyRelabelsPrepareLabel(v: string)
    requires v == StepMappings[0].1
    ensures Relabel(v, LegacyMappings[2]) == "📋 " + v
  {
    var k := LegacyMappings[2].0;
    assert !OccursAt(v, k, 0) by { assert v[0] != k[0]; }
    assert !OccursAt(v, k, 1) by { assert v[1] != k[0]; }
    assert OccursAt(v, k, 2);
  }

  /** The last three legacy keys do not occur in the doubled label. */
  lemma LegacyKeepsDoubledLabel(w: string, i: nat)
    requires w == "📋 📋 Chuẩn bị dữ liệu" && 3 <= i < 6
    ensures Relabel(w, LegacyMappings[i]) == w
  {
    if i == 3 {
      MissingChar(w, LegacyMappings[3].0, 'T');
    } else if i == 4 {
      MissingChar(w, LegacyMappings[4].0, 'T');
    } else {
      MissingChar(w, LegacyMappings[5].0, 'L');
    }
  }

  /**
   * `formatStepName` as written, for a name the workflow table turns into
   * `v`: when one legacy key occurs in `v` and turns it into `w`, and no
   * other legacy entry changes `v` or `w`, the name is shown as `w`.
   * The three lemmas above discharge these premises for "prepare_data",
   * `v` = "📋 Chuẩn bị dữ liệu" and `w` = "📋 📋 Chuẩn bị dữ liệu".
   */
  lemma StepNameAsWrittenRelabelsLabel(d: string, v: string, w: string, k: nat)
    requires Relabelled(d, StepMappings) == v
    requires k < |LegacyMappings|
    requires forall i :: 0 <= i < k ==> Relabel(v, LegacyMappings[i]) == v
    requires Relabel(v, LegacyMappings[k]) == w
    requires forall i :: k < i < |LegacyMappings| ==> Relabel(w, LegacyMappings[i]) == w
    ensures StepNameAsWritten(d) == w
  {
    RelabelledAround(v, w, LegacyMappings, k);
  }

  /** As written, "prepare_data" is shown with its icon twice. */
  lemma PrepareDataShownTwice(d: string, v: string, w: string)
    requires d == "prepare_data" && v == "📋 Chuẩn bị dữ liệu" && w == "📋 📋 Chuẩn bị dữ liệu"
    ensures StepNameAsWritten(d) == w
  {
    PrepareLabelPremises(d, v, w);
    StepNameAsWrittenRelabelsLabel(d, v, w, 2);
  }

  /** The premises of the lemma above for "prepare_data". */
  lemma PrepareLabelPremises(d: string, v: string, w: string)
    requires d == "prepare_data" && v == "📋 Chuẩn bị dữ liệu" && w == "📋 📋 Chuẩn bị dữ liệu"
    ensures Relabelled(d, StepMappings) == v
    ensures forall i :: 0 <= i < 2 ==> Relabel(v, LegacyMappings[i]) == v
    ensures Relabel(v, LegacyMappings[2]) == w
    ensures forall i :: 2 < i < |LegacyMappings| ==> Relabel(w, LegacyMappings[i]) == w
  {
    assert v == StepMappings[0].1;
    PrepareDataLabel(d);
    PrepareLabelLegacyFirst(v, w);
    PrepareLabelLegacyRest(w);
  }

  /** The first three legacy entries on the label of "prepare_data". */
  lemma PrepareLabelLegacyFirst(v: string, w: string)
    requires v == "📋 Chuẩn bị dữ liệu" && w == "📋 📋 Chuẩn bị dữ liệu"
    ensures forall i :: 0 <= i < 2 ==> Relabel(v, LegacyMappings[i]) == v
    ensures Relabel(v, LegacyMappings[2]) == w
  {
    PrepareLabelKept(v);
    PrepareLabelDoubled(v, w);
  }

  lemma PrepareLabelKept(v: string)
    requires v == "📋 Chuẩn bị dữ liệu"
    ensures forall i :: 0 <= i < 2 ==> Relabel(v, LegacyMappings[i]) == v
  {
    assert v == StepMappings[0].1;
    forall i | 0 <= i < 2
      ensures Relabel(v, LegacyMappings[i]) == v
    {
      LegacyKeepsPrepareLabel(v, i);
    }
  }

  lemma PrepareLabelDoubled(v: string, w: string)
    requires v == "📋 Chuẩn bị dữ liệu" && w == "📋 📋 Chuẩn bị dữ liệu"
    ensures Relabel(v, LegacyMappings[2]) == w
  {
    PrepareLabelSpelled(v, w);
    LegacyRelabelsPrepareLabel(v);
  }

  lemma PrepareLabelSpelled(v: string, w: string)
    requires v == "📋 Chuẩn bị dữ liệu" && w == "📋 📋 Chuẩn bị dữ liệu"
    ensures v == StepMappings[0].1 && w == "📋 " + v
  {
  }

  /** The last three legacy entries on the doubled label. */
  lemma PrepareLabelLegacyRest(w: string)
    requires w == "📋 📋 Chuẩn bị dữ liệu"
    ensures forall i :: 2 < i < |LegacyMappings| ==> Relabel(w, LegacyMappings[i]) == w
  {
    forall i | 2 < i < |LegacyMappings|
      ensures Relabel(w, LegacyMappings[i]) == w
    {
      LegacyKeepsDoubledLabel(w, i);
    }
  }

  /** As intended, "prepare_data" is shown with its label once. */
  lemma StepNameLabelsOnce(d: string)
    requires d == "prepare_data"
    ensures StepName(d) == "📋 Chuẩn bị dữ liệu"
  {
    PrepareDataLabel(d);
    assert OccursAt(d, StepMappings[0].0, 0);
  }

  /** The detail keys other than PASS, FAIL and UNKNOWN are too long to occur in a text of eight characters. */
  lemma DetailKeepsShort(d: string, i: nat)
    requires |d| <= 8 && i < |DetailMappings| && i != 5 && i != 6 && i != 7
    ensures Relabel(d, DetailMappings[i]) == d
  {
    assert |DetailMappings[i].0| > |d|;
  }

  /** The detail keys after PASS do not occur in a short text without an F or a U. */
  lemma DetailKeepsAfterPass(d: string)
    requires |d| <= 8 && 'F' !in d && 'U' !in d
    ensures forall i :: 5 < i < |DetailMappings| ==> Relabel(d, DetailMappings[i]) == d
  {
    forall i | 5 < i < |DetailMappings|
      ensures Relabel(d, DetailMappings[i]) == d
    {
      if i == 6 {
        MissingChar(d, DetailMappings[6].0, 'F');
      } else if i == 7 {
        MissingChar(d, DetailMappings[7].0, 'U');
      } else {
        DetailKeepsShort(d, i);
      }
    }
  }

  /** The detail keys before PASS do not occur in a short text. */
  lemma DetailKeepsBeforePass(d: string)
    requires |d| <= 8
    ensures forall i :: 0 <= i < 5 ==> Relabel(d, DetailMappings[i]) == d
  {
    forall i | 0 <= i < 5
      ensures Relabel(d, DetailMappings[i]) == d
    {
      DetailKeepsShort(d, i);
    }
  }

  /** `formatDetailMessage` labels "PASS" with the check mark. */
  lemma DetailMessageLabelsPass()
    ensures DetailMessage("PASS") == "✅ PASS"
  {
    var d, v := "PASS", "✅ PASS";
    assert DetailMappings[5] == (d, v);
    RelabelWhole(d, v);
    DetailKeepsBeforePass(d);
    DetailKeepsAfterPass(v);
    RelabelledAround(d, v, DetailMappings, 5);
  }

  /** The first "PASS" in the labelled text sits after the mark and its space. */
  lemma PassLabelRelabelled(d: string, v: string)
    requires d == "PASS" && v == "✅ PASS"
    ensures Relabel(v, (d, v)) == "✅ ✅ PASS"
  {
    assert !OccursAt(v, d, 0) by { assert v[0] != d[0]; }
    assert !OccursAt(v, d, 1) by { assert v[1] != d[0]; }
    assert v[2..6] == d;
    assert IndexOf(v, d, 2) == Some(2);
    assert IndexOf(v, d, 0) == Some(2);
    assert v[..2] + v + v[6..] == "✅ ✅ PASS";
  }

  /**
   * `formatDetailMessage` is not idempotent: formatting the labelled "PASS"
   * again prefixes the check mark a second time.
   */
  lemma DetailMessageRelabelsPass()
    ensures DetailMessage(DetailMessage("PASS")) == "✅ ✅ PASS"
  {
    DetailMessageLabelsPass();
    DetailMessageLabelsPassAgain("PASS", "✅ PASS", "✅ ✅ PASS");
  }

  /** The second formatting of "PASS", with the texts as parameters. */
  lemma DetailMessageLabelsPassAgain(d: string, v: string, w: string)
    requires d == "PASS" && v == "✅ PASS" && w == "✅ ✅ PASS"
    ensures DetailMessage(v) == w
  {
    assert DetailMappings[5] == (d, v);
    PassLabelRelabelled(d, v);
    DetailKeepsBeforePass(v);
    DetailKeepsAfterPass(w);
    RelabelledAround(v, w, DetailMappings, 5);
  }

  // ---------------------------------------------------------------------------
  // The progress card
  // ---------------------------------------------------------------------------

  /** A `LogManager.add(message, type)` call: the message and its type. */
  datatype Note = Note(message: string, kind: string)

  /**
   * What the tracker holds and what its card displays. `polling` is whether
   * `pollingInterval` is set; `pollers` counts the intervals still running,
   * including any whose handle was overwritten; `scrolls` counts the
   * scroll-to-bottom requests; `notes` are the messages added to the
   * activity log.
   */
  datatype Panel = Panel(
    sessionId: Option<string>,
    polling: bool,
    pollers: nat,
    processedLogIds: set<string>,
    lastUpdateTime: real,
    cardShown: bool,
    sessionLabel: string,
    barPercent: real,
    stepText: string,
    detailsText: string,
    log: seq<Line>,
    scrolls: nat,
    indicatorShown: bool,
    overlay: Option<Overlay>,
    buttonRestored: bool,
    notes: seq<Note>)

  /** The tracker as its constructor leaves it, with an empty card. */
  const Idle := Panel(None, false, 0, {}, 0.0, false, "", 0.0, "", "", [], 0, false, None, false, [])

  const InitialLine := Line("log-entry log-info", "[Khởi tạo] 🚀 Bắt đầu quy trình tạo báo cáo (Combined Research + Validation)")
  const StartNote := Note("📡 Bắt đầu theo dõi tiến độ", "info")
  const StopNote := Note("⏹️ Dừng theo dõi tiến độ", "info")
  const DoneNote := Note("🎉 Hoàn thành tạo báo cáo với Combined Workflow!", "success")
  const FailNote := Note("💥 Có lỗi xảy ra trong Combined Workflow!", "error")
  const DefaultError := "Có lỗi xảy ra trong quá trình Combined Research + Validation"

  /** The lines a card can hold: twenty, and the final line after them. */
  predicate Valid(p: Panel) {
    |p.log| <= MaxLogLines + 1 && (p.polling ==> p.pollers > 0)
  }

  /** `Session: ${sessionId.substring(0, 8)}...`. */
  function SessionLabel(sid: string): (r: string)
    ensures |r| == 12 + (if |sid| < 8 then |sid| else 8)
    ensures r[9..|r| - 3] == sid[..|r| - 12]
  {
    "Session: " + (if |sid| < 8 then sid else sid[..8]) + "..."
  }

  /** `value || fallback` on an optional text: a missing or empty text falls back. */
  function OrElse(s: Option<string>, fallback: string): (r: string)
    ensures s.Some? && s.value != "" ==> r == s.value
    ensures s.None? || s.value == "" ==> r == fallback
  {
    if s.Some? && s.value != "" then s.value else fallback
  }

  /** `updateProgressBar`: the bar shows the percentage (0 when missing) and the unstamped step. */
  function BarUpdated(p: Panel, percentage: Option<real>, stepName: Option<string>): Panel {
    p.(barPercent := if percentage.Some? then percentage.value else 0.0,
       stepText := Unstamped(OrElse(stepName, "")))
  }

  /** `updateProgressDetails`: an empty text leaves the shown details alone. */
  function DetailsUpdated(p: Panel, details: Option<string>): Panel {
    var clean := Unstamped(OrElse(details, ""));
    if clean != "" then p.(detailsText := clean) else p
  }

  /** The card made visible for session `sid`, with nothing yet processed. */
  function CardReset(p: Panel, sid: string): Panel {
    p.(cardShown := true, sessionLabel := SessionLabel(sid), lastUpdateTime := 0.0, processedLogIds := {})
  }

  /** `initializeProgressLog`: the log holds the starting line only. */
  function LogInitialized(p: Panel): Panel {
    p.(log := [InitialLine], scrolls := p.scrolls + 1)
  }

  /** `showProgressCard` for session `sid`: the card is reset to its starting text. */
  function CardShown(p: Panel, sid: string): Panel {
    LogInitialized(DetailsUpdated(BarUpdated(CardReset(p, sid), Some(0.0), Some("Đang khởi tạo...")),
                                  Some("Chuẩn bị bắt đầu quy trình tạo báo cáo...")))
  }

  /** `startPolling`: a new interval starts, without clearing one already running. */
  function PollingStarted(p: Panel): Panel {
    p.(polling := true, pollers := p.pollers + 1)
  }

  /** A message added to the activity log. */
  function Noted(p: Panel, n: Note): Panel {
    p.(notes := p.notes + [n])
  }

  /** `startTracking`. */
  function Started(p: Panel, sid: string): Panel {
    Noted(PollingStarted(CardShown(p.(sessionId := Some(sid)), sid)), StartNote)
  }

  /** `stopTracking`: the current interval is cleared, and the session forgotten. */
  function Stopped(p: Panel): Panel
    requires Valid(p)
  {
    var q := if p.polling then p.(polling := false, pollers := p.pollers - 1, notes := p.notes + [StopNote]) else p;
    q.(sessionId := None, processedLogIds := {}, lastUpdateTime := 0.0)
  }

  /** `hideProgressCard`. */
  function Hidden(p: Panel): Panel {
    p.(cardShown := false, lastUpdateTime := 0.0, processedLogIds := {}, indicatorShown := false)
  }

  /** `cancelTracking`. */
  function CancelledTracking(p: Panel): Panel
    requires Valid(p)
  {
    Hidden(Stopped(p)).(buttonRestored := true)
  }

  /**
   * `processLogEntries`: new lines are appended and remembered, the log is
   * trimmed to twenty lines, and the card scrolls down or shows the
   * new-lines indicator, depending on whether the reader was at the bottom.
   */
  function Logged(p: Panel, queue: seq<LogEntry>, atBottom: bool): Panel {
    var absorbed := Absorbed(p.sessionId, p.processedLogIds, queue);
    FollowedUp(p.(processedLogIds := absorbed.0, log := Trimmed(p.log + absorbed.1)), absorbed.1 != [], atBottom)
  }

  /** `scrollToBottom` or `showProgressLogIndicator`, once lines were added. */
  function FollowedUp(p: Panel, added: bool, atBottom: bool): Panel {
    var follow := FollowUp(added, atBottom);
    p.(scrolls := if follow == ScrollDown then p.scrolls + 1 else p.scrolls,
       indicatorShown := p.indicatorShown || follow == ShowIndicator)
  }

  /**
   * The end of `handleCompletion` and `handleError`: the final line is
   * appended, the log scrolls down, the overlay appears and the trigger
   * button is restored.
   */
  function Finalised(p: Panel, line: Line, shown: Overlay): Panel {
    p.(log := p.log + [line], scrolls := p.scrolls + 1, overlay := Some(shown), buttonRestored := true)
  }

  /** The completion message for report `reportId`. */
  function CompletionMessage(reportId: string): string {
    "Báo cáo #" + reportId + " đã được tạo thành công với Combined Research + Validation!"
  }

  /** `handleCompletion`. */
  function Completed(p: Panel, reportId: string): Panel {
    var q := DetailsUpdated(BarUpdated(p, Some(100.0), Some("Hoàn thành!")), Some(CompletionMessage(reportId)));
    var line := Line("log-entry log-success", "🎉 Hoàn thành tạo báo cáo #" + reportId + " (Combined Workflow)");
    Noted(Finalised(q, line, Overlay(true, CompletionMessage(reportId))), DoneNote)
  }

  /** `handleError`. */
  function Failed(p: Panel, r: Record): Panel {
    var q := DetailsUpdated(BarUpdated(p, r.percentage, Some("Lỗi xảy ra")), Some(OrElse(r.details, DefaultError)));
    var line := Line("log-entry log-error", "💥 Lỗi Combined Workflow: " + OrElse(r.details, "Có lỗi xảy ra"));
    Noted(Finalised(q, line, Overlay(false, OrElse(r.details, DefaultError))), FailNote)
  }

  /** `progress.step_queue || []`. */
  function Queue(r: Record): seq<LogEntry> {
    if r.stepQueue.Some? then r.stepQueue.value else []
  }

  /** The bar and details of a newer record, which becomes the last one shown. */
  function Refreshed(p: Panel, r: Record): Panel {
    DetailsUpdated(BarUpdated(p.(lastUpdateTime := UpdateTime(r)), r.percentage, r.currentStepName), r.details)
  }

  /** `processUpdate`: a record not newer than the last one shown changes nothing. */
  function Updated(p: Panel, r: Record, atBottom: bool): Panel {
    if UpdateTime(r) <= p.lastUpdateTime then p
    else
      var q := Logged(Refreshed(p, r), Queue(r), atBottom);
      if r.status == "completed" then Completed(q, r.reportId)
      else if r.status == "error" then Failed(q, r)
      else q
  }

  /** A finished session: the poll stops after it. */
  predicate Finished(r: Record) {
    r.status == "completed" || r.status == "error"
  }

  /** One tick of the polling interval; `None` is a poll that returned nothing. */
  function Polled(p: Panel, r: Option<Record>, atBottom: bool): Panel
    requires Valid(p)
  {
    if r.None? then p
    else
      var q := Updated(p, r.value, atBottom);
      UpdatedKeepsValid(p, r.value, atBottom);
      if Finished(r.value) then Stopped(q) else q
  }

  /** The scroll listener and the indicator's click: at the bottom, the indicator goes. */
  function Scrolled(p: Panel, atBottom: bool): Panel {
    if atBottom then p.(indicatorShown := false) else p
  }

  // ---------------------------------------------------------------------------
  // Properties of the card
  // ---------------------------------------------------------------------------

  /** Processing the log leaves at most twenty lines and remembers every new line's id. */
  lemma LoggedKeepsTwenty(p: Panel, queue: seq<LogEntry>, atBottom: bool)
    ensures |Logged(p, queue, atBottom).log| <= MaxLogLines
    ensures Logged(p, queue, atBottom).processedLogIds == p.processedLogIds + LineIds(p.sessionId, queue)
  {
    AbsorbedIds(p.sessionId, p.processedLogIds, queue);
  }

  /** Every operation of the tracker keeps the card valid. */
  lemma OperationsKeepValid(p: Panel, sid: string, r: Option<Record>, atBottom: bool)
    requires Valid(p)
    ensures Valid(Started(p, sid))
    ensures Valid(Stopped(p))
    ensures Valid(Hidden(p))
    ensures Valid(CancelledTracking(p))
    ensures Valid(Polled(p, r, atBottom))
    ensures Valid(Scrolled(p, atBottom))
  {
    if r.Some? {
      UpdatedKeepsValid(p, r.value, atBottom);
    }
  }

  /** What an update leaves alone: the session and the polling. */
  predicate SameTracking(p: Panel, q: Panel) {
    q.sessionId == p.sessionId && q.polling == p.polling && q.pollers == p.pollers
  }

  lemma RefreshedKeepsTracking(p: Panel, r: Record)
    ensures SameTracking(p, Refreshed(p, r)) && Refreshed(p, r).lastUpdateTime == UpdateTime(r)
    ensures Refreshed(p, r).log == p.log && Refreshed(p, r).overlay == p.overlay
  {
  }

  lemma LoggedKeepsTracking(p: Panel, queue: seq<LogEntry>, atBottom: bool)
    ensures SameTracking(p, Logged(p, queue, atBottom)) && Logged(p, queue, atBottom).lastUpdateTime == p.lastUpdateTime
    ensures Logged(p, queue, atBottom).overlay == p.overlay
  {
  }

  lemma CompletedKeepsTracking(p: Panel, reportId: string)
    ensures SameTracking(p, Completed(p, reportId)) && Completed(p, reportId).lastUpdateTime == p.lastUpdateTime
    ensures |Completed(p, reportId).log| == |p.log| + 1
    ensures Completed(p, reportId).overlay == Some(Overlay(true, CompletionMessage(reportId)))
    ensures Completed(p, reportId).log[|p.log|].className == "log-entry log-success"
  {
  }

  lemma FailedKeepsTracking(p: Panel, r: Record)
    ensures SameTracking(p, Failed(p, r)) && Failed(p, r).lastUpdateTime == p.lastUpdateTime
    ensures |Failed(p, r).log| == |p.log| + 1
    ensures Failed(p, r).overlay == Some(Overlay(false, OrElse(r.details, DefaultError)))
    ensures Failed(p, r).log[|p.log|].className == "log-entry log-error"
  {
  }

  /** An update keeps the card valid: at most the final line beyond twenty. */
  lemma UpdatedKeepsValid(p: Panel, r: Record, atBottom: bool)
    requires Valid(p)
    ensures Valid(Updated(p, r, atBottom))
  {
    if UpdateTime(r) > p.lastUpdateTime {
      var q := Refreshed(p, r);
      var l := Logged(q, Queue(r), atBottom);
      RefreshedKeepsTracking(p, r);
      LoggedKeepsTwenty(q, Queue(r), atBottom);
      LoggedKeepsTracking(q, Queue(r), atBottom);
      if r.status == "completed" {
        CompletedKeepsTracking(l, r.reportId);
      } else if r.status == "error" {
        FailedKeepsTracking(l, r);
      }
    }
  }

  /**
   * A record not newer than the last one shown changes nothing; a newer one
   * becomes the last one shown and leaves the session and the polling alone.
   */
  lemma UpdateOnlyWhenNewer(p: Panel, r: Record, atBottom: bool)
    ensures UpdateTime(r) <= p.lastUpdateTime ==> Updated(p, r, atBottom) == p
    ensures UpdateTime(r) > p.lastUpdateTime ==> Updated(p, r, atBottom).lastUpdateTime == UpdateTime(r)
    ensures SameTracking(p, Updated(p, r, atBottom))
  {
    if UpdateTime(r) > p.lastUpdateTime {
      var q := Refreshed(p, r);
      var l := Logged(q, Queue(r), atBottom);
      RefreshedKeepsTracking(p, r);
      LoggedKeepsTracking(q, Queue(r), atBottom);
      if r.status == "completed" {
        CompletedKeepsTracking(l, r.reportId);
      } else if r.status == "error" {
        FailedKeepsTracking(l, r);
      }
    }
  }

  /**
   * Stopping and hiding forget what was shown: any record with a positive
   * update time is newer than the last one shown afterwards, and no log
   * id counts as processed.
   */
  lemma StopAndHideForget(p: Panel, r: Record)
    requires Valid(p) && UpdateTime(r) > 0.0
    ensures Stopped(p).processedLogIds == {} && Hidden(p).processedLogIds == {}
    ensures UpdateTime(r) > Stopped(p).lastUpdateTime && UpdateTime(r) > Hidden(p).lastUpdateTime
  {
  }

  /** The same record polled again is ignored. */
  lemma RepeatedRecordIgnored(p: Panel, r: Record, atBottom: bool, again: bool)
    ensures Updated(Updated(p, r, atBottom), r, again) == Updated(p, r, atBottom)
  {
    UpdateOnlyWhenNewer(p, r, atBottom);
  }

  /**
   * A finished record stops the polling and forgets the session, even when
   * it is not newer than the last one shown.
   */
  lemma FinishedStopsPolling(p: Panel, r: Record, atBottom: bool)
    requires Valid(p) && Finished(r)
    ensures !Polled(p, Some(r), atBottom).polling
    ensures Polled(p, Some(r), atBottom).sessionId.None?
    ensures Polled(p, Some(r), atBottom).pollers == if p.polling then p.pollers - 1 else p.pollers
  {
    UpdateOnlyWhenNewer(p, r, atBottom);
  }

  /**
   * A completed record shows the success overlay and ends the log with the
   * completion line; an error record shows its details, or the default
   * message, in the error overlay.
   */
  lemma FinalRecordShown(p: Panel, r: Record, atBottom: bool)
    requires UpdateTime(r) > p.lastUpdateTime
    ensures r.status == "completed" ==>
      Updated(p, r, atBottom).overlay == Some(Overlay(true, CompletionMessage(r.reportId)))
      && Updated(p, r, atBottom).log[|Updated(p, r, atBottom).log| - 1].className == "log-entry log-success"
    ensures r.status == "error" ==>
      Updated(p, r, atBottom).overlay == Some(Overlay(false, if r.details.Some? && r.details.value != "" then r.details.value else DefaultError))
      && Updated(p, r, atBottom).log[|Updated(p, r, atBottom).log| - 1].className == "log-entry log-error"
    ensures !Finished(r) ==> Updated(p, r, atBottom).overlay == p.overlay
  {
    var l := Logged(Refreshed(p, r), Queue(r), atBottom);
    RefreshedKeepsTracking(p, r);
    LoggedKeepsTracking(Refreshed(p, r), Queue(r), atBottom);
    CompletedKeepsTracking(l, r.reportId);
    FailedKeepsTracking(l, r);
  }

  /**
   * Starting to track twice overwrites the first interval's handle:
   * stopping then clears only the second, and the first keeps polling.
   */
  lemma SecondStartLeavesPoller(p: Panel, a: string, b: string)
    requires Valid(p) && !p.polling
    ensures Valid(Started(Started(p, a), b))
    ensures Stopped(Started(Started(p, a), b)).pollers == p.pollers + 1
    ensures Stopped(Started(p, a)).pollers == p.pollers
  {
  }

  // ---------------------------------------------------------------------------
  // The tracker object
  // ---------------------------------------------------------------------------

  /** Some key of a prefix of the table, one entry more. */
  lemma AnyKeySnoc(d: string, table: seq<(string, string)>, i: nat)
    requires i < |table|
    ensures AnyKey(d, table[..i + 1]) == (AnyKey(d, table[..i]) || Contains(d, table[i].0))
    decreases i
  {
    if i > 0 {
      assert table[..i + 1][1..] == table[1..][..i];
      assert table[..i][1..] == table[1..][..i - 1];
      AnyKeySnoc(d, table[1..], i - 1);
    }
  }

  /** `createLogElement`, `formatStepName`, `formatDetailMessage` and `processLogEntries` over the card's state. */
  class ProgressTracker {
    var sessionId: Option<string>
    /** Whether `pollingInterval` is set. */
    var polling: bool
    /** The polling intervals still running. */
    var pollers: nat
    var processedLogIds: set<string>
    var lastUpdateTime: real
    var cardShown: bool
    var sessionLabel: string
    var barPercent: real
    var stepText: string
    var detailsText: string
    /** The lines of the progress log, oldest first. */
    var log: seq<Line>
    /** Scroll-to-bottom requests made so far. */
    var scrolls: nat
    var indicatorShown: bool
    var overlay: Option<Overlay>
    var buttonRestored: bool
    /** Messages added to the activity log so far. */
    var notes: seq<Note>

    function View(): Panel
      reads this
    {
      Panel(sessionId, polling, pollers, processedLogIds, lastUpdateTime, cardShown, sessionLabel, barPercent,
            stepText, detailsText, log, scrolls, indicatorShown, overlay, buttonRestored, notes)
    }

    constructor ()
      ensures View() == Idle
    {
      sessionId, polling, pollers, processedLogIds, lastUpdateTime := None, false, 0, {}, 0.0;
      cardShown, sessionLabel, barPercent, stepText, detailsText := false, "", 0.0, "", "";
      log, scrolls, indicatorShown, overlay, buttonRestored, notes := [], 0, false, None, false, [];
    }

    method StartTracking(sid: string)
      modifies this
      ensures View() == Started(old(View()), sid)
    {
      sessionId := Some(sid);
      ghost var named := View();
      assert named == old(View()).(sessionId := Some(sid));
      ShowProgressCard();
      StartPolling();
      AddNote(StartNote);
    }

    /** `startPolling`: a new interval, whose handle replaces the previous one. */
    method StartPolling()
      modifies this
      ensures View() == PollingStarted(old(View()))
    {
      polling, pollers := true, pollers + 1;
    }

    /** `LogManager.add`. */
    method AddNote(n: Note)
      modifies this
      ensures View() == Noted(old(View()), n)
    {
      notes := notes + [n];
    }

    method StopTracking()
      requires Valid(View())
      modifies this
      ensures View() == Stopped(old(View()))
    {
      if polling {
        polling, pollers := false, pollers - 1;
        notes := notes + [StopNote];
      }
      sessionId := None;
      processedLogIds := {};
      lastUpdateTime := 0.0;
    }

    method CancelTracking()
      requires Valid(View())
      modifies this
      ensures View() == CancelledTracking(old(View()))
    {
      StopTracking();
      HideProgressCard();
      buttonRestored := true;
    }

    /** One tick of the polling interval; `r` is what `getProgress` returned. */
    method Poll(r: Option<Record>, atBottom: bool)
      requires Valid(View())
      modifies this
      ensures View() == Polled(old(View()), r, atBottom)
    {
      if r.Some? {
        UpdatedKeepsValid(View(), r.value, atBottom);
        ProcessUpdate(r.value, atBottom);
        if r.value.status == "completed" || r.value.status == "error" {
          StopTracking();
        }
      }
    }

    method ProcessUpdate(r: Record, atBottom: bool)
      modifies this
      ensures View() == Updated(old(View()), r, atBottom)
    {
      var current := if r.lastUpdate.Some? then r.lastUpdate.value else 0.0;
      if current <= lastUpdateTime {
        return;
      }
      lastUpdateTime := current;
      ghost var timed := View();
      assert timed == old(View()).(lastUpdateTime := UpdateTime(r));
      UpdateProgressBar(r.percentage, r.currentStepName);
      ghost var barred := View();
      assert barred == BarUpdated(timed, r.percentage, r.currentStepName);
      UpdateProgressDetails(r.details);
      ghost var refreshed := View();
      assert refreshed == Refreshed(old(View()), r);
      ProcessLogEntries(Queue(r), atBottom);
      ghost var logged := View();
      assert logged == Logged(refreshed, Queue(r), atBottom);
      if r.status == "completed" {
        HandleCompletion(r.reportId);
      } else if r.status == "error" {
        HandleError(r);
      }
    }

    method UpdateProgressBar(percentage: Option<real>, stepName: Option<string>)
      modifies this
      ensures View() == BarUpdated(old(View()), percentage, stepName)
    {
      stepText := Unstamped(OrElse(stepName, ""));
      barPercent := if percentage.Some? then percentage.value else 0.0;
    }

    method UpdateProgressDetails(details: Option<string>)
      modifies this
      ensures View() == DetailsUpdated(old(View()), details)
    {
      var clean := Unstamped(OrElse(details, ""));
      if clean != "" {
        detailsText := clean;
      }
    }

    /**
     * `processLogEntries`: the new lines are appended and remembered, the
     * oldest dropped until twenty are left, and the card follows up.
     */
    method ProcessLogEntries(queue: seq<LogEntry>, atBottom: bool)
      modifies this
      ensures View() == Logged(old(View()), queue, atBottom)
    {
      var ids, lines := NewLines(queue);
      var kept := KeepNewest(log + lines);
      var added := lines != [];
      processedLogIds, log := ids, kept;
      FollowUpLog(added, atBottom);
    }

    /**
     * Scroll down when the reader was at the bottom; otherwise show the
     * new-lines indicator (whose own check of the scroll position agrees,
     * since added lines cannot bring the reader to the bottom).
     */
    method FollowUpLog(added: bool, atBottom: bool)
      modifies this
      ensures View() == FollowedUp(old(View()), added, atBottom)
    {
      if added && atBottom {
        scrolls := scrolls + 1;
      } else if added && !atBottom {
        indicatorShown := true;
      }
    }

    /**
     * The loop over the step queue: an entry whose id has not been seen and
     * that makes a line adds that line and its id.
     */
    method NewLines(queue: seq<LogEntry>) returns (ids: set<string>, lines: seq<Line>)
      ensures (ids, lines) == Absorbed(sessionId, processedLogIds, queue)
    {
      var session := sessionId;
      ids, lines := processedLogIds, [];
      ghost var total := Absorbed(session, ids, queue);
      var i := 0;
      while i < |queue|
        invariant 0 <= i <= |queue|
        invariant AbsorbedSoFar(session, queue, i, ids, lines, total)
      {
        var e := queue[i];
        var id := LogId(session, e);
        if id !in ids {
          var line := CreateLogElement(e);
          if line.Some? {
            AbsorbedTakes(session, queue, i, ids, lines, total);
            lines := lines + [line.value];
            ids := ids + {id};
          } else {
            AbsorbedSkips(session, queue, i, ids, lines, total);
          }
        } else {
          AbsorbedSkips(session, queue, i, ids, lines, total);
        }
        i := i + 1;
      }
      AbsorbedDone(session, queue, ids, lines, total);
    }

    /** `createLogElement`: its line, and nothing for an entry that is neither a step nor a detail. */
    method CreateLogElement(e: LogEntry) returns (r: Option<Line>)
      ensures r == LogLine(e)
    {
      var clean := Unstamped(e.details);
      if e.kind == "step" {
        var name := FormatStepName(clean);
        return Some(Line("log-entry log-info", name));
      }
      if e.kind == "detail" {
        var msg := FormatWith(clean, DetailMappings);
        return Some(Line("log-entry " + LogType(msg), "📋 " + msg));
      }
      return None;
    }

    /**
     * `formatStepName`: the workflow table, then the legacy table only when
     * no workflow key was found.
     */
    method FormatStepName(d: string) returns (r: string)
      ensures r == StepName(d)
    {
      r := d;
      var matched := false;
      var i := 0;
      while i < |StepMappings|
        invariant 0 <= i <= |StepMappings|
        invariant Relabelled(r, StepMappings[i..]) == Relabelled(d, StepMappings)
        invariant matched == AnyKey(d, StepMappings[..i])
        invariant !matched ==> r == d
      {
        AnyKeySnoc(d, StepMappings, i);
        assert StepMappings[i..][1..] == StepMappings[i + 1..];
        var (key, value) := StepMappings[i];
        if Contains(r, key) {
          r := ReplaceFirst(r, key, value);
          matched := true;
        }
        i := i + 1;
      }
      assert StepMappings[..i] == StepMappings;
      if !matched {
        r := FormatWith(d, LegacyMappings);
      }
    }

    /** The formatters' loop over one mapping table. */
    method FormatWith(d: string, table: seq<(string, string)>) returns (r: string)
      ensures r == Relabelled(d, table)
    {
      r := d;
      var i := 0;
      while i < |table|
        invariant 0 <= i <= |table|
        invariant Relabelled(r, table[i..]) == Relabelled(d, table)
      {
        assert table[i..][1..] == table[i + 1..];
        var (key, value) := table[i];
        if Contains(r, key) {
          r := ReplaceFirst(r, key, value);
        }
        i := i + 1;
      }
    }

    method HandleCompletion(reportId: string)
      modifies this
      ensures View() == Completed(old(View()), reportId)
    {
      UpdateProgressBar(Some(100.0), Some("Hoàn thành!"));
      UpdateProgressDetails(Some(CompletionMessage(reportId)));
      Finish(Line("log-entry log-success", "🎉 Hoàn thành tạo báo cáo #" + reportId + " (Combined Workflow)"),
             Overlay(true, CompletionMessage(reportId)));
      AddNote(DoneNote);
    }

    method HandleError(r: Record)
      modifies this
      ensures View() == Failed(old(View()), r)
    {
      UpdateProgressBar(r.percentage, Some("Lỗi xảy ra"));
      UpdateProgressDetails(Some(OrElse(r.details, DefaultError)));
      Finish(Line("log-entry log-error", "💥 Lỗi Combined Workflow: " + OrElse(r.details, "Có lỗi xảy ra")),
             Overlay(false, OrElse(r.details, DefaultError)));
      AddNote(FailNote);
    }

    /** The final line, the scroll, the overlay and `restoreButton`. */
    method Finish(line: Line, shown: Overlay)
      modifies this
      ensures View() == Finalised(old(View()), line, shown)
    {
      log := log + [line];
      scrolls := scrolls + 1;
      overlay := Some(shown);
      buttonRestored := true;
    }

    method ShowProgressCard()
      requires sessionId.Some?
      modifies this
      ensures View() == CardShown(old(View()), old(sessionId).value)
    {
      cardShown := true;
      sessionLabel := SessionLabel(sessionId.value);
      lastUpdateTime := 0.0;
      processedLogIds := {};
      ghost var s1 := View();
      assert s1 == CardReset(old(View()), old(sessionId).value);
      UpdateProgressBar(Some(0.0), Some("Đang khởi tạo..."));
      ghost var s2 := View();
      assert s2 == BarUpdated(s1, Some(0.0), Some("Đang khởi tạo..."));
      UpdateProgressDetails(Some("Chuẩn bị bắt đầu quy trình tạo báo cáo..."));
      ghost var s3 := View();
      assert s3 == DetailsUpdated(s2, Some("Chuẩn bị bắt đầu quy trình tạo báo cáo..."));
      InitializeProgressLog();
      assert View() == LogInitialized(s3);
    }

    method InitializeProgressLog()
      modifies this
      ensures View() == LogInitialized(old(View()))
    {
      log := [InitialLine];
      scrolls := scrolls + 1;
    }

    method HideProgressCard()
      modifies this
      ensures View() == Hidden(old(View()))
    {
      cardShown := false;
      lastUpdateTime := 0.0;
      processedLogIds := {};
      indicatorShown := false;
    }

    /** The scroll listener, and a click on the indicator (which scrolls to the bottom). */
    method OnLogScrolled(atBottom: bool)
      modifies this
      ensures View() == Scrolled(old(View()), atBottom)
    {
      if atBottom {
        indicatorShown := false;
      }
    }
  }

  /** `while (children.length > 20) removeChild(firstChild)`. */
  method KeepNewest(lines: seq<Line>) returns (r: seq<Line>)
    ensures r == Trimmed(lines)
  {
    r := lines;
    while |r| > MaxLogLines
      invariant r == lines[|lines| - |r|..]
      invariant |r| >= MaxLogLines || r == lines
    {
      r := r[1..];
    }
  }
}
