/**
 * `LogManager`: the dashboard's activity log, newest entry first, at most
 * fifty entries, and the container that shows it. Timestamps are supplied
 * by the caller; the DOM is reduced to the sequence of entries it shows.
 */
module LogManagement {

  /** Entries kept after an overflow. */
  const MaxEntries := 50

  const ClearedMsg := "Đã xóa nhật ký hoạt động"
  const SessionMsg := "🔐 Phiên truy cập an toàn được khởi tạo"
  const StartupMsg := "🚀 Khởi tạo Auto Update System với Combined Research + Validation"
  const ReminderMsg := "⚠️ Nhắc nhở: Không chia sẻ URL này với người khác"

  datatype Entry = Entry(timestamp: string, message: string, kind: string)

  /** `unshift`, then keep the first fifty. */
  function Added(entries: seq<Entry>, e: Entry): (r: seq<Entry>)
    ensures |r| == if |entries| < MaxEntries then |entries| + 1 else MaxEntries
    ensures r[0] == e && r[1..] == entries[..|r| - 1]
  {
    var grown := [e] + entries;
    if |grown| > MaxEntries then grown[..MaxEntries] else grown
  }

  /** The entries in reverse: the order the container ends up showing them in. */
  function Reversed(entries: seq<Entry>): (r: seq<Entry>)
    ensures |r| == |entries|
    ensures forall i :: 0 <= i < |r| ==> r[i] == entries[|entries| - 1 - i]
  {
    if entries == [] then [] else Reversed(entries[1..]) + [entries[0]]
  }

  /**
   * Adding to a log of at most fifty entries keeps it at most fifty long,
   * with the new entry first and the others in their previous order; an
   * entry added while the log is full pushes out exactly the oldest.
   */
  lemma AddKeepsNewest(entries: seq<Entry>, e: Entry)
    requires |entries| <= MaxEntries
    ensures var r := Added(entries, e);
      |r| <= MaxEntries && r[0] == e
      && (|entries| < MaxEntries ==> r == [e] + entries)
      && (|entries| == MaxEntries ==> r == [e] + entries[..MaxEntries - 1])
  {
    var r := Added(entries, e);
    assert r == [r[0]] + r[1..];
  }

  /** Two additions to a log with room for both put both in front, the later one first. */
  lemma {:induction false} AddedInOrder(entries: seq<Entry>, e1: Entry, e2: Entry)
    requires |entries| + 2 <= MaxEntries
    ensures Added(Added(entries, e1), e2) == [e2, e1] + entries
  {
    assert Added(entries, e1) == [e1] + entries;
    assert Added([e1] + entries, e2) == [e2] + ([e1] + entries);
  }

  class LogManager {
    /** `LogManager.logEntries`. */
    var entries: seq<Entry>
    /** The entries the activity-log container shows, top to bottom. */
    var shown: seq<Entry>
    /** Whether the page has an activity-log container. */
    var hasContainer: bool
    /** Whether the security reminder is still waiting on its timer. */
    var reminderPending: bool

    predicate Valid()
      reads this
    {
      |entries| <= MaxEntries
    }

    constructor (hasContainer: bool)
      ensures Valid() && entries == [] && shown == [] && this.hasContainer == hasContainer && !reminderPending
    {
      entries := [];
      shown := [];
      this.hasContainer := hasContainer;
      reminderPending := false;
    }

    /** `add`, with the clock's reading as `timestamp`. */
    method Add(message: string, kind: string, timestamp: string)
      requires Valid()
      modifies this
      ensures Valid() && entries == Added(old(entries), Entry(timestamp, message, kind))
      ensures hasContainer == old(hasContainer) && reminderPending == old(reminderPending)
      ensures shown == if hasContainer then Reversed(entries) else old(shown)
    {
      entries := [Entry(timestamp, message, kind)] + entries;
      if |entries| > MaxEntries {
        entries := entries[..MaxEntries];
      }
      UpdateDisplay();
    }

    /**
     * `updateDisplay`: each entry, newest first, is inserted before the
     * container's first child, so the newest ends up at the bottom.
     */
    method UpdateDisplay()
      modifies this
      ensures entries == old(entries) && hasContainer == old(hasContainer) && reminderPending == old(reminderPending)
      ensures shown == if hasContainer then Reversed(entries) else old(shown)
    {
      if !hasContainer {
        return;
      }
      var children: seq<Entry> := [];
      var i := 0;
      while i < |entries|
        invariant 0 <= i <= |entries|
        invariant children == Reversed(entries[..i])
        invariant entries == old(entries) && hasContainer && reminderPending == old(reminderPending)
      {
        assert entries[..i + 1] == entries[..i] + [entries[i]];
        ReversedSnoc(entries[..i], entries[i]);
        children := [entries[i]] + children;
        i := i + 1;
      }
      assert entries[..i] == entries;
      shown := children;
    }

    /** `clear`: empty the log, then record that it was cleared. */
    method Clear(timestamp: string)
      requires Valid()
      modifies this
      ensures Valid() && entries == [Entry(timestamp, ClearedMsg, "info")]
      ensures hasContainer == old(hasContainer) && reminderPending == old(reminderPending)
      ensures shown == if hasContainer then entries else old(shown)
    {
      entries := [];
      UpdateDisplay();
      Add(ClearedMsg, "info", timestamp);
    }

    /** `init`: two entries now, and the reminder left to its timer. */
    method Init(t1: string, t2: string)
      requires Valid()
      modifies this
      ensures Valid() && reminderPending
      ensures entries == Added(Added(old(entries), Entry(t1, SessionMsg, "info")), Entry(t2, StartupMsg, "info"))
      ensures hasContainer == old(hasContainer)
      ensures shown == if hasContainer then Reversed(entries) else old(shown)
      ensures |old(entries)| + 2 <= MaxEntries ==>
        entries == [Entry(t2, StartupMsg, "info"), Entry(t1, SessionMsg, "info")] + old(entries)
      ensures |entries| <= |old(entries)| + 2
    {
      Add(SessionMsg, "info", t1);
      Add(StartupMsg, "info", t2);
      reminderPending := true;
      if |old(entries)| + 2 <= MaxEntries {
        AddedInOrder(old(entries), Entry(t1, SessionMsg, "info"), Entry(t2, StartupMsg, "info"));
      }
    }

    /** The reminder's timer firing, five seconds after `init`. */
    method Remind(timestamp: string)
      requires Valid() && reminderPending
      modifies this
      ensures Valid() && !reminderPending && entries == Added(old(entries), Entry(timestamp, ReminderMsg, "info"))
      ensures hasContainer == old(hasContainer)
      ensures shown == if hasContainer then Reversed(entries) else old(shown)
    {
      Add(ReminderMsg, "info", timestamp);
      reminderPending := false;
    }
  }

  /** Reversing a log with one more (older) entry puts that entry on top. */
  lemma ReversedSnoc(entries: seq<Entry>, e: Entry)
    ensures Reversed(entries + [e]) == [e] + Reversed(entries)
  {
    var r := Reversed(entries + [e]);
    assert r[0] == e;
    assert r[1..] == Reversed(entries);
  }

  /** The container shows the oldest entry on top and the newest at the bottom. */
  lemma ShownOldestFirst(entries: seq<Entry>)
    requires entries != []
    ensures Reversed(entries)[0] == entries[|entries| - 1] && Reversed(entries)[|entries| - 1] == entries[0]
  {
  }
}
