/**
 * `save_database_node`: one new report row, committed with a bounded retry
 * loop that retries SSL-flavoured operational errors only, with exponential
 * back-off; five tries for large reports, three otherwise.
 */
module Save {
  import opened Wrappers
  import opened Text
  import opened Environment
  import opened ReportStates

  /** Reports larger than this many characters get more tries. */
  const LargeReport := 50000
  const LargeRetries := 5
  const SmallRetries := 3

  const ExhaustedMsg := "Đã hết số lần thử lưu database"
  const NoLenOfNone := "object of type 'NoneType' has no len()"

  function Pow2(n: nat): (p: nat)
    ensures p >= 1
  {
    if n == 0 then 1 else 2 * Pow2(n - 1)
  }

  /** An operational error whose text names an SSL or connection fault. */
  predicate IsSslError(message: string) {
    var low := Lower(message);
    Contains(low, "ssl") || Contains(low, "decryption failed") || Contains(low, "bad record mac")
    || Contains(low, "connection reset")
  }

  /** The failures the loop retries while tries are left. */
  predicate SslFailure(o: DbOutcome) {
    o.OperationalError? && IsSslError(o.message)
  }

  function GaveUpMsg(maxRetries: nat, detail: string): string {
    "Lỗi khi lưu database sau " + NatToString(maxRetries) + " lần thử: " + detail
  }

  function NoRetryMsg(detail: string): string {
    "Lỗi không thể retry khi lưu database: " + detail
  }

  // ---------------------------------------------------------------------------
  // The commit loop
  // ---------------------------------------------------------------------------

  /** How the loop ends: the new row's id, or the message recorded as the error. */
  datatype SaveEnd = Saved(id: int) | NotSaved(message: string)

  /** The loop's end together with the commits it made and the sleeps it took. */
  datatype CommitRun = CommitRun(end: SaveEnd, commits: nat, waits: seq<int>)

  /** The wait before try `a`: none before the first, `2 ** a` seconds before a retry. */
  function Before(a: nat): seq<int> {
    if a > 0 then [Pow2(a)] else []
  }

  /** `r` preceded by `commits` earlier commits and `waits` earlier sleeps. */
  function After(r: CommitRun, waits: seq<int>, commits: nat): CommitRun {
    CommitRun(r.end, commits + r.commits, waits + r.waits)
  }

  /**
   * The `for attempt in range(max_retries)` loop from try `a` on, the database
   * answering commit `p` with `db(p)`. It is written for any test `retried`
   * of which operational errors to retry; the node uses `SslFailure`.
   */
  function CommitFrom(retried: DbOutcome -> bool, db: nat -> DbOutcome, p: nat, maxRetries: nat, a: nat): CommitRun
    decreases maxRetries - a
  {
    if a >= maxRetries then CommitRun(NotSaved(ExhaustedMsg), 0, [])
    else if db(p).OperationalError? && retried(db(p)) && a + 1 < maxRetries
    then After(CommitFrom(retried, db, p + 1, maxRetries, a + 1), Before(a) + [Pow2(a)], 1)
    else CommitRun(EndOf(db(p), maxRetries), 1, Before(a))
  }

  /** How a try that is not retried ends the loop. */
  function EndOf(o: DbOutcome, maxRetries: nat): SaveEnd {
    match o
    case Committed(id) => Saved(id)
    case OperationalError(m) => NotSaved(GaveUpMsg(maxRetries, m))
    case OtherError(m) => NotSaved(NoRetryMsg(m))
  }

  /** A failed save: one message appended and reported. */
  function Refuse(s: Snapshot, msg: string, commits: nat, waits: seq<int>): NodeOut {
    NodeOut(WithError(s, msg), Effects(0, commits, waits, [], [Failed(s.sessionId, msg)]), None)
  }

  /**
   * What the state and the tracker see of a finished loop. A save stores the
   * id, sets the flag and reports completion, changing nothing else; a failed
   * save appends one message and reports exactly that message. The model is
   * never called.
   */
  function Settle(s: Snapshot, r: CommitRun): (o: NodeOut)
    ensures o.fx.calls == 0 && o.fx.prompts == [] && o.fx.commits == r.commits && o.fx.waits == r.waits && o.raised.None?
    ensures o.state.success <==> r.end.Saved?
    ensures r.end.Saved? ==>
      o.state == s.(reportId := Val(r.end.id), success := true) && o.fx.events == [Completed(s.sessionId, true, Some(r.end.id))]
    ensures r.end.NotSaved? ==>
      o.state == WithError(s, r.end.message) && o.fx.events == [Failed(s.sessionId, r.end.message)]
  {
    match r.end
    case Saved(id) =>
      NodeOut(s.(reportId := Val(id), success := true), Effects(0, r.commits, r.waits, [], [Completed(s.sessionId, true, Some(id))]), None)
    case NotSaved(msg) => Refuse(s, msg, r.commits, r.waits)
  }

  /** `_save_to_database_with_retry`, as the node runs it. */
  function SaveFrom(s: Snapshot, db: nat -> DbOutcome, p: nat, maxRetries: nat): NodeOut {
    Settle(s, CommitFrom(SslFailure, db, p, maxRetries, 0))
  }

  lemma AfterTwice(r: CommitRun, w1: seq<int>, c1: nat, w2: seq<int>, c2: nat)
    ensures After(After(r, w2, c2), w1, c1) == After(r, w1 + w2, c1 + c2)
  {
    assert w1 + (w2 + r.waits) == (w1 + w2) + r.waits;
  }

  lemma AfterNothing(r: CommitRun)
    ensures After(r, [], 0) == r
  {
    assert [] + r.waits == r.waits;
  }

  /**
   * The tries of the retry loop against the database, retrying the
   * operational errors `retried` accepts. A retried try sleeps `2 ** attempt`
   * seconds before it; a retried error sleeps as long again after it.
   * Nothing but the commits and the sleeps happens here.
   */
  method CommitLoop(env: Env, maxRetries: nat, retried: DbOutcome -> bool) returns (end: SaveEnd)
    modifies env
    ensures var r := CommitFrom(retried, env.db, old(env.dbPos), maxRetries, 0);
      end == r.end && env.dbPos == old(env.dbPos) + r.commits && env.sleeps == old(env.sleeps) + r.waits
    ensures env.pos == old(env.pos) && env.prompts == old(env.prompts) && env.events == old(env.events)
  {
    ghost var start := env.dbPos;
    var a := 0;
    while a < maxRetries
      invariant env.dbPos == start + a && env.sleeps == old(env.sleeps) + BackoffWaits(a)
      invariant a == 0 || a < maxRetries
      invariant RetriedRun(retried, env.db, start, a)
      invariant env.pos == old(env.pos) && env.prompts == old(env.prompts) && env.events == old(env.events)
      decreases maxRetries - a
    {
      if a > 0 {
        env.sleeps := env.sleeps + [Pow2(a)];
      }
      var outcome := env.Commit();
      if outcome.OperationalError? && retried(outcome) && a + 1 < maxRetries {
        env.sleeps := env.sleeps + [Pow2(a)];
        a := a + 1;
      } else {
        StopAt(retried, env.db, start, maxRetries, a);
        return EndOf(outcome, maxRetries);
      }
    }
    NoTries(retried, env.db, start);
    end := NotSaved(ExhaustedMsg);
  }

  /**
   * The retry loop on the shared state, with `maxRetries` tries at most: the
   * state and the tracker are updated once, when the loop ends.
   */
  method SaveWithRetry(st: ReportState, env: Env, maxRetries: nat) returns (ghost o: NodeOut)
    modifies st, env
    ensures o == SaveFrom(old(st.data), env.db, old(env.dbPos), maxRetries)
    ensures st.data == o.state && Applied(env, o.fx)
  {
    o := SaveFrom(st.data, env.db, env.dbPos, maxRetries);
    var end := CommitLoop(env, maxRetries, SslFailure);
    match end
    case Saved(id) =>
      st.data := st.data.(reportId := Val(id), success := true);
      env.events := env.events + [Completed(st.data.sessionId, true, Some(id))];
    case NotSaved(msg) =>
      env.events := env.events + [Failed(st.data.sessionId, msg)];
      st.data := WithError(st.data, msg);
  }

  // ---------------------------------------------------------------------------
  // The node
  // ---------------------------------------------------------------------------

  /** The message of the exception `len(state[key])` raises, if any. */
  function LenError(key: string, v: Slot<string>): Option<string> {
    match v
    case Absent => Some(KeyErrorText(key))
    case Null => Some(NoLenOfNone)
    case Val(_) => None
  }

  /** The first exception measuring the three parts raises, in the order html, css, js. */
  function SizeError(s: Snapshot): Option<string> {
    var h := LenError("html_content", s.htmlContent);
    var c := LenError("css_content", s.cssContent);
    if h.Some? then h else if c.Some? then c else LenError("js_content", s.jsContent)
  }

  /** The number of tries: five for a report over 50000 characters, three otherwise. */
  function MaxRetries(s: Snapshot): nat
    requires SizeError(s).None?
  {
    if |s.htmlContent.value| + |s.cssContent.value| + |s.jsContent.value| > LargeReport then LargeRetries else SmallRetries
  }

  /** The node, as a function of the state and the outside world. */
  function SaveSpec(s: Snapshot, w: World): NodeOut {
    match SizeError(s)
    case Some(e) => Refuse(s, "Lỗi khi lưu database: " + e, 0, [])
    case None => SaveFrom(s, w.db, w.dbPos, MaxRetries(s))
  }

  /** The node on the shared state (the Flask application context is taken as given). */
  method SaveDatabase(st: ReportState, env: Env) returns (ghost o: NodeOut)
    modifies st, env
    ensures o == SaveSpec(old(st.data), env.Inputs(old(env.pos), old(env.dbPos)))
    ensures st.data == o.state && Applied(env, o.fx)
  {
    var e := SizeError(st.data);
    if e.Some? {
      o := SaveSpec(st.data, env.Inputs(env.pos, env.dbPos));
      var msg := "Lỗi khi lưu database: " + e.value;
      env.events := env.events + [Failed(st.data.sessionId, msg)];
      st.data := WithError(st.data, msg);
      return;
    }
    o := SaveWithRetry(st, env, MaxRetries(st.data));
  }

  // ---------------------------------------------------------------------------
  // Properties of the loop
  // ---------------------------------------------------------------------------

  /** Commits `p` to `p + k - 1` all failed in a way the loop retries. */
  predicate RetriedRun(retried: DbOutcome -> bool, db: nat -> DbOutcome, p: nat, k: nat) {
    forall j :: p <= j < p + k ==> db(j).OperationalError? && retried(db(j))
  }

  /** The sleeps of `k` tries that each ended in a retried error: 1, 2, 2, 4, 4, ... */
  function BackoffWaits(k: nat): seq<int> {
    if k == 0 then [] else BackoffWaits(k - 1) + Before(k - 1) + [Pow2(k - 1)]
  }

  /** One retried failure. */
  lemma RetryStep(retried: DbOutcome -> bool, db: nat -> DbOutcome, p: nat, maxRetries: nat, a: nat)
    requires a + 1 < maxRetries && db(p).OperationalError? && retried(db(p))
    ensures CommitFrom(retried, db, p, maxRetries, a)
         == After(CommitFrom(retried, db, p + 1, maxRetries, a + 1), Before(a) + [Pow2(a)], 1)
  {
  }

  /** After `k` retried failures the loop goes on from try `k`, having slept and committed for them. */
  lemma {:induction false} RetriedPrefix(retried: DbOutcome -> bool, db: nat -> DbOutcome, p: nat, maxRetries: nat, k: nat)
    requires k < maxRetries && RetriedRun(retried, db, p, k)
    ensures CommitFrom(retried, db, p, maxRetries, 0)
         == After(CommitFrom(retried, db, p + k, maxRetries, k), BackoffWaits(k), k)
  {
    if k == 0 {
      AfterNothing(CommitFrom(retried, db, p, maxRetries, 0));
    } else {
      var j := k - 1;
      var q := p + j;
      var next := CommitFrom(retried, db, q + 1, maxRetries, j + 1);
      assert db(q).OperationalError? && retried(db(q));
      calc {
        CommitFrom(retried, db, p, maxRetries, 0);
        { RetriedPrefix(retried, db, p, maxRetries, j); }
        After(CommitFrom(retried, db, q, maxRetries, j), BackoffWaits(j), j);
        { RetryStep(retried, db, q, maxRetries, j); }
        After(After(next, Before(j) + [Pow2(j)], 1), BackoffWaits(j), j);
        { AfterTwice(next, BackoffWaits(j), j, Before(j) + [Pow2(j)], 1); }
        After(next, BackoffWaits(j) + (Before(j) + [Pow2(j)]), j + 1);
        { assert BackoffWaits(j) + (Before(j) + [Pow2(j)]) == BackoffWaits(k); }
        After(next, BackoffWaits(k), k);
      }
    }
  }

  /** A try that is not retried ends the loop after `k` retried ones. */
  lemma StopAt(retried: DbOutcome -> bool, db: nat -> DbOutcome, p: nat, maxRetries: nat, k: nat)
    requires k < maxRetries && RetriedRun(retried, db, p, k)
    requires !(db(p + k).OperationalError? && retried(db(p + k)) && k + 1 < maxRetries)
    ensures var r := CommitFrom(retried, db, p, maxRetries, 0);
      r.end == EndOf(db(p + k), maxRetries) && r.commits == k + 1 && r.waits == BackoffWaits(k) + Before(k)
  {
    RetriedPrefix(retried, db, p, maxRetries, k);
  }

  /**
   * Every try commits once: a loop that is allowed a try makes between one
   * and `maxRetries` commits, and the fall-through message after the loop is
   * never reached.
   */
  lemma {:induction false} CommitTries(retried: DbOutcome -> bool, db: nat -> DbOutcome, p: nat, maxRetries: nat, a: nat)
    requires a < maxRetries
    ensures var r := CommitFrom(retried, db, p, maxRetries, a);
      1 <= r.commits <= maxRetries - a && r.end != NotSaved(ExhaustedMsg)
    decreases maxRetries - a
  {
    if db(p).OperationalError? && retried(db(p)) && a + 1 < maxRetries {
      CommitTries(retried, db, p + 1, maxRetries, a + 1);
    }
  }

  /** With no tries at all the loop falls through to its final message. */
  lemma NoTries(retried: DbOutcome -> bool, db: nat -> DbOutcome, p: nat)
    ensures CommitFrom(retried, db, p, 0, 0) == CommitRun(NotSaved(ExhaustedMsg), 0, [])
  {
  }

  /** Only SSL errors are retried: any other first outcome is the only commit. */
  lemma NoRetryWithoutSsl(s: Snapshot, db: nat -> DbOutcome, p: nat, maxRetries: nat)
    requires maxRetries > 0 && !SslFailure(db(p))
    ensures var o := SaveFrom(s, db, p, maxRetries);
      o.fx.commits == 1 && o.fx.waits == [] && (o.state.success <==> db(p).Committed?)
  {
  }

  /**
   * When every try fails in a way that is retried, the loop makes all its
   * tries and records the last error with the number of tries.
   */
  lemma ExhaustTries(retried: DbOutcome -> bool, db: nat -> DbOutcome, p: nat, maxRetries: nat)
    requires maxRetries > 0 && RetriedRun(retried, db, p, maxRetries)
    ensures var r := CommitFrom(retried, db, p, maxRetries, 0);
      r.end == NotSaved(GaveUpMsg(maxRetries, db(p + maxRetries - 1).message)) && r.commits == maxRetries
      && r.waits == BackoffWaits(maxRetries - 1) + Before(maxRetries - 1)
  {
    assert db(p + (maxRetries - 1)).OperationalError?;
    StopAt(retried, db, p, maxRetries, maxRetries - 1);
  }

  /**
   * When every commit fails with an SSL error, a large report is tried five
   * times and a small one three times, and the last error is recorded and
   * reported.
   */
  lemma SslErrorsExhaustTries(s: Snapshot, w: World)
    requires SizeError(s).None? && RetriedRun(SslFailure, w.db, w.dbPos, MaxRetries(s))
    ensures var o := SaveSpec(s, w);
      !o.state.success && o.fx.commits == MaxRetries(s) && (MaxRetries(s) == 5 <==> |s.htmlContent.value| + |s.cssContent.value| + |s.jsContent.value| > 50000)
      && o.fx.events == [Failed(s.sessionId, GaveUpMsg(MaxRetries(s), w.db(w.dbPos + MaxRetries(s) - 1).message))]
  {
    ExhaustTries(SslFailure, w.db, w.dbPos, MaxRetries(s));
  }

  /** The sleeps of three retried errors. */
  lemma ThreeRetriedWaits()
    ensures BackoffWaits(3) == [1, 2, 2, 4, 4]
  {
    assert Pow2(1) == 2 && Pow2(2) == 4;
  }
}
