/**
 * Everything the workflow nodes reach outside the state dictionary: the
 * generative-model service (a script of replies, consumed in order), the
 * prompt files, the Gemini client constructor, the market-data providers, the
 * clock, the JSON renderer, the database, and the progress tracker. Waits,
 * prompts sent and progress notifications are kept in ghost logs.
 */
module Environment {
  import opened Wrappers
  import opened Base

  /**
   * One answer of `client.models.generate_content`: no usable response object
   * (falsy, or without a `text` attribute), a response whose `text` may be
   * None or empty, or an exception with its message.
   */
  datatype Reply = NoResponse | Text(body: Option<string>) | Raised(error: string)

  /** The outcome of one bounded retry loop around the service. */
  datatype Attempted = Answered(reply: Reply) | GaveUp(error: string)

  /** The retry loop's result together with what it consumed and how long it slept. */
  datatype RetryOut = RetryOut(outcome: Attempted, used: nat, waits: seq<int>)

  /** One `db.session.commit()`: the new row's id, or the exception it raised. */
  datatype DbOutcome = Committed(id: int) | OperationalError(message: string) | OtherError(message: string)

  /** What the progress tracker is told; intermediate step details are not kept. */
  datatype Event =
    | Started(session: string)
    | Failed(session: string, message: string)
    | Completed(session: string, ok: bool, reportId: Option<int>)

  /** The inputs the outside world supplies, as one value. */
  datatype World = World(
    script: nat -> Reply,
    pos: nat,
    files: map<string, string>,
    clientError: Option<string>,
    market: (Fetch, Fetch, Fetch),
    today: Date,
    renderJson: Record -> string,
    draft: Slot<string>,
    db: nat -> DbOutcome,
    dbPos: nat)

  /**
   * `read_prompt_file(name)`: None when the file is missing or empty.
   * (The `{{ @css_root }}` substitution is taken to be part of the stored text.)
   */
  function ReadPrompt(files: map<string, string>, name: string): (r: Option<string>)
    ensures r.Some? <==> name in files && files[name] != ""
    ensures r.Some? ==> r.value == files[name]
  {
    if name in files && files[name] != "" then Some(files[name]) else None
  }

  /**
   * Try `i` (counting from 0) of a three-try loop and the tries after it.
   * With a broken client every try raises `clientError` without reaching the
   * service; otherwise each try consumes the next scripted reply. A failed try
   * before the last sleeps `(i + 1) * base` seconds; the third failure gives up
   * with its message.
   */
  function RetryFrom(script: nat -> Reply, pos: nat, clientError: Option<string>, base: int, i: nat): (r: RetryOut)
    requires i < 3
    ensures r.used <= 3 - i
    ensures |r.waits| < 3 - i
    ensures r.outcome.Answered? ==> !r.outcome.reply.Raised?
    decreases 3 - i
  {
    var reply := if clientError.Some? then Reply.Raised(clientError.value) else script(pos);
    var used := if clientError.Some? then 0 else 1;
    if !reply.Raised? then RetryOut(Answered(reply), used, [])
    else if i < 2 then
      var rest := RetryFrom(script, pos + used, clientError, base, i + 1);
      RetryOut(rest.outcome, used + rest.used, [(i + 1) * base] + rest.waits)
    else RetryOut(GaveUp(reply.error), used, [])
  }

  /** The waits after the first `n` failed tries: `base`, `2 * base`, ... */
  function Waits(base: int, n: nat): (w: seq<int>)
    ensures |w| == n && forall j :: 0 <= j < n ==> w[j] == (j + 1) * base
  {
    if n == 0 then [] else Waits(base, n - 1) + [n * base]
  }

  /** The whole three-try loop. */
  function Retry(script: nat -> Reply, pos: nat, clientError: Option<string>, base: int): RetryOut {
    RetryFrom(script, pos, clientError, base, 0)
  }

  /** The waits are always the first few of `base`, `2 * base`. */
  lemma RetryWaits(script: nat -> Reply, pos: nat, clientError: Option<string>, base: int)
    ensures var w := Retry(script, pos, clientError, base).waits;
      w == [] || w == [base] || w == [base, 2 * base]
  {
  }

  /** The loop gives up exactly when all three tries raise, and then it has slept twice. */
  lemma RetryGivesUp(script: nat -> Reply, pos: nat, base: int)
    ensures var r := Retry(script, pos, None, base);
      r.outcome.GaveUp? <==> script(pos).Raised? && script(pos + 1).Raised? && script(pos + 2).Raised?
    ensures var r := Retry(script, pos, None, base);
      r.outcome.GaveUp? ==> r.used == 3 && r.waits == [base, 2 * base] && r.outcome.error == script(pos + 2).error
  {
  }

  /**
   * Without an exception, the first non-raising reply is the answer, and the
   * loop consumed exactly the replies up to it.
   */
  lemma RetryAnswers(script: nat -> Reply, pos: nat, base: int, k: nat)
    requires k < 3 && !script(pos + k).Raised?
    requires forall j :: pos <= j < pos + k ==> script(j).Raised?
    ensures var r := Retry(script, pos, None, base);
      r == RetryOut(Answered(script(pos + k)), k + 1, Waits(base, k))
  {
    if k == 1 {
      assert script(pos).Raised?;
    } else if k == 2 {
      assert script(pos).Raised? && script(pos + 1).Raised?;
    }
  }

  /** A broken client never reaches the service: three failures, two waits, its own message. */
  lemma RetryBrokenClient(script: nat -> Reply, pos: nat, error: string, base: int)
    ensures Retry(script, pos, Some(error), base) == RetryOut(GaveUp(error), 0, [base, 2 * base])
  {
  }

  /** The mutable outside world. */
  class Env {
    const script: nat -> Reply
    var pos: nat
    const files: map<string, string>
    const clientError: Option<string>
    const market: (Fetch, Fetch, Fetch)
    const today: Date
    const renderJson: Record -> string
    const draft: Slot<string>
    const db: nat -> DbOutcome
    var dbPos: nat
    ghost var sleeps: seq<int>
    ghost var prompts: seq<string>
    ghost var events: seq<Event>

    /** The world as it stands when the next reply is `pos` and the next commit `dbPos`. */
    function Inputs(pos: nat, dbPos: nat): World {
      World(script, pos, files, clientError, market, today, renderJson, draft, db, dbPos)
    }

    /**
     * `for attempt in range(3): try: response = client.models.generate_content(...)`
     * with `time.sleep((attempt + 1) * base)` after each failed try but the last.
     * `callError` is the exception raised before the service is reached (a
     * missing or None client), if any.
     */
    method Generate(prompt: string, callError: Option<string>, base: int) returns (r: Attempted)
      modifies this
      ensures var o := RetryFrom(script, old(pos), callError, base, 0);
        r == o.outcome && pos == old(pos) + o.used && sleeps == old(sleeps) + o.waits
      ensures prompts == old(prompts) + [prompt]
      ensures dbPos == old(dbPos) && events == old(events)
    {
      prompts := prompts + [prompt];
      ghost var start := pos;
      var i := 0;
      while true
        invariant 0 <= i < 3
        invariant pos == start + (if callError.Some? then 0 else i)
        invariant sleeps == old(sleeps) + Waits(base, i)
        invariant callError.None? ==> forall j :: start <= j < start + i ==> script(j).Raised?
        invariant dbPos == old(dbPos) && events == old(events) && prompts == old(prompts) + [prompt]
        decreases 3 - i
      {
        var reply;
        if callError.Some? {
          reply := Reply.Raised(callError.value);
        } else {
          var oracle := script;
          reply := oracle(pos);
          pos := pos + 1;
        }
        if !reply.Raised? {
          RetryAnswers(script, start, base, i);
          return Answered(reply);
        } else if i < 2 {
          sleeps := sleeps + [(i + 1) * base];
          i := i + 1;
        } else if callError.Some? {
          RetryBrokenClient(script, start, callError.value, base);
          return GaveUp(reply.error);
        } else {
          RetryGivesUp(script, start, base);
          return GaveUp(reply.error);
        }
      }
    }

    /** One `client.models.generate_content` call, outside any retry loop. */
    method Ask(prompt: string) returns (reply: Reply)
      modifies this
      ensures reply == script(old(pos)) && pos == old(pos) + 1 && prompts == old(prompts) + [prompt]
      ensures dbPos == old(dbPos) && sleeps == old(sleeps) && events == old(events)
    {
      prompts := prompts + [prompt];
      var oracle := script;
      reply := oracle(pos);
      pos := pos + 1;
    }

    /** One `db.session.commit()` of a new report row. */
    method Commit() returns (o: DbOutcome)
      modifies this
      ensures o == db(old(dbPos)) && dbPos == old(dbPos) + 1
      ensures pos == old(pos) && sleeps == old(sleeps) && prompts == old(prompts) && events == old(events)
    {
      var outcomes := db;
      o := outcomes(dbPos);
      dbPos := dbPos + 1;
    }

    method Sleep(seconds: int)
      modifies this
      ensures sleeps == old(sleeps) + [seconds]
      ensures pos == old(pos) && dbPos == old(dbPos) && prompts == old(prompts) && events == old(events)
    {
      sleeps := sleeps + [seconds];
    }

    method Notify(e: Event)
      modifies this
      ensures events == old(events) + [e]
      ensures pos == old(pos) && dbPos == old(dbPos) && prompts == old(prompts) && sleeps == old(sleeps)
    {
      events := events + [e];
    }
  }
}
