/**
 * The body of `main`'s `while True` loop: fetch the statuses since the cursor,
 * notify about the first homework, advance the cursor and sleep five minutes; on a
 * failure, take the backoff path instead. The HTTP fetch and the Telegram send are
 * inputs: what the fetch produced and how the (single) send of the pass ended.
 */
module Poll {
  import opened Wrappers
  import opened Json
  import opened Exceptions
  import opened Backoff
  import opened Translate
  import opened Validate

  /** Seconds slept after a successful pass. */
  const PollInterval: int := 300

  /** The text prefixed to a PraktikumException when it is reported over Telegram. */
  const ReportPrefix: string := "Ошибка: praktikum.yandex.ru: "

  /** What `requests.get(...).json()` gave: a document, or a PraktikumException it was turned into. */
  datatype FetchOutcome = Fetched(payload: Payload) | FetchFailed(message: string)

  /** How `bot_client.send_message` ended. */
  datatype Delivery = Delivered | Refused(kind: TelegramError)

  /** One pass's inputs. */
  datatype Tick = Tick(fetch: FetchOutcome, delivery: Delivery)

  datatype Pause = Poll(seconds: int) | BackoffSleep(seconds: int)

  datatype Outcome =
    | Polled                  // the `try` block ran to the end
    | Recovered(error: Raised) // a handler caught `error` and slept the backoff delay
    | Crashed(error: Raised)   // the report send inside the PraktikumException handler raised; `main` ends

  /** The loop's state: the local `current_timestamp` and the global backoff delay. */
  datatype State = State(cursor: Json, delay: int)

  datatype StepResult = StepResult(sent: seq<string>, pause: Option<Pause>, next: State, outcome: Outcome)

  /** How the `try` block of one pass ended. */
  datatype TryResult = Completed(sent: seq<string>, cursor: Json) | Threw(sent: seq<string>, error: Raised)

  function ErrorReport(message: string): string {
    ReportPrefix + message
  }

  /** The `try` block of one pass, lines 141-151. */
  function TryBlock(cursor: Json, fetch: FetchOutcome, delivery: Delivery): TryResult {
    match fetch
    case FetchFailed(m) => Threw([], Praktikum(m))
    case Fetched(p) =>
      match CheckResponse(p)
      case Failure(e) => Threw([], e)
      case Success(body) =>
        var homeworks := Get(body, "homeworks", Null);
        if !Truthy(homeworks) then Completed([], Get(body, "current_date", cursor))
        else
          match First(homeworks)
          case Failure(e) => Threw([], Builtin(e))
          case Success(item) =>
            match ParseHomeworkStatus(item)
            case Failure(e) => Threw([], e)
            case Success(text) =>
              match delivery
              case Delivered => Completed([text], Get(body, "current_date", cursor))
              case Refused(kind) => Threw([text], Telegram(kind))
  }

  /** One pass of the loop, lines 140-170, with the handlers that follow the `try`. */
  function Step(s: State, fetch: FetchOutcome, delivery: Delivery): StepResult {
    match TryBlock(s.cursor, fetch, delivery)
    case Completed(sent, cursor) => StepResult(sent, Some(Poll(PollInterval)), State(cursor, s.delay), Polled)
    case Threw(sent, e) =>
      if e.Praktikum? && delivery.Refused? then
        StepResult(sent + [ErrorReport(e.message)], None, s, Crashed(Telegram(delivery.kind)))
      else
        var report := if e.Praktikum? then [ErrorReport(e.message)] else [];
        StepResult(sent + report, Some(BackoffSleep(s.delay)), State(s.cursor, Next(s.delay)), Recovered(e))
  }

  /** What a finite prefix of the endless loop does; it stops early when `main` crashes. */
  datatype RunResult = RunResult(last: State, sent: seq<string>, failures: nat, crashed: bool)

  function Run(s: State, ticks: seq<Tick>): RunResult
    decreases |ticks|
  {
    if ticks == [] then RunResult(s, [], 0, false)
    else
      var r := Step(s, ticks[0].fetch, ticks[0].delivery);
      if r.outcome.Crashed? then RunResult(r.next, r.sent, 0, true)
      else
        var rest := Run(r.next, ticks[1..]);
        var failed := if r.outcome.Recovered? then 1 else 0;
        RunResult(rest.last, r.sent + rest.sent, failed + rest.failures, rest.crashed)
  }

  /** A pass attempts at most one Telegram message. */
  lemma StepSendsAtMostOne(s: State, fetch: FetchOutcome, delivery: Delivery)
    ensures |Step(s, fetch, delivery).sent| <= 1
  {
  }

  /**
   * A pass that ends normally has sent a notice only if the response holds a non-empty
   * `homeworks` value, and the notice is the translation of its element 0.
   */
  lemma StepNoticeFromFirst(s: State, fetch: FetchOutcome, delivery: Delivery)
    requires Step(s, fetch, delivery).outcome.Polled?
    ensures var r := Step(s, fetch, delivery);
      fetch.Fetched? && CheckResponse(fetch.payload).Success?
      && (r.sent != [] <==> Truthy(Get(fetch.payload, "homeworks", Null)))
      && (r.sent != [] ==>
            var item := First(fetch.payload["homeworks"]);
            item.Success? && r.sent == [ParseHomeworkStatus(item.value).value]
            && delivery == Delivered)
  {
  }

  /** A response whose `homeworks` list is non-empty, with a first record the table knows, is announced. */
  lemma StepAnnouncesFirst(s: State, p: Payload, items: seq<Json>)
    requires CheckResponse(p).Success? && "homeworks" in p && p["homeworks"] == Arr(items)
    requires items != [] && KnownRecord(items[0])
    ensures var r := Step(s, Fetched(p), Delivered);
      r.outcome == Polled && r.sent == [ParseHomeworkStatus(items[0]).value]
  {
  }

  /** A response with no (or an empty) `homeworks` sends nothing and is not a failure. */
  lemma StepQuietWithoutHomeworks(s: State, p: Payload, delivery: Delivery)
    requires CheckResponse(p).Success? && !Truthy(Get(p, "homeworks", Null))
    ensures var r := Step(s, Fetched(p), delivery);
      r.outcome == Polled && r.sent == [] && r.next.cursor == Get(p, "current_date", s.cursor)
  {
  }

  /**
   * The cursor moves only on a pass that ends normally, to `current_date` when the
   * response has one; every failing pass keeps it.
   */
  lemma StepCursor(s: State, fetch: FetchOutcome, delivery: Delivery)
    ensures var r := Step(s, fetch, delivery);
      r.next.cursor == if r.outcome.Polled? then Get(fetch.payload, "current_date", s.cursor) else s.cursor
  {
  }

  /**
   * A normal pass sleeps 300 seconds and leaves the delay alone; a recovered failure
   * sleeps the delay held before it and then advances the delay once; a crash sleeps not at all.
   */
  lemma StepPause(s: State, fetch: FetchOutcome, delivery: Delivery)
    ensures var r := Step(s, fetch, delivery);
      match r.outcome
      case Polled => r.pause == Some(Poll(PollInterval)) && r.next.delay == s.delay
      case Recovered(_) => r.pause == Some(BackoffSleep(s.delay)) && r.next.delay == Next(s.delay)
      case Crashed(_) => r.pause.None? && r.next == s
  {
  }

  /**
   * The handlers act on what the `try` block raised. A PraktikumException is reported
   * over Telegram, with its own message, before the backoff sleep; a Python error is
   * not reported; a Telegram error was raised by the send of the notice of element 0,
   * and nothing else was sent. A crash is the report's send failing.
   */
  lemma StepReport(s: State, fetch: FetchOutcome, delivery: Delivery)
    ensures var r := Step(s, fetch, delivery);
      var t := TryBlock(s.cursor, fetch, delivery);
      var first := if fetch.Fetched? then First(Get(fetch.payload, "homeworks", Null)) else Failure(TypeError);
      match r.outcome
      case Polled => t.Completed? && r.sent == t.sent
      case Recovered(e) =>
        t.Threw? && e == t.error
        && (e.Praktikum? ==> r.sent == [ErrorReport(e.message)] && delivery == Delivered)
        && (e.Builtin? ==> r.sent == [])
        && (e.Telegram? ==>
              delivery == Refused(e.channel) && first.Success?
              && ParseHomeworkStatus(first.value).Success?
              && r.sent == [ParseHomeworkStatus(first.value).value])
      case Crashed(e) =>
        t.Threw? && t.error.Praktikum? && e == Telegram(delivery.kind)
        && r.sent == [ErrorReport(t.error.message)]
  {
  }

  /** A failed fetch is reported with the message of the PraktikumException it raised. */
  lemma FetchFailureReported(s: State, message: string)
    ensures var r := Step(s, FetchFailed(message), Delivered);
      r.outcome == Recovered(Praktikum(message)) && r.sent == [ReportPrefix + message]
      && r.next == State(s.cursor, Next(s.delay))
  {
  }

  /**
   * However the passes go, the delay after them is a function of the number of
   * failures alone, since nothing resets it.
   */
  lemma {:induction false} RunDelay(k: nat, cursor: Json, ticks: seq<Tick>)
    ensures var r := Run(State(cursor, DelayAfter(k)), ticks);
      r.last.delay == DelayAfter(k + r.failures)
    decreases |ticks|
  {
    if ticks != [] {
      var s := State(cursor, DelayAfter(k));
      var r := Step(s, ticks[0].fetch, ticks[0].delivery);
      StepPause(s, ticks[0].fetch, ticks[0].delivery);
      if !r.outcome.Crashed? {
        var k' := if r.outcome.Recovered? then k + 1 else k;
        assert r.next == State(r.next.cursor, DelayAfter(k'));
        var rest := Run(r.next, ticks[1..]);
        RunDelay(k', r.next.cursor, ticks[1..]);
        assert Run(s, ticks).last == rest.last;
        assert Run(s, ticks).failures == k' - k + rest.failures;
      }
    }
  }

  /** An approved homework is announced by name and verdict, and the cursor moves to `current_date`. */
  lemma ApprovedScenario(s: State)
    ensures var record := Obj(map["homework_name" := Str("lab1"), "status" := Str("approved")]);
      var p := map["homeworks" := Arr([record]), "current_date" := Int(1000)];
      var r := Step(s, Fetched(p), Delivered);
      r.sent == [Notice("lab1", Approved)] && r.next == State(Int(1000), s.delay)
      && r.pause == Some(Poll(PollInterval))
  {
    var record := Obj(map["homework_name" := Str("lab1"), "status" := Str("approved")]);
    var p := map["homeworks" := Arr([record]), "current_date" := Int(1000)];
    assert "code" !in p && "error" !in p;
    assert CheckResponse(p) == Success(p);
    assert KnownRecord(record);
    StepAnnouncesFirst(s, p, [record]);
  }

  /** An error-shaped response is reported with its `message` and triggers the backoff. */
  lemma ErrorCodeScenario(s: State)
    ensures var p := map["code" := Str("not_authenticated"), "message" := Str("bad token")];
      var r := Step(s, Fetched(p), Delivered);
      r.outcome == Recovered(Praktikum("bad token")) && r.sent == [ReportPrefix + "bad token"]
      && r.next == State(s.cursor, Next(s.delay)) && r.pause == Some(BackoffSleep(s.delay))
  {
  }

  /**
   * A status the table does not know fails with KeyError, which the generic handler
   * catches: nothing is sent and the backoff runs.
   */
  lemma UnknownStatusScenario(s: State)
    ensures var record := Obj(map["homework_name" := Str("lab2"), "status" := Str("in_progress")]);
      var r := Step(s, Fetched(map["homeworks" := Arr([record])]), Delivered);
      r.outcome == Recovered(Builtin(KeyError)) && r.sent == []
      && r.next == State(s.cursor, Next(s.delay))
  {
  }

  /** The loop itself: the cursor is a local of `main`, the delay the global timer. */
  class Poller {
    var cursor: Json
    const timer: ErrorTimer

    /** `main` before its loop, with `int(time.time())` passed in. */
    constructor(now: int)
      ensures cursor == Int(now) && fresh(timer)
      ensures timer.Valid() && timer.failures == 0 && timer.seconds == InitialDelay
    {
      cursor := Int(now);
      timer := new ErrorTimer();
    }

    /** One pass of `while True`. */
    method Iterate(fetch: FetchOutcome, delivery: Delivery) returns (sent: seq<string>, pause: Option<Pause>, outcome: Outcome)
      requires timer.Valid()
      modifies this, timer
      ensures timer.Valid()
      ensures var r := Step(State(old(cursor), old(timer.seconds)), fetch, delivery);
        sent == r.sent && pause == r.pause && outcome == r.outcome
        && cursor == r.next.cursor && timer.seconds == r.next.delay
      ensures timer.failures == old(timer.failures) + (if outcome.Recovered? then 1 else 0)
    {
      sent := [];
      var failure: Option<Raised> := None;
      match fetch {
        case FetchFailed(m) =>
          failure := Some(Praktikum(m));
        case Fetched(p) =>
          var checked := CheckResponse(p);
          if checked.Failure? {
            failure := Some(checked.error);
          } else {
            var body := checked.value;
            var homeworks := Get(body, "homeworks", Null);
            if Truthy(homeworks) {
              var item := First(homeworks);
              if item.Failure? {
                failure := Some(Builtin(item.error));
              } else {
                var text := ParseHomeworkStatus(item.value);
                if text.Failure? {
                  failure := Some(text.error);
                } else {
                  sent := sent + [text.value];
                  if delivery.Refused? {
                    failure := Some(Telegram(delivery.kind));
                  }
                }
              }
            }
            if failure.None? {
              cursor := Get(body, "current_date", cursor);
            }
          }
      }
      if failure.None? {
        pause := Some(Poll(PollInterval));
        outcome := Polled;
        return;
      }
      var e := failure.value;
      if e.Praktikum? {
        sent := sent + [ErrorReport(e.message)];
        if delivery.Refused? {
          pause := None;
          outcome := Crashed(Telegram(delivery.kind));
          return;
        }
      }
      var slept := timer.Timeout();
      pause := Some(BackoffSleep(slept));
      outcome := Recovered(e);
    }

    /** The first `|ticks|` passes of the loop, or fewer if `main` crashes. */
    method RunPasses(ticks: seq<Tick>) returns (sent: seq<string>, crashed: bool)
      requires timer.Valid()
      modifies this, timer
      ensures timer.Valid()
      ensures var r := Run(State(old(cursor), old(timer.seconds)), ticks);
        cursor == r.last.cursor && timer.seconds == r.last.delay
        && sent == r.sent && crashed == r.crashed
        && timer.failures == old(timer.failures) + r.failures
    {
      ghost var whole := Run(State(cursor, timer.seconds), ticks);
      ghost var failures0 := timer.failures;
      sent, crashed := [], false;
      var i := 0;
      assert ticks[i..] == ticks;
      assert sent + whole.sent == whole.sent;
      while i < |ticks| && !crashed
        invariant 0 <= i <= |ticks|
        invariant timer.Valid() && timer.failures >= failures0
        invariant !crashed ==>
          var rest := Run(State(cursor, timer.seconds), ticks[i..]);
          whole == RunResult(rest.last, sent + rest.sent, timer.failures - failures0 + rest.failures, rest.crashed)
        invariant crashed ==>
          whole == RunResult(State(cursor, timer.seconds), sent, timer.failures - failures0, true)
        decreases |ticks| - i
      {
        ghost var here := State(cursor, timer.seconds);
        var out, pause, outcome := Iterate(ticks[i].fetch, ticks[i].delivery);
        assert ticks[i..][1..] == ticks[i + 1..];
        ghost var step := Step(here, ticks[i].fetch, ticks[i].delivery);
        assert step.next == State(cursor, timer.seconds) && step.sent == out;
        if !outcome.Crashed? {
          ghost var rest := Run(State(cursor, timer.seconds), ticks[i + 1..]);
          assert Run(here, ticks[i..]).sent == out + rest.sent;
          assert sent + (out + rest.sent) == (sent + out) + rest.sent;
        }
        sent := sent + out;
        crashed := outcome.Crashed?;
        i := i + 1;
      }
      assert !crashed ==> ticks[i..] == [];
    }
  }
}
