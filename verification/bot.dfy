/** One iteration of the polling loop in `main` of homework.py, as a pure
    step from the loop's state and what the API call produced to the next
    state and the texts handed to the chat. */
module Bot {
  import opened Wrappers
  import opened Json
  import opened Failures
  import opened Api
  import opened Statuses
  import opened Config

  /** The loop's variables: the cursor `current_timestamp`, the last error
      text `message`, and the remembered pair `id_homework`/`status_homework`. */
  datatype State = State(cursor: Value, lastError: string, lastId: Value, lastStatus: Value)

  /** The state on entering the loop at clock time `now`. */
  function Initial(now: int): State {
    State(Int(now), "", Int(0), Str(""))
  }

  const FailurePrefix := "Сбой в работе программы: "

  /** The chat text for a recoverable failure. It is never empty, so the
      first failure after start-up always differs from the initial text. */
  function Report(f: Failure): (text: string)
    ensures FailurePrefix <= text
    ensures text != ""
    ensures text[|FailurePrefix|..] == Describe(f)
  {
    FailurePrefix + Describe(f)
  }

  /** Two failures give the same chat text exactly when their `str()` is the
      same, so a failure is sent again precisely when its exception text
      differs from the last one's. */
  lemma ReportSameIffDescribeSame(f1: Failure, f2: Failure)
    ensures Report(f1) == Report(f2) <==> Describe(f1) == Describe(f2)
  {
  }

  /** How the `try` block (fetch, check_response, first record, parse_status)
      ended. */
  datatype Attempt =
      /** Any exception other than IndexError. */
    | Recoverable(failure: Failure)
      /** IndexError: the `homeworks` list was empty. */
    | NoHomework(response: Value)
      /** The most recent record parsed into `text`. */
    | Latest(response: Value, homework: Value, text: string)

  /** The `try` block of the loop: it ends in a failure exactly when one of the
      fetch, check_response or parse_status of the first record does. */
  function Try(fetch: Fetch): (a: Attempt)
    ensures !a.Recoverable? ==>
      && GetApiAnswer(fetch) == Ok(a.response)
      && CheckResponse(a.response).Ok?
    ensures a.NoHomework? ==> CheckResponse(a.response) == Ok([])
    ensures a.Latest? ==>
      && CheckResponse(a.response).Ok?
      && |CheckResponse(a.response).value| > 0
      && CheckResponse(a.response).value[0] == a.homework
      && ParseStatus(a.homework) == Ok(a.text)
    ensures a.Recoverable? <==>
      || GetApiAnswer(fetch).Err?
      || CheckResponse(GetApiAnswer(fetch).value).Err?
      || (CheckResponse(GetApiAnswer(fetch).value).value != []
          && ParseStatus(CheckResponse(GetApiAnswer(fetch).value).value[0]).Err?)
    // the failure carried is the exception of the first stage that raised
    ensures GetApiAnswer(fetch).Err? ==> a == Recoverable(GetApiAnswer(fetch).error)
    ensures GetApiAnswer(fetch).Ok? && CheckResponse(GetApiAnswer(fetch).value).Err? ==>
      a == Recoverable(CheckResponse(GetApiAnswer(fetch).value).error)
    ensures (&& GetApiAnswer(fetch).Ok?
             && CheckResponse(GetApiAnswer(fetch).value).Ok?
             && CheckResponse(GetApiAnswer(fetch).value).value != []
             && ParseStatus(CheckResponse(GetApiAnswer(fetch).value).value[0]).Err?) ==>
      a == Recoverable(ParseStatus(CheckResponse(GetApiAnswer(fetch).value).value[0]).error)
  {
    match GetApiAnswer(fetch)
    case Err(f) => Recoverable(f)
    case Ok(response) =>
      match CheckResponse(response)
      case Err(f) => Recoverable(f)
      case Ok(homeworks) =>
        if homeworks == [] then NoHomework(response)
        else
          match ParseStatus(homeworks[0])
          case Err(f) => Recoverable(f)
          case Ok(text) => Latest(response, homeworks[0], text)
  }

  /** The result of one iteration: the loop goes on with a new state, or a
      KeyError for `missing` escapes every handler and ends the loop. Both
      record the `from_date` that was requested and the texts sent. */
  datatype Outcome =
    | Continue(request: Value, next: State, sent: seq<string>)
    | Crash(request: Value, sent: seq<string>, missing: string)

  /** One iteration of the loop. Delivery failures are swallowed by
      send_message, so a text that is sent counts as handled whatever the
      chat did with it. */
  function Step(s: State, now: int, fetch: Fetch): (o: Outcome)
    ensures o.request == FromDate(s.cursor, now)
    ensures |o.sent| <= 1
    // the last error text changes only by being sent
    ensures o.Continue? && o.next.lastError != s.lastError ==> o.sent == [o.next.lastError]
    // the remembered pair changes only together with a status notification
    ensures o.Continue? && (o.next.lastId != s.lastId || o.next.lastStatus != s.lastStatus) ==>
      && Try(fetch).Latest?
      && o.sent == [Try(fetch).text]
      && o.next.lastError == s.lastError
    // the cursor moves only to the `current_date` of an answer that passed the checks
    ensures o.Continue? && o.next.cursor != s.cursor ==>
      !Try(fetch).Recoverable? && Get(Try(fetch).response, "current_date") == Some(o.next.cursor)
    ensures o.Crash? ==> o.missing == "current_date" || o.missing == "id"
    // what is sent is the report of the failure or the text of the record
    ensures o.sent != [] ==>
      || (Try(fetch).Recoverable? && o.sent == [Report(Try(fetch).failure)])
      || (Try(fetch).Latest? && o.sent == [Try(fetch).text])
  {
    var request := FromDate(s.cursor, now);
    match Try(fetch)
    case Recoverable(f) =>
      var text := Report(f);
      if s.lastError != text then Continue(request, s.(lastError := text), [text])
      else Continue(request, s, [])
    case NoHomework(response) =>
      (match Get(response, "current_date")
       case None => Crash(request, [], "current_date")
       case Some(date) => Continue(request, s.(cursor := date), []))
    case Latest(response, homework, text) =>
      match Get(homework, "id")
      case None => Crash(request, [], "id")
      case Some(id) =>
        var status := homework.fields["status"];
        if PyEq(id, s.lastId) && PyEq(status, s.lastStatus) then
          (match Get(response, "current_date")
           case None => Crash(request, [], "current_date")
           case Some(date) => Continue(request, s.(cursor := date), []))
        else
          (match Get(response, "current_date")
           case None => Crash(request, [text], "current_date")
           case Some(date) => Continue(request, State(date, s.lastError, id, status), [text]))
  }

  /** An outcome that no state can crash on: the try block failed, or the
      answer has a `current_date` and, when a record was parsed, the record
      has an `id`. */
  predicate Survivable(fetch: Fetch) {
    match Try(fetch)
    case Recoverable(_) => true
    case NoHomework(response) => Get(response, "current_date").Some?
    case Latest(response, homework, _) =>
      Get(homework, "id").Some? && Get(response, "current_date").Some?
  }

  /** Whether an iteration crashes depends only on the outcome of its API
      call, never on the loop's state or the clock. */
  lemma CrashIffNotSurvivable(s: State, now: int, fetch: Fetch)
    ensures Step(s, now, fetch).Crash? <==> !Survivable(fetch)
  {
  }

  /** A non-200 answer is reported with the endpoint text. */
  lemma Non200Reported(s: State, now: int, code: int, body: Value)
    requires code != 200
    ensures Try(Answered(code, body)) == Recoverable(EndpointUnavailable)
    ensures s.lastError != Report(EndpointUnavailable) ==>
      Step(s, now, Answered(code, body)).sent == [Report(EndpointUnavailable)]
  {
  }

  /** Start-up: the loop is entered, in its initial state, only when
      check_tokens succeeds. */
  method Start(env: Env, now: int) returns (s: Option<State>)
    ensures s.Some? <==> Complete(env)
    ensures s.Some? ==> s.value.cursor == Int(now) && s.value.lastError == ""
    ensures s.Some? ==> s.value.lastId == Int(0) && s.value.lastStatus == Str("")
  {
    var ok := CheckTokens(env);
    if !ok {
      return None;
    }
    s := Some(Initial(now));
  }

  // ---------------------------------------------------------------------
  // What one iteration does, case by case

  /** A recoverable failure leaves the cursor and the remembered pair alone;
      its text is sent exactly when it differs from the last error text, and
      becomes the last error text. */
  lemma FailureKeepsPosition(s: State, now: int, fetch: Fetch)
    requires Try(fetch).Recoverable?
    ensures var o := Step(s, now, fetch);
      var text := Report(Try(fetch).failure);
      && o.Continue?
      && o.next == s.(lastError := text)
      && (o.sent == [text] <==> text != s.lastError)
      && (o.sent == [] <==> text == s.lastError)
  {
  }

  /** An empty `homeworks` list sends nothing and moves the cursor to the
      answer's `current_date`; without a `current_date` the loop crashes. */
  lemma EmptyAnswerMovesCursor(s: State, now: int, fetch: Fetch)
    requires Try(fetch).NoHomework?
    ensures var o := Step(s, now, fetch);
      var date := Get(Try(fetch).response, "current_date");
      && o.sent == []
      && (date.None? <==> o.Crash?)
      && (date.Some? ==> o.next == s.(cursor := date.value))
  {
  }

  /** The first record's (id, status) equal to the remembered pair, in the
      sense of Python's `==`: nothing is sent, the cursor moves to
      `current_date`, the memory and the last error stay. */
  lemma RememberedPairIsSilent(s: State, now: int, fetch: Fetch)
    requires Try(fetch).Latest?
    requires var homework := Try(fetch).homework;
      "id" in homework.fields
      && PyEq(homework.fields["id"], s.lastId) && PyEq(homework.fields["status"], s.lastStatus)
    ensures var o := Step(s, now, fetch);
      var date := Get(Try(fetch).response, "current_date");
      && o.sent == []
      && (date.None? <==> o.Crash?)
      && (date.Some? ==> o.next == s.(cursor := date.value))
  {
  }

  /** A new (id, status): the parse_status text is sent once, and the memory
      and the cursor move on regardless of whether delivery succeeded. A
      missing `current_date` crashes the loop only after the text was sent. */
  lemma NewPairNotifiedOnce(s: State, now: int, fetch: Fetch)
    requires Try(fetch).Latest?
    requires var homework := Try(fetch).homework;
      "id" in homework.fields
      && !(PyEq(homework.fields["id"], s.lastId) && PyEq(homework.fields["status"], s.lastStatus))
    ensures var o := Step(s, now, fetch);
      var homework := Try(fetch).homework;
      var date := Get(Try(fetch).response, "current_date");
      && o.sent == [Try(fetch).text]
      && (date.None? <==> o.Crash?)
      && (date.Some? ==> o.next == State(date.value, s.lastError, homework.fields["id"], homework.fields["status"]))
  {
  }

  /** A record without an `id` escapes the handlers before anything is sent. */
  lemma MissingIdCrashes(s: State, now: int, fetch: Fetch)
    requires Try(fetch).Latest? && "id" !in Try(fetch).homework.fields
    ensures Step(s, now, fetch) == Crash(FromDate(s.cursor, now), [], "id")
  {
  }

  /** While the remembered status is still the initial empty string, which is
      so until the first status notification, any record that parses is
      notified: parse_status accepts only the three vocabulary statuses. */
  lemma FirstParsedHomeworkNotified(s: State, now: int, fetch: Fetch)
    requires s.lastStatus == Str("")
    requires Try(fetch).Latest? && "id" in Try(fetch).homework.fields
    ensures Step(s, now, fetch).sent == [Try(fetch).text]
  {
    var homework := Try(fetch).homework;
    assert Known(homework.fields["status"]);
    assert homework.fields["status"].s != "" by {
      assert "" !in HomeworkStatuses;
    }
    NewPairNotifiedOnce(s, now, fetch);
  }

  /** The cursor is used as the next lower bound unless it is falsy: an
      answer whose `current_date` is falsy (0, null, false, an empty string,
      list or dict) sends the next request from
      the clock. */
  lemma FalsyDateFallsBackToClock(s: State, now: int, fetch: Fetch, date: Value, later: int, again: Fetch)
    requires Try(fetch).NoHomework?
    requires Get(Try(fetch).response, "current_date") == Some(date) && !Truthy(date)
    ensures Step(s, now, fetch).Continue?
    ensures Step(Step(s, now, fetch).next, later, again).request == Int(later)
  {
  }

  // ---------------------------------------------------------------------
  // Idempotence

  /** Feeding the answer of an iteration to the next one changes nothing and
      sends nothing, whatever the clock says: a repeated failure has already
      been reported, an empty list or a known record only resets the cursor
      to the same date, and a new record has become the remembered pair. */
  lemma {:induction false} StepIdempotent(s: State, now: int, later: int, fetch: Fetch)
    requires Step(s, now, fetch).Continue?
    ensures var t := Step(s, now, fetch).next;
      Step(t, later, fetch) == Continue(FromDate(t.cursor, later), t, [])
  {
    var t := Step(s, now, fetch).next;
    match Try(fetch)
    case Recoverable(f) =>
    case NoHomework(response) =>
    case Latest(response, homework, text) =>
      PyEqReflexive(homework.fields["id"]);
      PyEqReflexive(homework.fields["status"]);
      if !(PyEq(homework.fields["id"], s.lastId) && PyEq(homework.fields["status"], s.lastStatus)) {
        assert t.lastId == homework.fields["id"] && t.lastStatus == homework.fields["status"];
      }
  }
}
