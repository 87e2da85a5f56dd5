/** The homework-status bot: translation of a review status into a
    notification, classification of the status API's response, and the
    poll loop with its two-tier failure recovery.

    The HTTP request, the JSON decoder, the Telegram client and the clock are
    not modelled as code: each cycle receives their outcomes as a
    `CycleInput`, and the loop records what it sends and how long it sleeps. */
module Homework {
  import opened Results

  // ---------------------------------------------------------------------
  // Constants
  // ---------------------------------------------------------------------

  /** Sleep after a successful cycle. */
  const POLL_INTERVAL: nat := 1200
  /** Sleep after an error report has been delivered. */
  const RECOVERY_INTERVAL: nat := 5

  const REJECTED_VERDICT := "К сожалению в работе нашлись ошибки."
  const REVIEWING_VERDICT := "Работу взяли на проверку."
  const APPROVED_VERDICT := "Ревьюеру всё понравилось, можно приступать к следующему уроку."

  /** The fixed table of known review statuses and their verdicts. */
  const STATUSES_VERDICTS: map<string, string> := map[
    "rejected" := REJECTED_VERDICT,
    "reviewing" := REVIEWING_VERDICT,
    "approved" := APPROVED_VERDICT
  ]

  /** The summary is SUMMARY_OPEN + name + SUMMARY_CLOSE + verdict. */
  const SUMMARY_OPEN := "У вас проверили работу \""
  const SUMMARY_CLOSE := "\"!\n\n"
  /** Text of an UnexpectedStatus exception, followed by the status. */
  const UNEXPECTED_STATUS_PREFIX := "Получен неожиданный статус: "
  /** Text of a NetworkFailure or ServerFailure, followed by the cause and ".". */
  const CONNECTION_FAILURE_HEAD := "Сбой соединения с сервером.\nОписание/код ошибки: "
  /** Every error report sent by the recovery path starts with this. */
  const REPORT_PREFIX := "Бот столкнулся с ошибкой: "

  // ---------------------------------------------------------------------
  // Data model
  // ---------------------------------------------------------------------

  /** One element of `homeworks`; a key the JSON object lacks is `None`. */
  datatype Submission = Submission(name: Option<string>, status: Option<string>)

  /** The `homeworks` key of a response body: absent, a JSON list, or some
      other JSON value. For the latter, `truthy` is its truth value in Python
      and `indexFault` the text of the exception Python raises when the loop
      applies `[0]` and then `['homework_name']` to it. */
  datatype HomeworksField =
    | Absent
    | List(items: seq<Submission>)
    | NonList(truthy: bool, indexFault: string)

  /** A decoded response body, a JSON object. The values of `error` and
      `code` are kept as their rendered text. */
  datatype Body = Body(
    error: Option<string>,
    code: Option<string>,
    homeworks: HomeworksField,
    currentDate: Option<int>)

  /** What `requests.get` followed by `response.json()` produced. */
  datatype PollOutcome =
    | TransportError(cause: string)    // requests.get raised
    | Undecodable(cause: string)       // response.json() raised
    | Decoded(body: Body)

  /** What one call of `bot.send_message` did. */
  datatype Delivery = Delivered | Refused(cause: string)

  /** The exceptions a cycle can raise; all are caught by the loop. */
  datatype Fault =
    | NetworkFailure(cause: string)
    | ServerFailure(indicator: string)
    | UnexpectedStatus(status: string)
    | MissingField(key: string)             // KeyError from homework[...]
    | MalformedHomeworks(description: string)  // indexing a non-list `homeworks`
    | DecodeFailure(cause: string)          // raw exception from response.json()
    | DeliveryFailure(cause: string)        // raw exception from send_message

  /** The outside world's answers during one cycle: the poll, the send of
      the status notification (used only if there is one), and the send of
      the error report (used only if the cycle fails). */
  datatype CycleInput = CycleInput(poll: PollOutcome, primary: Delivery, report: Delivery)

  /** One attempted send and whether it went through. */
  datatype Message = Message(text: string, delivered: bool)

  /** The effect of one cycle: the new cursor, the sends attempted in order,
      and the sleep requested, if any. */
  datatype Step = Step(cursor: int, messages: seq<Message>, sleep: Option<nat>)

  /** The loop's state after some cycles. */
  datatype LoopState = LoopState(cursor: int, messages: seq<Message>, sleeps: seq<nat>)

  // ---------------------------------------------------------------------
  // Status translation
  // ---------------------------------------------------------------------

  /** The notification for a submission with a known verdict: the name at a
      fixed offset and the verdict at the end. */
  function Summary(name: string, verdict: string): (r: string)
    ensures |r| == |SUMMARY_OPEN| + |name| + |SUMMARY_CLOSE| + |verdict|
    ensures r[..|SUMMARY_OPEN|] == SUMMARY_OPEN
    ensures r[|SUMMARY_OPEN|..|SUMMARY_OPEN| + |name|] == name
    ensures r[|r| - |verdict|..] == verdict
  {
    SUMMARY_OPEN + name + SUMMARY_CLOSE + verdict
  }

  /** Translates one submission, failing on a missing key (the name is read
      first) or on a status outside the verdict table. */
  function ParseHomeworkStatus(homework: Submission): (r: Result<string, Fault>)
    ensures r.Success? <==>
      homework.name.Some? && homework.status.Some? && homework.status.value in STATUSES_VERDICTS
    ensures r.Success? ==>
      r.value == Summary(homework.name.value, STATUSES_VERDICTS[homework.status.value])
    ensures homework.name.None? ==> r == Failure(MissingField("homework_name"))
    ensures homework.name.Some? && homework.status.None? ==> r == Failure(MissingField("status"))
    ensures homework.name.Some? && homework.status.Some? && homework.status.value !in STATUSES_VERDICTS ==>
      r == Failure(UnexpectedStatus(homework.status.value))
  {
    match (homework.name, homework.status)
    case (None, _) => Failure(MissingField("homework_name"))
    case (Some(_), None) => Failure(MissingField("status"))
    case (Some(name), Some(status)) =>
      if status !in STATUSES_VERDICTS then Failure(UnexpectedStatus(status))
      else Success(Summary(name, STATUSES_VERDICTS[status]))
  }

  // ---------------------------------------------------------------------
  // Response classification
  // ---------------------------------------------------------------------

  /** Classifies one poll: a transport error becomes NetworkFailure, a decode
      error escapes as it is, a body carrying `error` (checked first) or
      `code` becomes ServerFailure with that value, and any other body is
      returned unchanged. */
  function GetHomeworkStatuses(outcome: PollOutcome): (r: Result<Body, Fault>)
    ensures r.Success? <==> outcome.Decoded? && outcome.body.error.None? && outcome.body.code.None?
    ensures r.Success? ==> r.value == outcome.body
    ensures outcome.TransportError? ==> r == Failure(NetworkFailure(outcome.cause))
    ensures outcome.Undecodable? ==> r == Failure(DecodeFailure(outcome.cause))
    ensures outcome.Decoded? && outcome.body.error.Some? ==>
      r == Failure(ServerFailure(outcome.body.error.value))
    ensures outcome.Decoded? && outcome.body.error.None? && outcome.body.code.Some? ==>
      r == Failure(ServerFailure(outcome.body.code.value))
  {
    match outcome
    case TransportError(cause) => Failure(NetworkFailure(cause))
    case Undecodable(cause) => Failure(DecodeFailure(cause))
    case Decoded(body) =>
      if body.error.Some? then Failure(ServerFailure(body.error.value))
      else if body.code.Some? then Failure(ServerFailure(body.code.value))
      else Success(body)
  }

  /** Python's truth value of the `homeworks` entry (`None` when absent). */
  predicate Truthy(homeworks: HomeworksField) {
    match homeworks
    case Absent => false
    case List(items) => items != []
    case NonList(truthy, _) => truthy
  }

  /** The notification a successful poll asks for: none when `homeworks` is
      falsy, otherwise the translation of element `[0]` alone. */
  function NewestNotice(homeworks: HomeworksField): (r: Result<Option<string>, Fault>)
    ensures r == Success(None) <==> !Truthy(homeworks)
    ensures r.Success? && r.value.Some? ==> homeworks.List? && homeworks.items != []
    ensures homeworks.List? && homeworks.items != [] ==>
      (r.Success? <==> ParseHomeworkStatus(homeworks.items[0]).Success?)
    ensures homeworks.List? && homeworks.items != [] && r.Success? ==>
      r.value == Some(ParseHomeworkStatus(homeworks.items[0]).value)
    ensures homeworks.List? && homeworks.items != [] && r.Failure? ==>
      r.error == ParseHomeworkStatus(homeworks.items[0]).error
    ensures homeworks.NonList? && homeworks.truthy ==>
      r == Failure(MalformedHomeworks(homeworks.indexFault))
  {
    if !Truthy(homeworks) then Success(None)
    else match homeworks
      case List(items) =>
        (match ParseHomeworkStatus(items[0])
         case Success(summary) => Success(Some(summary))
         case Failure(f) => Failure(f))
      case NonList(_, indexFault) => Failure(MalformedHomeworks(indexFault))
  }

  // ---------------------------------------------------------------------
  // Error reports
  // ---------------------------------------------------------------------

  /** `str()` of a raised fault. Both connection faults carry their cause
      after CONNECTION_FAILURE_HEAD; an unexpected status ends the text. */
  function Describe(fault: Fault): (r: string)
    ensures (fault.NetworkFailure? || fault.ServerFailure?) ==>
      var detail := if fault.NetworkFailure? then fault.cause else fault.indicator;
      && |r| == |CONNECTION_FAILURE_HEAD| + |detail| + 1
      && r[|CONNECTION_FAILURE_HEAD|..|CONNECTION_FAILURE_HEAD| + |detail|] == detail
    ensures fault.UnexpectedStatus? ==>
      |r| >= |fault.status| && r[|r| - |fault.status|..] == fault.status
  {
    match fault
    case NetworkFailure(cause) => CONNECTION_FAILURE_HEAD + cause + "."
    case ServerFailure(indicator) => CONNECTION_FAILURE_HEAD + indicator + "."
    case UnexpectedStatus(status) => UNEXPECTED_STATUS_PREFIX + status
    case MissingField(key) => "'" + key + "'"
    case MalformedHomeworks(description) => description
    case DecodeFailure(cause) => cause
    case DeliveryFailure(cause) => cause
  }

  /** True of the texts the recovery path sends. */
  predicate IsReport(text: string) {
    |text| >= |REPORT_PREFIX| && text[..|REPORT_PREFIX|] == REPORT_PREFIX
  }

  /** The error report for a fault: the report prefix, then the fault's text. */
  function ReportText(fault: Fault): (r: string)
    ensures IsReport(r)
    ensures r[|REPORT_PREFIX|..] == Describe(fault)
  {
    REPORT_PREFIX + Describe(fault)
  }

  // ---------------------------------------------------------------------
  // One cycle of the poll loop
  // ---------------------------------------------------------------------

  /** The exception the body of the loop's outer `try` raises, if any:
      a poll fault, a translation fault, or the refusal of the notification. */
  function CycleFault(input: CycleInput): (r: Option<Fault>)
    ensures r.None? <==>
      && GetHomeworkStatuses(input.poll).Success?
      && NewestNotice(input.poll.body.homeworks).Success?
      && (Truthy(input.poll.body.homeworks) ==> input.primary.Delivered?)
    ensures GetHomeworkStatuses(input.poll).Failure? ==> r == Some(GetHomeworkStatuses(input.poll).error)
    ensures r.Some? && r.value.DeliveryFailure? && GetHomeworkStatuses(input.poll).Success? ==>
      NewestNotice(input.poll.body.homeworks).Success? && input.primary == Refused(r.value.cause)
    ensures GetHomeworkStatuses(input.poll).Success? && NewestNotice(input.poll.body.homeworks).Failure? ==>
      r == Some(NewestNotice(input.poll.body.homeworks).error)
    ensures && GetHomeworkStatuses(input.poll).Success?
            && NewestNotice(input.poll.body.homeworks).Success?
            && NewestNotice(input.poll.body.homeworks).value.Some?
            && input.primary.Refused? ==>
      r == Some(DeliveryFailure(input.primary.cause))
  {
    match GetHomeworkStatuses(input.poll)
    case Failure(f) => Some(f)
    case Success(body) =>
      match NewestNotice(body.homeworks)
      case Failure(f) => Some(f)
      case Success(None) => None
      case Success(Some(_)) =>
        match input.primary
        case Delivered => None
        case Refused(cause) => Some(DeliveryFailure(cause))
  }

  /** The recovery path: one report attempt, then the short sleep, which is
      skipped when that send itself fails. */
  function Recover(cursor: int, attempted: seq<Message>, fault: Fault, report: Delivery): Step {
    match report
    case Delivered =>
      Step(cursor, attempted + [Message(ReportText(fault), true)], Some(RECOVERY_INTERVAL))
    case Refused(_) =>
      Step(cursor, attempted + [Message(ReportText(fault), false)], None)
  }

  /** One iteration of the poll loop, from the cursor and the outside
      world's answers; its properties are `CycleSucceeds` and `CycleRecovers`.
      The cursor is the `from_date` the cycle's request was sent with, so
      `input.poll` is the outcome of polling from `cursor`; the cursor the
      step returns is the `from_date` of the next cycle's request. */
  function Cycle(cursor: int, input: CycleInput): Step {
    match GetHomeworkStatuses(input.poll)
    case Failure(f) => Recover(cursor, [], f, input.report)
    case Success(body) =>
      match NewestNotice(body.homeworks)
      case Failure(f) => Recover(cursor, [], f, input.report)
      case Success(None) => Step(body.currentDate.GetOr(cursor), [], Some(POLL_INTERVAL))
      case Success(Some(notice)) =>
        match input.primary
        case Delivered => Step(body.currentDate.GetOr(cursor), [Message(notice, true)], Some(POLL_INTERVAL))
        case Refused(cause) => Recover(cursor, [Message(notice, false)], DeliveryFailure(cause), input.report)
  }

  /** A cycle whose outer `try` raises nothing: the cursor adopts
      `current_date` when present, the long sleep follows, and the only send
      is the delivered notice for element [0] of a truthy `homeworks`. */
  lemma CycleSucceeds(cursor: int, input: CycleInput)
    requires CycleFault(input).None?
    ensures input.poll.Decoded?
    ensures Cycle(cursor, input).cursor == input.poll.body.currentDate.GetOr(cursor)
    ensures Cycle(cursor, input).sleep == Some(POLL_INTERVAL)
    ensures Cycle(cursor, input).messages != [] <==> Truthy(input.poll.body.homeworks)
    ensures Truthy(input.poll.body.homeworks) ==>
      && input.poll.body.homeworks.List?
      && ParseHomeworkStatus(input.poll.body.homeworks.items[0]).Success?
      && Cycle(cursor, input).messages == [Message(ParseHomeworkStatus(input.poll.body.homeworks.items[0]).value, true)]
  {
  }

  /** A cycle whose outer `try` raises: the cursor stays, the last send is
      the one report of the fault, the short sleep follows exactly when that
      report was delivered, and the refused notice, exactly when it caused
      the fault, is the one earlier send. */
  lemma CycleRecovers(cursor: int, input: CycleInput)
    requires CycleFault(input).Some?
    ensures Cycle(cursor, input).cursor == cursor
    ensures var ms := Cycle(cursor, input).messages;
      && 1 <= |ms| <= 2
      && ms[|ms| - 1] == Message(ReportText(CycleFault(input).value), input.report.Delivered?)
    ensures Cycle(cursor, input).sleep == if input.report.Delivered? then Some(RECOVERY_INTERVAL) else None
    ensures var ms := Cycle(cursor, input).messages;
      |ms| == 2 ==>
        && CycleFault(input).value.DeliveryFailure?
        && !ms[0].delivered
        && !IsReport(ms[0].text)
    ensures var ms := Cycle(cursor, input).messages;
      CycleFault(input).value.DeliveryFailure? ==>
        && |ms| == 2
        && ms[0] == Message(NewestNotice(input.poll.body.homeworks).value.value, false)
  {
    var polled := GetHomeworkStatuses(input.poll);
    if polled.Success? {
      var notice := NewestNotice(polled.value.homeworks);
      if notice.Success? && notice.value.Some? {
        SummaryIsNoReport(notice.value.value);
      }
    }
  }

  /** A status notification never looks like an error report: their first
      characters differ. */
  lemma SummaryIsNoReport(text: string)
    requires |text| >= |SUMMARY_OPEN| && text[..|SUMMARY_OPEN|] == SUMMARY_OPEN
    ensures !IsReport(text)
  {
    assert text[0] == text[..|SUMMARY_OPEN|][0] == SUMMARY_OPEN[0] != REPORT_PREFIX[0];
  }

  // ---------------------------------------------------------------------
  // The loop
  // ---------------------------------------------------------------------

  function SleepList(sleep: Option<nat>): seq<nat> {
    match sleep
    case Some(d) => [d]
    case None => []
  }

  /** The state after one more cycle: the cycle's sends and sleep are
      appended to those so far, and its cursor replaces the cursor. */
  function Advance(state: LoopState, input: CycleInput): LoopState {
    var step := Cycle(state.cursor, input);
    LoopState(step.cursor, state.messages + step.messages, state.sleeps + SleepList(step.sleep))
  }

  /** The state after running the cycles `inputs` in order, starting at
      cursor `start` with nothing sent and nothing slept. */
  function Run(start: int, inputs: seq<CycleInput>): LoopState
    decreases |inputs|
  {
    if inputs == [] then LoopState(start, [], [])
    else Advance(Run(start, inputs[..|inputs| - 1]), inputs[|inputs| - 1])
  }

  /** Running one more cycle advances the state of the run so far. */
  lemma RunPrefix(start: int, inputs: seq<CycleInput>, i: nat)
    requires i < |inputs|
    ensures Run(start, inputs[..i + 1]) == Advance(Run(start, inputs[..i]), inputs[i])
  {
    assert inputs[..i + 1][..i] == inputs[..i];
  }

  /** One iteration of the `while True` loop of `main`: poll, translate and
      send inside the outer `try`; on any exception keep the cursor, try to
      report the error, and sleep briefly only if that report went through
      (a failure of the report send is swallowed). */
  method CycleOnce(cursor: int, input: CycleInput) returns (next: int, sent: seq<Message>, sleep: Option<nat>)
    ensures Step(next, sent, sleep) == Cycle(cursor, input)
  {
    next, sent, sleep := cursor, [], None;
    var raised: Option<Fault> := None;
    // outer try
    match GetHomeworkStatuses(input.poll) {
      case Failure(f) =>
        raised := Some(f);
      case Success(body) =>
        match NewestNotice(body.homeworks) {
          case Failure(f) =>
            raised := Some(f);
          case Success(notice) =>
            if notice.Some? {
              sent := [Message(notice.value, input.primary.Delivered?)];
              if input.primary.Refused? {
                raised := Some(DeliveryFailure(input.primary.cause));
              }
            }
            if raised.None? {
              next := body.currentDate.GetOr(cursor);
              sleep := Some(POLL_INTERVAL);
            }
        }
    }
    // except: report, then sleep only if the report went through
    if raised.Some? {
      sent := sent + [Message(ReportText(raised.value), input.report.Delivered?)];
      if input.report.Delivered? {
        sleep := Some(RECOVERY_INTERVAL);
      }
    }
  }

  /** The `while True` loop of `main`, cut off after |inputs| cycles; it
      runs every cycle whatever the cycles before it raised. */
  method PollLoop(start: int, inputs: seq<CycleInput>) returns (cursor: int, messages: seq<Message>, sleeps: seq<nat>)
    ensures LoopState(cursor, messages, sleeps) == Run(start, inputs)
  {
    cursor, messages, sleeps := start, [], [];
    var i := 0;
    while i < |inputs|
      invariant 0 <= i <= |inputs|
      invariant LoopState(cursor, messages, sleeps) == Run(start, inputs[..i])
    {
      ghost var before := LoopState(cursor, messages, sleeps);
      var sent, sleep;
      cursor, sent, sleep := CycleOnce(cursor, inputs[i]);
      messages := messages + sent;
      sleeps := sleeps + SleepList(sleep);
      assert LoopState(cursor, messages, sleeps) == Advance(before, inputs[i]);
      RunPrefix(start, inputs, i);
      i := i + 1;
    }
    assert inputs[..|inputs|] == inputs;
  }
}
