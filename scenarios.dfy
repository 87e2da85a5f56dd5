/** Concrete cycles of the poll loop, worked out on the model. */
module Scenarios {
  import opened Results
  import opened Homework

  function BodyOf(homeworks: HomeworksField, currentDate: Option<int>): Body {
    Body(None, None, homeworks, currentDate)
  }

  /** An approved submission with a `current_date`: one delivered notice
      naming it with the approved verdict, the cursor moves, long sleep. */
  lemma ApprovedSubmission(cursor: int)
    ensures var input := CycleInput(
              Decoded(BodyOf(List([Submission(Some("X"), Some("approved"))]), Some(1000))),
              Delivered, Delivered);
            Cycle(cursor, input) == Step(1000, [Message(Summary("X", APPROVED_VERDICT), true)], Some(POLL_INTERVAL))
  {
  }

  /** A body reporting `error`: the cursor stays and the delivered report
      quotes the server's value, followed by the short sleep. */
  lemma ServerError(cursor: int)
    ensures var input := CycleInput(Decoded(Body(Some("bad token"), None, Absent, None)), Delivered, Delivered);
            Cycle(cursor, input) == Step(cursor, [Message(ReportText(ServerFailure("bad token")), true)], Some(RECOVERY_INTERVAL))
    ensures var text := ReportText(ServerFailure("bad token"));
            var at := |REPORT_PREFIX| + |CONNECTION_FAILURE_HEAD|;
            at + 9 <= |text| && text[at..at + 9] == "bad token"
  {
  }

  /** A newest submission with a status outside the table: no notice, one
      report of the unexpected status. */
  lemma UnknownStatus(cursor: int)
    ensures var input := CycleInput(
              Decoded(BodyOf(List([Submission(Some("Y"), Some("unknown_code"))]), None)),
              Delivered, Delivered);
            Cycle(cursor, input) == Step(cursor, [Message(ReportText(UnexpectedStatus("unknown_code")), true)], Some(RECOVERY_INTERVAL))
  {
  }

  /** A non-list, truthy `homeworks` (the integer 1): indexing it raises and
      the error is reported. */
  lemma IntegerHomeworks(cursor: int, fault: string)
    ensures var input := CycleInput(Decoded(BodyOf(NonList(true, fault), Some(7))), Delivered, Delivered);
            Cycle(cursor, input) == Step(cursor, [Message(ReportText(MalformedHomeworks(fault)), true)], Some(RECOVERY_INTERVAL))
  {
  }

  /** Both the notice and the report fail to send: nothing escapes, there
      is no sleep and the cursor stays at `start`; the next cycle then runs
      from that cursor and adopts its own `current_date`. */
  lemma SilentChannel(start: int)
    ensures var approved := Submission(Some("X"), Some("approved"));
            var lost := CycleInput(Decoded(BodyOf(List([approved]), Some(1000))), Refused("down"), Refused("down"));
            Run(start, [lost]) == LoopState(
              start,
              [Message(Summary("X", APPROVED_VERDICT), false), Message(ReportText(DeliveryFailure("down")), false)],
              [])
    ensures var approved := Submission(Some("X"), Some("approved"));
            var lost := CycleInput(Decoded(BodyOf(List([approved]), Some(1000))), Refused("down"), Refused("down"));
            var next := CycleInput(Decoded(BodyOf(List([]), Some(2000))), Delivered, Delivered);
            Run(start, [lost, next]) == LoopState(
              2000,
              [Message(Summary("X", APPROVED_VERDICT), false), Message(ReportText(DeliveryFailure("down")), false)],
              [POLL_INTERVAL])
  {
  }
}
