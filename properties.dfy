/** Properties of the status translation and of whole runs of the poll
    loop, stated over the specification functions of module Homework. */
module Properties {
  import opened Results
  import opened Homework

  // ---------------------------------------------------------------------
  // Status translation
  // ---------------------------------------------------------------------

  /** Reading a summary from its end back to the verdict gives the verdict's characters. */
  lemma SummaryCharFromEnd(name: string, verdict: string, k: nat)
    requires 1 <= k <= |verdict|
    ensures Summary(name, verdict)[|Summary(name, verdict)| - k] == verdict[|verdict| - k]
  {
  }

  /** The three verdicts differ in their second or fourth character from
      the end; `k` is where `verdict1` and `verdict2` part. */
  function PartingOffset(status1: string, status2: string): (k: nat)
    requires status1 in STATUSES_VERDICTS && status2 in STATUSES_VERDICTS && status1 != status2
    ensures var v1, v2 := STATUSES_VERDICTS[status1], STATUSES_VERDICTS[status2];
      k <= |v1| && k <= |v2| && 1 <= k && v1[|v1| - k] != v2[|v2| - k]
  {
    assert REJECTED_VERDICT[|REJECTED_VERDICT| - 2] == 'и';
    assert REVIEWING_VERDICT[|REVIEWING_VERDICT| - 2] == 'у' && REVIEWING_VERDICT[|REVIEWING_VERDICT| - 4] == 'р';
    assert APPROVED_VERDICT[|APPROVED_VERDICT| - 2] == 'у' && APPROVED_VERDICT[|APPROVED_VERDICT| - 4] == 'о';
    if status1 == "rejected" || status2 == "rejected" then 2 else 4
  }

  /** A notification identifies its submission: two known statuses give the
      same summary only for the same name and the same status. */
  lemma SummaryDeterminesSubmission(name1: string, status1: string, name2: string, status2: string)
    requires status1 in STATUSES_VERDICTS && status2 in STATUSES_VERDICTS
    requires Summary(name1, STATUSES_VERDICTS[status1]) == Summary(name2, STATUSES_VERDICTS[status2])
    ensures name1 == name2 && status1 == status2
  {
    var v1, v2 := STATUSES_VERDICTS[status1], STATUSES_VERDICTS[status2];
    if status1 != status2 {
      var k := PartingOffset(status1, status2);
      SummaryCharFromEnd(name1, v1, k);
      SummaryCharFromEnd(name2, v2, k);
      assert false;
    }
    var r := Summary(name1, v1);
    assert name1 == r[|SUMMARY_OPEN|..|SUMMARY_OPEN| + |name1|] == name2;
  }

  // ---------------------------------------------------------------------
  // Counting over a run
  // ---------------------------------------------------------------------

  /** The number of messages satisfying `p`. */
  function Count(messages: seq<Message>, p: Message -> bool): nat
  {
    if messages == [] then 0
    else (if p(messages[0]) then 1 else 0) + Count(messages[1..], p)
  }

  lemma {:induction false} CountConcat(a: seq<Message>, b: seq<Message>, p: Message -> bool)
    ensures Count(a + b, p) == Count(a, p) + Count(b, p)
  {
    if a == [] {
      assert a + b == b;
    } else {
      assert (a + b)[1..] == a[1..] + b;
      CountConcat(a[1..], b, p);
    }
  }

  /** An attempted error report, delivered or not. */
  predicate IsReportMessage(m: Message) {
    IsReport(m.text)
  }

  /** A status notification that reached the user. */
  predicate IsDeliveredNotice(m: Message) {
    m.delivered && !IsReport(m.text)
  }

  /** The number of cycles among `inputs` that satisfy `p`. */
  function CountCycles(inputs: seq<CycleInput>, p: CycleInput -> bool): nat
  {
    if inputs == [] then 0
    else CountCycles(inputs[..|inputs| - 1], p) + (if p(inputs[|inputs| - 1]) then 1 else 0)
  }

  /** A cycle whose outer `try` raised. */
  predicate Fails(input: CycleInput) {
    CycleFault(input).Some?
  }

  /** A successful cycle whose `homeworks` were truthy, so it notified the user. */
  predicate Notifies(input: CycleInput) {
    CycleFault(input).None? && input.poll.Decoded? && Truthy(input.poll.body.homeworks)
  }

  /** A failed cycle whose error report could not be sent either. */
  predicate LosesReport(input: CycleInput) {
    CycleFault(input).Some? && input.report.Refused?
  }

  /** A successful cycle that adopts a server-reported `current_date`. */
  predicate Adopts(input: CycleInput) {
    CycleFault(input).None? && input.poll.Decoded? && input.poll.body.currentDate.Some?
  }

  // ---------------------------------------------------------------------
  // One cycle
  // ---------------------------------------------------------------------

  /** A cycle attempts exactly one error report when it fails and none
      otherwise, and delivers one notice exactly when it notifies. */
  lemma CycleCounts(cursor: int, input: CycleInput)
    ensures Count(Cycle(cursor, input).messages, IsReportMessage) == if Fails(input) then 1 else 0
    ensures Count(Cycle(cursor, input).messages, IsDeliveredNotice) == if Notifies(input) then 1 else 0
  {
    var ms := Cycle(cursor, input).messages;
    if Fails(input) {
      CycleRecovers(cursor, input);
      var report := ms[|ms| - 1];
      assert IsReport(report.text);
      if |ms| == 1 {
        assert ms == [report];
      } else {
        assert ms == [ms[0]] + [report];
        CountConcat([ms[0]], [report], IsReportMessage);
        CountConcat([ms[0]], [report], IsDeliveredNotice);
      }
    } else if Notifies(input) {
      CycleSucceeds(cursor, input);
      var hw := input.poll.body.homeworks.items[0];
      SummaryIsNoReport(ParseHomeworkStatus(hw).value);
    }
  }

  /** A cycle sleeps once unless its error report was lost, and only for
      one of the two configured intervals. */
  lemma CycleSleeps(cursor: int, input: CycleInput)
    ensures |SleepList(Cycle(cursor, input).sleep)| == if LosesReport(input) then 0 else 1
    ensures forall d | d in SleepList(Cycle(cursor, input).sleep) :: d == POLL_INTERVAL || d == RECOVERY_INTERVAL
  {
  }

  /** A cycle moves the cursor exactly when it adopts a `current_date`, and then to that value. */
  lemma CycleCursor(cursor: int, input: CycleInput)
    ensures Cycle(cursor, input).cursor == if Adopts(input) then input.poll.body.currentDate.value else cursor
  {
  }

  // ---------------------------------------------------------------------
  // Whole runs
  // ---------------------------------------------------------------------

  /** Every failed cycle, and no other, attempts one error report; every
      cycle that notifies, and no other, delivers one status notice. */
  lemma {:induction false} RunCounts(start: int, inputs: seq<CycleInput>)
    ensures Count(Run(start, inputs).messages, IsReportMessage) == CountCycles(inputs, Fails)
    ensures Count(Run(start, inputs).messages, IsDeliveredNotice) == CountCycles(inputs, Notifies)
  {
    if inputs != [] {
      var prefix, last := inputs[..|inputs| - 1], inputs[|inputs| - 1];
      RunCounts(start, prefix);
      var before := Run(start, prefix);
      var step := Cycle(before.cursor, last);
      CycleCounts(before.cursor, last);
      CountConcat(before.messages, step.messages, IsReportMessage);
      CountConcat(before.messages, step.messages, IsDeliveredNotice);
    }
  }

  /** The loop sleeps once per cycle except after a lost report. */
  lemma {:induction false} RunSleepCount(start: int, inputs: seq<CycleInput>)
    ensures |Run(start, inputs).sleeps| + CountCycles(inputs, LosesReport) == |inputs|
  {
    if inputs != [] {
      var prefix := inputs[..|inputs| - 1];
      RunSleepCount(start, prefix);
      CycleSleeps(Run(start, prefix).cursor, inputs[|inputs| - 1]);
    }
  }

  /** The loop sleeps only for the two configured intervals. */
  lemma {:induction false} RunSleepDurations(start: int, inputs: seq<CycleInput>)
    ensures forall k | 0 <= k < |Run(start, inputs).sleeps| ::
      Run(start, inputs).sleeps[k] == POLL_INTERVAL || Run(start, inputs).sleeps[k] == RECOVERY_INTERVAL
  {
    if inputs != [] {
      var prefix := inputs[..|inputs| - 1];
      RunSleepDurations(start, prefix);
      CycleSleeps(Run(start, prefix).cursor, inputs[|inputs| - 1]);
    }
  }

  /** Without a cycle that adopts a `current_date`, the cursor ends where it
      started: failed cycles and bodies without `current_date` never move it. */
  lemma {:induction false} RunCursorUnmoved(start: int, inputs: seq<CycleInput>)
    requires forall i | 0 <= i < |inputs| :: !Adopts(inputs[i])
    ensures Run(start, inputs).cursor == start
  {
    if inputs != [] {
      var prefix := inputs[..|inputs| - 1];
      assert forall i | 0 <= i < |prefix| :: prefix[i] == inputs[i];
      RunCursorUnmoved(start, prefix);
      CycleCursor(Run(start, prefix).cursor, inputs[|inputs| - 1]);
    }
  }

  /** The cursor after a run is the `current_date` of the last cycle that
      adopted one. */
  lemma {:induction false} RunCursorIsLatestAdoptedDate(start: int, inputs: seq<CycleInput>, i: nat)
    requires i < |inputs| && Adopts(inputs[i])
    requires forall j | i < j < |inputs| :: !Adopts(inputs[j])
    ensures Run(start, inputs).cursor == inputs[i].poll.body.currentDate.value
  {
    var prefix, last := inputs[..|inputs| - 1], inputs[|inputs| - 1];
    CycleCursor(Run(start, prefix).cursor, last);
    if i < |inputs| - 1 {
      assert prefix[i] == inputs[i];
      assert forall j | i < j < |prefix| :: prefix[j] == inputs[j];
      RunCursorIsLatestAdoptedDate(start, prefix, i);
    }
  }
}
