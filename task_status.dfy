/** The status log every task kind (training, detection, diagnostic) owns.

    A task's statuses are rows ordered by id, only ever appended. The derived
    views (the current state, completion, the running time) are computed from
    the log on demand.
 */
module TaskStatus {
  import opened Wrappers

  /** The five task states (`TaskStatusTypes`). */
  datatype State = Queued | Started | InProgress | Successful | Failed

  /** The string stored in the `state` column. */
  function Value(s: State): string
  {
    match s
    case Queued => "QUEUED"
    case Started => "STARTED"
    case InProgress => "IN PROGRESS"
    case Successful => "SUCCESSFUL"
    case Failed => "FAILED"
  }

  /** Distinct states are stored as distinct strings, so comparing the
      stored strings is comparing the states. */
  lemma ValueInjective(s: State, t: State)
    requires Value(s) == Value(t)
    ensures s == t
  {
    assert Value(s)[0] == Value(t)[0];
    assert |Value(s)| == |Value(t)|;
  }

  /** One status row. `lastUpdate` is the row's timestamp in microseconds. */
  datatype StatusRecord = StatusRecord(state: State, message: Option<string>, lastUpdate: int)

  /** The states of a log, in order. */
  function States(log: seq<StatusRecord>): (r: seq<State>)
    ensures |r| == |log| && forall i :: 0 <= i < |log| ==> r[i] == log[i].state
  {
    seq(|log|, i requires 0 <= i < |log| => log[i].state)
  }

  /** The `status` property: the state of the last row, or None for an empty log. */
  function CurrentState(log: seq<StatusRecord>): (r: Option<State>)
    ensures r.None? <==> log == []
    ensures r.Some? ==> r.value == log[|log| - 1].state
  {
    if log == [] then None else Some(log[|log| - 1].state)
  }

  /** The `is_completed` property. */
  predicate IsCompleted(log: seq<StatusRecord>)
  {
    CurrentState(log) == Some(Successful) || CurrentState(log) == Some(Failed)
  }

  /** Whatever was logged before, the current state is the one appended last. */
  lemma AppendedIsCurrent(log: seq<StatusRecord>, r: StatusRecord)
    ensures CurrentState(log + [r]) == Some(r.state)
    ensures IsCompleted(log + [r]) <==> r.state in {Successful, Failed}
  {
  }

  /** An empty log is not completed; a non-empty one is completed exactly when
      its last row is SUCCESSFUL or FAILED. */
  lemma CompletedIff(log: seq<StatusRecord>)
    ensures IsCompleted(log) <==> log != [] && log[|log| - 1].state in {Successful, Failed}
  {
  }

  const MicrosPerSecond: int := 1_000_000
  const SecondsPerDay: int := 86_400

  /** `(end - start).seconds` for timestamps in microseconds: Python
      normalises a timedelta to days, seconds in [0, 86400) and microseconds,
      and `.seconds` is only the middle part (floor division, as Python's). */
  function Seconds(start: int, end: int): (s: int)
    ensures 0 <= s < SecondsPerDay
  {
    ((end - start) / MicrosPerSecond) % SecondsPerDay
  }

  /** Within a day the result is the elapsed whole seconds. */
  lemma SecondsWithinADay(start: int, end: int)
    requires 0 <= end - start < SecondsPerDay * MicrosPerSecond
    ensures Seconds(start, end) == (end - start) / MicrosPerSecond
  {
  }

  /** It is not the total: a day and five seconds reads as five seconds, and
      an end one microsecond before the start reads as 86399 seconds. */
  lemma SecondsIsNotTotal(start: int)
    ensures Seconds(start, start + (SecondsPerDay + 5) * MicrosPerSecond) == 5
    ensures Seconds(start, start - 1) == SecondsPerDay - 1
  {
  }

  /** The `running_time` of detection and diagnostic tasks: from the first
      row to the last; None for an empty log. */
  function RunningTime(log: seq<StatusRecord>): (r: Option<int>)
    ensures r.None? <==> log == []
  {
    if log == [] then None else Some(Seconds(log[0].lastUpdate, log[|log| - 1].lastUpdate))
  }

  /** Index of the first IN PROGRESS row, if any. */
  function FirstInProgress(log: seq<StatusRecord>): (r: Option<nat>)
    ensures r.None? <==> forall i :: 0 <= i < |log| ==> log[i].state != InProgress
    ensures r.Some? ==> r.value < |log| && log[r.value].state == InProgress
    ensures r.Some? ==> forall i :: 0 <= i < r.value ==> log[i].state != InProgress
  {
    if log == [] then None
    else if log[0].state == InProgress then Some(0)
    else match FirstInProgress(log[1..])
      case None => None
      case Some(i) => Some(i + 1)
  }

  /** The `running_time` of training tasks: from the first IN PROGRESS row
      when there is one, else from the first row, to the last row. */
  function TrainingRunningTime(log: seq<StatusRecord>): (r: Option<int>)
    ensures r.None? <==> log == []
  {
    if log == [] then None
    else
      var start := match FirstInProgress(log) case Some(i) => log[i].lastUpdate case None => log[0].lastUpdate;
      Some(Seconds(start, log[|log| - 1].lastUpdate))
  }

  /** Without an IN PROGRESS row, the training running time is the ordinary one. */
  lemma TrainingFallsBackToFirst(log: seq<StatusRecord>)
    requires forall i :: 0 <= i < |log| ==> log[i].state != InProgress
    ensures TrainingRunningTime(log) == RunningTime(log)
  {
  }

  /** QUEUED, STARTED, IN PROGRESS, SUCCESSFUL at t0..t3: the training running
      time counts from t2, not from t0. */
  lemma TrainingCountsFromInProgress(t0: int, t1: int, t2: int, t3: int)
    ensures
      var log := [StatusRecord(Queued, None, t0), StatusRecord(Started, None, t1),
                  StatusRecord(InProgress, None, t2), StatusRecord(Successful, None, t3)];
      TrainingRunningTime(log) == Some(Seconds(t2, t3)) && RunningTime(log) == Some(Seconds(t0, t3))
  {
    var log := [StatusRecord(Queued, None, t0), StatusRecord(Started, None, t1),
                StatusRecord(InProgress, None, t2), StatusRecord(Successful, None, t3)];
    assert FirstInProgress(log[2..]) == Some(0);
    assert log[1..][1..] == log[2..];
    assert FirstInProgress(log) == Some(2);
  }

  /** Some row of the log is SUCCESSFUL (the filter behind the list of a
      company's successful detections). */
  predicate EverSuccessful(log: seq<StatusRecord>)
  {
    exists i :: 0 <= i < |log| && log[i].state == Successful
  }

  /** A currently successful log was successful at some point, but not
      conversely: a log that went SUCCESSFUL and then FAILED still passes. */
  lemma EverSuccessfulIsWeaker(t: int)
    ensures forall log: seq<StatusRecord> :: CurrentState(log) == Some(Successful) ==> EverSuccessful(log)
    ensures
      var log := [StatusRecord(Successful, None, t), StatusRecord(Failed, None, t)];
      EverSuccessful(log) && CurrentState(log) != Some(Successful)
  {
    forall log: seq<StatusRecord> | CurrentState(log) == Some(Successful)
      ensures EverSuccessful(log)
    {
      assert log[|log| - 1].state == Successful;
    }
    var log := [StatusRecord(Successful, None, t), StatusRecord(Failed, None, t)];
    assert log[0].state == Successful;
  }
}
