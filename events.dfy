/**
 * The JSON-Lines progress records the engine writes to standard output
 * (`_emit_event`), and the terminal record that closes every run.
 */
module Events {
  import opened Wrappers
  import opened EngineContract

  /** The `payload` object of an event; `Empty` is `{}`. */
  datatype Payload =
    | Empty
    | Engine(backend: string, parseMethod: string)
    | Documents(count: nat)
    | ResultFile(resultPath: Option<string>)

  /** One JSON-Lines record. The `ts` timestamp is not modelled. */
  datatype Event = Event(
    eventType: string,
    jobId: string,
    stage: string,
    progress: int,
    message: string,
    errorCode: Option<string>,
    payload: Payload)

  /** The records one `_emit_event` call writes: none when JSON-Lines output is disabled. */
  function Emit(enabled: bool, eventType: string, jobId: string, stage: string, progress: int,
                message: string, errorCode: Option<string>, payload: Option<Payload>): (r: seq<Event>)
    ensures |r| == (if enabled then 1 else 0)
    ensures enabled ==>
      r[0].eventType == eventType && r[0].jobId == jobId && r[0].stage == stage &&
      r[0].progress == progress && r[0].message == message &&
      r[0].errorCode == errorCode && r[0].payload == payload.GetOr(Empty)
  {
    if enabled then [Event(eventType, jobId, stage, progress, message, errorCode, payload.GetOr(Empty))]
    else []
  }

  /** The record types that end a run. */
  predicate IsTerminal(e: Event) {
    e.eventType == "job.succeeded" || e.eventType == "job.failed" || e.eventType == "job.cancelled"
  }

  /**
   * The terminal record for a final status: `job.succeeded` with no error
   * code, `job.cancelled`, or `job.failed` for every other status (a timeout
   * included), always at progress 100.
   */
  function TerminalEvent(jobId: string, status: Status, errorCode: Option<string>, resultPath: Option<string>): (e: Event)
    ensures IsTerminal(e) && e.progress == 100 && e.jobId == jobId
    ensures e.eventType == "job.succeeded" <==> status == Succeeded
    ensures status == Succeeded ==> e.stage == "completed" && e.message == "Completed"
    ensures status == Cancelled ==> e.stage == "cancelled" && e.message == "Cancelled"
    ensures status.Failed? || status.Timeout? ==> e.stage == "failed" && e.message == "Engine failed"
    ensures e.eventType == "job.cancelled" <==> status == Cancelled
    ensures e.eventType == "job.failed" <==> status.Failed? || status.Timeout?
    ensures e.errorCode == (if status == Succeeded then None else errorCode)
    ensures e.payload == ResultFile(resultPath)
  {
    if status == Succeeded then
      Event("job.succeeded", jobId, "completed", 100, "Completed", None, ResultFile(resultPath))
    else if status == Cancelled then
      Event("job.cancelled", jobId, "cancelled", 100, "Cancelled", errorCode, ResultFile(resultPath))
    else
      Event("job.failed", jobId, "failed", 100, "Engine failed", errorCode, ResultFile(resultPath))
  }

  /** The number of terminal records in a stream. */
  function CountTerminal(events: seq<Event>): (n: nat)
    ensures n <= |events|
    ensures n == 0 <==> forall i :: 0 <= i < |events| ==> !IsTerminal(events[i])
  {
    if events == [] then 0
    else (if IsTerminal(events[0]) then 1 else 0) + CountTerminal(events[1..])
  }

  lemma {:induction false} CountTerminalAppend(a: seq<Event>, b: seq<Event>)
    ensures CountTerminal(a + b) == CountTerminal(a) + CountTerminal(b)
    decreases |a|
  {
    if a != [] {
      assert (a + b)[1..] == a[1..] + b;
      CountTerminalAppend(a[1..], b);
    } else {
      assert a + b == b;
    }
  }
}
