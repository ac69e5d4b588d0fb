/**
 * The outcome contract of the desktop batch engine: the fixed exit-code and
 * error-code tables, the ways a run can end, and the (status, errorCode,
 * exitCode) triple each ending is reported as.
 */
module EngineContract {
  import opened Wrappers

  /** `EXIT_CODES`: the process exit status for each named outcome. */
  const ExitCodes: map<string, int> := map[
    "succeeded" := 0,
    "failed" := 1,
    "invalid_input" := 2,
    "output_unwritable" := 3,
    "cancelled" := 4,
    "timeout" := 5
  ]

  /** `ERROR_CODES`: the stable error identifier for each kind of failure. */
  const ErrorCodes: map<string, string> := map[
    "invalid_input" := "E_INVALID_INPUT",
    "engine_failed" := "E_ENGINE_FAILED",
    "cancelled" := "E_CANCELLED",
    "timeout" := "E_TIMEOUT",
    "output_unwritable" := "E_OUTPUT_UNWRITABLE"
  ]

  /** The `status` field of the result manifest. */
  datatype Status = Succeeded | Failed | Cancelled | Timeout {
    /** The status as it is written into the manifest. */
    function Name(): string {
      match this
      case Succeeded => "succeeded"
      case Failed => "failed"
      case Cancelled => "cancelled"
      case Timeout => "timeout"
    }
  }

  /**
   * How the guarded part of a run ended: normally, or with the exception that
   * escaped it. `Interrupted` is the KeyboardInterrupt raised by the SIGTERM
   * handler; `OtherError` is any other `Exception`, including the
   * EngineContractError raised for a failed worker.
   */
  datatype Ending = Ok | InvalidInput | OutputUnwritable | Interrupted | TimedOut | OtherError

  /** The three values the engine reports for a run. */
  datatype Outcome = Outcome(status: Status, errorCode: Option<string>, exitCode: int)

  /**
   * The values `status`, `error_code` and `exit_code` hold before anything has
   * run: already the report of a generic engine failure, so a run that leaves
   * them untouched reports nothing it did not classify.
   */
  function Initial(): (o: Outcome)
    ensures o == Classify(OtherError)
    ensures o.status != Succeeded && o.errorCode.Some? && o.exitCode != 0
  {
    Outcome(Failed, Some(ErrorCodes["engine_failed"]), ExitCodes["failed"])
  }

  /** The except clauses: the triple each ending is reported as. */
  function Classify(e: Ending): (o: Outcome)
    ensures e == Ok ==> o == Outcome(Succeeded, None, 0)
    ensures e == InvalidInput ==> o == Outcome(Failed, Some("E_INVALID_INPUT"), 2)
    ensures e == OutputUnwritable ==> o == Outcome(Failed, Some("E_OUTPUT_UNWRITABLE"), 3)
    ensures e == Interrupted ==> o == Outcome(Cancelled, Some("E_CANCELLED"), 4)
    ensures e == TimedOut ==> o == Outcome(Timeout, Some("E_TIMEOUT"), 5)
    ensures e == OtherError ==> o == Outcome(Failed, Some("E_ENGINE_FAILED"), 1)
  {
    match e
    case Ok => Outcome(Succeeded, None, ExitCodes["succeeded"])
    case InvalidInput => Outcome(Failed, Some(ErrorCodes["invalid_input"]), ExitCodes["invalid_input"])
    case OutputUnwritable =>
      Outcome(Failed, Some(ErrorCodes["output_unwritable"]), ExitCodes["output_unwritable"])
    case Interrupted => Outcome(Cancelled, Some(ErrorCodes["cancelled"]), ExitCodes["cancelled"])
    case TimedOut => Outcome(Timeout, Some(ErrorCodes["timeout"]), ExitCodes["timeout"])
    case OtherError => Outcome(Failed, Some(ErrorCodes["engine_failed"]), ExitCodes["failed"])
  }

  /**
   * The manifest-write override: when `result.json` could not be written, the
   * run is reported as an unwritable output whatever it was classified as.
   */
  function Settle(o: Outcome, manifestWritten: bool): (r: Outcome)
    ensures manifestWritten ==> r == o
    ensures !manifestWritten ==> r == Classify(OutputUnwritable)
  {
    if manifestWritten then o
    else Outcome(Failed, Some(ErrorCodes["output_unwritable"]), ExitCodes["output_unwritable"])
  }

  /** Whether an outcome is one the engine can report: some ending, then the override. */
  ghost predicate Reportable(o: Outcome) {
    exists e: Ending, w: bool :: o == Settle(Classify(e), w)
  }

  /**
   * The exit-code table read backwards: what a supervisor that sees only the
   * exit status concludes. Codes outside the table have no outcome (`None`).
   */
  function OutcomeOfExitCode(code: int): (r: Option<Outcome>)
    ensures r.Some? <==> 0 <= code <= 5
    ensures r.Some? ==> r.value.exitCode == code
  {
    if code == 0 then Some(Outcome(Succeeded, None, 0))
    else if code == 1 then Some(Outcome(Failed, Some("E_ENGINE_FAILED"), 1))
    else if code == 2 then Some(Outcome(Failed, Some("E_INVALID_INPUT"), 2))
    else if code == 3 then Some(Outcome(Failed, Some("E_OUTPUT_UNWRITABLE"), 3))
    else if code == 4 then Some(Outcome(Cancelled, Some("E_CANCELLED"), 4))
    else if code == 5 then Some(Outcome(Timeout, Some("E_TIMEOUT"), 5))
    else None
  }

  /**
   * Success purity: a run reports success, a null error code and exit status 0
   * all together, and exactly when it ended normally and its manifest was written.
   */
  lemma SuccessPurity(e: Ending, manifestWritten: bool)
    ensures var o := Settle(Classify(e), manifestWritten);
      (o.status == Succeeded <==> e == Ok && manifestWritten) &&
      (o.errorCode.None? <==> o.status == Succeeded) &&
      (o.exitCode == 0 <==> o.status == Succeeded)
  {
  }

  /** Every reported exit status is one of the table's, and it alone determines the whole triple. */
  lemma ExitCodeDeterminesOutcome(e: Ending, manifestWritten: bool)
    ensures var o := Settle(Classify(e), manifestWritten);
      0 <= o.exitCode <= 5 && OutcomeOfExitCode(o.exitCode) == Some(o)
  {
  }

  /** Different endings are reported with different exit statuses. */
  lemma ClassifyInjective(e1: Ending, e2: Ending)
    requires Classify(e1).exitCode == Classify(e2).exitCode
    ensures e1 == e2
  {
  }

  /** The override takes precedence: with no manifest, every ending reads as an unwritable output. */
  lemma OverrideTakesPrecedence(e1: Ending, e2: Ending)
    ensures Settle(Classify(e1), false) == Settle(Classify(e2), false)
    ensures Settle(Classify(e1), false) == Outcome(Failed, Some("E_OUTPUT_UNWRITABLE"), 3)
    ensures Settle(Classify(e1), false) == Settle(Classify(OutputUnwritable), true)
  {
  }

  /** A cancelled run never reports success, and a timeout keeps its own status and code. */
  lemma CancelledNeverSucceeds(manifestWritten: bool)
    ensures Settle(Classify(Interrupted), manifestWritten).status != Succeeded
    ensures manifestWritten ==> Settle(Classify(TimedOut), manifestWritten) == Outcome(Timeout, Some("E_TIMEOUT"), 5)
  {
  }

  /** The reportable outcomes are exactly the six rows of the exit-code table. */
  lemma ReportableIsExitTable(o: Outcome)
    ensures Reportable(o) <==> OutcomeOfExitCode(o.exitCode) == Some(o)
  {
    if OutcomeOfExitCode(o.exitCode) == Some(o) {
      var code := o.exitCode;
      var e :=
        if code == 0 then Ok else if code == 1 then OtherError else if code == 2 then InvalidInput
        else if code == 3 then OutputUnwritable else if code == 4 then Interrupted else TimedOut;
      assert o == Settle(Classify(e), true);
    }
    if Reportable(o) {
      var e: Ending, w: bool :| o == Settle(Classify(e), w);
      ExitCodeDeterminesOutcome(e, w);
    }
  }
}
