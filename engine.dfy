/**
 * `_run_engine`: one run of the desktop batch engine. The options are
 * validated, the input is resolved, the output directory is checked, the
 * documents are parsed (in process, or in a worker process when a timeout is
 * set); the way that guarded block ends is classified into (status, errorCode,
 * exitCode); the result manifest is written, and a failure to write it
 * overrides the classification; exactly one terminal record closes the
 * JSON-Lines stream, and the exit code is returned.
 *
 * Everything the run learns from the operating system is an input here: what
 * the input path is on disk, whether the output directory accepts a file, how
 * the parse or the worker ends, when SIGTERM arrives, what lies under the
 * output directory afterwards and whether `result.json` could be written.
 */
module DesktopEngine {
  import opened Wrappers
  import opened EngineContract
  import opened Events
  import opened InputPaths
  import opened Artifacts

  /** The options `_run_engine` acts on itself (the rest are only handed to the parser). */
  datatype Options = Options(
    jobId: string,
    outputDir: string,          // already expanded and resolved
    backend: string,
    parseMethod: string,
    startPage: int,
    endPage: Option<int>,
    timeoutMs: Option<int>,
    jsonl: bool)

  /** Values that come from modules outside this model: the supported suffix lists and the engine version. */
  datatype Externals = Externals(pdfSuffixes: seq<string>, imageSuffixes: seq<string>, engineVersion: string)

  /** The steps of the guarded block, in the order they run. */
  datatype Step = Validating | Resolving | CheckingOutput | Parsing

  const Steps: seq<Step> := [Validating, Resolving, CheckingOutput, Parsing]

  /**
   * What the engine observes of its worker process: whether it is still alive
   * once the timeout join returns, and the `ok` flag of the result it left on
   * the queue, `None` when it left none.
   */
  datatype WorkerObservation = WorkerObservation(aliveAfterJoin: bool, result: Option<bool>)

  /** The run's view of the world outside the process. */
  datatype Environment = Environment(
    input: InputNode,                 // what the resolved input path is
    resolveRaises: bool,              // probing or listing the input, or sniffing a suffix, raises an Exception
    outputWritable: bool,             // the output directory can be created and written
    inlineParseRaises: bool,          // the in-process parse raises an Exception
    worker: WorkerObservation,        // the worker, when a timeout is set
    sigterm: Option<Step>,            // the step during which SIGTERM arrives, if any
    outputTree: Option<seq<string>>,  // recursive listing of the output directory, None if it is not a directory
    manifestWritable: bool)           // `result.json` can be written

  /** The `result.json` document (its `timings` are not modelled). */
  datatype Manifest = Manifest(
    status: string,
    errorCode: Option<string>,
    outputDir: string,
    artifacts: map<Category, seq<string>>,
    engineVersion: string,
    backend: string,
    parseMethod: string)

  /** What a run leaves behind: the reported triple, the manifest if written, and the JSON-Lines records. */
  datatype Run = Run(outcome: Outcome, manifest: Option<Manifest>, events: seq<Event>)

  function Supported(x: Externals): seq<string> {
    x.pdfSuffixes + x.imageSuffixes
  }

  /** A timeout, when given, is positive; an end page, when given, is not before the start page. */
  predicate OptionsValid(opts: Options)
    ensures opts.timeoutMs.None? && opts.endPage.None? ==> OptionsValid(opts)
    ensures opts.timeoutMs.Some? && opts.timeoutMs.value <= 0 ==> !OptionsValid(opts)
    ensures opts.endPage.Some? && opts.startPage > opts.endPage.value ==> !OptionsValid(opts)
  {
    (opts.timeoutMs.None? || opts.timeoutMs.value > 0) &&
    (opts.endPage.None? || opts.startPage <= opts.endPage.value)
  }

  /**
   * How the worker branch ends: a worker still alive after the join is a
   * timeout whatever it reported; otherwise it succeeded only if it left an
   * `ok` result, and a missing result counts as an engine failure.
   */
  function WorkerEnding(w: WorkerObservation): (e: Ending)
    ensures w.aliveAfterJoin ==> e == TimedOut
    ensures !w.aliveAfterJoin ==> e != TimedOut
    ensures e == Ok <==> !w.aliveAfterJoin && w.result == Some(true)
    ensures e == Ok || e == TimedOut || e == OtherError
  {
    if w.aliveAfterJoin then TimedOut
    else if w.result.GetOr(false) then Ok
    else OtherError
  }

  /** How the parse step ends: in process without a timeout, in a worker with one. */
  function ParseEnding(timeoutMs: Option<int>, env: Environment): (e: Ending)
    ensures e == TimedOut ==> timeoutMs.Some?
    ensures e == Ok || e == TimedOut || e == OtherError
    ensures timeoutMs.None? ==> (e == Ok <==> !env.inlineParseRaises)
    ensures timeoutMs.Some? ==> e == WorkerEnding(env.worker)
  {
    if timeoutMs.None? then (if env.inlineParseRaises then OtherError else Ok)
    else WorkerEnding(env.worker)
  }

  /** The exception a step raises on its own, `None` when it completes. */
  function StepRaises(s: Step, opts: Options, env: Environment, x: Externals): (r: Option<Ending>)
    ensures r.Some? ==> r.value != Ok && r.value != Interrupted
    ensures s == Validating ==> (r.Some? <==> !OptionsValid(opts)) && (r.Some? ==> r.value == InvalidInput)
    ensures s == CheckingOutput ==> (r.Some? <==> !env.outputWritable) && (r.Some? ==> r.value == OutputUnwritable)
  {
    match s
    case Validating => if OptionsValid(opts) then None else Some(InvalidInput)
    case Resolving =>
      if env.resolveRaises then Some(OtherError)
      else if ResolveInput(env.input, Supported(x)).Success? then None
      else Some(InvalidInput)
    case CheckingOutput => if env.outputWritable then None else Some(OutputUnwritable)
    case Parsing => var e := ParseEnding(opts.timeoutMs, env); if e == Ok then None else Some(e)
  }

  /**
   * Running `steps` in order: the first one that is interrupted by SIGTERM or
   * raises decides the ending, and the ones after it never run.
   */
  function FirstRaised(steps: seq<Step>, opts: Options, env: Environment, x: Externals): (e: Ending)
    ensures e == Ok <==>
      forall i :: 0 <= i < |steps| ==> env.sigterm != Some(steps[i]) && StepRaises(steps[i], opts, env, x).None?
    ensures e == Interrupted ==> exists i :: 0 <= i < |steps| && env.sigterm == Some(steps[i])
  {
    if steps == [] then Ok
    else if env.sigterm == Some(steps[0]) then Interrupted
    else match StepRaises(steps[0], opts, env, x)
      case Some(e) => e
      case None => FirstRaised(steps[1..], opts, env, x)
  }

  /** How the guarded block of a run ends. */
  function BodyEnding(opts: Options, env: Environment, x: Externals): (e: Ending)
    ensures env.sigterm.None? ==> e != Interrupted
    ensures e == Ok ==>
      OptionsValid(opts) && !env.resolveRaises && ResolveInput(env.input, Supported(x)).Success? && env.outputWritable
  {
    assert Steps[0] == Validating && Steps[1] == Resolving && Steps[2] == CheckingOutput;
    FirstRaised(Steps, opts, env, x)
  }

  /** Whether validation, input resolution and the output check all complete, so the parse starts. */
  predicate ReachedParse(opts: Options, env: Environment, x: Externals) {
    FirstRaised(Steps[..3], opts, env, x) == Ok
  }

  /** The triple a run reports: its classification, then the manifest override. */
  function FinalOutcome(opts: Options, env: Environment, x: Externals): (o: Outcome)
    ensures o.errorCode.None? <==> o.status == Succeeded
    ensures o.exitCode == 0 <==> o.status == Succeeded
    ensures OutcomeOfExitCode(o.exitCode) == Some(o)
  {
    SuccessPurity(BodyEnding(opts, env, x), env.manifestWritable);
    ExitCodeDeterminesOutcome(BodyEnding(opts, env, x), env.manifestWritable);
    Settle(Classify(BodyEnding(opts, env, x)), env.manifestWritable)
  }

  /**
   * `output_dir / "result.json"` as a string: a separator is added unless the
   * directory already ends with one, which a resolved path does only at the root.
   */
  function ResultPath(outputDir: string): (r: string)
    ensures |outputDir| < |r| && r[..|outputDir|] == outputDir
    ensures EndsWith(r, "/result.json")
    ensures |r| <= |outputDir| + |"/result.json"|
    ensures !EndsWith(outputDir, "/") ==> r[|outputDir|] == '/'
    ensures EndsWith(outputDir, "/") ==> r == outputDir + "result.json"
  {
    if EndsWith(outputDir, "/") then outputDir + "result.json" else outputDir + "/result.json"
  }

  function DocumentCount(env: Environment, x: Externals): nat {
    match ResolveInput(env.input, Supported(x))
    case Success(paths) => |paths|
    case Failure(_) => 0
  }

  /** The input-validated record, written once the parse is reached. */
  function ValidatedEvents(opts: Options, env: Environment, x: Externals): (r: seq<Event>)
    ensures |r| == if opts.jsonl && ReachedParse(opts, env, x) then 1 else 0
    ensures |r| == 1 ==> r[0].eventType == "job.progress" && r[0].progress == 10 && !IsTerminal(r[0])
  {
    if ReachedParse(opts, env, x) then
      Emit(opts.jsonl, "job.progress", opts.jobId, "running", 10, "Input validated", None,
           Some(Documents(DocumentCount(env, x))))
    else []
  }

  /** The records a run writes: started, input validated (once the parse starts), and one terminal record. */
  function ExpectedEvents(opts: Options, env: Environment, x: Externals): (r: seq<Event>)
    ensures |r| == if !opts.jsonl then 0 else if ReachedParse(opts, env, x) then 3 else 2
    ensures opts.jsonl ==> r[0].eventType == "job.started" && r[0].payload == Engine(opts.backend, opts.parseMethod)
    ensures opts.jsonl && ReachedParse(opts, env, x) ==>
      r[1].eventType == "job.progress" && r[1].progress == 10 && r[1].payload == Documents(DocumentCount(env, x))
  {
    var o := FinalOutcome(opts, env, x);
    var resultPath := if env.manifestWritable then Some(ResultPath(opts.outputDir)) else None;
    Emit(opts.jsonl, "job.started", opts.jobId, "starting", 0, "Engine process started", None,
         Some(Engine(opts.backend, opts.parseMethod)))
    + ValidatedEvents(opts, env, x)
    + (if opts.jsonl then [TerminalEvent(opts.jobId, o.status, o.errorCode, resultPath)] else [])
  }

  /**
   * A written manifest reports the run's own status and error code, the
   * options it ran with, and artifacts only for a successful run.
   */
  ghost predicate ManifestDescribes(m: Manifest, o: Outcome, opts: Options, env: Environment, x: Externals)
    ensures ManifestDescribes(m, o, opts, env, x) ==> m.artifacts.Keys == EmptyArtifacts.Keys
    ensures ManifestDescribes(m, o, opts, env, x) && o.status != Succeeded ==>
      forall c :: c in m.artifacts ==> m.artifacts[c] == []
  {
    m.status == o.status.Name() && m.errorCode == o.errorCode &&
    m.outputDir == opts.outputDir && m.engineVersion == x.engineVersion &&
    m.backend == opts.backend && m.parseMethod == opts.parseMethod &&
    (o.status == Succeeded ==> CollectedFrom(env.outputTree, m.artifacts)) &&
    (o.status != Succeeded ==> m.artifacts == EmptyArtifacts)
  }

  /** The guarded block run as straight-line code: the steps in order, the first that raises wins. */
  lemma BodyEndingSteps(opts: Options, env: Environment, x: Externals)
    ensures BodyEnding(opts, env, x) ==
      if env.sigterm == Some(Validating) then Interrupted
      else if !OptionsValid(opts) then InvalidInput
      else if env.sigterm == Some(Resolving) then Interrupted
      else if env.resolveRaises then OtherError
      else if ResolveInput(env.input, Supported(x)).Failure? then InvalidInput
      else if env.sigterm == Some(CheckingOutput) then Interrupted
      else if !env.outputWritable then OutputUnwritable
      else if env.sigterm == Some(Parsing) then Interrupted
      else ParseEnding(opts.timeoutMs, env)
    ensures ReachedParse(opts, env, x) <==>
      env.sigterm != Some(Validating) && OptionsValid(opts) &&
      env.sigterm != Some(Resolving) && !env.resolveRaises && ResolveInput(env.input, Supported(x)).Success? &&
      env.sigterm != Some(CheckingOutput) && env.outputWritable
  {
    var s1, s2, s3 := Steps[1..], Steps[2..], Steps[3..];
    assert s1[1..] == s2 && s2[1..] == s3 && s3[1..] == [];
    assert s1[0] == Resolving && s2[0] == CheckingOutput && s3[0] == Parsing;
    var endAfterParse := FirstRaised(s3, opts, env, x);
    assert FirstRaised(s3[1..], opts, env, x) == Ok;
    assert env.sigterm != Some(Parsing) ==> StepRaises(Parsing, opts, env, x).None? == (ParseEnding(opts.timeoutMs, env) == Ok);
    assert endAfterParse == if env.sigterm == Some(Parsing) then Interrupted else ParseEnding(opts.timeoutMs, env);
    var endAfterCheck := FirstRaised(s2, opts, env, x);
    assert endAfterCheck ==
      if env.sigterm == Some(CheckingOutput) then Interrupted
      else if !env.outputWritable then OutputUnwritable
      else endAfterParse;
    var endAfterResolve := FirstRaised(s1, opts, env, x);
    assert endAfterResolve ==
      if env.sigterm == Some(Resolving) then Interrupted
      else if env.resolveRaises then OtherError
      else if ResolveInput(env.input, Supported(x)).Failure? then InvalidInput
      else endAfterCheck;
    var p1, p2 := Steps[..3][1..], Steps[..3][2..];
    assert p1[1..] == p2 && p2[1..] == [];
    assert p1[0] == Resolving && p2[0] == CheckingOutput;
    assert FirstRaised(p2, opts, env, x) == Ok <==> env.sigterm != Some(CheckingOutput) && env.outputWritable;
    assert FirstRaised(p1, opts, env, x) == Ok <==>
      env.sigterm != Some(Resolving) && !env.resolveRaises && ResolveInput(env.input, Supported(x)).Success? &&
      FirstRaised(p2, opts, env, x) == Ok;
  }

  /**
   * The inner `try`/`except` of `_run_engine`: the guarded steps, then the
   * except clause that catches what they raise. Starting from `initial`,
   * every way out reassigns the triple; `events` gains the input-validated
   * record exactly when the parse is reached.
   */
  method RunGuarded(opts: Options, env: Environment, x: Externals, initial: Outcome, events0: seq<Event>)
    returns (outcome: Outcome, events: seq<Event>)
    ensures outcome == Classify(BodyEnding(opts, env, x))
    ensures events == events0 + ValidatedEvents(opts, env, x)
  {
    var status, errorCode, exitCode := initial.status, initial.errorCode, initial.exitCode;
    events := events0;
    BodyEndingSteps(opts, env, x);

    // The guarded block; `ending` names the except clause that catches what it raises.
    var ending := Ok;
    label guarded: {
      if env.sigterm == Some(Validating) { ending := Interrupted; break guarded; }
      if opts.timeoutMs.Some? && opts.timeoutMs.value <= 0 { ending := InvalidInput; break guarded; }
      if opts.endPage.Some? && opts.startPage > opts.endPage.value { ending := InvalidInput; break guarded; }
      if env.sigterm == Some(Resolving) { ending := Interrupted; break guarded; }
      if env.resolveRaises { ending := OtherError; break guarded; }
      var inputPaths := ResolveInputPaths(env.input, x.pdfSuffixes, x.imageSuffixes);
      if inputPaths.Failure? { ending := InvalidInput; break guarded; }
      if env.sigterm == Some(CheckingOutput) { ending := Interrupted; break guarded; }
      if !env.outputWritable { ending := OutputUnwritable; break guarded; }
      events := events + Emit(opts.jsonl, "job.progress", opts.jobId, "running", 10, "Input validated", None,
                              Some(Documents(|inputPaths.value|)));
      if env.sigterm == Some(Parsing) { ending := Interrupted; break guarded; }
      if opts.timeoutMs.None? {
        if env.inlineParseRaises { ending := OtherError; break guarded; }
      } else {
        if env.worker.aliveAfterJoin { ending := TimedOut; break guarded; }
        var workerOk := false;  // the default result: not ok, E_ENGINE_FAILED
        if env.worker.result.Some? { workerOk := env.worker.result.value; }
        if !workerOk { ending := OtherError; break guarded; }
      }
      status, errorCode, exitCode := Succeeded, None, ExitCodes["succeeded"];
    }
    assert ending == BodyEnding(opts, env, x);

    // The except clauses.
    match ending {
      case Ok =>
      case InvalidInput =>
        status, errorCode, exitCode := Failed, Some(ErrorCodes["invalid_input"]), ExitCodes["invalid_input"];
      case OutputUnwritable =>
        status, errorCode, exitCode := Failed, Some(ErrorCodes["output_unwritable"]), ExitCodes["output_unwritable"];
      case Interrupted =>
        status, errorCode, exitCode := Cancelled, Some(ErrorCodes["cancelled"]), ExitCodes["cancelled"];
      case TimedOut =>
        status, errorCode, exitCode := Timeout, Some(ErrorCodes["timeout"]), ExitCodes["timeout"];
      case OtherError =>
        status, errorCode, exitCode := Failed, Some(ErrorCodes["engine_failed"]), ExitCodes["failed"];
    }
    outcome := Outcome(status, errorCode, exitCode);
  }

  /** `_run_engine`. */
  method RunEngine(opts: Options, env: Environment, x: Externals) returns (run: Run)
    ensures run.outcome == FinalOutcome(opts, env, x)
    ensures run.outcome.status == Succeeded <==> BodyEnding(opts, env, x) == Ok && env.manifestWritable
    ensures run.outcome.errorCode.None? <==> run.outcome.exitCode == 0
    ensures !env.manifestWritable ==> run.outcome == Outcome(Failed, Some("E_OUTPUT_UNWRITABLE"), 3)
    ensures run.manifest.Some? <==> env.manifestWritable
    ensures run.manifest.Some? ==> ManifestDescribes(run.manifest.value, run.outcome, opts, env, x)
    ensures run.events == ExpectedEvents(opts, env, x)
  {
    var initial := Initial();
    var events := Emit(opts.jsonl, "job.started", opts.jobId, "starting", 0, "Engine process started", None,
                       Some(Engine(opts.backend, opts.parseMethod)));
    var classified;
    classified, events := RunGuarded(opts, env, x, initial, events);
    var status, errorCode, exitCode := classified.status, classified.errorCode, classified.exitCode;
    ghost var ending := BodyEnding(opts, env, x);

    var artifacts := EmptyArtifacts;
    if status == Succeeded {
      artifacts := CollectArtifacts(env.outputTree);
    }
    var manifest := Manifest(status.Name(), errorCode, opts.outputDir, artifacts, x.engineVersion,
                             opts.backend, opts.parseMethod);

    var manifestWritten := env.manifestWritable;
    if !manifestWritten {
      status, errorCode, exitCode := Failed, Some(ErrorCodes["output_unwritable"]), ExitCodes["output_unwritable"];
    }
    var resultPath := if manifestWritten then Some(ResultPath(opts.outputDir)) else None;
    assert Outcome(status, errorCode, exitCode) == FinalOutcome(opts, env, x);

    if status == Succeeded {
      events := events + Emit(opts.jsonl, "job.succeeded", opts.jobId, "completed", 100, "Completed", None,
                              Some(ResultFile(resultPath)));
    } else if status == Cancelled {
      events := events + Emit(opts.jsonl, "job.cancelled", opts.jobId, "cancelled", 100, "Cancelled", errorCode,
                              Some(ResultFile(resultPath)));
    } else {
      events := events + Emit(opts.jsonl, "job.failed", opts.jobId, "failed", 100, "Engine failed", errorCode,
                              Some(ResultFile(resultPath)));
    }
    SuccessPurity(ending, manifestWritten);
    run := Run(Outcome(status, errorCode, exitCode), if manifestWritten then Some(manifest) else None, events);
  }

  /**
   * A non-positive timeout or an end page before the start page is invalid
   * input, found before the input is looked at and before any parsing starts,
   * whatever else is wrong with the run, unless SIGTERM interrupts validation itself.
   */
  lemma OptionsRejectedBeforeParse(opts: Options, env: Environment, x: Externals)
    requires !OptionsValid(opts) && env.sigterm != Some(Validating)
    ensures BodyEnding(opts, env, x) == InvalidInput
    ensures !ReachedParse(opts, env, x)
    ensures FinalOutcome(opts, env, x) ==
      if env.manifestWritable then Outcome(Failed, Some("E_INVALID_INPUT"), 2)
      else Outcome(Failed, Some("E_OUTPUT_UNWRITABLE"), 3)
  {
    BodyEndingSteps(opts, env, x);
  }

  /**
   * Success and a timeout can only come from the parse; a run that never
   * reaches it ends as invalid input, unwritable output, cancelled, or an
   * engine failure raised while the input was being resolved.
   */
  lemma EndingsBeforeAndAfterParse(opts: Options, env: Environment, x: Externals)
    ensures ReachedParse(opts, env, x) ==>
      BodyEnding(opts, env, x) == if env.sigterm == Some(Parsing) then Interrupted else ParseEnding(opts.timeoutMs, env)
    ensures !ReachedParse(opts, env, x) ==>
      BodyEnding(opts, env, x) in {InvalidInput, OutputUnwritable, Interrupted, OtherError}
    ensures !ReachedParse(opts, env, x) && BodyEnding(opts, env, x) == OtherError ==> env.resolveRaises
  {
    BodyEndingSteps(opts, env, x);
  }

  /** A timeout is reported only for a run with a positive timeout whose worker outlived the join. */
  lemma TimeoutOnlyFromWorker(opts: Options, env: Environment, x: Externals)
    requires BodyEnding(opts, env, x) == TimedOut
    ensures opts.timeoutMs.Some? && opts.timeoutMs.value > 0
    ensures env.worker.aliveAfterJoin
    ensures env.manifestWritable ==> FinalOutcome(opts, env, x) == Outcome(Timeout, Some("E_TIMEOUT"), 5)
  {
    BodyEndingSteps(opts, env, x);
  }

  /**
   * SIGTERM during the parse cancels a run that passed validation, whatever
   * the parse or the worker would have done.
   */
  lemma SigtermDuringParseCancels(opts: Options, env: Environment, x: Externals)
    requires ReachedParse(opts, env, x) && env.sigterm == Some(Parsing) && env.manifestWritable
    ensures FinalOutcome(opts, env, x) == Outcome(Cancelled, Some("E_CANCELLED"), 4)
  {
    EndingsBeforeAndAfterParse(opts, env, x);
  }

  /** The exit status alone tells a supervisor the run's status and error code. */
  lemma ExitCodeIdentifiesRun(opts: Options, env: Environment, x: Externals)
    ensures OutcomeOfExitCode(FinalOutcome(opts, env, x).exitCode) == Some(FinalOutcome(opts, env, x))
  {
    ExitCodeDeterminesOutcome(BodyEnding(opts, env, x), env.manifestWritable);
  }

  /**
   * With JSON-Lines output enabled, the stream opens with `job.started` at
   * progress 0 and holds exactly one terminal record, the last one, at
   * progress 100, carrying the run's error code (null on success) and the
   * manifest path, which is null exactly when the manifest was not written.
   * With it disabled, nothing is written.
   */
  lemma ExactlyOneTerminalEvent(opts: Options, env: Environment, x: Externals)
    ensures var events := ExpectedEvents(opts, env, x);
      var o := FinalOutcome(opts, env, x);
      (!opts.jsonl ==> events == []) &&
      (opts.jsonl ==>
        |events| >= 2 &&
        events[0].eventType == "job.started" && events[0].progress == 0 &&
        CountTerminal(events) == 1 &&
        IsTerminal(events[|events| - 1]) &&
        events[|events| - 1].progress == 100 &&
        events[|events| - 1].errorCode == o.errorCode &&
        (events[|events| - 1].payload.resultPath.None? <==> !env.manifestWritable))
  {
    var o := FinalOutcome(opts, env, x);
    SuccessPurity(BodyEnding(opts, env, x), env.manifestWritable);
    if opts.jsonl {
      var resultPath := if env.manifestWritable then Some(ResultPath(opts.outputDir)) else None;
      var started := Emit(opts.jsonl, "job.started", opts.jobId, "starting", 0, "Engine process started", None,
                          Some(Engine(opts.backend, opts.parseMethod)));
      var middle :=
        if ReachedParse(opts, env, x) then
          Emit(opts.jsonl, "job.progress", opts.jobId, "running", 10, "Input validated", None,
               Some(Documents(DocumentCount(env, x))))
        else [];
      var terminal := [TerminalEvent(opts.jobId, o.status, o.errorCode, resultPath)];
      assert ExpectedEvents(opts, env, x) == started + middle + terminal;
      assert CountTerminal(started) == 0;
      assert CountTerminal(middle) == 0;
      assert CountTerminal(terminal) == 1;
      CountTerminalAppend(started, middle);
      CountTerminalAppend(started + middle, terminal);
    }
  }
}
