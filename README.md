# MinerU desktop batch engine: outcome contract model

This project is a Dafny model of `mineru/cli/desktop_engine.py`, the batch entry point that a
desktop supervisor starts as a child process. One run of the engine does the following:

- it validates its options;
- it resolves the input (one file, or the supported documents in a directory);
- it checks that the output directory can be written;
- it parses the documents, either in process or, when a timeout is set, in a worker process
  that it joins with that timeout;
- it maps the way all of that ended to a fixed triple (status, error code, exit code);
- it writes `result.json`, and a failure to write it overrides the triple;
- it closes its JSON-Lines progress stream with exactly one terminal record and returns the exit code.
  A run that raises outside the guarded steps ends with a traceback instead; see "Left out".

Modules:

- `Wrappers`: `Option` (Python's `None`) and `Result`.
- `EngineContract`: the `EXIT_CODES`/`ERROR_CODES` tables; the endings of a run; their
  classification; the manifest-write override; the exit-code table read backwards.
- `Events`: the `_emit_event` record and the choice of the terminal record.
- `PathOrder`: Python's string order and `sorted` on path lists.
- `InputPaths`: `_resolve_input_paths`.
- `Artifacts`: `_collect_artifacts`.
- `DesktopEngine`: `_run_engine` as an imperative method. Its try/except is a labelled block
  that each raise leaves with `break`, followed by the except clauses. The method is proved
  against a declarative specification: the steps run in order, and the first step that
  SIGTERM interrupts or that raises decides how the run ends.

Everything the run observes of the operating system is an input of type `Environment`:
- what the input path is on disk, and the suffix content sniffing reports for each directory entry;
- whether probing or listing the input raises an ordinary exception;
- whether the output directory accepts a test file;
- whether the in-process parse raises;
- whether the worker is alive after the join, and what it left on the queue;
- the step during which SIGTERM arrives;
- the recursive listing of the output directory;
- whether `result.json` can be written.

## Model

| member | source | states |
|---|---|---|
| `EngineContract.Initial` | mineru/cli/desktop_engine.py:267-269 | the triple a run starts from is the one an unexpected exception would be classified as, and it is not a success: a non-null error code and a non-zero exit code |
| `EngineContract.Classify` | mineru/cli/desktop_engine.py:380-402 | each ending's triple: success (succeeded, null, 0); invalid input (failed, E_INVALID_INPUT, 2); unwritable output (failed, E_OUTPUT_UNWRITABLE, 3); KeyboardInterrupt (cancelled, E_CANCELLED, 4); timeout (timeout, E_TIMEOUT, 5); any other exception (failed, E_ENGINE_FAILED, 1) |
| `EngineContract.Settle` | mineru/cli/desktop_engine.py:435-439 | a written manifest leaves the triple unchanged; an unwritten one makes it the unwritable-output triple |
| `EngineContract.OutcomeOfExitCode` | mineru/cli/desktop_engine.py:22-37 | the inverse table is defined exactly on codes 0..5 and gives back the code it was asked for |
| `EngineContract.SuccessPurity` | mineru/cli/desktop_engine.py:380-402 | status succeeded, a null error code and exit code 0 hold together, and exactly when the run ended normally and its manifest was written |
| `EngineContract.ExitCodeDeterminesOutcome` | mineru/cli/desktop_engine.py:22-37 | every reported exit code is in 0..5, and the inverse table maps it back to the full reported triple |
| `EngineContract.ClassifyInjective` | mineru/cli/desktop_engine.py:22-29 | different endings get different exit codes |
| `EngineContract.OverrideTakesPrecedence` | mineru/cli/desktop_engine.py:435-439 | with no manifest written, every ending is reported alike, as (failed, E_OUTPUT_UNWRITABLE, 3), the same triple as an unwritable output directory found inside the guarded block |
| `EngineContract.CancelledNeverSucceeds` | mineru/cli/desktop_engine.py:391-398 | an interrupted run never reports success; a timeout with its manifest written is (timeout, E_TIMEOUT, 5) |
| `EngineContract.ReportableIsExitTable` | mineru/cli/desktop_engine.py:22-37 | the triples a run can report are exactly the six rows of the exit-code table |
| `PathOrder.LessEqReflexive` | mineru/cli/desktop_engine.py:100-109 | the string order used by `sorted` is reflexive |
| `PathOrder.LessEqTotal` | mineru/cli/desktop_engine.py:100-109 | any two strings are comparable |
| `PathOrder.LessEqAntisymmetric` | mineru/cli/desktop_engine.py:100-109 | strings that are each `<=` the other are equal |
| `PathOrder.LessEqTransitive` | mineru/cli/desktop_engine.py:100-109 | the string order is transitive |
| `PathOrder.BelowRest` | mineru/cli/desktop_engine.py:100-109 | in a sorted list, a string is `<=` every element from the first one that is not `<=` it |
| `PathOrder.InsertedSorted` | mineru/cli/desktop_engine.py:100-109 | a string placed after the elements `<=` it and before the rest leaves the list sorted |
| `PathOrder.Insert` | mineru/cli/desktop_engine.py:100-109 | inserting into a sorted list keeps it sorted and adds exactly the new element |
| `PathOrder.SortPaths` | mineru/cli/desktop_engine.py:100-109 | `sorted` returns a sorted permutation of its input |
| `PathOrder.SortedHeadsEqual` | mineru/cli/desktop_engine.py:100-109 | two sorted permutations of one non-empty list start with the same element |
| `PathOrder.TailsPermutation` | mineru/cli/desktop_engine.py:100-109 | dropping equal heads from two permutations of each other leaves permutations |
| `PathOrder.SortedPermutationUnique` | mineru/cli/desktop_engine.py:100-109 | two sorted permutations of the same list are equal, so the sorted result is determined |
| `InputPaths.SupportedPaths` | mineru/cli/desktop_engine.py:139-142 | the filtered list is no longer than the directory listing |
| `InputPaths.SupportedPathsMembers` | mineru/cli/desktop_engine.py:139-142 | a path is kept exactly when some entry carrying it has a supported suffix |
| `InputPaths.SupportedPathsSnoc` | mineru/cli/desktop_engine.py:140-142 | each loop iteration appends the entry's path exactly when its suffix is supported |
| `InputPaths.ResolveInput` | mineru/cli/desktop_engine.py:134-147 | invalid input exactly for a missing path or a directory with no supported entry; a directory gives its supported entries (at least one); any other path gives a one-element list |
| `InputPaths.ResolveInputPaths` | mineru/cli/desktop_engine.py:134-147 | the append loop computes `ResolveInput` over the pdf and image suffixes; every returned path is the input file or a supported directory entry |
| `Artifacts.Matching` | mineru/cli/desktop_engine.py:100-109 | a path is selected exactly when it is listed and ends with the category's pattern suffix |
| `Artifacts.FilledMapCollected` | mineru/cli/desktop_engine.py:91-109 | the four-key map, each key overwritten with the sorted selection of its pattern, is what collection promises |
| `Artifacts.CollectArtifacts` | mineru/cli/desktop_engine.py:90-110 | the map has exactly the four category keys, each list a sorted permutation of the matching paths; with no output directory all four are empty |
| `Artifacts.CollectedFromUnique` | mineru/cli/desktop_engine.py:100-109 | the collected artifact map is determined by the output listing alone |
| `Events.Emit` | mineru/cli/desktop_engine.py:64-87 | disabled output writes no record; enabled output writes exactly one record carrying the given type, job id, stage, progress, message and error code, and `{}` for a missing payload |
| `Events.TerminalEvent` | mineru/cli/desktop_engine.py:444-476 | the terminal record is at progress 100 and carries the result path: `job.succeeded` (stage completed, message Completed, null error code) exactly for succeeded; `job.cancelled` (stage and message cancelled) exactly for cancelled; `job.failed` (stage failed, message Engine failed) exactly for failed and timeout, both with the run's error code |
| `Events.CountTerminal` | mineru/cli/desktop_engine.py:444-476 | the count of terminal records is zero exactly when no record is terminal |
| `DesktopEngine.WorkerEnding` | mineru/cli/desktop_engine.py:354-372 | a worker alive after the join is a timeout, even if it left a result; otherwise success exactly when it left an `ok` result, and a missing result is an engine failure |
| `DesktopEngine.OptionsValid` | mineru/cli/desktop_engine.py:295-298 | options with neither a timeout nor an end page are valid; a timeout ≤ 0 or an end page before the start page makes them invalid |
| `DesktopEngine.ParseEnding` | mineru/cli/desktop_engine.py:314-372 | without a timeout the parse runs in process and succeeds exactly when it does not raise; with one, the ending is the worker's; a timeout only when a timeout was set |
| `DesktopEngine.StepRaises` | mineru/cli/desktop_engine.py:293-372 | a step raises neither success nor KeyboardInterrupt on its own; validation raises invalid input exactly for invalid options; the output check raises unwritable output exactly when the directory cannot be written |
| `DesktopEngine.FirstRaised` | mineru/cli/desktop_engine.py:293-402 | steps run in order end normally exactly when none is interrupted and none raises; an interruption implies SIGTERM arrived during one of them |
| `DesktopEngine.BodyEnding` | mineru/cli/desktop_engine.py:293-402 | without SIGTERM the block is never cancelled; a normal end implies valid options, an input that resolves without raising, and a writable output directory |
| `DesktopEngine.FinalOutcome` | mineru/cli/desktop_engine.py:380-439 | the reported triple has a null error code exactly when it is a success, exit code 0 exactly then, and its exit code maps back to it |
| `DesktopEngine.ResultPath` | mineru/cli/desktop_engine.py:442 | the manifest path extends the output directory, ends in `/result.json`, and adds a separator when the directory does not end with one, and appends `result.json` directly when it does (the root) |
| `DesktopEngine.ValidatedEvents` | mineru/cli/desktop_engine.py:303-312 | the input-validated record (progress 10, not terminal) is written exactly when JSON-Lines output is on and the parse is reached |
| `DesktopEngine.ExpectedEvents` | mineru/cli/desktop_engine.py:282-476 | a run writes no record with JSON-Lines off; otherwise three records if it reached the parse and two if not, opening with `job.started` and the backend and method, then the input-validated record with the document count |
| `DesktopEngine.ManifestDescribes` | mineru/cli/desktop_engine.py:411-433 | a described manifest has exactly the four artifact keys, and every list is empty unless the run succeeded |
| `DesktopEngine.BodyEndingSteps` | mineru/cli/desktop_engine.py:293-379 | the declarative "first step that raises" ending equals the checks in source order; the parse starts exactly when validation, resolution and the output check all complete uninterrupted |
| `DesktopEngine.RunGuarded` | mineru/cli/desktop_engine.py:293-402 | the guarded steps and their except clauses leave the triple of the block's classified ending, and add the input-validated record exactly when the parse is reached |
| `DesktopEngine.RunEngine` | mineru/cli/desktop_engine.py:245-478 | starts from the initial triple and returns the classified and overridden one; success exactly when the block ended normally and the manifest was written; a null error code exactly with exit code 0; an unwritten manifest forces (failed, E_OUTPUT_UNWRITABLE, 3); a manifest exactly when it could be written, and that manifest carries the final status and error code and holds artifacts only on success; the JSON-Lines records are the started, validated and terminal records |
| `DesktopEngine.OptionsRejectedBeforeParse` | mineru/cli/desktop_engine.py:295-298 | a timeout ≤ 0, or an end page before the start page, is invalid input (exit 2, or 3 if the manifest fails), found before the input is resolved or any parse starts |
| `DesktopEngine.EndingsBeforeAndAfterParse` | mineru/cli/desktop_engine.py:293-402 | once the parse is reached, the run ends as the parse does unless SIGTERM arrives during it; a run that never reaches it is invalid input, unwritable output, cancelled, or an engine failure, and the last only when resolving the input raised |
| `DesktopEngine.TimeoutOnlyFromWorker` | mineru/cli/desktop_engine.py:353-358 | a timeout is reported only with a positive timeout and a worker alive after the join, as (timeout, E_TIMEOUT, 5) |
| `DesktopEngine.SigtermDuringParseCancels` | mineru/cli/desktop_engine.py:391-394 | SIGTERM during the parse of a validated run reports (cancelled, E_CANCELLED, 4), whatever the parse would have done |
| `DesktopEngine.ExitCodeIdentifiesRun` | mineru/cli/desktop_engine.py:435-439 | the exit code of any run, override included, maps back through the inverse table to its full triple |
| `DesktopEngine.ExactlyOneTerminalEvent` | mineru/cli/desktop_engine.py:441-476 | with JSON-Lines enabled: the stream starts with `job.started` at 0 and has exactly one terminal record, the last, at 100, with the run's error code; its `resultPath` is null exactly when the manifest was not written. With JSON-Lines disabled, no records |

## Left out

- Timestamps (`ts`, `startedAt`, `endedAt`) and the float-derived `durationMs` are clock and floating-point work and are not modelled.
- The worker process spawn, join, terminate and the result queue are concurrency and OS processes. Only what the engine observes of them is modelled: alive after the join, and the `ok` flag of the queued result, if any.
- The worker's reported error code is not modelled. The source discards it: the EngineContractError carrying it is caught by the generic `except Exception` clause, so a failed worker always reads as E_ENGINE_FAILED.
- SIGTERM handler installation and restoration are signal effects. The model assumes the handler is installed. A SIGTERM is modelled only while the guarded block runs, as a KeyboardInterrupt raised in one of its steps. A signal after the block, when the previous handler is back in place, is not modelled.
- Exceptions outside `Exception` other than KeyboardInterrupt (for example SystemExit) propagate out of the engine and are not modelled. So are failures of the JSON-Lines write itself.
- `_set_runtime_env`, `read_fn`, `do_parse` and `guess_suffix_by_path` call code that is not part of this model. The parse is an input: it raises or it does not. Each directory entry carries the suffix that sniffing reports.
- `pdf_suffixes`, `image_suffixes` (from `common.py`) and the engine version (from `version.py`) are not part of this model. They are parameters.
- Filesystem work is an input: the result of `expanduser().resolve()` (its failures are covered below), the `mkdir` and write test, `glob`/`rglob`, and writing `result.json`. Paths are joined with `/`: a separator is added unless the directory already ends with one, which a resolved path does only at the root. Windows separators and drive roots are not modelled. File-name matching is case-sensitive, as on POSIX.
- The click command-line layer and `json.dumps` are argument parsing and I/O. The options the parser alone consumes are not modelled: formula, table, device, vram, model source, server url and language.
- `InputPaths.SupportedPaths`: its own contract only bounds the length; its membership property is stated by `InputPaths.SupportedPathsMembers`.
- `DesktopEngine.ExactlyOneTerminalEvent`: its guarantee, a stream that opens with `job.started` and closes with one terminal record, holds only for runs that raise nothing outside the guarded steps. Three kinds of run escape `_run_engine` with an uncaught exception and exit status 1, and the model does not capture them:
  - `expanduser()` or `resolve()` raises at lines 265-266, before the `job.started` record at line 282. Examples are an unknown user in `~user` and a symlink loop. Such a run writes no record and no manifest.
  - SIGTERM arrives while the handler is installed but outside the guarded steps: between lines 278 and 292, or inside an except body at lines 380-402. The KeyboardInterrupt is not caught, so no manifest and no terminal record are written.
  - `_collect_artifacts` raises (lines 97-109, called at line 412 after the try). The run writes no manifest and no terminal record.
- `DesktopEngine.RunEngine`: it models only runs that reach the end of `_run_engine`. The three uncaught-exception cases under `DesktopEngine.ExactlyOneTerminalEvent` are not modelled, so for them the exit code 1, the missing manifest and the missing terminal record are not captured.
- Manifest keys: the artifact dictionary is a map keyed by `Category`; `Category.Key` gives the JSON key name of each.
