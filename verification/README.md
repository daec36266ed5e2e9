# batchy, modelled in Dafny

This project models the core of batchy, a Ruby library that wraps a unit of
work (a "batch") in a persisted record. It covers three parts:

- **The batch state machine** (`lib/batchy/batch.rb`). `start` moves a batch
  from `new` to `running` (or `ignored`), and `finish` moves it from `running`
  to `success` or `errored`. The after-transition hooks stamp the timestamps,
  save the record and run the per-batch callback queues. The module also
  covers duplicate detection over the table of batches, the callback queues,
  and the class-level `Batch.run` that formats a caught exception into the
  error string.
- **The runner** (`lib/batchy.rb`). `Batchy.run` creates and starts a batch,
  names the process, links the batch to the current batch as its parent, makes
  it current and yields it. Afterwards it runs the success callbacks, or rescues
  any exception into `error` and runs the failure callbacks, and always finishes
  the batch. Finally it runs the ensure callbacks and restores the current batch
  and the process name. That is what the code is written to do; as written,
  `create` and the parent link cannot run (see "## Findings"), and module
  `AsWritten` models those lines as they stand. The module also covers
  `configure`, `clear_configuration`, `current`, `clean_expired` and
  `clean_expired!`.
- **The configuration** (`lib/batchy/configuration.rb`). Options are read with
  nil-coalescing defaults, and there are four append-only global callback lists.

Process-wide state is an explicit `World` record:

- the batch table, as a map from id to row plus the next id;
- the current batch (`@current`);
- the process name (`$0`);
- the memoised configuration;
- an abstract clock.

A block passed to `run` is a `Block` value: a straight-line script. It
registers callbacks on the yielded batch, assigns its error, observes
`Batchy.current` and makes nested `Batchy.run` calls. It ends by returning or
raising.

A callback either returns or raises a given exception, the same way every time
it is called. A registration without a block stores `nil`, and calling it
raises `NoMethodError`. Every run returns its new world and a trace of
observable events: each callback call, and each observation of the current
batch. Properties about ordering are stated over that trace.

Modules:

- `Callbacks`: queues and `run_*_callbacks`.
- `Configuration`: the configuration object.
- `Batches`: the record, the store, the state machine, duplicates and the error
  string.
- `Batchy`: the world, `run`, `Batch.run`, configuration access and the sweeps.
- `RunnerProofs` and `RunScenarios`: lemmas about whole runs.
- `AsWritten`: `Batch.create` and lines 88 and 111 of `lib/batchy.rb` as they
  stand, with lemmas comparing them with the intended behaviour.

### Where the code and its comments and specs disagree

The model follows the code, with four exceptions. The first three are the
places listed under "## Findings", where the code cannot run at all. For
those, module `AsWritten` models the code as it stands, and the rest of the
model uses the evidently intended behaviour. The fourth is gap (rollback)
under "## Left out": the model keeps a finished row that the event's
transaction would roll back when a callback raises.

- **No batch is ever ignored.** `multiples_allowed` always returns true
  (lib/batchy/batch.rb:69-71), so `start` always reaches `running`. The comment
  at lib/batchy/configuration.rb:11-16 promises that `allow_duplicates = false`
  ignores a duplicate, and spec/batchy_run_spec.rb:46-58 expects that. The
  option is never read.
- **Callback queues run twice.** The success or failure queue runs from `run`
  itself (lib/batchy.rb:99, lib/batchy.rb:103). It runs again from the
  `finish` hooks (lib/batchy/batch.rb:30-31). The ensure queue runs inside
  `finish!` (lib/batchy/batch.rb:32) and again at lib/batchy.rb:108.
- **A nil guid is a duplicate of a nil guid.** `duplicate_batches` compares
  guids with `where` (lib/batchy/batch.rb:58-63). spec/batch_spec.rb:194-200
  expects the opposite, and spec/batch_spec.rb:186-192 expects an error.
- **`raise_errors` is never read.** The comment at
  lib/batchy/configuration.rb:22-26 says the error is raised again when the
  option is set. `run` always swallows it (lib/batchy.rb:100-103).
- **Global callbacks are never dispatched.** The comment at
  lib/batchy/configuration.rb:51-54 says they are added to every batch on
  initialization. `create_callback_queues` (lib/batchy/batch.rb:105-109) starts
  every queue empty, and nothing else reads the global lists.
- **`finish!` from any state but `running` raises `InvalidTransition`.** Only
  `running` has a `finish` rule (lib/batchy/batch.rb:22-25).
- **The ignored transition has no hook.** No `after_transition` of
  lib/batchy/batch.rb:17-32 matches `new` to `ignored`. It stamps nothing and
  runs no callbacks.
- **The current batch and the process name are not restored on every exit
  path.** spec/process_spec.rb:36-42 and spec/batchy_nested_spec.rb:47-70
  expect them back after a run.
  - When a failure or ensure callback raises, the rest of the `ensure` clause
    (lib/batchy.rb:104-115) is skipped.
  - When `name_process` is on and the run has no name, `$0 = nil`
    (lib/batchy.rb:84) raises before the parent link is made. The current
    batch then becomes `nil`, even inside an outer run.
- **There is no `stopped` state, and no pid or hostname.**
  spec/batchy_run_spec.rb:27-34 expects `stopped`, and spec/process_spec.rb:8-13
  expects a pid. Neither is declared in lib/batchy/batch.rb.

## Model

| member | source | states |
|---|---|---|
| Configuration.NewConfig | lib/batchy/configuration.rb:4-9 | A new configuration has four empty global callback lists, and every getter returns its default: allow_duplicates true, raise_errors false, name_process true, allow_mass_sigkill false, prefix "[BATCHY]". |
| Configuration.SetAllowDuplicates | lib/batchy/configuration.rb:17-20 | After the setter, the getter returns the stored value exactly, including false. Storing nil restores the default (true). No other option or list changes. |
| Configuration.SetRaiseErrors | lib/batchy/configuration.rb:27-30 | The getter reads back a stored value. Nil gives the default (false). Everything else is unchanged. |
| Configuration.SetNameProcess | lib/batchy/configuration.rb:34-37 | The getter reads back a stored value. Nil gives the default (true). Everything else is unchanged. |
| Configuration.SetAllowMassSigkill | lib/batchy/configuration.rb:46-49 | The getter reads back a stored value. Nil gives the default (false). Everything else is unchanged. |
| Configuration.SetProcessNamePrefix | lib/batchy/configuration.rb:83-86 | The getter reads back a stored value. Nil gives the default "[BATCHY]". Everything else is unchanged. |
| Configuration.AddGlobalFailureCallback | lib/batchy/configuration.rb:57-60 | Appends exactly one entry at the end of the failure list. The old entries keep their order, and the other three lists and all options are unchanged. |
| Configuration.AddGlobalIgnoreCallback | lib/batchy/configuration.rb:63-66 | Appends exactly one entry at the end of the ignore list. Nothing else changes. |
| Configuration.AddGlobalSuccessCallback | lib/batchy/configuration.rb:69-72 | Appends exactly one entry at the end of the success list. Nothing else changes. |
| Configuration.AddGlobalEnsureCallback | lib/batchy/configuration.rb:76-79 | Appends exactly one entry at the end of the ensure list. Nothing else changes. |
| Callbacks.FirstRaise | lib/batchy/batch.rb:85-101 | Reference definition: the position of the first queue entry that raises when called. Every entry before it is quiet. |
| Callbacks.QuietIffNoFirstRaise | lib/batchy/batch.rb:85-101 | A queue has no raising entry exactly when FirstRaise is past its end. |
| Callbacks.RunQueue | lib/batchy/batch.rb:85-101 | Runs the entries in registration order, each with the batch. With no raising entry, every entry is called and nothing is raised. Otherwise the entries up to and including the first raising one are called, and its exception propagates. |
| Callbacks.RunQuietQueue | lib/batchy/batch.rb:85-101 | A queue whose entries all return runs to the end, one call per entry, in order. |
| Callbacks.CallEventsAppend | lib/batchy/batch.rb:85-101 | Calling the entries of two joined queues gives the calls of the first queue, then those of the second. |
| Batches.NewBatch | lib/batchy/batch.rb:49-52 | A new batch is in state `new`, unsaved, with the given attributes, three empty callback queues and a fresh id. |
| Batches.Create | lib/batchy.rb:78 | `create` saves the new batch in state `new` under a fresh id. It takes the attributes from the options, sets no parent, error or timestamp, and leaves every other row alone. |
| Batches.Save | lib/batchy.rb:95 | `save!` writes the batch's row under its id, keeps every other row, and keeps the table's invariant. |
| Batches.OnSuccess | lib/batchy/batch.rb:81-83 | Appends one entry to the success queue. The other queues and all attributes are unchanged. |
| Batches.OnFailure | lib/batchy/batch.rb:77-79 | Appends one entry to the failure queue. Nothing else changes. |
| Batches.OnEnsure | lib/batchy/batch.rb:73-75 | Appends one entry to the ensure queue. Nothing else changes. |
| Batches.DuplicateBatches | lib/batchy/batch.rb:58-63 | Gives exactly the running rows whose guid equals the batch's guid, nil included. Once the batch is saved, its own row is left out. |
| Batches.AlreadyRunningIff | lib/batchy/batch.rb:54-56 | `already_running` holds if and only if some other running row has the same guid. |
| Batches.NilGuidMatchesNilGuid | lib/batchy/batch.rb:58-63 | A guid-less batch counts a running guid-less row as a duplicate. |
| Batches.SavedTerminalLeavesDuplicates | lib/batchy/batch.rb:58-63 | Saving a row that is not running removes exactly that row from any batch's duplicates. |
| Batches.Fire | lib/batchy/batch.rb:11-25 | An event reaches the target of the first rule whose guard holds, and no earlier rule matches. It reaches none exactly when no rule matches. |
| Batches.StartTarget | lib/batchy/batch.rb:12-16 | `start` from `new` reaches `running` when multiples are allowed or no duplicate runs, and `ignored` otherwise. From any other state it reaches nothing. |
| Batches.FinishTarget | lib/batchy/batch.rb:22-25 | `finish` from `running` reaches `errored` if and only if an error is present, and `success` otherwise. From any other state it reaches nothing. |
| Batches.TransitionEffectsTable | lib/batchy/batch.rb:17-32 | Only new to running stamps `started_at`. Both terminal transitions stamp `finished_at` and save first, then run exactly one of the success and failure queues, then the ensure queue. new to ignored only saves its state. |
| Batches.Apply | lib/batchy/batch.rb:17-32 | Running hook effects never changes the id counter, keeps the table's invariant, and changes only the batch's timestamps and saved flag. |
| Batches.FireBang | lib/batchy/batch.rb:11-33 | A bang event changes only the batch's state, timestamps and saved flag, and keeps the table's invariant. |
| Batches.StartBang | lib/batchy/batch.rb:12-20 | `start!` from `new` always reaches `running`, because `multiples_allowed` is true. It saves the row with `started_at` stamped and runs no callback. |
| Batches.StartBangRefused | lib/batchy/batch.rb:12-16 | `start!` from any state but `new` raises InvalidTransition and changes nothing. |
| Batches.FinishBang | lib/batchy/batch.rb:22-32 | `finish!` from `running` does these steps in order. (1) It goes to errored exactly when an error is present. (2) It stamps `finished_at` and saves the row before any callback. (3) It runs the queue that matches the target. (4) Then it runs the ensure queue. A raising callback stops the rest and propagates. |
| Batches.FinishBangRefused | lib/batchy/batch.rb:22-25 | `finish!` from any state but `running` raises InvalidTransition and changes nothing. |
| Batches.ApplyTerminal | lib/batchy/batch.rb:26-32 | A terminal transition's hooks save the finished row, then run the outcome queue, then the ensure queue. |
| Batches.ParseFormatError | lib/batchy/batch.rb:42 | Round trip: when the message has no line break, the message and the joined backtrace can be read back from the formatted error string. |
| Batches.JoinedBacktraceIsOneLine | lib/batchy/batch.rb:42 | The backtrace joiner is the two characters backslash and n, not a line break. So backtrace lines without line breaks join into a single line. |
| Batches.FormattedErrorHasErrors | lib/batchy/batch.rb:42 | The formatted error string is never blank, so a batch holding it has errors. |
| Batchy.Configure | lib/batchy.rb:20-26 | `configure` returns the memoised configuration, created with all defaults on first use. Only the configuration slot of the world changes. |
| Batchy.ConfigureWith | lib/batchy.rb:20-26 | A block passed to `configure` updates the memoised configuration in place. |
| Batchy.ClearConfiguration | lib/batchy.rb:53-55 | `clear_configuration` forgets the configuration and changes nothing else. |
| Batchy.ConfigureMemoised | lib/batchy.rb:20-26 | Repeated `configure` calls return the same configuration, and the store, current batch and process name are untouched. |
| Batchy.ClearThenConfigure | lib/batchy.rb:53-55 | After `clear_configuration`, `configure` returns a fresh configuration: every option reads its default and all global lists are empty. |
| Batchy.ConfigureWithPersists | lib/batchy.rb:20-26 | Later `configure` calls return what a `configure` block set. |
| Batchy.Run | lib/batchy.rb:75-116 | A run's batch takes the next id. The id counter only grows, because nested runs take later ids, and the table's invariant is kept. |
| Batchy.AfterStart | lib/batchy.rb:78-80 | An ignored batch makes `run` return false without yielding. It runs no callback and leaves the world, including the current batch and `$0`, untouched. |
| Batchy.Enter | lib/batchy.rb:82-95 | Before `yield`, the process is named after the batch when configured. The batch's parent becomes the current batch only when there is one. The batch becomes current and is saved. |
| Batchy.Exec | lib/batchy.rb:97 | The block never changes its batch's id, state, parent, name or saved flag, and keeps the table's invariant. |
| Batchy.Rescue | lib/batchy.rb:97-103 | An exception from the block is stored as the error. After a normal return whose success callbacks all return, the batch is unchanged and nothing is pending. |
| Batchy.EnsureClause | lib/batchy.rb:104-115 | The `ensure` clause never reports the ignored outcome. It creates no row and keeps the table's invariant. |
| Batchy.Finalize | lib/batchy.rb:99-115 | The lines after `yield` create no row and keep the table's invariant. |
| Batchy.ClassRun | lib/batchy/batch.rb:36-46 | `Batch.run`'s batch takes the next id, and the table's invariant is kept. |
| Batchy.ClassRunBlock | lib/batchy/batch.rb:39-45 | The part after `start!` keeps the table's invariant. |
| Batchy.SignalEach | lib/batchy.rb:32-34 | Every given batch is signalled once, in order. |
| Batchy.CleanExpired | lib/batchy.rb:31-35 | `clean_expired` queries the expired batches once, then sends `kill` to each, once and in order. |
| Batchy.CleanExpiredBang | lib/batchy.rb:40-49 | Without `allow_mass_sigkill`, `clean_expired!` warns and returns false, and queries and kills nothing. Otherwise it sends `kill!` to each expired batch, once and in order. |
| RunnerProofs.RescueNormal | lib/batchy.rb:97-99 | After a normal return whose success callbacks all return, the `rescue` part only runs the success queue. |
| RunnerProofs.RescueThrew | lib/batchy.rb:100-103 | An exception from the block becomes the error, and then the failure queue runs. Its exception, if any, is left pending. |
| RunnerProofs.RescueSuccessRaised | lib/batchy.rb:99-103 | A raising success callback is rescued like an exception from the block: it becomes the error, and the failure queue runs after the success callbacks that did run. |
| RunnerProofs.EnsureClauseQuiet | lib/batchy.rb:104-115 | With no raising callback, the `ensure` clause does these steps. (1) It saves the row finished. (2) It runs the outcome queue and the ensure queue inside `finish!`. (3) It runs the ensure queue again. (4) It restores the current batch and `$0`. A pending exception then propagates. |
| RunnerProofs.EnsureClauseOutcomeRaises | lib/batchy.rb:104-106 | A callback of the final state's queue that raises inside `finish!` replaces any pending exception. The row is already saved finished, and the rest of the clause is skipped. |
| RunnerProofs.EnsureClauseEnsureRaises | lib/batchy.rb:104-108 | An ensure callback that raises inside `finish!` skips the explicit ensure run and the restore of the context. |
| RunnerProofs.FinalizeQuiet | lib/batchy.rb:97-115 | With no raising callback, the run completes whether or not the block raised. The callback order is: success-or-failure, then the final state's queue, then ensure inside `finish!`, then ensure again. The context is restored. |
| RunnerProofs.FinalizeFailureCallbackRaises | lib/batchy.rb:100-106 | A raising failure callback propagates out of `run`. The row is already saved `errored` with the block's exception. The failure callbacks up to the raising one run twice. The context is not restored. |
| RunnerProofs.FinalizeSuccessCallbackRaises | lib/batchy.rb:97-115 | A raising success callback's exception becomes the error, and the batch ends `errored`. The calls are the success callbacks up to the raising one, then the failure queue twice and the ensure queue twice. The run completes and restores the context. |
| RunnerProofs.FinalizeEnsureCallbackRaises | lib/batchy.rb:104-108 | An ensure callback that raises does so first inside `finish!`, after the final row is saved. The current batch and `$0` are not restored. |
| RunnerProofs.ExecSimple | lib/batchy.rb:97 | A block without nested runs leaves the world alone and emits only its observations. Its registrations are appended to the queues in order, and the batch keeps the last error the block set. |
| RunnerProofs.EnteredFacts | lib/batchy.rb:82-95 | Before `yield`, the batch is running, its parent is the batch current at the call, and it is the current batch. The configuration and the clock are unchanged. |
| RunnerProofs.RunStarts | lib/batchy.rb:78-80 | Every run gets through `create` and `start!` with its row `running` and `started_at` stamped. The ignored exit is never taken. |
| RunnerProofs.AfterStartEnter | lib/batchy.rb:80-97 | When the batch is not ignored and can name the process, the configuration is read, the context is entered, and the block runs. |
| RunnerProofs.EnterStarted | lib/batchy.rb:82-95 | Entering the context with the batch `start!` just saved links it to the current batch, makes it current and saves it. |
| RunnerProofs.AfterStartEnters | lib/batchy.rb:82-97 | After `start!`, a run that can name the process names it, links the parent, makes the batch current, saves it and yields it. |
| RunnerProofs.AfterStartNameless | lib/batchy.rb:83-84 | With `name_process` on and no name, `$0 = nil` raises a TypeError before the parent is linked, and the run goes straight to the `rescue` part. |
| RunnerProofs.RunEnters | lib/batchy.rb:78-97 | Every run that can name the process reaches `yield` with the entered batch and world. |
| RunnerProofs.RunBlockSimple | lib/batchy.rb:97-115 | For a block without nested runs whose callbacks return, the trace is the observations, then success-or-failure, the final state's queue, ensure and ensure again. The run completes and the context is restored. |
| RunnerProofs.FreshBlock | lib/batchy.rb:97-115 | The same, for a batch that starts with empty queues: each queue's calls are exactly the callbacks the block registered there. |
| RunnerProofs.FreshBlockSimple | lib/batchy.rb:97-115 | The same, for the batch `run` has just entered. The observations see the new batch as current, and the context goes back to the caller's. |
| RunnerProofs.EnteredWorldClosed | lib/batchy.rb:110-114 | Restoring the current batch and `$0` after the entered world leaves the caller's world with exactly one new row and the id counter advanced. |
| RunnerProofs.CompletesIffQuiet | lib/batchy/batch.rb:85-101 | A queue runs to completion if and only if none of its entries raises. |
| RunnerProofs.FinalizeUnregistered | lib/batchy.rb:100-115 | A batch without callbacks that is finished after an exception closes `errored` with that exception, and emits nothing. |
| RunnerProofs.FinishQuiet | lib/batchy/batch.rb:22-32 | `finish!` with all queues quiet closes the row and runs the outcome queue, then the ensure queue, in full. |
| RunnerProofs.FinishRecorded | lib/batchy/batch.rb:22-32 | `finish!` on a fresh batch after a calm block runs exactly the block's registrations for the target's queue, then those for ensure. |
| RunnerProofs.ClassRunBlockExec | lib/batchy/batch.rb:39-45 | In `Batch.run`, the block's observations come first, then `finish!` on the batch. An exception from the block is stored as its formatted string. |
| RunnerProofs.ClassRunBlockReturns | lib/batchy/batch.rb:39-45 | When the block returns, `finish!` alone closes the row, then runs the final state's queue and then the ensure queue, once each. |
| RunnerProofs.ClassRunBlockRaises | lib/batchy/batch.rb:41-44 | When the block raises, the formatted exception is stored and swallowed. The row ends `errored`, and the failure queue runs, then the ensure queue. |
| RunnerProofs.ClassStart | lib/batchy/batch.rb:37-38 | `Batch.new` followed by `start!` saves the row `running`, stamped, with no parent, and runs no callback. |
| RunnerProofs.ClassRunUnfold | lib/batchy/batch.rb:36-46 | Once `start!` succeeds, `Batch.run` is the rest of the method after `start!`'s events. |
| RunnerProofs.ClassRunStarts | lib/batchy/batch.rb:37-38 | `Batch.run` always gets past `start!`: the guid-less batch starts. |
| RunnerProofs.ExecCalm | lib/batchy.rb:97 | For a block whose callbacks return, at any nesting depth, these hold. (1) Every nested run completes. (2) The batch ends with the block's registrations and last error. (3) The current batch, `$0`, the configuration and the clock are as before. |
| RunnerProofs.RunBlockCalm | lib/batchy.rb:97-115 | From `yield` on, for a calm block whose queues stay quiet, the run completes. Its row is closed with the block's registrations and error, and with the block's exception as the error when it raised. The current batch becomes the batch's parent, `$0` is restored, and the configuration and the clock are unchanged. |
| RunnerProofs.RunCalm | lib/batchy.rb:75-116 | For calm nested runs of any depth, every run completes and restores the current batch and `$0`. Its row is closed with the caller's current batch as its parent. |
| RunScenarios.RunSimple | lib/batchy.rb:75-116 | The whole `Batchy.run` without nested runs adds exactly one closed row. The row's parent is the caller's current batch, and it ends errored when the block raised or left a non-blank error. The block sees the new batch as current. The calls are success-or-failure, the final state's queue, ensure, and ensure again. The context comes back unchanged. |
| RunScenarios.RunFailureCallbackRaises | lib/batchy.rb:100-106 | The whole run propagates the first raising failure callback's exception. The row is already saved `errored` with the block's exception, and the new batch is still current. |
| RunScenarios.NamelessRun | lib/batchy.rb:81-115 | With `name_process` on and no name, the block never runs. The row is closed `errored` with the TypeError, the run completes, and the current batch becomes nil. |
| RunScenarios.NamelessStarted | lib/batchy.rb:81-115 | The same, from the state `start!` leaves behind. |
| RunScenarios.NamelessAfterStart | lib/batchy.rb:81-115 | The same, for any started batch without a parent. |
| RunScenarios.ClassRunReturns | lib/batchy/batch.rb:36-46 | For a whole `Batch.run` whose block returns, `finish!` runs the final state's queue and then ensure, once each. The current batch and `$0` are untouched. |
| RunScenarios.ClassRunRaises | lib/batchy/batch.rb:36-46 | For a whole `Batch.run` whose block raises, the formatted exception is stored and swallowed, and the row ends `errored`. Failure then ensure run once each. The success queue never runs. |
| RunScenarios.RunEndState | lib/batchy.rb:97-106 | A calm run completes. Its row ends `errored`, holding the exception, when the block raised, and `run` swallows it. After a normal return, the row is `errored` exactly when the error the block left is present and not blank. |
| AsWritten.NewWithArgs | lib/batchy/batch.rb:49-52 | `Batch.new` refuses any argument with `ArgumentError`, because `initialize` declares none. Without arguments it builds an unsaved batch in state `new`, with no name, guid or expiry, under the next id. |
| AsWritten.CreateAsWritten | lib/batchy.rb:78 | As written, `Batch.create options` raises `ArgumentError` for every store and every set of options. |
| AsWritten.RunAsWritten | lib/batchy.rb:75-79 | As written, every `Batchy.run` raises `ArgumentError` at `create`. The world is untouched, nothing is called, and the block never runs. |
| AsWritten.RunNeverCreates | lib/batchy.rb:78 | For every input, the run as written leaves the table as it was and raises `ArgumentError`, while the intended run takes the next id, so its table's next id is strictly past the as-written one and the two results never agree. |
| AsWritten.ClassNewBuilds | lib/batchy/batch.rb:37 | `Batch.run` calls `new` with no argument, so it builds exactly the batch the model of `Batch.run` starts. |
| AsWritten.RunNoParent | lib/batchy.rb:75-116 | `Batchy.run` with the intended `create` but lines 88 and 111 as written. The batch takes the next id, and a run that starts while a batch is current leaves that batch current. |
| AsWritten.AfterStartNoParent | lib/batchy.rb:80-115 | After `start!`, every run that is not ignored raises. A batch that was current stays current. With none current, a run that can name the process leaves its own batch current. |
| AsWritten.EnterNoParent | lib/batchy.rb:83-95 | The process is named first. When a batch is current, `batch.parent =` raises `NoMethodError` before the batch becomes current or is saved. With no batch current, these lines do exactly what the intended `Enter` does. |
| AsWritten.RunBlockNoParent | lib/batchy.rb:97-115 | From `yield` on, the run as written always ends in an exception, and a current batch stays current. |
| AsWritten.ExecNoParent | lib/batchy.rb:97 | No nested run as written changes a current batch. |
| AsWritten.ExecNoParentSimple | lib/batchy.rb:97 | A block without nested runs behaves exactly as under the intended code. |
| AsWritten.FinalizeNoParent | lib/batchy.rb:99-115 | The lines after `yield`, as written, always end in an exception and change only the table. |
| AsWritten.EnsureClauseNoParent | lib/batchy.rb:104-115 | The `ensure` clause as written has the same calls and rows as the intended one. It never restores the current batch or `$0`. Where the intended clause completes, this one raises `NoMethodError` from `batch.parent`, and otherwise it raises what the intended clause raises or that `NoMethodError`. |
| AsWritten.FinalizeNoParentAgrees | lib/batchy.rb:99-115 | The lines after `yield` as written agree with the intended ones on calls and rows. They differ only in keeping the current batch and `$0`, and in raising `NoMethodError` where the intended code completes. |
| AsWritten.FinalizeNoParentUnregistered | lib/batchy.rb:100-115 | A started batch without callbacks, finished as written after an exception, is saved `errored` with that exception. Nothing is called, and `NoMethodError` from line 111 propagates. |
| AsWritten.AfterStartLinkRaises | lib/batchy.rb:86-89 | With a batch current, line 88 raises `NoMethodError` right after the process is named, and the run goes to the `rescue` part with it. |
| AsWritten.RunNoParentStarts | lib/batchy.rb:78-80 | The run as written gets through `create` and `start!` just as the intended run does. |
| AsWritten.NoParentNeverReturns | lib/batchy.rb:75-116 | As written, no `Batchy.run` returns normally: every run raises. A nested run leaves the outer batch current. An outermost run that can name the process leaves its own batch current. |
| AsWritten.NestedRunNeverYields | lib/batchy.rb:86-115 | A nested run as written never runs its block and calls nothing. Its row is saved `errored` with the `NoMethodError` of line 88. Then line 111 raises `NoMethodError`, the outer batch stays current, and `$0` keeps the inner run's name. |
| AsWritten.NestedStarted | lib/batchy.rb:86-115 | The same, from the state `start!` leaves behind. |
| AsWritten.NestedAfterStart | lib/batchy.rb:86-115 | The same, for any started batch without callbacks. |
| AsWritten.RunBlockNoParentSimple | lib/batchy.rb:97-115 | For a block without nested runs, `yield` and what follows as written have the intended calls and rows. They keep the current batch and `$0`, and they raise `NoMethodError` where the intended code completes. |
| AsWritten.RunNoParentEnters | lib/batchy.rb:78-97 | With no batch current, the run as written reaches `yield` in the same world and with the same batch as the intended run. |
| AsWritten.OuterRunNoParent | lib/batchy.rb:75-116 | Take an outermost run of a calm block without nested runs. The intended run completes and gives back the current batch (`nil`) and `$0`. The run as written makes the same calls and writes the same rows, but raises `NoMethodError` from line 111. Its own batch stays current, and `$0` keeps its name. |

## Findings

| source | as written | input that shows it | evidently intended | confidence | as-written member | corrected member |
|---|---|---|---|---|---|---|
| lib/batchy/batch.rb:49-52 | `initialize` declares no parameters, so `Batch.create options` (lib/batchy.rb:78) raises `ArgumentError`. `Batchy.run` never creates a row or runs its block. | `Batchy.run(:name => 'test') { }` | `create` saves a batch built from the options, as spec/process_spec.rb:5 and spec/batchy_run_spec.rb:4-8 expect | high; not executed | AsWritten.RunAsWritten | Batches.Create |
| lib/batchy.rb:88 | `Batch` declares no `parent` association, so `batch.parent = Batchy.current` raises `NoMethodError` in every nested run, before the block runs. | `Batchy.run(:name => 'a') { Batchy.run(:name => 'b') { } }` | the inner batch records the outer one as its parent and runs, as spec/batchy_nested_spec.rb:32-45 expects | high; not executed | AsWritten.EnterNoParent | Batchy.Enter |
| lib/batchy.rb:111 | `batch.parent` raises `NoMethodError` at the end of every run that reaches it. The current batch and `$0` are never restored, and the run never returns normally. | `Batchy.run(:name => 'test') { }` | the current batch goes back to the parent and `$0` to its old value, as spec/batchy_nested_spec.rb:63-70 and spec/process_spec.rb:36-42 expect | high; not executed | AsWritten.EnsureClauseNoParent | Batchy.EnsureClause |

## Left out

- Persistence is a map from id to row. ActiveRecord transactions, `reload`, validations and the SQL of `where` are not modelled.
- `$0` is a string slot of the world. The operating system's process table, `Process`, pid and hostname capture are not modelled.
- `DateTime.now` is an abstract clock value passed in with the world. It does not advance within a run.
- `kill`, `kill!` and `Batch.expired` are not defined in `lib/batchy/batch.rb`. The sweeps take the expired batches as an input list, and signals are recorded as events.
- `Kernel.warn` and the logger are recorded as a `Warned` event at most.
- The Rails generators and the migration template carry no behaviour.
- The `stopped` state, `StoppedError`, `on_ignore`, global-callback dispatch and process-name prefixing are absent from this code and are not modelled. The prefix option is stored but never used.
- Callback bodies are not modelled. A callback returns or raises the same exception every time, and what it does to the batch or the world is not modelled.
- RunScenarios.RunSimple, RunScenarios.ClassRunReturns, RunScenarios.ClassRunRaises and RunScenarios.NamelessRun describe whole runs only for blocks without nested runs. Nested runs of any depth are covered by RunnerProofs.RunCalm and RunScenarios.RunEndState, which state the outcome, the restored context and the final row rather than the full trace.
- RunnerProofs.RunCalm: requires every callback to return. A raising callback inside a nested run is covered only for one level, by the Finalize* and EnsureClause* lemmas.
- Batches.Blank: counts only ASCII whitespace as blank, unlike ActiveSupport, which also treats Unicode whitespace as blank.
- Exception messages use the texts of Ruby's `TypeError` and `NoMethodError` for illustration. Nothing depends on their exact wording.

Four gaps recur in the lines below. The first three are recorded under
"## Findings" and modelled as written in module `AsWritten`.

- Gap (create): `initialize` takes no arguments (lib/batchy/batch.rb:49-52), so `Batch.create options` (lib/batchy.rb:78) raises `ArgumentError` before any row exists. AsWritten.RunAsWritten models that.
- Gap (link): `Batch` has no `parent` association, so `batch.parent =` (lib/batchy.rb:88) raises `NoMethodError` whenever a batch is current. AsWritten.EnterNoParent models that.
- Gap (restore): `batch.parent` (lib/batchy.rb:111) raises `NoMethodError`, so the current batch and `$0` stay as they were and the run raises. AsWritten.EnsureClauseNoParent models that.
- Gap (rollback): the ActiveRecord integration of state_machine runs an event's save and its `after_transition` hooks (lib/batchy/batch.rb:26-32) in one transaction. A callback that raises inside `finish!` therefore rolls the finished row back, and only the in-memory batch keeps the new state. Transactions are not modelled, so the model keeps the row written. spec/batchy_run_spec.rb:221-237 expects the reloaded row to be `errored`, as the model has it.

- Batches.NewBatch: builds the batch from the options, as `create` is meant to; as written, `Batch.new(options)` raises `ArgumentError` (gap (create)), which AsWritten.NewWithArgs models.
- Batches.Create: states the intended `create`, not gap (create).
- Batches.FinishBang: states the finished row kept although the callback raised, not gap (rollback).
- Batchy.Run: states the intended `create`, not gap (create); the intended parent link, not gap (link); the intended restore, not gap (restore).
- Batchy.Enter: states the intended parent link, not gap (link).
- Batchy.EnsureClause: states the intended restore, not gap (restore).
- RunnerProofs.EnsureClauseQuiet: states the intended restore, not gap (restore).
- RunnerProofs.EnsureClauseOutcomeRaises: states the finished row kept although the callback raised, not gap (rollback).
- RunnerProofs.EnsureClauseEnsureRaises: states the finished row kept although the callback raised, not gap (rollback).
- RunnerProofs.FinalizeQuiet: states the intended restore, not gap (restore).
- RunnerProofs.FinalizeFailureCallbackRaises: states the finished row kept although the callback raised, not gap (rollback).
- RunnerProofs.FinalizeSuccessCallbackRaises: states the intended restore, not gap (restore).
- RunnerProofs.FinalizeEnsureCallbackRaises: states the finished row kept although the callback raised, not gap (rollback).
- RunnerProofs.EnteredFacts: states the intended parent link, not gap (link).
- RunnerProofs.RunStarts: states the intended `create`, not gap (create).
- RunnerProofs.AfterStartEnter: states the intended parent link, not gap (link).
- RunnerProofs.EnterStarted: states the intended parent link, not gap (link).
- RunnerProofs.AfterStartEnters: states the intended parent link, not gap (link).
- RunnerProofs.RunEnters: states the intended `create`, not gap (create); the intended parent link, not gap (link).
- RunnerProofs.RunBlockSimple: states the intended restore, not gap (restore).
- RunnerProofs.FreshBlock: states the intended restore, not gap (restore).
- RunnerProofs.FreshBlockSimple: states the intended restore, not gap (restore).
- RunnerProofs.EnteredWorldClosed: states the intended restore, not gap (restore).
- RunnerProofs.FinalizeUnregistered: states the intended restore, not gap (restore).
- RunnerProofs.ExecCalm: states the intended parent link, not gap (link); the intended restore, not gap (restore).
- RunnerProofs.RunBlockCalm: states the intended restore, not gap (restore).
- RunnerProofs.RunCalm: states the intended `create`, not gap (create); the intended parent link, not gap (link); the intended restore, not gap (restore).
- RunScenarios.RunSimple: states the intended `create`, not gap (create); the intended parent link, not gap (link); the intended restore, not gap (restore).
- RunScenarios.RunFailureCallbackRaises: states the intended `create`, not gap (create); the intended parent link, not gap (link); the finished row kept although the callback raised, not gap (rollback).
- RunScenarios.NamelessRun: states the intended `create`, not gap (create); the intended restore, not gap (restore).
- RunScenarios.NamelessStarted: states the intended restore, not gap (restore).
- RunScenarios.NamelessAfterStart: states the intended restore, not gap (restore).
- RunScenarios.RunEndState: states the intended `create`, not gap (create); the intended parent link, not gap (link); the intended restore, not gap (restore).
