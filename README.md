# sweep: the table sweeper's run loop, modelled in Dafny

`sweep` clears down a database table in slices. `New` builds a sweeper from a
database handle and a `Config`. `Sweep` is the blocking run loop. At its idle
point the loop waits on an outer `select` for one of two things:

- a request on `Done`, which makes it return;
- a tick of the `Interval` ticker, which starts a *campaign*.

A campaign is the inner loop, paced by an `IncrementInterval` ticker. Each
batch does three things in order:

1. calls `DeleteFunc` for a statement and its arguments;
2. executes the statement;
3. reads the rows-affected count.

An exec error or a count error is sent on the `Errors` sink and ends the
campaign. Otherwise the count is sent on the `Affected` sink, and a count of
zero ends the campaign. A campaign always ends back at the idle point. The
helpers `sendError` and `sendAffected` send only when their sink is not nil.

The project has three modules:

- `SweepModel` (model.dfy) is the pure specification. The database is an
  oracle: a finite sequence of `BatchOutcome`s (`ExecErr`, `CountErr`,
  `Rows(count)`), one for each executed statement. The outer `select` is a
  finite sequence of `Event`s (`Tick`, `Stop`).
  - `CampaignOf` says what one campaign consumes and reports.
  - `StepOf` says what one pass of the select does.
  - `LoopOf` and `SweepOf` describe a whole run, together with where the run
    stopped.
- `Sweep` (sweep.dfy) is the imperative program.
  - Channels are `Chan<T>` objects whose `Send` appends to a log. A nil
    channel is a null reference.
  - `DB` answers `Exec` from its script through a cursor.
  - `DeleteFunc` counts its calls.
  - `Sweeper` has the struct's fields. `New` is its constructor. `Sweep`
    runs the outer loop, and `Drain` runs the inner loop through `Batch`.
  - Each method is proved against the model function for its loop. After a
    run, what a caller can observe (execs answered, delete-function calls and
    the two sink logs) is the old observation extended by that run.
- `SweepScenarios` (scenarios.dfy) drives the three tests of sweep_test.go
  through `New` and `Sweep`, plus two more runs.

A finite run stops in one of four ways:

- `Returned`: a stop request was read at the idle point.
- `Waiting`: the events ran out at the idle point.
- `Draining`: the outcomes ran out inside a campaign. In Go the inner loop
  would go on ticking.
- `Panicked`: Go's `time.NewTicker` panics on a non-positive duration, and a
  call of a nil `DeleteFunc` panics. A nil `DeleteFunc` is a caller error;
  the model gives it the panic Go has.

## Model

| member | source | states |
|---|---|---|
| SweepModel.CampaignOf | sweep.go:49-68 | a campaign consumes at most the outcomes it is given, and one that ended ran at least one batch |
| SweepModel.CampaignShape | sweep.go:49-68 | a campaign ends exactly at its first outcome that is an error or a zero count; every earlier batch deleted a non-zero count; a campaign that does not end consumes every outcome |
| SweepModel.CampaignReports | sweep.go:53-62 | a campaign sends the count of each successful batch it consumed on the affected sink and the error of each failed one on the error sink, in order, and nothing else |
| SweepModel.DrainsToZero | sweep.go:49-67 | counts a1..an, non-zero except an == 0: the campaign runs exactly n batches, reports a1..an with the zero included, and no error |
| SweepModel.ExecErrorEndsCampaign | sweep.go:51-55 | after k productive batches a failing exec is reported once as an error, no count is reported for it, and the campaign ends after k + 1 batches |
| SweepModel.CountErrorEndsCampaign | sweep.go:57-61 | after k productive batches a rows-affected error is reported once, no count is reported for it, and the campaign ends after k + 1 batches |
| SweepModel.AtMostOneError | sweep.go:51-62 | a campaign reports at most one error, exactly when it ended on a failed batch, and each batch reports exactly one value |
| SweepModel.StepOf | sweep.go:45-69 | one pass of the select reads exactly one event and consumes no more outcomes than there are |
| SweepModel.StepShape | sweep.go:45-68 | a pass returns exactly on a stop request; it panics exactly on a tick when the increment interval is not positive or the delete function is nil, and then runs no batch; it is back at the idle point exactly on a tick whose outcomes hold one that ends the campaign; it is left draining only when it used up every outcome |
| SweepModel.LoopOf | sweep.go:44-70 | the outer loop reads no more events and consumes no more outcomes than it is given |
| SweepModel.LoopReturns | sweep.go:44-70 | the run loop returns exactly when the last event it read is a stop request, and no earlier event it read is one: errors and zero counts never make it return |
| SweepModel.LoopShape | sweep.go:44-70 | a run waits at the idle point only when the events ran out, drains only when the outcomes ran out, and panics only when a campaign cannot reach its first batch, in which case no batch ever runs |
| SweepModel.SweepOf | sweep.go:42-71 | a whole call of Sweep reads no more events and consumes no more outcomes than it is given |
| SweepModel.SweepPanics | sweep.go:43 | the interval ticker is made before the first event: a non-positive interval panics with nothing read, run or reported; otherwise the run panics exactly when a campaign cannot reach its first batch and a tick was read |
| SweepModel.StepReports | sweep.go:45-68 | one pass reports each consumed outcome on its own sink, in order, and nothing else |
| SweepModel.LoopReports | sweep.go:44-70 | a whole run reports each outcome it consumed exactly once on its own sink, in order, and nothing else |
| SweepModel.StopAtIdle | sweep.go:46-47 | a stop request at the idle point returns at once, with no batch and no report |
| SweepModel.StopWaitsForCampaign | sweep.go:45-68 | a stop request that follows a tick is read only after that campaign ended; if the campaign never ends, the stop request is never read |
| SweepModel.CampaignReturnsToIdle | sweep.go:44-70 | a campaign that ends, on an exec error, a count error or a zero count, after any number of productive batches, puts the loop back at the idle point; the run goes on with the next event and the outcomes after the campaign |
| Sweep.CampaignPanics | sweep.go:49-50 | Config.CanDrain is false exactly when the increment interval is not positive or the delete function is nil, and a tick then panics before any batch, with nothing executed or reported |
| Sweep.Chan.Send | sweep.go:75 | a send appends exactly the value sent to the channel's log |
| Sweep.SendError | sweep.go:73-77 | on a non-nil sink exactly the given error is appended; a nil sink modifies nothing |
| Sweep.SendAffected | sweep.go:79-83 | on a non-nil sink exactly the given count is appended; a nil sink modifies nothing |
| Sweep.DeleteFunc.Call | sweep.go:50 | the delete function yields its statement and arguments and counts one more call |
| Sweep.DB.Exec | sweep.go:51 | the database answers an exec with its next scripted outcome: an exec error, a result whose count fails, or a count |
| Sweep.Sweeper.New | sweep.go:30-36 | the handle and the configuration are kept as given, Done is a fresh channel with nothing sent, and Errs and Affected are nil |
| Sweep.Sweeper.Batch | sweep.go:50-67 | one batch calls the delete function once and the database once, sends the outcome's error or count on its sink, and ends the campaign exactly on an error or a zero count |
| Sweep.Sweeper.Drain | sweep.go:49-68 | the inner loop does what CampaignOf says: as many execs and delete-function calls as the campaign's batches, and the campaign's reports appended to the sinks |
| Sweep.Sweeper.Serve | sweep.go:45-69 | one pass of the select does what StepOf says, on the outcomes the database has not answered yet |
| Sweep.Sweeper.Select | sweep.go:44-70 | the outer loop does what LoopOf says: it stops where LoopOf stops, after reading the same events, with the run's reports appended to the sinks and the same number of execs and delete-function calls |
| Sweep.Sweeper.Sweep | sweep.go:42-71 | the run loop does what SweepOf says; it changes only the database cursor, the delete function's call count and the two configured sinks, and never writes the sweeper's Errs, Affected or Done fields |
| SweepScenarios.CountsThenZero | sweep_test.go:29-57 | counts 1000, 999, 0 then a stop request: the affected sink gets 1000, 999, 0, three execs and three delete-function calls, and the loop returns |
| SweepScenarios.ExecFails | sweep_test.go:59-84 | a failing exec then a stop request: the error sink gets the error once, one exec and one call, and the loop returns |
| SweepScenarios.CountFails | sweep_test.go:86-111 | a failing rows-affected count then a stop request: the error sink gets the error once, no count is sent, and the loop returns |
| SweepScenarios.ErrorThenNextCampaign | sweep.go:44-70 | an exec error does not end the run loop: the next tick starts a campaign that drains 5, 0, and only then is the stop request read |
| SweepScenarios.ErrorThenNextCampaignRun | sweep.go:44-70 | on an exec error, then counts 5 and 0, the events tick, tick, stop give a return after three events and three batches, reporting the error and then 5 and 0 |
| SweepScenarios.StopFirst | sweep.go:46-47 | a stop request first: nothing is executed, called or sent, whatever the database would answer |

## Left out

- The database driver (`database/sql`, `lib/pq`) and `sql.Result` are left out. They are foreign I/O, replaced by the scripted outcome oracle.
- Timers and durations are left out, apart from the sign that makes `time.NewTicker` panic. Ticks are abstract events. The tickers are never stopped in Go, a resource leak the model does not capture.
- Goroutines and channel blocking are left out. A send on an unbuffered or full sink, and the `Done` handshake, block in Go. A send here is an append to a log. The choice of the outer `select` between a ready tick and a ready stop request is the order of the events given to `Sweep`.
- A nil database handle is left out. `New` accepts one in Go, and the first batch then calls `DeleteFunc` once and panics in `Exec`. The model treats it as a caller error: `Sweeper.db` is never null.
- The statement text and arguments of `DeleteFunc` are left out. They are caller policy: only the calls are counted.
- Sweep.Sweeper.Sweep: a Go run loop never ends on its own. The model takes finite events and outcomes and stops with `Waiting` or `Draining` when one runs out.
- Sweep.Sweeper.Batch: the contract gives the number of delete-function calls and execs, not that each call happens just before its exec. The body does keep that order.
- The test harness of sweep_test.go (sqlmock, `equals`, `errorNil`) is left out. Its three tests appear only as the scenario methods.
