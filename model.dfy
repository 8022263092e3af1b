/**
 * The pure model of the sweeper's run loop (sweep.go).
 *
 * The database is an oracle: a finite sequence of batch outcomes, one per
 * executed delete statement. The outer `select` of the run loop is a finite
 * sequence of events, each either an interval tick or a stop request on the
 * Done channel. The functions below say, for given events and outcomes, which
 * outcomes a run consumes, what it reports on each sink and where it stops.
 */
module SweepModel {

  /** Go's int64, the type of a rows-affected count and of a time.Duration. */
  newtype int64 = x: int | -0x8000_0000_0000_0000 <= x < 0x8000_0000_0000_0000

  /** A Go `error` value, identified by its message. */
  datatype Error = Error(message: string)

  /** A Go `(value, error)` pair where exactly one side is meaningful. */
  datatype Result<T> = Ok(value: T) | Err(error: Error)

  /** What the database does with one batch: the exec fails, the exec succeeds
      but its rows-affected count cannot be read, or `count` rows were deleted. */
  datatype BatchOutcome = ExecErr(err: Error) | CountErr(err: Error) | Rows(count: int64)
  {
    /** A batch with this outcome is the last of its campaign. */
    predicate EndsCampaign() {
      !Rows? || count == 0
    }

    /** What a batch with this outcome sends on the affected sink. */
    function CountReport(): seq<int64> {
      if Rows? then [count] else []
    }

    /** What a batch with this outcome sends on the error sink. */
    function ErrorReport(): seq<Error> {
      if Rows? then [] else [err]
    }
  }

  /** Which case of the outer `select` fires at the idle point. */
  datatype Event = Tick | Stop

  /** The counts of the successful batches among `os`, in order. */
  function RowsIn(os: seq<BatchOutcome>): seq<int64> {
    if os == [] then []
    else os[0].CountReport() + RowsIn(os[1..])
  }

  /** The errors of the failed batches among `os`, in order. */
  function ErrorsIn(os: seq<BatchOutcome>): seq<Error> {
    if os == [] then []
    else os[0].ErrorReport() + ErrorsIn(os[1..])
  }

  lemma {:induction false} RowsInAppend(a: seq<BatchOutcome>, b: seq<BatchOutcome>)
    ensures RowsIn(a + b) == RowsIn(a) + RowsIn(b)
  {
    if a != [] {
      assert (a + b)[1..] == a[1..] + b;
      RowsInAppend(a[1..], b);
    } else {
      assert a + b == b;
    }
  }

  lemma {:induction false} ErrorsInAppend(a: seq<BatchOutcome>, b: seq<BatchOutcome>)
    ensures ErrorsIn(a + b) == ErrorsIn(a) + ErrorsIn(b)
  {
    if a != [] {
      assert (a + b)[1..] == a[1..] + b;
      ErrorsInAppend(a[1..], b);
    } else {
      assert a + b == b;
    }
  }

  // ---------------------------------------------------------------------------
  // One campaign: the inner ticker loop
  /** Concatenation is associative. */
  lemma ConcatAssoc<T>(a: seq<T>, b: seq<T>, c: seq<T>)
    ensures (a + b) + c == a + (b + c)
  {
  }

  /** Dropping twice is dropping once. */
  lemma DropDrop<T>(s: seq<T>, a: nat, b: nat)
    requires a + b <= |s|
    ensures s[a..][b..] == s[a + b..]
  {
  }

  // ---------------------------------------------------------------------------

  /** What one campaign did: how many batches it ran, what it sent on the error
      and affected sinks, and whether it ended (false: the outcomes ran out
      while the campaign was still draining). */
  datatype Campaign = Campaign(batches: nat, errors: seq<Error>, affected: seq<int64>, finished: bool)

  /** The campaign that starts on the first of `outcomes`. It runs batches until
      one ends it, reports every consumed outcome on its own sink, and never
      looks at anything else. */
  function CampaignOf(outcomes: seq<BatchOutcome>): (r: Campaign)
    ensures r.batches <= |outcomes|
    ensures r.finished ==> 0 < r.batches
    decreases |outcomes|
  {
    if outcomes == [] then Campaign(0, [], [], false)
    else
      match outcomes[0]
      case ExecErr(e) => Campaign(1, [e], [], true)
      case CountErr(e) => Campaign(1, [e], [], true)
      case Rows(n) =>
        if n == 0 then Campaign(1, [], [0], true)
        else
          var rest := CampaignOf(outcomes[1..]);
          Campaign(1 + rest.batches, rest.errors, [n] + rest.affected, rest.finished)
  }

  /** A campaign runs up to and including the first batch that ends it, and
      to the end of the outcomes when none does. */
  lemma {:induction false} CampaignShape(outcomes: seq<BatchOutcome>)
    ensures var r := CampaignOf(outcomes);
      (r.finished <==> 0 < r.batches && outcomes[r.batches - 1].EndsCampaign()) &&
      (!r.finished ==> r.batches == |outcomes|) &&
      (0 < r.batches ==> forall o <- outcomes[..r.batches - 1] :: !o.EndsCampaign())
  {
    if outcomes != [] && !outcomes[0].EndsCampaign() {
      var rest := CampaignOf(outcomes[1..]);
      CampaignShape(outcomes[1..]);
      if 0 < rest.batches {
        assert outcomes[..rest.batches] == [outcomes[0]] + outcomes[1..][..rest.batches - 1];
      }
    }
  }

  /** A campaign ends exactly when some outcome would end it; otherwise it
      is still draining when the outcomes run out. */
  lemma {:induction false} CampaignFinishes(outcomes: seq<BatchOutcome>)
    ensures CampaignOf(outcomes).finished <==> exists o <- outcomes :: o.EndsCampaign()
  {
    if outcomes != [] {
      if outcomes[0].EndsCampaign() {
        assert outcomes[0] in outcomes;
      } else {
        CampaignFinishes(outcomes[1..]);
        assert outcomes == [outcomes[0]] + outcomes[1..];
      }
    }
  }

  /** A campaign reports each outcome it consumed, on the sink for its kind and
      in order, and nothing else. */
  lemma {:induction false} CampaignReports(outcomes: seq<BatchOutcome>)
    ensures var r := CampaignOf(outcomes);
      r.affected == RowsIn(outcomes[..r.batches]) && r.errors == ErrorsIn(outcomes[..r.batches])
  {
    if outcomes != [] && !outcomes[0].EndsCampaign() {
      var rest := CampaignOf(outcomes[1..]);
      CampaignReports(outcomes[1..]);
      assert outcomes[..1 + rest.batches] == [outcomes[0]] + outcomes[1..][..rest.batches];
    } else if outcomes != [] {
      assert outcomes[..1] == [outcomes[0]];
    }
  }

  /** `rest` preceded by `batches` batches that reported the counts `affected`
      and did not end the campaign. */
  function ContinueCampaign(batches: nat, affected: seq<int64>, rest: Campaign): Campaign {
    Campaign(batches + rest.batches, rest.errors, affected + rest.affected, rest.finished)
  }

  /** Two continuations in a row are one. */
  lemma ContinueTwice(batches: nat, affected: seq<int64>, batches2: nat, affected2: seq<int64>, rest: Campaign)
    ensures ContinueCampaign(batches, affected, ContinueCampaign(batches2, affected2, rest))
      == ContinueCampaign(batches + batches2, affected + affected2, rest)
  {
    ConcatAssoc(affected, affected2, rest.affected);
  }

  /** Unfolds one batch that neither failed nor deleted zero rows. */
  lemma CampaignStep(outcomes: seq<BatchOutcome>)
    requires outcomes != [] && !outcomes[0].EndsCampaign()
    ensures CampaignOf(outcomes) == ContinueCampaign(1, [outcomes[0].count], CampaignOf(outcomes[1..]))
  {
  }

  /** A campaign whose first batch ends it runs that batch alone. */
  lemma CampaignFirst(outcomes: seq<BatchOutcome>)
    requires outcomes != [] && outcomes[0].EndsCampaign()
    ensures CampaignOf(outcomes) == Campaign(1, outcomes[0].ErrorReport(), outcomes[0].CountReport(), true)
  {
  }

  /** Counts a1..an with ai != 0 for i < n and an == 0: the campaign runs exactly
      n batches, reports a1..an (the zero included) in order and no error. */
  lemma {:induction false} DrainsToZero(counts: seq<int64>, outcomes: seq<BatchOutcome>)
    requires counts != [] && counts[|counts| - 1] == 0
    requires forall i | 0 <= i < |counts| - 1 :: counts[i] != 0
    requires |counts| <= |outcomes|
    requires forall i | 0 <= i < |counts| :: outcomes[i] == Rows(counts[i])
    ensures CampaignOf(outcomes) == Campaign(|counts|, [], counts, true)
  {
    if |counts| > 1 {
      DrainsToZero(counts[1..], outcomes[1..]);
      assert counts == [counts[0]] + counts[1..];
    }
  }

  /** A failing exec after some productive batches: the error is reported once,
      no count is reported for that batch and the campaign ends right there. */
  lemma {:induction false} ExecErrorEndsCampaign(counts: seq<int64>, e: Error, outcomes: seq<BatchOutcome>)
    requires forall i | 0 <= i < |counts| :: counts[i] != 0
    requires |counts| < |outcomes|
    requires forall i | 0 <= i < |counts| :: outcomes[i] == Rows(counts[i])
    requires outcomes[|counts|] == ExecErr(e)
    ensures CampaignOf(outcomes) == Campaign(|counts| + 1, [e], counts, true)
  {
    if counts != [] {
      ExecErrorEndsCampaign(counts[1..], e, outcomes[1..]);
      assert counts == [counts[0]] + counts[1..];
    }
  }

  /** A rows-affected error after some productive batches: the same as a
      failing exec. */
  lemma {:induction false} CountErrorEndsCampaign(counts: seq<int64>, e: Error, outcomes: seq<BatchOutcome>)
    requires forall i | 0 <= i < |counts| :: counts[i] != 0
    requires |counts| < |outcomes|
    requires forall i | 0 <= i < |counts| :: outcomes[i] == Rows(counts[i])
    requires outcomes[|counts|] == CountErr(e)
    ensures CampaignOf(outcomes) == Campaign(|counts| + 1, [e], counts, true)
  {
    if counts != [] {
      CountErrorEndsCampaign(counts[1..], e, outcomes[1..]);
      assert counts == [counts[0]] + counts[1..];
    }
  }

  /** A campaign reports at most one error, and only as its last act. */
  lemma {:induction false} AtMostOneError(outcomes: seq<BatchOutcome>)
    ensures var r := CampaignOf(outcomes);
      |r.errors| <= 1 &&
      (|r.errors| == 1 <==> r.finished && !outcomes[r.batches - 1].Rows?) &&
      |r.affected| + |r.errors| == r.batches
  {
    if outcomes != [] && !outcomes[0].EndsCampaign() {
      var rest := CampaignOf(outcomes[1..]);
      AtMostOneError(outcomes[1..]);
      if rest.finished {
        assert outcomes[1..][rest.batches - 1] == outcomes[rest.batches];
      }
    }
  }

  // ---------------------------------------------------------------------------
  // The whole run loop: the outer select
  // ---------------------------------------------------------------------------

  /** Where a finite run of the loop stopped: `Returned` after a stop request,
      `Waiting` at the idle point with no further event, `Draining` inside a
      campaign when the outcomes ran out, `Panicked` when a ticker could not be
      made or the delete function is nil. */
  datatype Status = Returned | Waiting | Draining | Panicked

  /** What a run did: where it stopped, how many events of the outer select it
      read, how many batches it ran and what it sent on each sink. */
  datatype Run = Run(status: Status, eventsRead: nat, batches: nat, errors: seq<Error>, affected: seq<int64>)

  /** The run `done` followed by the run `rest` from where `done` left off. */
  function Then(done: Run, rest: Run): Run {
    Run(rest.status, done.eventsRead + rest.eventsRead, done.batches + rest.batches,
        done.errors + rest.errors, done.affected + rest.affected)
  }

  /** Runs in a row compose. */
  lemma ThenTwice(a: Run, b: Run, rest: Run)
    ensures Then(a, Then(b, rest)) == Then(Then(a, b), rest)
  {
    ConcatAssoc(a.errors, b.errors, rest.errors);
    ConcatAssoc(a.affected, b.affected, rest.affected);
  }

  /** One pass of the outer select from its idle point, on the event `e`: a
      stop request returns; a tick starts a campaign on `outcomes`, which ends
      back at the idle point (`Waiting`) or drains until the outcomes run out.
      `canDrain` is false when a campaign panics before its first batch: the
      batch ticker cannot be made (a non-positive increment interval) or the
      delete function is nil. */
  function StepOf(e: Event, outcomes: seq<BatchOutcome>, canDrain: bool): (r: Run)
    ensures r.eventsRead == 1 && r.batches <= |outcomes|
  {
    match e
    case Stop => Run(Returned, 1, 0, [], [])
    case Tick =>
      if !canDrain then Run(Panicked, 1, 0, [], [])
      else
        var c := CampaignOf(outcomes);
        Run(if c.finished then Waiting else Draining, 1, c.batches, c.errors, c.affected)
  }

  /** The outer loop from its idle point: passes of the select, one event each,
      for as long as each ends back at the idle point. The stop request is
      looked at only there, never inside a campaign. */
  function LoopOf(events: seq<Event>, outcomes: seq<BatchOutcome>, canDrain: bool): (r: Run)
    ensures r.eventsRead <= |events| && r.batches <= |outcomes|
    decreases |events|
  {
    if events == [] then Run(Waiting, 0, 0, [], [])
    else
      var s := StepOf(events[0], outcomes, canDrain);
      if s.status != Waiting then s
      else Then(s, LoopOf(events[1..], outcomes[s.batches..], canDrain))
  }

  /** Where one pass of the select stops: it returns exactly on a stop
      request, drains only when the campaign used up every outcome, panics only
      on a tick that cannot reach its first batch, and runs no batch then. */
  lemma StepShape(e: Event, outcomes: seq<BatchOutcome>, canDrain: bool)
    ensures var s := StepOf(e, outcomes, canDrain);
      s.eventsRead == 1 &&
      (s.status == Returned <==> e == Stop) &&
      (s.status == Draining ==> canDrain && s.batches == |outcomes|) &&
      (s.status == Panicked <==> e == Tick && !canDrain) &&
      (s.status == Waiting <==> e == Tick && canDrain && exists o <- outcomes :: o.EndsCampaign()) &&
      (!canDrain ==> s.batches == 0 && s.errors == [] && s.affected == [])
  {
    if e == Tick && canDrain {
      CampaignShape(outcomes);
      CampaignFinishes(outcomes);
    }
  }

  /** A run returns exactly when the last event it read is a stop request,
      and it reads no stop request before that: errors never end it. */
  lemma {:induction false} LoopReturns(events: seq<Event>, outcomes: seq<BatchOutcome>, canDrain: bool)
    ensures var r := LoopOf(events, outcomes, canDrain);
      (r.status == Returned <==> 0 < r.eventsRead && events[r.eventsRead - 1] == Stop) &&
      (0 < r.eventsRead ==> Stop !in events[..r.eventsRead - 1])
  {
    if events != [] {
      var s := StepOf(events[0], outcomes, canDrain);
      StepShape(events[0], outcomes, canDrain);
      if s.status == Waiting {
        var rest := LoopOf(events[1..], outcomes[s.batches..], canDrain);
        LoopReturns(events[1..], outcomes[s.batches..], canDrain);
        ReturnsAfterTick(events, rest);
      } else {
        assert events[..0] == [];
      }
    }
  }

  /** The bookkeeping of LoopReturns for a run that passed a tick first. */
  lemma ReturnsAfterTick(events: seq<Event>, rest: Run)
    requires events != [] && events[0] == Tick && rest.eventsRead <= |events| - 1
    requires rest.status == Returned <==> 0 < rest.eventsRead && events[1..][rest.eventsRead - 1] == Stop
    requires 0 < rest.eventsRead ==> Stop !in events[1..][..rest.eventsRead - 1]
    ensures var n := 1 + rest.eventsRead;
      (rest.status == Returned <==> events[n - 1] == Stop) && Stop !in events[..n - 1]
  {
    var n := 1 + rest.eventsRead;
    if 0 < rest.eventsRead {
      assert events[n - 1] == events[1..][rest.eventsRead - 1];
      assert events[..n - 1] == [Tick] + events[1..][..rest.eventsRead - 1];
    } else {
      assert events[..n - 1] == [];
    }
  }

  /** Where else a run stops: at the idle point only when the events ran out,
      inside a campaign only when the outcomes ran out, and in a panic only
      when a campaign cannot reach its first batch, which then never runs. */
  lemma {:induction false} LoopShape(events: seq<Event>, outcomes: seq<BatchOutcome>, canDrain: bool)
    ensures var r := LoopOf(events, outcomes, canDrain);
      (r.status == Waiting ==> r.eventsRead == |events|) &&
      (r.status == Draining ==> canDrain && r.batches == |outcomes|) &&
      (r.status == Panicked ==> !canDrain && 0 < r.eventsRead) &&
      (!canDrain ==> r.batches == 0 && r.errors == [] && r.affected == [])
  {
    if events != [] {
      var s := StepOf(events[0], outcomes, canDrain);
      StepShape(events[0], outcomes, canDrain);
      if s.status == Waiting {
        var rest := LoopOf(events[1..], outcomes[s.batches..], canDrain);
        LoopShape(events[1..], outcomes[s.batches..], canDrain);
        assert LoopOf(events, outcomes, canDrain) == Then(s, rest);
      }
    }
  }

  /** The whole run as seen after the part `done`: back at the idle point
      (`Waiting`) with the rest of the run still to come, or stopped there for
      good. */
  ghost function RunAt(events: seq<Event>, outcomes: seq<BatchOutcome>, canDrain: bool, done: Run): Run
    requires done.eventsRead <= |events| && done.batches <= |outcomes|
  {
    if done.status == Waiting then
      Then(done, LoopOf(events[done.eventsRead..], outcomes[done.batches..], canDrain))
    else
      done
  }

  /** One more pass of the select, from the idle point, on the next event:
      the run still to come is the same, seen one pass later. */
  lemma RunAtStep(events: seq<Event>, outcomes: seq<BatchOutcome>, canDrain: bool, done: Run, s: Run)
    requires done.status == Waiting && done.eventsRead < |events| && done.batches <= |outcomes|
    requires s == StepOf(events[done.eventsRead], outcomes[done.batches..], canDrain)
    ensures Then(done, s).eventsRead <= |events| && Then(done, s).batches <= |outcomes|
    ensures RunAt(events, outcomes, canDrain, Then(done, s)) == RunAt(events, outcomes, canDrain, done)
  {
    var read, batches := done.eventsRead, done.batches;
    var evs, outs := events[read..], outcomes[batches..];
    assert evs[0] == events[read];
    if s.status == Waiting {
      var more := LoopOf(evs[1..], outs[s.batches..], canDrain);
      assert LoopOf(evs, outs, canDrain) == Then(s, more);
      assert evs[1..] == events[read + 1..];
      assert outs[s.batches..] == outcomes[batches + s.batches..];
      ThenTwice(done, s, more);
    } else {
      assert LoopOf(evs, outs, canDrain) == s;
    }
  }

  /** Nothing is left of a run after the last event, or once it has left the
      idle point for good. */
  lemma RunAtEnd(events: seq<Event>, outcomes: seq<BatchOutcome>, canDrain: bool, done: Run)
    requires done.status != Waiting || done.eventsRead == |events|
    requires done.eventsRead <= |events| && done.batches <= |outcomes|
    ensures RunAt(events, outcomes, canDrain, done) == done
  {
    if done.status == Waiting {
      assert events[done.eventsRead..] == [];
      assert done.errors + [] == done.errors && done.affected + [] == done.affected;
    }
  }

  /** Before the first event the whole run is still to come. */
  lemma RunAtStart(events: seq<Event>, outcomes: seq<BatchOutcome>, canDrain: bool)
    ensures RunAt(events, outcomes, canDrain, Run(Waiting, 0, 0, [], [])) == LoopOf(events, outcomes, canDrain)
  {
    var r := LoopOf(events, outcomes, canDrain);
    assert events[0..] == events && outcomes[0..] == outcomes;
    assert [] + r.errors == r.errors && [] + r.affected == r.affected;
  }

  /** The run loop, stopped after the part `done` of the run on `events`
      and `outcomes`, is on its way to the whole run: what is still to come
      after `done` completes it to `LoopOf`. */
  ghost predicate Midway(events: seq<Event>, outcomes: seq<BatchOutcome>, canDrain: bool, done: Run) {
    done.eventsRead <= |events| && done.batches <= |outcomes| &&
    RunAt(events, outcomes, canDrain, done) == LoopOf(events, outcomes, canDrain)
  }

  /** Before the first event the run loop is on its way. */
  lemma MidwayStart(events: seq<Event>, outcomes: seq<BatchOutcome>, canDrain: bool)
    ensures Midway(events, outcomes, canDrain, Run(Waiting, 0, 0, [], []))
  {
    RunAtStart(events, outcomes, canDrain);
  }

  /** One more pass of the select, from the idle point, on the next event
      keeps the run loop on its way, one event further. */
  lemma MidwayStep(events: seq<Event>, outcomes: seq<BatchOutcome>, canDrain: bool, done: Run, s: Run)
    requires Midway(events, outcomes, canDrain, done)
    requires done.status == Waiting && done.eventsRead < |events|
    requires s == StepOf(events[done.eventsRead], outcomes[done.batches..], canDrain)
    ensures var next := Then(done, s);
      Midway(events, outcomes, canDrain, next) && next.status == s.status && next.eventsRead == done.eventsRead + 1
  {
    RunAtStep(events, outcomes, canDrain, done, s);
  }

  /** Once the events are used up, or a pass has left the idle point for
      good, the part done is the whole run. */
  lemma MidwayEnd(events: seq<Event>, outcomes: seq<BatchOutcome>, canDrain: bool, done: Run)
    requires Midway(events, outcomes, canDrain, done)
    requires done.status != Waiting || done.eventsRead == |events|
    ensures done == LoopOf(events, outcomes, canDrain)
  {
    RunAtEnd(events, outcomes, canDrain, done);
  }

  /** A whole call of Sweep with the given configuration: the interval ticker is
      made first, so a non-positive interval panics before any event is read. */
  function SweepOf(interval: int64, canDrain: bool, events: seq<Event>, outcomes: seq<BatchOutcome>): (r: Run)
    ensures r.eventsRead <= |events| && r.batches <= |outcomes|
  {
    if interval <= 0 then Run(Panicked, 0, 0, [], [])
    else LoopOf(events, outcomes, canDrain)
  }

  /** The interval ticker is made before the first event is read: a
      non-positive interval panics with nothing read, run or reported.
      Otherwise the run panics exactly when a campaign cannot reach its first
      batch and a tick was read. */
  lemma SweepPanics(interval: int64, canDrain: bool, events: seq<Event>, outcomes: seq<BatchOutcome>)
    ensures var r := SweepOf(interval, canDrain, events, outcomes);
      (interval <= 0 ==> r.eventsRead == 0 && r.batches == 0 && r.errors == [] && r.affected == []) &&
      (r.status == Panicked <==> interval <= 0 || (!canDrain && Tick in events[..r.eventsRead]))
  {
    if 0 < interval && events != [] {
      var r := LoopOf(events, outcomes, canDrain);
      LoopShape(events, outcomes, canDrain);
      if !canDrain {
        assert r.eventsRead == 1 && events[..1] == [events[0]];
      }
    }
  }

  /** One pass of the select reports each outcome it consumed on its own
      sink, in order, and nothing else. */
  lemma StepReports(e: Event, outcomes: seq<BatchOutcome>, canDrain: bool)
    ensures var s := StepOf(e, outcomes, canDrain);
      s.affected == RowsIn(outcomes[..s.batches]) && s.errors == ErrorsIn(outcomes[..s.batches])
  {
    if e == Tick && canDrain {
      CampaignReports(outcomes);
    } else {
      assert outcomes[..0] == [];
    }
  }

  /** Every outcome the run consumed is reported exactly once, on its own sink,
      in order; nothing else is reported. */
  lemma {:induction false} LoopReports(events: seq<Event>, outcomes: seq<BatchOutcome>, canDrain: bool)
    ensures var r := LoopOf(events, outcomes, canDrain);
      r.affected == RowsIn(outcomes[..r.batches]) && r.errors == ErrorsIn(outcomes[..r.batches])
  {
    if events == [] {
      assert outcomes[..0] == [];
    } else {
      var s := StepOf(events[0], outcomes, canDrain);
      StepReports(events[0], outcomes, canDrain);
      if s.status == Waiting {
        var more := outcomes[s.batches..];
        var rest := LoopOf(events[1..], more, canDrain);
        assert LoopOf(events, outcomes, canDrain) == Then(s, rest);
        LoopReports(events[1..], more, canDrain);
        var done, next := outcomes[..s.batches], more[..rest.batches];
        assert outcomes[..s.batches + rest.batches] == done + next;
        RowsInAppend(done, next);
        ErrorsInAppend(done, next);
      }
    }
  }

  /** At the idle point a stop request makes the loop return at once: no batch
      runs and nothing is reported. */
  lemma StopAtIdle(events: seq<Event>, outcomes: seq<BatchOutcome>, canDrain: bool)
    requires events != [] && events[0] == Stop
    ensures LoopOf(events, outcomes, canDrain) == Run(Returned, 1, 0, [], [])
  {
  }

  /** A stop request that arrives while a campaign runs is read only after the
      campaign has ended; if the campaign never ends, it is never read. */
  lemma StopWaitsForCampaign(events: seq<Event>, outcomes: seq<BatchOutcome>)
    requires |events| >= 2 && events[0] == Tick && events[1] == Stop
    ensures var c, r := CampaignOf(outcomes), LoopOf(events, outcomes, true);
      if c.finished then r == Run(Returned, 2, c.batches, c.errors, c.affected)
      else r == Run(Draining, 1, |outcomes|, c.errors, c.affected)
  {
    var c := CampaignOf(outcomes);
    CampaignShape(outcomes);
    if c.finished {
      var rest := LoopOf(events[1..], outcomes[c.batches..], true);
      assert rest == Run(Returned, 1, 0, [], []);
      assert LoopOf(events, outcomes, true) == Then(Run(Waiting, 1, c.batches, c.errors, c.affected), rest);
      assert c.errors + [] == c.errors && c.affected + [] == c.affected;
    }
  }

  /** A campaign that ends, on an error or on a zero count, puts the loop back
      at its idle point: the run goes on with the next event and the outcomes
      after the campaign's last batch. */
  lemma CampaignReturnsToIdle(events: seq<Event>, outcomes: seq<BatchOutcome>)
    requires events != [] && events[0] == Tick && CampaignOf(outcomes).finished
    ensures var c := CampaignOf(outcomes);
      LoopOf(events, outcomes, true)
        == Then(Run(Waiting, 1, c.batches, c.errors, c.affected), LoopOf(events[1..], outcomes[c.batches..], true))
  {
  }
}
