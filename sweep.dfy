/**
 * The sweeper of sweep.go as an object: its constructor, its blocking run loop
 * and the two reporting helpers. Channels are objects that record what was
 * sent on them; a nil channel is a null reference. The database handle and the
 * delete function are stand-ins that answer from a script and count calls.
 */
module Sweep {
  import opened SweepModel

  /** A Go channel, seen through the values sent on it so far. */
  class Chan<T> {
    var log: seq<T>

    constructor ()
      ensures log == []
    {
      log := [];
    }

    /** `ch <- x` */
    method Send(x: T)
      modifies this
      ensures log == old(log) + [x]
    {
      log := log + [x];
    }
  }

  /** The value sent on the Done channel (Go's `struct{}`). */
  datatype Signal = Signal

  /** An argument of a delete statement. */
  datatype Value = IntValue(i: int) | TextValue(s: string) | TimeValue(unixNanos: int)

  /** The delete function of a Config: each call yields a statement and its
      arguments. Only the number of calls is observed. */
  class DeleteFunc {
    const query: string
    const args: seq<Value>
    var calls: nat

    constructor (query: string, args: seq<Value>)
      ensures this.query == query && this.args == args && calls == 0
    {
      this.query := query;
      this.args := args;
      calls := 0;
    }

    method Call() returns (q: string, a: seq<Value>)
      modifies this
      ensures q == query && a == args
      ensures calls == old(calls) + 1
    {
      q, a := query, args;
      calls := calls + 1;
    }
  }

  /** The result of a successful exec: its rows-affected count or the error
      that reading it gives. */
  datatype SqlResult = SqlResult(rowsAffected: Result<int64>)

  /** The database handle, as an oracle: `script` is what it answers to the
      execs it receives, in order, and `next` is how many it has answered. */
  class DB {
    const script: seq<BatchOutcome>
    var next: nat

    ghost predicate Valid()
      reads this
    {
      next <= |script|
    }

    constructor (outcomes: seq<BatchOutcome>)
      ensures script == outcomes && next == 0 && Valid()
    {
      script := outcomes;
      next := 0;
    }

    /** `db.Exec(query, args...)`, answered by the next scripted outcome. */
    method Exec(query: string, args: seq<Value>) returns (r: Result<SqlResult>)
      requires next < |script|
      modifies this
      ensures next == old(next) + 1
      ensures match script[old(next)]
        case ExecErr(e) => r == Err(e)
        case CountErr(e) => r == Ok(SqlResult(Err(e)))
        case Rows(n) => r == Ok(SqlResult(Ok(n)))
    {
      r := match script[next]
        case ExecErr(e) => Err(e)
        case CountErr(e) => Ok(SqlResult(Err(e)))
        case Rows(n) => Ok(SqlResult(Ok(n)));
      next := next + 1;
    }
  }

  /** The configuration given to New. Durations are in nanoseconds; a nil sink
      or delete function is null. */
  datatype Config = Config(
    interval: int64,
    incrementInterval: int64,
    errors: Chan?<Error>,
    affected: Chan?<int64>,
    deleteFunc: DeleteFunc?)
  {
    /** A campaign gets to its first batch: time.NewTicker accepts the
        increment interval and the delete function can be called. */
    predicate CanDrain() {
      incrementInterval > 0 && deleteFunc != null
    }
  }

  /** A tick panics before its campaign's first batch exactly when
      time.NewTicker refuses the increment interval or the delete function is
      nil; nothing is executed or reported then. */
  lemma CampaignPanics(c: Config, outcomes: seq<BatchOutcome>)
    ensures var s := StepOf(Tick, outcomes, c.CanDrain());
      (s.status == Panicked <==> c.incrementInterval <= 0 || c.deleteFunc == null) &&
      (s.status == Panicked ==> s.batches == 0 && s.errors == [] && s.affected == [])
  {
    StepShape(Tick, outcomes, c.CanDrain());
  }

  /** sendError: a send on the error sink, or nothing when it is nil. */
  method SendError(c: Chan?<Error>, err: Error)
    modifies c
    ensures c != null ==> c.log == old(c.log) + [err]
  {
    if c != null {
      c.Send(err);
    }
  }

  /** sendAffected: a send on the affected sink, or nothing when it is nil. */
  method SendAffected(c: Chan?<int64>, affected: int64)
    modifies c
    ensures c != null ==> c.log == old(c.log) + [affected]
  {
    if c != null {
      c.Send(affected);
    }
  }

  /** What the caller of the run loop can observe: how many execs the
      database has answered, how many times the delete function was called,
      and what was sent on each sink (nothing, for a nil sink). */
  datatype Observed = Observed(execs: nat, calls: nat, errors: seq<Error>, affected: seq<int64>)

  class Sweeper {
    const db: DB
    const c: Config
    var errs: Chan?<Error>       // the struct's Errs field
    var affected: Chan?<int64>   // the struct's Affected field
    var done: Chan<Signal>       // the struct's Done field

    /** New: keeps the handle and the configuration as given and makes a fresh
        Done channel; Errs and Affected stay nil. */
    constructor New(db: DB, c: Config)
      ensures this.db == db && this.c == c
      ensures errs == null && affected == null
      ensures fresh(done) && done.log == []
    {
      this.db := db;
      this.c := c;
      errs := null;
      affected := null;
      done := new Chan<Signal>();
    }

    /** What is observable of the sweeper's collaborators now. */
    ghost function Seen(): Observed
      reads db, c.deleteFunc, c.errors, c.affected
    {
      Observed(db.next,
        if c.deleteFunc != null then c.deleteFunc.calls else 0,
        if c.errors != null then c.errors.log else [],
        if c.affected != null then c.affected.log else [])
    }

    /** `o` followed by the run `r`: the database answered each of its
        batches, the delete function was called once per batch, and each sink
        that is not nil received what the run sent on it, in order. */
    function After(o: Observed, r: Run): Observed {
      Observed(o.execs + r.batches,
        if c.deleteFunc != null then o.calls + r.batches else o.calls,
        if c.errors != null then o.errors + r.errors else o.errors,
        if c.affected != null then o.affected + r.affected else o.affected)
    }

    /** Observing two runs in a row is observing the run they make. */
    lemma AfterThen(o: Observed, a: Run, b: Run)
      ensures After(After(o, a), b) == After(o, Then(a, b))
    {
      ConcatAssoc(o.errors, a.errors, b.errors);
      ConcatAssoc(o.affected, a.affected, b.affected);
    }

    /** A run that issued no statement and sent nothing leaves nothing to
        observe. */
    lemma AfterNothing(o: Observed, r: Run)
      requires r.batches == 0 && r.errors == [] && r.affected == []
      ensures After(o, r) == o
    {
      assert o.errors + [] == o.errors && o.affected + [] == o.affected;
    }

    /** One batch, the body of the inner ticker loop: the delete function is
        called once, then the statement is executed once; an exec error or a
        rows-affected error is sent on the error sink, a count on the affected
        sink. Returns whether the batch ends its campaign. */
    method Batch() returns (ended: bool)
      requires db.next < |db.script| && c.deleteFunc != null
      modifies db, c.deleteFunc, c.errors, c.affected
      ensures var o := db.script[old(db.next)];
        ended == o.EndsCampaign() &&
        db.next == old(db.next) + 1 &&
        c.deleteFunc.calls == old(c.deleteFunc.calls) + 1 &&
        (c.errors != null ==> c.errors.log == old(c.errors.log) + o.ErrorReport()) &&
        (c.affected != null ==> c.affected.log == old(c.affected.log) + o.CountReport())
    {
      var query, args := c.deleteFunc.Call();
      var result := db.Exec(query, args);
      if result.Err? {
        SendError(c.errors, result.error);
        return true;
      }
      var count := result.value.rowsAffected;
      if count.Err? {
        SendError(c.errors, count.error);
        return true;
      }
      SendAffected(c.affected, count.value);
      // the table is clear for now
      ended := count.value == 0;
    }

    /** The inner ticker loop of one campaign: batches run until one ends the
        campaign (true), or until the database's script runs out while the
        campaign still drains (false). */
    method Drain() returns (finished: bool)
      requires db.Valid() && c.deleteFunc != null
      modifies db, c.deleteFunc, c.errors, c.affected
      ensures var r := CampaignOf(db.script[old(db.next)..]);
        finished == r.finished && db.Valid() &&
        db.next == old(db.next) + r.batches &&
        c.deleteFunc.calls == old(c.deleteFunc.calls) + r.batches &&
        (c.errors != null ==> c.errors.log == old(c.errors.log) + r.errors) &&
        (c.affected != null ==> c.affected.log == old(c.affected.log) + r.affected)
    {
      ghost var start := db.next;
      ghost var whole := CampaignOf(db.script[start..]);
      ghost var reported: seq<int64> := [];
      while true
        invariant start <= db.next <= |db.script|
        invariant whole == ContinueCampaign(db.next - start, reported, CampaignOf(db.script[db.next..]))
        invariant c.deleteFunc.calls == old(c.deleteFunc.calls) + (db.next - start)
        invariant c.errors != null ==> c.errors.log == old(c.errors.log)
        invariant c.affected != null ==> c.affected.log == old(c.affected.log) + reported
        decreases |db.script| - db.next
      {
        if db.next == |db.script| {
          assert db.script[db.next..] == [];
          assert reported + [] == reported;
          return false;
        }
        ghost var rest := db.script[db.next..];
        var ended := Batch();
        if c.affected != null {
          ConcatAssoc(old(c.affected.log), reported, rest[0].CountReport());
        }
        if ended {
          CampaignFirst(rest);
          return true;
        }
        CampaignStep(rest);
        assert rest[1..] == db.script[db.next..];
        ContinueTwice(db.next - 1 - start, reported, 1, [rest[0].count], CampaignOf(rest[1..]));
        reported := reported + [rest[0].count];
      }
    }

    /** One pass of the outer select, from the idle point, on the event `e`:
        a stop request returns; a tick runs one campaign. */
    method Serve(e: Event) returns (status: Status)
      requires db.Valid()
      modifies db, c.deleteFunc, c.errors, c.affected
      ensures var s := StepOf(e, db.script[old(db.next)..], c.CanDrain());
        status == s.status && db.Valid() && Seen() == After(old(Seen()), s)
    {
      match e {
        case Stop =>
          assert old(Seen()).errors + [] == old(Seen()).errors;
          assert old(Seen()).affected + [] == old(Seen()).affected;
          return Returned;
        case Tick =>
          if !c.CanDrain() {
            // time.NewTicker(s.c.IncrementInterval) or s.c.DeleteFunc() panics
            assert old(Seen()).errors + [] == old(Seen()).errors;
            assert old(Seen()).affected + [] == old(Seen()).affected;
            return Panicked;
          }
          var finished := Drain();
          status := if finished then Waiting else Draining;
      }
    }

    /** The blocking run loop, over a finite script of outer-select events. It
        returns after a stop request at the idle point; in this finite model it
        also stops when the events run out (Waiting), when the database script
        runs out inside a campaign (Draining) or where Go would panic. */
    method Sweep(events: seq<Event>) returns (status: Status, read: nat)
      requires db.Valid()
      modifies db, c.deleteFunc, c.errors, c.affected
      ensures var r := SweepOf(c.interval, c.CanDrain(), events, db.script[old(db.next)..]);
        status == r.status && read == r.eventsRead && Seen() == After(old(Seen()), r)
    {
      if c.interval <= 0 {
        // time.NewTicker(s.c.Interval) panics
        assert Seen().errors + [] == Seen().errors && Seen().affected + [] == Seen().affected;
        return Panicked, 0;
      }
      status, read := Select(events);
    }

    /** One pass of the select on the next event, seen from the start of the
        run: the events served so far made the run `done`, on the way to the
        whole run on `events` and `outcomes`; serving the next event extends
        it by one pass and keeps it on the way. */
    method Pass(e: Event, ghost events: seq<Event>, ghost outcomes: seq<BatchOutcome>, ghost seen: Observed, ghost done: Run)
      returns (status: Status, ghost next: Run)
      requires db.Valid() && Seen() == After(seen, done) && outcomes == db.script[seen.execs..]
      requires Midway(events, outcomes, c.CanDrain(), done)
      requires done.status == Waiting && done.eventsRead < |events| && events[done.eventsRead] == e
      modifies db, c.deleteFunc, c.errors, c.affected
      ensures Midway(events, outcomes, c.CanDrain(), next)
      ensures status == next.status && next.eventsRead == done.eventsRead + 1
      ensures db.Valid() && Seen() == After(seen, next)
    {
      DropDrop(db.script, seen.execs, done.batches);
      ghost var step := StepOf(e, db.script[db.next..], c.CanDrain());
      MidwayStep(events, outcomes, c.CanDrain(), done, step);
      AfterThen(seen, done, step);
      status := Serve(e);
      next := Then(done, step);
    }

    /** The `for { select ... }` of the run loop: one pass per event, for as
        long as each pass ends back at the idle point. */
    method Select(events: seq<Event>) returns (status: Status, read: nat)
      requires db.Valid()
      modifies db, c.deleteFunc, c.errors, c.affected
      ensures var r := LoopOf(events, db.script[old(db.next)..], c.CanDrain());
        status == r.status && read == r.eventsRead && Seen() == After(old(Seen()), r)
    {
      ghost var seen := Seen();
      ghost var outcomes := db.script[seen.execs..];
      ghost var done;
      status, read, done := Passes(events, outcomes, seen);
      MidwayEnd(events, outcomes, c.CanDrain(), done);
      assert seen == old(Seen()) && outcomes == db.script[old(db.next)..];
    }

    /** The passes of the select, from the idle point: `done` is the part of
        the run on `events` and `outcomes` they made, which is on its way to
        the whole run and stops where the loop stops. */
    method Passes(events: seq<Event>, ghost outcomes: seq<BatchOutcome>, ghost seen: Observed)
      returns (status: Status, read: nat, ghost done: Run)
      requires db.Valid() && Seen() == seen && outcomes == db.script[seen.execs..]
      modifies db, c.deleteFunc, c.errors, c.affected
      ensures Midway(events, outcomes, c.CanDrain(), done)
      ensures done.status == status && done.eventsRead == read && (status != Waiting || read == |events|)
      ensures db.Valid() && Seen() == After(seen, done)
    {
      done := Run(Waiting, 0, 0, [], []);
      MidwayStart(events, outcomes, c.CanDrain());
      AfterNothing(seen, done);
      read := 0;
      status := Waiting;
      while read < |events| && status == Waiting
        invariant done.status == status && done.eventsRead == read
        invariant Midway(events, outcomes, c.CanDrain(), done)
        invariant db.Valid() && Seen() == After(seen, done)
        decreases |events| - read
      {
        status, done := Pass(events[read], events, outcomes, seen, done);
        read := read + 1;
      }
    }
  }
}
