/**
 * The scenarios of sweep_test.go, run through the Sweeper object: a sweeper is
 * made with New, its database answers from a script, and Sweep is driven by a
 * tick of the outer interval followed by a request on Done. Each method states
 * what the test observes on the sinks and how many statements were issued.
 */
module SweepScenarios {
  import opened SweepModel
  import opened Sweep

  /** The delete statement of the tests, with its cut-off time and limit. */
  const Query: string := "DELETE FROM \"reservation\" WHERE \"expiry\" < $1 LIMIT $2"
  const Limit: int := 1000

  /** The errors the database is scripted to fail with. */
  const Oops: Error := Error("oh noes!")
  const Down: Error := Error("connection refused")

  /** The tests' intervals, in nanoseconds: 200ms and 100ms. */
  const Interval: int64 := 200_000_000
  const IncrementInterval: int64 := 100_000_000

  /** TestSweep: the database deletes 1000, then 999, then 0 rows. The
      affected sink receives 1000, 999 and 0 in that order, the statement is
      issued exactly three times, the whole script is used, and the stop
      request that follows is honoured at the idle point. */
  method CountsThenZero(now: int) returns (affected: seq<int64>, calls: nat, execs: nat, status: Status)
    ensures affected == [1000, 999, 0]
    ensures calls == 3 && execs == 3
    ensures status == Returned
  {
    var f := new DeleteFunc(Query, [TimeValue(now), IntValue(Limit)]);
    var db := new DB([Rows(1000), Rows(999), Rows(0)]);
    var affectedC := new Chan<int64>();
    var s := new Sweeper.New(db, Config(Interval, IncrementInterval, null, affectedC, f));
    ghost var outs := db.script;
    assert outs[0..] == outs;
    DrainsToZero([1000, 999, 0], outs);
    StopWaitsForCampaign([Tick, Stop], outs);
    assert SweepOf(Interval, true, [Tick, Stop], outs) == Run(Returned, 2, 3, [], [1000, 999, 0]);
    assert s.c.CanDrain();
    var read;
    status, read := s.Sweep([Tick, Stop]);
    affected, calls, execs := affectedC.log, f.calls, db.next;
  }

  /** TestSweepErrorExecuting: the first exec fails. The error is sent once on
      the error sink, the statement was issued once, and the loop is back at
      its idle point, where the stop request ends it. */
  method ExecFails(now: int) returns (errors: seq<Error>, calls: nat, execs: nat, status: Status)
    ensures errors == [Oops]
    ensures calls == 1 && execs == 1
    ensures status == Returned
  {
    var f := new DeleteFunc(Query, [TimeValue(now), IntValue(Limit)]);
    var db := new DB([ExecErr(Oops)]);
    var errorC := new Chan<Error>();
    var s := new Sweeper.New(db, Config(Interval, IncrementInterval, errorC, null, f));
    ghost var outs := db.script;
    assert outs[0..] == outs;
    ExecErrorEndsCampaign([], Oops, outs);
    StopWaitsForCampaign([Tick, Stop], outs);
    assert SweepOf(Interval, true, [Tick, Stop], outs) == Run(Returned, 2, 1, [Oops], []);
    assert s.c.CanDrain();
    var read;
    status, read := s.Sweep([Tick, Stop]);
    errors, calls, execs := errorC.log, f.calls, db.next;
  }

  /** TestSweepErrorRowsAffected: the exec succeeds but its rows-affected
      count cannot be read. The error is sent once, no count is sent, and the
      stop request is honoured afterwards. */
  method CountFails(now: int) returns (errors: seq<Error>, affected: seq<int64>, calls: nat, status: Status)
    ensures errors == [Oops] && affected == []
    ensures calls == 1
    ensures status == Returned
  {
    var f := new DeleteFunc(Query, [TimeValue(now), IntValue(Limit)]);
    var db := new DB([CountErr(Oops)]);
    var errorC := new Chan<Error>();
    var affectedC := new Chan<int64>();
    var s := new Sweeper.New(db, Config(Interval, IncrementInterval, errorC, affectedC, f));
    ghost var outs := db.script;
    assert outs[0..] == outs;
    CountErrorEndsCampaign([], Oops, outs);
    StopWaitsForCampaign([Tick, Stop], outs);
    assert SweepOf(Interval, true, [Tick, Stop], outs) == Run(Returned, 2, 1, [Oops], []);
    assert s.c.CanDrain();
    var read;
    status, read := s.Sweep([Tick, Stop]);
    errors, affected, calls := errorC.log, affectedC.log, f.calls;
  }

  /** An error does not end the run loop: after a failed campaign the next
      tick starts a new one, which drains to zero, and only then is the stop
      request read. */
  method ErrorThenNextCampaign(now: int) returns (errors: seq<Error>, affected: seq<int64>, calls: nat, read: nat, status: Status)
    ensures errors == [Down] && affected == [5, 0]
    ensures calls == 3 && read == 3
    ensures status == Returned
  {
    var f := new DeleteFunc(Query, [TimeValue(now), IntValue(Limit)]);
    var db := new DB([ExecErr(Down), Rows(5), Rows(0)]);
    var errorC := new Chan<Error>();
    var affectedC := new Chan<int64>();
    var s := new Sweeper.New(db, Config(Interval, IncrementInterval, errorC, affectedC, f));
    assert db.script[0..] == db.script;
    ErrorThenNextCampaignRun(db.script);
    assert s.c.CanDrain();
    status, read := s.Sweep([Tick, Tick, Stop]);
    errors, affected, calls := errorC.log, affectedC.log, f.calls;
  }

  /** The run of ErrorThenNextCampaign: the failed campaign takes one
      outcome, the next drains the other two, and the stop request is the
      third event read. */
  lemma ErrorThenNextCampaignRun(script: seq<BatchOutcome>)
    requires script == [ExecErr(Down), Rows(5), Rows(0)]
    ensures SweepOf(Interval, true, [Tick, Tick, Stop], script) == Run(Returned, 3, 3, [Down], [5, 0])
  {
    ExecErrorEndsCampaign([], Down, script);
    CampaignReturnsToIdle([Tick, Tick, Stop], script);
    assert [Tick, Tick, Stop][1..] == [Tick, Stop];
    DrainsToZero([5, 0], script[1..]);
    StopWaitsForCampaign([Tick, Stop], script[1..]);
  }

  /** A stop request at the idle point: Sweep returns having issued no
      statement and sent nothing, whatever the database would have answered. */
  method StopFirst(outcomes: seq<BatchOutcome>) returns (errors: seq<Error>, affected: seq<int64>, calls: nat, execs: nat, status: Status)
    ensures errors == [] && affected == [] && calls == 0 && execs == 0
    ensures status == Returned
  {
    var f := new DeleteFunc(Query, []);
    var db := new DB(outcomes);
    var errorC := new Chan<Error>();
    var affectedC := new Chan<int64>();
    var s := new Sweeper.New(db, Config(Interval, IncrementInterval, errorC, affectedC, f));
    assert outcomes[0..] == outcomes;
    StopAtIdle([Stop, Tick], outcomes, true);
    var read;
    status, read := s.Sweep([Stop, Tick]);
    errors, affected, calls, execs := errorC.log, affectedC.log, f.calls, db.next;
  }
}
