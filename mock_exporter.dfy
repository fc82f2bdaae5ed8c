/** The log exporter used in the memory limiter's tests: it counts accepted
    records, delivers them at once while its destination is available, and
    queues whole batches while it is not. The atomic counters become plain
    fields and a batch of logs is represented by its record count. */
module MemoryLimiterMock {
  import opened Options

  /** A batch of logs, reduced to the number of log records it holds. */
  datatype Logs = Logs(recordCount: nat)

  /** The exporter's fields as one value. */
  datatype ExporterState = ExporterState(destAvailable: bool, accepted: int, delivered: int, logs: seq<Logs>)

  /** The zero-valued exporter. */
  const Initial := ExporterState(false, 0, 0, [])

  /** The calls that change an exporter. */
  datatype Op = Consume(ld: Logs) | SetAvailable(available: bool)

  /** The effect of one call. */
  function Step(st: ExporterState, op: Op): ExporterState {
    match op
    case Consume(ld) =>
      if st.destAvailable then
        st.(accepted := st.accepted + ld.recordCount, delivered := st.delivered + ld.recordCount)
      else
        st.(accepted := st.accepted + ld.recordCount, logs := st.logs + [ld])
    case SetAvailable(available) =>
      if available then
        st.(delivered := st.delivered + st.accepted, logs := [], destAvailable := true)
      else
        st.(destAvailable := false)
  }

  /** A sequence of calls made one after another. */
  function Run(st: ExporterState, ops: seq<Op>): ExporterState
    decreases |ops|
  {
    if ops == [] then st else Run(Step(st, ops[0]), ops[1..])
  }

  /** The records in a sequence of batches. */
  function RecordCount(logs: seq<Logs>): nat {
    if logs == [] then 0 else logs[0].recordCount + RecordCount(logs[1..])
  }

  /** The records handed to ConsumeLogs in a sequence of calls. */
  function Consumed(ops: seq<Op>): nat {
    if ops == [] then 0
    else (if ops[0].Consume? then ops[0].ld.recordCount else 0) + Consumed(ops[1..])
  }

  /** The batches handed to ConsumeLogs in a sequence of calls, in order. */
  function Batches(ops: seq<Op>): seq<Logs> {
    if ops == [] then []
    else (if ops[0].Consume? then [ops[0].ld] else []) + Batches(ops[1..])
  }

  /** How many calls make the destination available. */
  function Releases(ops: seq<Op>): nat {
    if ops == [] then 0
    else (if ops[0] == SetAvailable(true) then 1 else 0) + Releases(ops[1..])
  }

  lemma {:induction false} RecordCountAppend(logs: seq<Logs>, ld: Logs)
    ensures RecordCount(logs + [ld]) == RecordCount(logs) + ld.recordCount
  {
    if logs != [] {
      assert (logs + [ld])[1..] == logs[1..] + [ld];
      RecordCountAppend(logs[1..], ld);
    }
  }

  /** Every record handed to ConsumeLogs is counted as accepted, whatever the
      destination's availability. */
  lemma {:induction false} AcceptedCountsEveryRecord(st: ExporterState, ops: seq<Op>)
    ensures Run(st, ops).accepted == st.accepted + Consumed(ops)
    decreases |ops|
  {
    if ops != [] {
      AcceptedCountsEveryRecord(Step(st, ops[0]), ops[1..]);
    }
  }

  /** Neither counter ever decreases. */
  lemma {:induction false} CountersNeverDecrease(st: ExporterState, ops: seq<Op>)
    requires st.accepted >= 0
    ensures Run(st, ops).accepted >= st.accepted
    ensures Run(st, ops).delivered >= st.delivered
    decreases |ops|
  {
    if ops != [] {
      CountersNeverDecrease(Step(st, ops[0]), ops[1..]);
    }
  }

  /** While the destination stays unavailable, every consumed batch is queued
      in order and nothing is delivered. */
  lemma {:induction false} UnavailableQueuesBatches(st: ExporterState, ops: seq<Op>)
    requires !st.destAvailable
    requires forall i :: 0 <= i < |ops| ==> ops[i].Consume? || ops[i] == SetAvailable(false)
    ensures Run(st, ops).logs == st.logs + Batches(ops)
    ensures Run(st, ops).delivered == st.delivered
    ensures !Run(st, ops).destAvailable
    decreases |ops|
  {
    if ops != [] {
      var next := Step(st, ops[0]);
      var first := if ops[0].Consume? then [ops[0].ld] else [];
      assert next.logs == st.logs + first && !next.destAvailable && next.delivered == st.delivered;
      assert forall i :: 0 <= i < |ops[1..]| ==> ops[1..][i] == ops[i + 1];
      UnavailableQueuesBatches(next, ops[1..]);
      assert st.logs + first + Batches(ops[1..]) == st.logs + (first + Batches(ops[1..]));
    }
  }

  /** While the destination stays available, every consumed record is
      delivered at once and the queue is untouched. */
  lemma {:induction false} AvailableDeliversAtOnce(st: ExporterState, ops: seq<Op>)
    requires st.destAvailable
    requires forall i :: 0 <= i < |ops| ==> ops[i].Consume?
    ensures Run(st, ops).delivered == st.delivered + Consumed(ops)
    ensures Run(st, ops).logs == st.logs
    decreases |ops|
  {
    if ops != [] {
      assert forall i :: 0 <= i < |ops[1..]| ==> ops[1..][i] == ops[i + 1];
      AvailableDeliversAtOnce(Step(st, ops[0]), ops[1..]);
    }
  }

  /** Every accepted record is either delivered or in the queue, exactly once,
      as long as the destination is made available at most once, and that
      while nothing has been delivered yet. */
  lemma {:induction false} BalancedWithOneRelease(st: ExporterState, ops: seq<Op>)
    requires st.delivered + RecordCount(st.logs) == st.accepted
    requires Releases(ops) == 0 || (Releases(ops) == 1 && st.delivered == 0 && !st.destAvailable)
    ensures Run(st, ops).delivered + RecordCount(Run(st, ops).logs) == Run(st, ops).accepted
    decreases |ops|
  {
    if ops != [] {
      var next := Step(st, ops[0]);
      if ops[0].Consume? && !st.destAvailable {
        RecordCountAppend(st.logs, ops[0].ld);
      }
      BalancedWithOneRelease(next, ops[1..]);
    }
  }

  /** From a fresh exporter made available at most once, no more records are
      delivered than were accepted. */
  lemma DeliveredBoundedWithOneRelease(ops: seq<Op>)
    requires Releases(ops) <= 1
    ensures Run(Initial, ops).delivered <= Run(Initial, ops).accepted
  {
    BalancedWithOneRelease(Initial, ops);
  }

  /** Making the destination available a second time counts the records
      accepted so far as delivered again, so delivered can exceed accepted. */
  lemma SecondReleaseDoubleCounts()
    ensures Run(Initial, [Consume(Logs(1)), SetAvailable(true), SetAvailable(true)]).accepted == 1
    ensures Run(Initial, [Consume(Logs(1)), SetAvailable(true), SetAvailable(true)]).delivered == 2
  {
  }

  class MockExporter {
    var destAvailable: bool
    var acceptedLogCount: int
    var deliveredLogCount: int
    var logs: seq<Logs>

    function State(): ExporterState
      reads this
    {
      ExporterState(destAvailable, acceptedLogCount, deliveredLogCount, logs)
    }

    /** NewMockExporter: every field at its zero value. */
    constructor ()
      ensures State() == Initial
      ensures !destAvailable && acceptedLogCount == 0 && deliveredLogCount == 0 && logs == []
    {
      destAvailable := false;
      acceptedLogCount := 0;
      deliveredLogCount := 0;
      logs := [];
    }

    /** Accepts a batch: delivered at once when the destination is
        available, queued otherwise. It never fails. */
    method ConsumeLogs(ld: Logs) returns (err: Option<string>)
      modifies this
      ensures State() == Step(old(State()), Consume(ld))
      ensures err == None
      ensures acceptedLogCount == old(acceptedLogCount) + ld.recordCount
      ensures destAvailable == old(destAvailable)
      ensures old(destAvailable) ==> deliveredLogCount == old(deliveredLogCount) + ld.recordCount && logs == old(logs)
      ensures !old(destAvailable) ==> deliveredLogCount == old(deliveredLogCount) && logs == old(logs) + [ld]
    {
      acceptedLogCount := acceptedLogCount + ld.recordCount;
      if destAvailable {
        deliveredLogCount := deliveredLogCount + ld.recordCount;
      } else {
        logs := logs + [ld];
      }
      return None;
    }

    /** Making the destination available counts every accepted record as
        delivered and drops the queue; making it unavailable only clears the
        flag. */
    method SetDestAvailable(available: bool)
      modifies this
      ensures State() == Step(old(State()), SetAvailable(available))
      ensures destAvailable == available
      ensures acceptedLogCount == old(acceptedLogCount)
      ensures available ==> deliveredLogCount == old(deliveredLogCount) + old(acceptedLogCount) && logs == []
      ensures !available ==> deliveredLogCount == old(deliveredLogCount) && logs == old(logs)
    {
      if available {
        deliveredLogCount := deliveredLogCount + acceptedLogCount;
        logs := [];
        destAvailable := true;
      } else {
        destAvailable := false;
      }
    }

    method AcceptedLogCount() returns (n: int)
      ensures n == acceptedLogCount
    {
      return acceptedLogCount;
    }

    method DeliveredLogCount() returns (n: int)
      ensures n == deliveredLogCount
    {
      return deliveredLogCount;
    }
  }
}
