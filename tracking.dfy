/**
 * The tracker and its destination workers. The tracker owns the event table,
 * the reachability gate and the registry of workers, one per destination
 * name; a worker scans the table past its watermark and delivers, through the
 * destination's sender, every event that still lists its destination.
 *
 * The two classes refer to each other (the tracker registers workers, a worker
 * calls back into the tracker for the gate and for removal), so they share
 * this module.
 */
module Tracking {
  import opened EventTable
  import opened Delivery
  import opened AnalyticsEvents

  /** An unsigned 32-bit integer, the type of a worker's wait time. */
  newtype u32 = x: int | 0 <= x < 0x1_0000_0000

  /** The wait time, in seconds, a worker uses when it is registered with none. */
  const DefaultWaitSec: u32 := 30

  /** The wait time a worker keeps: the one given when positive, otherwise the default. */
  function NormalisedWait(waitTimeSec: u32): (r: u32)
    ensures r > 0
    ensures waitTimeSec > 0 ==> r == waitTimeSec
    ensures waitTimeSec == 0 ==> r == DefaultWaitSec
  {
    if waitTimeSec > 0 then waitTimeSec else DefaultWaitSec
  }

  /** Every record of `batch` lies at or below `mark`, and the last one is at it. */
  predicate AtOrBelow(batch: seq<EventRecord>, mark: int)
  {
    && (forall i | 0 <= i < |batch| :: batch[i].id <= mark)
    && (batch != [] ==> batch[|batch| - 1].id == mark)
  }

  /**
   * What is left of a batch that lies at or below `mark` and ends at it does
   * the same: the watermark still covers the records the worker waits on.
   */
  lemma RestBelow(batch: seq<EventRecord>, destination: string, reachable: bool, replies: seq<bool>, mark: int)
    requires AtOrBelow(batch, mark)
    ensures AtOrBelow(Deliver(batch, destination, reachable, replies).rest, mark)
  {
    var rest := Deliver(batch, destination, reachable, replies).rest;
    DeliverRest(batch, destination, reachable, replies);
    var k := |batch| - |rest|;
    forall i | 0 <= i < |rest| ensures rest[i].id <= mark {
      assert rest[i] == batch[k + i];
    }
  }

  class AnalyticsEventTracker {
    /** The reachability gate; the last value written wins. */
    var internetReachable: bool
    /** The registry: at most one worker per destination name. */
    var destinationTrackers: map<string, DestinationTracker>
    /** The stored events, in the order they were written. */
    var records: seq<EventRecord>

    /** Each registered worker serves the destination it is registered under. */
    ghost predicate Valid()
      reads this
    {
      forall name | name in destinationTrackers :: destinationTrackers[name].destination == name
    }

    /**
     * A tracker starts with the gate open and no workers, over the records that
     * earlier runs left in the persistent store.
     */
    constructor (stored: seq<EventRecord>)
      ensures Valid()
      ensures internetReachable && destinationTrackers == map[] && records == stored
    {
      internetReachable := true;
      destinationTrackers := map[];
      records := stored;
    }

    /**
     * Registers a worker for `destination`. A name that already has a worker is
     * left alone; a new name gets a fresh worker whose watermark is zero.
     */
    method AddDestinationSender(destination: string, waitTimeSec: u32)
      requires Valid()
      modifies this`destinationTrackers
      ensures Valid()
      ensures destination in destinationTrackers
      ensures destination in old(destinationTrackers) ==> destinationTrackers == old(destinationTrackers)
      ensures destination !in old(destinationTrackers) ==>
        var worker := destinationTrackers[destination];
        && fresh(worker)
        && destinationTrackers == old(destinationTrackers)[destination := worker]
        && worker.waitTimeSec == NormalisedWait(waitTimeSec)
        && worker.lastProcessedId == 0 && worker.pending == [] && worker.sent == []
        && worker.Valid()
    {
      if destination in destinationTrackers {
        return;
      }
      var tracker := new DestinationTracker(destination, waitTimeSec);
      destinationTrackers := destinationTrackers[destination := tracker];
    }

    /** Sending to one destination is sending to the list holding only it. */
    method SendSingle(event: string, destination: string, id: int)
      modifies this`records
      ensures records == old(records) + [EventRecord(id, event, [destination])]
    {
      Send(event, [destination], id);
    }

    /**
     * Stores a new event with the given body and destinations, in order. The id
     * comes from the caller's clock.
     */
    method Send(event: string, destinations: seq<string>, id: int)
      modifies this`records
      ensures records == old(records) + [EventRecord(id, event, destinations)]
    {
      var newEvent := new AnalyticsEvent();
      newEvent.SetId(id);
      newEvent.SetBody(event);
      newEvent.SetDestinations(destinations);
      records := records + [EventRecord(newEvent.Id(), newEvent.Body(), newEvent.Destinations())];
    }

    method UpdateInternetReachability(reachable: bool)
      modifies this`internetReachable
      ensures internetReachable == reachable
    {
      internetReachable := reachable;
    }

    /** The gate as last written. */
    method ShouldSendEvents() returns (result: bool)
      ensures result == internetReachable
    {
      result := internetReachable;
    }

    /** Takes `destination` off the first record with `id`, deleting that record when it lists fewer than two. */
    method RemoveDestinationFromRecord(id: int, destination: string)
      modifies this`records
      ensures records == RemovedFrom(old(records), id, destination)
    {
      var found := FirstWithId(records, id);
      if found.None? {
        return;
      }
      var i := found.value;
      var event := records[i];
      if |event.destinations| < 2 {
        records := records[..i] + records[i + 1..];
      } else {
        records := records[i := event.(destinations := RemoveAll(event.destinations, destination))];
      }
    }
  }

  class DestinationTracker {
    const destination: string
    const waitTimeSec: u32
    /** The watermark: the last id of the last batch fetched. */
    var lastProcessedId: int
    /** Whether the sender reported success for the record being delivered. */
    var eventSent: bool
    /** What is left of the batch being worked through; its head is the record the worker waits on. */
    var pending: seq<EventRecord>
    /** Every call of the sender so far, with the outcome it reported. */
    var sent: seq<Attempt>

    /**
     * Between steps no record is half-finished, and the batch in hand lies at or
     * below the watermark and ends at it.
     */
    ghost predicate Valid()
      reads this
    {
      !eventSent && AtOrBelow(pending, lastProcessedId)
    }

    constructor (destination: string, waitTimeSec: u32)
      ensures this.destination == destination && this.waitTimeSec == NormalisedWait(waitTimeSec)
      ensures lastProcessedId == 0 && pending == [] && sent == []
      ensures Valid()
    {
      this.destination := destination;
      this.waitTimeSec := NormalisedWait(waitTimeSec);
      lastProcessedId := 0;
      eventSent := false;
      pending := [];
      sent := [];
    }

    /** The batch the next step works on: what is left of the current one, or else a new fetch. */
    function NextBatch(records: seq<EventRecord>): seq<EventRecord>
      reads this
    {
      if pending != [] then pending else Scan(records, lastProcessedId, FetchLimit)
    }

    /**
     * The retry loop for the record at the head of the batch, which lists the
     * destination: while the gate is open and `replies` has a reply left, call
     * the sender with the record's body until it reports success. `eventSent`
     * is left false when the worker has to wait on the record instead.
     */
    method SendUntilSuccess(tracker: AnalyticsEventTracker, replies: seq<bool>, from: nat) returns (next: nat)
      requires !eventSent && pending != [] && destination in pending[0].destinations && from <= |replies|
      modifies this`eventSent, this`sent
      ensures from <= next <= |replies|
      ensures |sent| == |old(sent)| + next - from && sent[..|old(sent)|] == old(sent)
      ensures var run := Deliver(pending, destination, tracker.internetReachable, replies[from..]);
        if eventSent then
          var after := Deliver(pending[1..], destination, tracker.internetReachable, replies[next..]);
          run == Run(sent[|old(sent)|..] + after.attempts, [pending[0]] + after.finished, after.rest)
        else
          run == Run(sent[|old(sent)|..], [], pending)
    {
      var event := pending[0];
      ghost var g := tracker.internetReachable;
      ghost var run := Deliver(pending, destination, g, replies[from..]);
      ghost var made: seq<Attempt> := [];
      next := from;
      while !eventSent
        invariant from <= next <= |replies|
        invariant sent == old(sent) + made && |made| == next - from
        invariant !eventSent ==>
          var r := Deliver(pending, destination, g, replies[next..]);
          run == Run(made + r.attempts, r.finished, r.rest)
        invariant eventSent ==>
          var r := Deliver(pending[1..], destination, g, replies[next..]);
          run == Run(made + r.attempts, [event] + r.finished, r.rest)
        decreases |replies| - next
      {
        var reachable := tracker.ShouldSendEvents();
        if !reachable || next == |replies| {
          // the source pauses here and checks again; the step ends waiting on this record
          DeliverWaits(pending, destination, g, replies[next..]);
          assert sent[|old(sent)|..] == made && made + [] == made;
          return;
        }
        assert replies[next..][1..] == replies[next + 1..];
        DeliverAttempt(pending, destination, replies[next..]);
        ghost var after := Deliver(if replies[next] then pending[1..] else pending, destination, g, replies[next + 1..]);
        ghost var outcome := if replies[next] then [event] else [];
        ThenStep(run, made, [], Deliver(pending, destination, g, replies[next..]),
          [Attempt(event, replies[next])], outcome, after);
        assert [] + outcome == outcome;
        eventSent := replies[next];
        sent := sent + [Attempt(event, eventSent)];
        made := made + [Attempt(event, eventSent)];
        next := next + 1;
      }
      assert sent[|old(sent)|..] == made;
    }

    /**
     * The work on the record at the head of the batch, which lists the
     * destination: the retry loop, then, once the sender reported success, the
     * destination is taken off the first record with its id, `eventSent` is
     * cleared and the worker moves on. `finished` is false when it has to wait on the record.
     */
    method DeliverHead(tracker: AnalyticsEventTracker, replies: seq<bool>, from: nat) returns (next: nat, finished: bool)
      requires !eventSent && pending != [] && destination in pending[0].destinations && from <= |replies|
      modifies this`eventSent, this`pending, this`sent, tracker`records
      ensures !eventSent
      ensures from <= next <= |replies|
      ensures |sent| == |old(sent)| + next - from && sent[..|old(sent)|] == old(sent)
      ensures var run := Deliver(old(pending), destination, tracker.internetReachable, replies[from..]);
        if finished then
          && pending == old(pending)[1..]
          && tracker.records == RemovedFrom(old(tracker.records), old(pending)[0].id, destination)
          && var after := Deliver(pending, destination, tracker.internetReachable, replies[next..]);
             run == Run(sent[|old(sent)|..] + after.attempts, [old(pending)[0]] + after.finished, after.rest)
        else
          && pending == old(pending) && tracker.records == old(tracker.records)
          && run == Run(sent[|old(sent)|..], [], pending)
    {
      next := SendUntilSuccess(tracker, replies, from);
      if !eventSent {
        return next, false;
      }
      tracker.RemoveDestinationFromRecord(pending[0].id, destination);
      eventSent := false;
      pending := pending[1..];
      finished := true;
    }

    /**
     * One pass of the for-loop over the batch: a head record that does not list
     * the destination is passed over; one that does is delivered. `finished`
     * is false when the worker has to wait on the head record instead.
     */
    method HandleHead(tracker: AnalyticsEventTracker, replies: seq<bool>, from: nat) returns (next: nat, finished: bool)
      requires !eventSent && pending != [] && from <= |replies|
      modifies this`eventSent, this`pending, this`sent, tracker`records
      ensures !eventSent
      ensures from <= next <= |replies|
      ensures |sent| == |old(sent)| + next - from && sent[..|old(sent)|] == old(sent)
      ensures var run := Deliver(old(pending), destination, tracker.internetReachable, replies[from..]);
        var head := old(pending)[0];
        if finished then
          && pending == old(pending)[1..]
          && (destination in head.destinations ==>
                tracker.records == RemovedFrom(old(tracker.records), head.id, destination))
          && (destination !in head.destinations ==> tracker.records == old(tracker.records))
          && var after := Deliver(pending, destination, tracker.internetReachable, replies[next..]);
             run == Run(sent[|old(sent)|..] + after.attempts, Listed(head, destination) + after.finished, after.rest)
        else
          && pending == old(pending) && tracker.records == old(tracker.records)
          && run == Run(sent[|old(sent)|..], [], pending)
    {
      if destination !in pending[0].destinations {
        DeliverSkip(pending, destination, tracker.internetReachable, replies[from..]);
        assert sent[|sent|..] == [];
        pending := pending[1..];
        return from, true;
      }
      next, finished := DeliverHead(tracker, replies, from);
    }

    /**
     * The for-loop over the batch in hand: records that do not list the
     * destination are skipped; for one that does, the sender is called until it
     * succeeds and then the destination is taken off the first record with its
     * id. Ends when the batch is done or the worker has to wait on a record.
     */
    method WorkThrough(tracker: AnalyticsEventTracker, replies: seq<bool>) returns (used: nat)
      requires Valid()
      modifies this`eventSent, this`pending, this`sent, tracker`records
      ensures Valid()
      ensures var run := Deliver(old(pending), destination, tracker.internetReachable, replies);
        && pending == run.rest
        && sent == old(sent) + run.attempts
        && used == |run.attempts|
        && tracker.records == RemoveEach(old(tracker.records), run.finished, destination)
    {
      ghost var batch := pending;
      ghost var g := tracker.internetReachable;
      ghost var whole := Deliver(batch, destination, g, replies);
      ghost var made: seq<Attempt> := [];
      ghost var done: seq<EventRecord> := [];
      ghost var k := 0;
      used := 0;
      assert replies[0..] == replies;
      assert whole == Run(made + whole.attempts, done + whole.finished, whole.rest);
      while pending != []
        invariant !eventSent && k <= |batch| && pending == batch[k..]
        invariant used <= |replies| && |made| == used && sent == old(sent) + made
        invariant tracker.records == RemoveEach(old(tracker.records), done, destination)
        invariant var r := Deliver(pending, destination, g, replies[used..]);
          whole == Run(made + r.attempts, done + r.finished, r.rest)
        decreases |pending|
      {
        ghost var head := pending[0];
        ghost var r0 := Deliver(pending, destination, g, replies[used..]);
        ghost var sentBefore := sent;
        var next, finished := HandleHead(tracker, replies, used);
        ghost var step := sent[|sentBefore|..];
        assert sent == sentBefore + step;
        ConcatAssoc(old(sent), made, step);
        if !finished {
          assert step + [] == step;
          ThenStep(whole, made, done, r0, step, [], Run([], [], pending));
          made := made + step;
          used := next;
          assert done + [] == done && made + [] == made;
          RestBelow(batch, destination, g, replies, lastProcessedId);
          return;
        }
        ThenStep(whole, made, done, r0, step, Listed(head, destination), Deliver(pending, destination, g, replies[next..]));
        RemoveEachListed(old(tracker.records), done, head, destination);
        made := made + step;
        used := next;
        done := done + Listed(head, destination);
        k := k + 1;
      }
      assert done + [] == done;
      RestBelow(batch, destination, g, replies, lastProcessedId);
    }

    /**
     * The fetch that starts a batch: at most ten records past the watermark, in
     * ascending id order; the watermark moves to the last of them.
     */
    method Fetch(records: seq<EventRecord>)
      requires Valid() && pending == []
      modifies this`lastProcessedId, this`pending
      ensures Valid()
      ensures pending == Scan(records, old(lastProcessedId), FetchLimit)
      ensures lastProcessedId == if pending == [] then old(lastProcessedId) else pending[|pending| - 1].id
      ensures pending != [] ==> lastProcessedId > old(lastProcessedId)
    {
      var batch := Scan(records, lastProcessedId, FetchLimit);
      if batch == [] {
        return;
      }
      ScanWatermark(records, lastProcessedId, FetchLimit);
      forall i | 0 <= i < |batch| ensures batch[i].id <= batch[|batch| - 1].id {
        assert batch[i] in batch;
      }
      lastProcessedId := batch[|batch| - 1].id;
      pending := batch;
    }

    /**
     * One step of the worker: with no batch in hand it fetches one past the
     * watermark and moves the watermark to the batch's last id; then it works
     * through the batch until the batch is done or it has to wait, because the
     * gate is closed or the sender has no further reply in `replies`.
     */
    method ProcessBatch(tracker: AnalyticsEventTracker, replies: seq<bool>) returns (used: nat, ghost batch: seq<EventRecord>)
      requires Valid()
      modifies this`lastProcessedId, this`eventSent, this`pending, this`sent, tracker`records
      ensures Valid()
      ensures batch == old(NextBatch(tracker.records))
      ensures lastProcessedId == if old(pending) == [] && batch != [] then batch[|batch| - 1].id else old(lastProcessedId)
      ensures old(pending) == [] && batch != [] ==> lastProcessedId > old(lastProcessedId)
      ensures var run := Deliver(batch, destination, tracker.internetReachable, replies);
        && pending == run.rest
        && sent == old(sent) + run.attempts
        && used == |run.attempts|
        && tracker.records == RemoveEach(old(tracker.records), run.finished, destination)
    {
      if pending == [] {
        Fetch(tracker.records);
        if pending == [] {
          // nothing new: the worker pauses for its wait time and fetches again
          assert tracker.records == RemoveEach(tracker.records, [], destination);
          return 0, [];
        }
      }
      batch := pending;
      used := WorkThrough(tracker, replies);
    }
  }
}
