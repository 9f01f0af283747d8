# AnalyticsEventTracker delivery engine, in Dafny

A model of the delivery core of the AnalyticsEventTracker Swift library. Callers
submit events tagged with destination names. Each event is stored, and one worker
per destination delivers every stored event that lists its destination through
that destination's sender. After a successful send, the worker asks the tracker to
take its destination off the stored record with that id.

The model has four modules.

- `AnalyticsEvents` (`analytics_event.dfy`) covers the stored event.
  - An entity is a map from string keys to values. The class `AnalyticsEvent` wraps
    one and reads and writes it through typed accessors.
  - The accessors use the keys `"id"`, `"body"` and `"destinations"`.
  - An unset or mistyped body reads as `""`, and unset destinations read as `[]`.
  - The id getter force-casts the stored value, so it requires an integer there.
- `EventTable` (`event_table.dfy`) is the store, as an in-memory table: a sequence
  of `EventRecord(id, body, destinations)` in insertion order.
  - Fetch by id (`FirstWithId`).
  - The tracker's removal rule (`RemovedFrom`).
  - The workers' range fetch (`Scan`): at most ten records with an id above the
    watermark, in ascending id order.
- `Delivery` (`delivery.dfy`) holds `Deliver`, a reference definition over values of
  what a worker does with a batch:
  - skip records that do not list the destination;
  - for one that does, check the gate, call the sender, and retry the same record
    until the sender reports success;
  - then ask for the destination to be taken off the first record with that
    record's id, and go on.

  The sender is an oracle: `replies` lists the outcomes it reports, one per call.
  Where the worker would wait (gate closed, or no reply left), `Deliver` stops and
  returns the rest of the batch.
- `Tracking` (`tracking.dfy`) holds the two classes that change state.
  - `AnalyticsEventTracker` owns:
    - the gate, which starts open and where the last write wins;
    - the registry of workers, idempotent per name;
    - the table.
  - `DestinationTracker` is a worker. It has a normalised wait time, the watermark
    `lastProcessedId`, the flag `eventSent`, the rest of the batch in hand
    (`pending`), and the log of sender calls (`sent`).
  - `ProcessBatch` is one step of the worker's endless loop:
    - with no batch in hand, it fetches one and moves the watermark to the last id
      of the batch;
    - it then works through the batch (`WorkThrough` → `HandleHead` →
      `DeliverHead` → `SendUntilSuccess`).

    Each method is proved against `Deliver`: the calls logged, the records
    finished, the table after removal and the batch left over are exactly what
    `Deliver` says.

Three behaviours of the code are kept exactly as written:

- **Ids can repeat.** Ids come from a millisecond clock, so they are not unique,
  and the store is a sequence. Fetch by id acts on the first record with that id,
  which is what the removal code does with `result.first`.
  - After a worker delivers a record, removal goes to the first record with the
    same id, which may be a different record.
  - That other record can belong to another destination and be deleted before
    it was delivered, while the delivered record keeps its destination.
  - `Delivery.RepeatedIdDeletesOtherRecord` shows this on a two-record table.
  - More than ten records with the same id can also be lost to a worker. The
    fetch returns ten of them and the watermark moves to their id, so the next
    fetch starts past the rest, and the worker never fetches them
    (`EventTable.ScanStrandsSameId`).
- **Removal rule.** The code decides on the record's destination count before
  removing anything:
  - a record with fewer than two destinations is deleted, whether or not it lists
    the destination (`EventTable.RemovedFromUnlisted`);
  - otherwise every occurrence of the destination is removed, so a record can
    keep an empty destination list. A record listing `["a", "a"]` keeps `[]`
    after removing `"a"` (`EventTable.RemovedFromKeepsEmpty`).
- **Missing id.** The id getter crashes on a record without an integer id, so
  `AnalyticsEvent.Id` requires `HasId()`.

## Model

| member | source | states |
|---|---|---|
| AnalyticsEvents.KeysDistinct | AnalyticsEventTracker/AnalyticsEvent.swift:13-16 | the id, body and destinations keys are pairwise different |
| AnalyticsEvents.AnalyticsEvent.constructor | AnalyticsEventTracker/AnalyticsEvent.swift:20-23 | a newly inserted entity has no attribute set |
| AnalyticsEvents.AnalyticsEvent.Wrap | AnalyticsEventTracker/AnalyticsEvent.swift:25-27 | a view of a fetched entity holds exactly that entity |
| AnalyticsEvents.AnalyticsEvent.SetId | AnalyticsEventTracker/AnalyticsEvent.swift:29-36 | writes the id key only; reading the id afterwards gives the value set; body and destinations read as before |
| AnalyticsEvents.AnalyticsEvent.SetBody | AnalyticsEventTracker/AnalyticsEvent.swift:38-45 | writes the body key only; reading the body gives the value set; id and destinations unchanged |
| AnalyticsEvents.AnalyticsEvent.SetDestinations | AnalyticsEventTracker/AnalyticsEvent.swift:47-54 | writes the destinations key only; reading them gives the same list; id and body unchanged |
| AnalyticsEvents.ReadDefaults | AnalyticsEventTracker/AnalyticsEvent.swift:38-54 | an unset or non-string body reads as the empty string, unset or mistyped destinations read as no destinations, and an empty entity has no id |
| EventTable.FirstWithId | AnalyticsEventTracker/AnalyticsEventTracker.swift:128-138 | the index returned holds the id and no earlier record does; there is none exactly when no record has the id |
| EventTable.RemoveAllCounts | AnalyticsEventTracker/AnalyticsEventTracker.swift:143 | the name no longer occurs; every other name occurs as often as before; the list shrinks by the occurrences removed |
| EventTable.RemovedFrom | AnalyticsEventTracker/AnalyticsEventTracker.swift:132-144 | the removal rule on the table: no record with the id leaves it as it is; the first record with the id is deleted when it lists fewer than two destinations, otherwise it loses every occurrence of the destination; its cases are stated by RemovedFromMissing, RemovedFromShort and RemovedFromLong |
| EventTable.RemoveAllDistributes | AnalyticsEventTracker/AnalyticsEventTracker.swift:143 | removal works piece by piece over a concatenation, so the remaining names keep their order |
| EventTable.RemoveAllAbsent | AnalyticsEventTracker/AnalyticsEventTracker.swift:143 | a list without the name is left as it is |
| EventTable.RemovedFromMissing | AnalyticsEventTracker/AnalyticsEventTracker.swift:132-136 | no record with the id: the table is unchanged |
| EventTable.RemovedFromShort | AnalyticsEventTracker/AnalyticsEventTracker.swift:138-141 | the first record with the id is deleted when it lists fewer than two destinations, listed or not; records before and after it keep their order |
| EventTable.RemovedFromLong | AnalyticsEventTracker/AnalyticsEventTracker.swift:138-144 | otherwise that record keeps its place, id and body, loses every occurrence of the destination and keeps the other names in order; all other records are untouched |
| EventTable.RemovedFromKeepsEmpty | AnalyticsEventTracker/AnalyticsEventTracker.swift:140-144 | a record listing the destination twice keeps an empty destination list |
| EventTable.RemovedFromUnlisted | AnalyticsEventTracker/AnalyticsEventTracker.swift:140-141 | a record with one destination is deleted even when asked to remove another destination |
| EventTable.Above | AnalyticsEventTracker/DestinationTracker.swift:76 | exactly the records with an id above the watermark, each as often as in the table |
| EventTable.InsertKeepsRecords | AnalyticsEventTracker/DestinationTracker.swift:73-74 | inserting into the ordered list adds exactly that record |
| EventTable.InsertSorted | AnalyticsEventTracker/DestinationTracker.swift:73-74 | inserting into a list in ascending id order keeps it in ascending id order |
| EventTable.SortByIdSorts | AnalyticsEventTracker/DestinationTracker.swift:73-74 | sorting puts the records in ascending id order and is a permutation of them |
| EventTable.Scan | AnalyticsEventTracker/DestinationTracker.swift:71-79 | a fetch returns at most the limit; every record in it is from the table with an id above the watermark, and no record comes back more often than the table holds it |
| EventTable.ScanSorted | AnalyticsEventTracker/DestinationTracker.swift:73-74 | a fetch comes back in ascending id order |
| EventTable.ScanWatermark | AnalyticsEventTracker/DestinationTracker.swift:81-85 | the last record of a non-empty fetch has the largest id of the batch, and that id is above the old watermark |
| EventTable.ScanOmitsOnlyWhenFull | AnalyticsEventTracker/DestinationTracker.swift:71-76 | when a fetch returns fewer copies of a record above the watermark than the table holds, the batch is full and the record's id is at least the batch's last id |
| EventTable.ScanStrandsSameId | AnalyticsEventTracker/DestinationTracker.swift:75-85 | with more records sharing one id above the watermark than the limit, the fetch is full and ends at that id, and a fetch past that id returns nothing, so the records left out are never fetched |
| Delivery.Deliver | AnalyticsEventTracker/DestinationTracker.swift:87-119 | the reference definition of the worker's for-loop and retry loop over a batch; its properties are stated by the Deliver lemmas below, and each worker method is proved equal to it |
| Delivery.DeliverSkip | AnalyticsEventTracker/DestinationTracker.swift:90-92 | a record that does not list the destination is passed over with no call |
| Delivery.DeliverAttempt | AnalyticsEventTracker/DestinationTracker.swift:94-115 | with the gate open and a reply at hand, the head record is sent; on success it is finished and the worker moves on, otherwise it is tried again |
| Delivery.DeliverWaits | AnalyticsEventTracker/DestinationTracker.swift:97-103 | with the gate closed or no reply left, the worker makes no call and waits on the head record |
| Delivery.DeliverClosedGate | AnalyticsEventTracker/DestinationTracker.swift:97-110 | while the gate reports unreachable, no sender call is made and nothing is finished |
| Delivery.DeliverOutcomes | AnalyticsEventTracker/DestinationTracker.swift:105-111 | the k-th call reports the k-th reply, and there are no more calls than replies |
| Delivery.DeliverRest | AnalyticsEventTracker/DestinationTracker.swift:87-115 | what is left is a tail of the batch, headed by a record that lists the destination; with the gate open it is left only when every reply is used |
| Delivery.DeliverFinished | AnalyticsEventTracker/DestinationTracker.swift:87-119 | the matching records of the batch are the finished ones followed by the matching ones still to do; the finished records are exactly those of the successful calls, in order |
| Delivery.DeliverStartsAtHead | AnalyticsEventTracker/DestinationTracker.swift:94-115 | with a matching head record, the first call is for it, or no call is made and the whole batch is left |
| Delivery.DeliverRetries | AnalyticsEventTracker/DestinationTracker.swift:94-115 | a failed call is followed by another call for the same record, or, when it is the last call, the worker waits on that record; later records are never tried before it |
| Delivery.DeliverOnlyListed | AnalyticsEventTracker/DestinationTracker.swift:87-117 | the sender is only called for batch records that list the destination, and only those records are finished, so removal is requested only for their ids |
| Delivery.RemoveEachListed | AnalyticsEventTracker/DestinationTracker.swift:117 | finishing one more record applies the tracker's removal to it after the earlier ones; a skipped record changes nothing |
| Delivery.RepeatedIdDeletesOtherRecord | AnalyticsEventTracker/AnalyticsEventTracker.swift:128-141 | with two records of the same id, finishing the one that lists the worker's destination deletes the other one, owed to another destination, and leaves the finished one listing the worker's destination |
| Tracking.NormalisedWait | AnalyticsEventTracker/DestinationTracker.swift:38-42 | the wait time kept is the given one when positive and 30 otherwise, so it is always positive |
| Tracking.RestBelow | AnalyticsEventTracker/DestinationTracker.swift:85-87 | the records the worker still has to do lie at or below the watermark, and the last of them is at it |
| Tracking.AnalyticsEventTracker.constructor | AnalyticsEventTracker/AnalyticsEventTracker.swift:35-54 | a tracker starts with the gate open and no workers, over the records earlier runs left in the persistent store |
| Tracking.AnalyticsEventTracker.AddDestinationSender | AnalyticsEventTracker/AnalyticsEventTracker.swift:68-81 | a name that already has a worker leaves the registry unchanged; a new name gets exactly one fresh worker with the normalised wait time and watermark zero, and no other entry changes |
| Tracking.AnalyticsEventTracker.SendSingle | AnalyticsEventTracker/AnalyticsEventTracker.swift:83-85 | sending to one destination appends the same record as sending to the list holding only it |
| Tracking.AnalyticsEventTracker.Send | AnalyticsEventTracker/AnalyticsEventTracker.swift:87-104 | appends one record with the given id, the event as body and the destinations as given, in order; earlier records are unchanged |
| Tracking.AnalyticsEventTracker.UpdateInternetReachability | AnalyticsEventTracker/AnalyticsEventTracker.swift:106-112 | the gate holds the value written last |
| Tracking.AnalyticsEventTracker.ShouldSendEvents | AnalyticsEventTracker/AnalyticsEventTracker.swift:114-120 | reports the gate as last written, changing nothing |
| Tracking.AnalyticsEventTracker.RemoveDestinationFromRecord | AnalyticsEventTracker/AnalyticsEventTracker.swift:122-152 | the table afterwards is the removal rule applied to the first record with the id |
| Tracking.DestinationTracker.constructor | AnalyticsEventTracker/DestinationTracker.swift:26-62 | a worker keeps its destination and the normalised wait time, starts with watermark 0, no batch in hand, no calls made and `eventSent` false |
| Tracking.DestinationTracker.SendUntilSuccess | AnalyticsEventTracker/DestinationTracker.swift:94-115 | the calls it makes and whether the head record ended sent are exactly those of the reference definition; the earlier call log is kept |
| Tracking.DestinationTracker.DeliverHead | AnalyticsEventTracker/DestinationTracker.swift:94-119 | after a success, the removal rule is applied to the record's id, `eventSent` is false again and the batch moves on; while waiting, the batch and table are unchanged; both agree with the reference definition |
| Tracking.DestinationTracker.HandleHead | AnalyticsEventTracker/DestinationTracker.swift:87-119 | one pass of the for-loop: a record not listing the destination is passed over with no call and no removal, a listed one is delivered as above |
| Tracking.DestinationTracker.WorkThrough | AnalyticsEventTracker/DestinationTracker.swift:87-120 | working through the batch logs exactly the reference definition's calls, applies the removal rule to the ids of exactly its finished records in order, and keeps exactly its leftover as the batch in hand |
| Tracking.DestinationTracker.Fetch | AnalyticsEventTracker/DestinationTracker.swift:71-85 | the batch is the fetch past the watermark; a non-empty one moves the watermark to its last id, which strictly increases it; an empty one leaves it |
| Tracking.DestinationTracker.ProcessBatch | AnalyticsEventTracker/DestinationTracker.swift:66-125 | one step of the worker loop: the batch is the one in hand or a new fetch, the watermark moves only on a new non-empty fetch and then strictly increases, and delivery of that batch is exactly the reference definition; the worker invariant is kept |

## Left out

- The store engine is not modelled: the persistent container, contexts, fetch requests, predicates, `save` and `refresh`. The table is an in-memory sequence. The store leaves unspecified the order of records with equal ids in the sorted range fetch, and the order of the results of the removal's fetch by id, which has no sort descriptor. For both, the model takes table order, so `result.first` is the first record with the id in insertion order.
- Store failures are not modelled. A failing fetch or save, and the logging of the error (`log`, `logger`), are side effects with no effect on state.
- Destination names are compared code point by code point, as sequences of characters. Swift compares `String` values by Unicode canonical equivalence, and the source relies on that in three places: the worker's `contains` check, the `removeAll` on a record's destinations, and the registry lookup. Two canonically equivalent spellings of one name (a precomposed "é" and "e" followed by a combining accent) are one destination in the source and two in the model.
- Concurrency and timing are not modelled: the write and work queues, the semaphores, `sleep` for the wait time and the one-second delay after a failed send. Submission and removal happen at once and in sequence.
- The reachability wiring (`setupReachability` and the host callbacks) is not modelled. The host calls `UpdateInternetReachability` itself.
- Teardown is not modelled: the worker's checks of whether the tracker still exists, weak references, and `deinit`.
- Tracking.DestinationTracker.ProcessBatch: covers one batch and stops where the source would wait. When the gate is closed, the source sleeps and checks again. When the sender has no reply left in `replies`, the worker would still be waiting on it. A later call resumes at the same record. The endless outer loop and eventual delivery (liveness) are not stated, because they depend on the host and the senders.
- Tracking.DestinationTracker.SendUntilSuccess: the gate cannot change during one call, because nothing else runs concurrently. The source can see it change between two checks.
- Tracking.AnalyticsEventTracker.Send: the id is a parameter standing for the millisecond clock value. Floating point and the clock are not modelled.
- The sender closure is not modelled. It is replaced by the `replies` oracle, and the log `sent` records each call with its record and outcome.
- Ids are unbounded integers. Swift's 64-bit `Int` width is not modelled; a millisecond clock cannot reach it.
