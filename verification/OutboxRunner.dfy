/** The runner over the whole outbox table: claiming a batch, processing one event, failing it. */
module OutboxRunner {
  import opened Basics
  import opened OutboxRows

  datatype Outcome = Done | LockLost | Failed

  /** ORDER BY available_at, created_at puts a no later than b. */
  predicate NoLater(a: Event, b: Event)
  {
    a.availableAt < b.availableAt || (a.availableAt == b.availableAt && a.createdAt <= b.createdAt)
  }

  /** The rows of the table in the order in which they are claimed. */
  ghost predicate InOrder(events: map<Id, Event>, order: seq<Id>)
  {
    && (forall i :: 0 <= i < |order| ==> order[i] in events)
    && (forall id :: id in events ==> id in order)
    && (forall i, j :: 0 <= i < j < |order| ==> order[i] != order[j])
    && (forall i, j :: 0 <= i < j < |order| ==> NoLater(events[order[i]], events[order[j]]))
  }

  /** The ids a claim takes: the first claimable rows in this order, up to the batch size. */
  function Batch(events: map<Id, Event>, order: seq<Id>, size: nat, now: int, ttl: int): seq<Id>
    requires forall i :: 0 <= i < |order| ==> order[i] in events
  {
    if order == [] then []
    else
      var taken := Batch(events, order[..|order| - 1], size, now, ttl);
      var id := order[|order| - 1];
      if |taken| < size && Claimable(events[id], now, ttl) then taken + [id] else taken
  }

  /** The table with these rows claimed. */
  function ClaimAll(events: map<Id, Event>, ids: seq<Id>, worker: Id, now: int): map<Id, Event>
  {
    map id | id in events :: if id in ids then Claim(events[id], worker, now) else events[id]
  }

  /**
   * A batch holds distinct claimable rows, and a claimable row is passed over only when the batch
   * is full of rows that come no later.
   */
  lemma {:induction false} BatchIsOldest(events: map<Id, Event>, order: seq<Id>, size: nat, now: int, ttl: int)
    requires forall i :: 0 <= i < |order| ==> order[i] in events
    requires forall i, j :: 0 <= i < j < |order| ==> order[i] != order[j] && NoLater(events[order[i]], events[order[j]])
    ensures var batch := Batch(events, order, size, now, ttl);
            && |batch| <= size
            && (forall i, j :: 0 <= i < j < |batch| ==> batch[i] != batch[j])
            && (forall id :: id in batch ==> id in order && Claimable(events[id], now, ttl))
            && (forall id :: id in order && id !in batch && Claimable(events[id], now, ttl) ==>
                  |batch| == size && forall c :: c in batch ==> NoLater(events[c], events[id]))
  {
    if order == [] {
    } else {
      BatchIsOldest(events, order[..|order| - 1], size, now, ttl);
      assert forall id :: id in order ==> id in order[..|order| - 1] || id == order[|order| - 1];
    }
  }

  /** Claiming one more row. */
  lemma ClaimOneMore(events: map<Id, Event>, ids: seq<Id>, id: Id, worker: Id, now: int)
    requires id in events && id !in ids
    ensures ClaimAll(events, ids, worker, now)[id] == events[id]
    ensures ClaimAll(events, ids + [id], worker, now)
            == ClaimAll(events, ids, worker, now)[id := Claim(events[id], worker, now)]
  {
  }

  /** Looking at one more row. */
  lemma BatchSnoc(events: map<Id, Event>, order: seq<Id>, i: nat, size: nat, now: int, ttl: int)
    requires InOrder(events, order) && i < |order|
    requires forall id :: id in Batch(events, order[..i], size, now, ttl) ==> id in order[..i]
    ensures order[i] !in Batch(events, order[..i], size, now, ttl)
    ensures var taken := Batch(events, order[..i], size, now, ttl);
            Batch(events, order[..i + 1], size, now, ttl) ==
            if |taken| < size && Claimable(events[order[i]], now, ttl) then taken + [order[i]] else taken
    ensures var rows := order[..i + 1]; forall id :: id in Batch(events, rows, size, now, ttl) ==> id in rows
  {
    assert order[..i + 1][..i] == order[..i];
    assert order[i] !in order[..i];
    assert order[..i + 1] == order[..i] + [order[i]];
  }

  /**
   * The same of a batch taken from the whole table, in the fields of the rows: each is unprocessed,
   * not dead, due, and unlocked or locked for longer than the TTL. A row that is left over fails
   * one of these, or the batch is full and everything in it was due earlier, or was due as early
   * and created no later.
   */
  ghost predicate OldestBatch(events: map<Id, Event>, batch: seq<Id>, size: nat, now: int, ttl: int)
  {
    && |batch| <= size
    && (forall i, j :: 0 <= i < j < |batch| ==> batch[i] != batch[j])
    && (forall id :: id in batch ==>
          && id in events
          && events[id].processedAt.None? && events[id].deadLetteredAt.None? && events[id].availableAt <= now
          && (events[id].lock.None? || now - events[id].lock.value.at > ttl))
    && (forall id :: id in events && id !in batch ==>
          || events[id].processedAt.Some? || events[id].deadLetteredAt.Some? || events[id].availableAt > now
          || (events[id].lock.Some? && now - events[id].lock.value.at <= ttl)
          || (|batch| == size
              && forall c :: c in batch ==>
                   events[c].availableAt < events[id].availableAt
                   || (events[c].availableAt == events[id].availableAt && events[c].createdAt <= events[id].createdAt)))
  }

  /** The table after a claim, in the fields of the rows: one more attempt and a new lock for those taken. */
  ghost predicate ClaimedBy(events: map<Id, Event>, after: map<Id, Event>, batch: seq<Id>, worker: Id, now: int)
  {
    && after.Keys == events.Keys
    && (forall id :: id in events && id !in batch ==> after[id] == events[id])
    && (forall id :: id in events && id in batch ==>
          after[id] == Event(events[id].attempts + 1, events[id].availableAt, events[id].createdAt,
                             Some(Lock(now, worker)), events[id].processedAt, events[id].deadLetteredAt))
  }

  lemma BatchIsOldestInTable(events: map<Id, Event>, order: seq<Id>, size: nat, now: int, ttl: int)
    requires InOrder(events, order)
    ensures OldestBatch(events, Batch(events, order, size, now, ttl), size, now, ttl)
  {
    BatchIsOldest(events, order, size, now, ttl);
  }

  class Runner {
    const workerID: Id
    const batchSize: nat
    const maxAttempts: nat
    const lockTTL: nat
    var events: map<Id, Event>
    var receipts: set<Id>

    constructor (workerID: Id, batchSize: nat, maxAttempts: nat, lockTTL: nat, events: map<Id, Event>)
      ensures this.workerID == workerID && this.batchSize == batchSize
      ensures this.maxAttempts == maxAttempts && this.lockTTL == lockTTL
      ensures this.events == events && receipts == {}
    {
      this.workerID, this.batchSize, this.maxAttempts, this.lockTTL := workerID, batchSize, maxAttempts, lockTTL;
      this.events, receipts := events, {};
    }

    /**
     * Claims the batch that has been available longest, older rows first among equals: each claimed
     * row was claimable and is now ours with one more attempt, nothing else changed, and a claimable
     * row is passed over only when the batch is full of rows that come no later.
     */
    method ClaimOutboxEvents(order: seq<Id>, now: int) returns (claimed: seq<Id>)
      requires InOrder(events, order)
      modifies this`events
      ensures claimed == Batch(old(events), order, batchSize, now, lockTTL)
      ensures ClaimedBy(old(events), events, claimed, workerID, now)
      ensures OldestBatch(old(events), claimed, batchSize, now, lockTTL)
    {
      claimed := [];
      assert order[..0] == [];
      for i := 0 to |order|
        invariant claimed == Batch(old(events), order[..i], batchSize, now, lockTTL)
        invariant forall id :: id in claimed ==> id in order[..i]
        invariant events == ClaimAll(old(events), claimed, workerID, now)
      {
        var id := order[i];
        BatchSnoc(old(events), order, i, batchSize, now, lockTTL);
        ClaimOneMore(old(events), claimed, id, workerID, now);
        if |claimed| < batchSize && Claimable(events[id], now, lockTTL) {
          events := events[id := Claim(events[id], workerID, now)];
          claimed := claimed + [id];
        }
      }
      assert order[..|order|] == order;
      BatchIsOldestInTable(old(events), order, batchSize, now, lockTTL);
    }

    /** processLocked for a claimed record: the handler runs only without a receipt. */
    method ProcessLocked(id: Id, attempts: nat, registered: bool, handlerSucceeds: bool, now: int)
      returns (outcome: Outcome, handlerCalled: bool)
      requires id in events
      modifies this
      ensures handlerCalled <==> registered && id !in old(receipts)
      ensures outcome.Failed? <==> !registered || (id !in old(receipts) && !handlerSucceeds)
      ensures outcome.Failed? ==>
        receipts == old(receipts)
        && events == old(events)[id := Fail(old(events)[id], workerID, attempts, maxAttempts, now)]
      ensures !outcome.Failed? ==> (outcome.Done? <==> Updatable(old(events)[id], workerID))
      ensures outcome.Done? ==>
        receipts == old(receipts) + {id} && events == old(events)[id := Complete(old(events)[id], workerID, now)]
      ensures outcome.LockLost? ==> receipts == old(receipts) && events == old(events)
    {
      handlerCalled := false;
      if !registered {
        FailEvent(id, attempts, now);
        return Failed, false;
      }
      if id !in receipts {
        handlerCalled := true;
        if !handlerSucceeds {
          FailEvent(id, attempts, now);
          return Failed, true;
        }
      }
      var savedReceipts := receipts;
      receipts := receipts + {id};
      if !Updatable(events[id], workerID) {
        receipts := savedReceipts;
        return LockLost, handlerCalled;
      }
      events := events[id := Complete(events[id], workerID, now)];
      outcome := Done;
    }

    method FailEvent(id: Id, attempts: nat, now: int)
      requires id in events
      modifies this`events
      ensures events == old(events)[id := Fail(old(events)[id], workerID, attempts, maxAttempts, now)]
    {
      if attempts >= maxAttempts {
        events := events[id := DeadLetter(events[id], workerID, now)];
        return;
      }
      var delay := Int64(SECOND * PowerAsDuration(attempts));
      if delay > HOUR {
        delay := HOUR;
      }
      events := events[id := Reschedule(events[id], workerID, now + delay)];
    }
  }
}
