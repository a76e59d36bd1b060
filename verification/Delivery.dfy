/** What every interleaving keeps of the outbox: rows are handed out exclusively, nothing is lost, the
    deliveries of an event can be counted exactly, and failed attempts back off. */
module Delivery {
  import opened Wrappers
  import opened Domain
  import opened Tables
  import opened Steps
  import opened Safety

  // ----- Counting -----

  function Count(delivered: seq<Event>, id: Uuid): nat {
    if delivered == [] then 0
    else Count(delivered[..|delivered| - 1], id) + if delivered[|delivered| - 1].id == id then 1 else 0
  }

  /** The producer acknowledged the event to this batch, marked or not. */
  predicate HasSent(b: Batch, id: Uuid) {
    || (id in b.marks && b.marks[id].publishedAt.Some?)
    || (b.todo != [] && b.answer == Some(Acked) && b.todo[0].id == id)
  }

  /** This batch has marked the event as failed. */
  predicate HasRefused(b: Batch, id: Uuid) {
    id in b.marks && b.marks[id].publishedAt.None?
  }

  function Senders(s: State, id: Uuid): set<TxId> {
    set x | x in s.batches && HasSent(s.batches[x], id)
  }

  /** The batches that sent the event and did not commit: still open, rolled back or crashed. */
  function UnfinishedSenders(s: State, id: Uuid): set<TxId> {
    set x | x in s.batches && s.batches[x].fate != Committed && HasSent(s.batches[x], id)
  }

  function CommittedSenders(s: State, id: Uuid): set<TxId> {
    set x | x in s.batches && s.batches[x].fate == Committed && HasSent(s.batches[x], id)
  }

  function CommittedRefusers(s: State, id: Uuid): set<TxId> {
    set x | x in s.batches && s.batches[x].fate == Committed && HasRefused(s.batches[x], id)
  }

  predicate IsPublished(t: Tables, id: Uuid) {
    id in t.outbox && t.outbox[id].publishedAt.Some?
  }

  predicate IsPending(t: Tables, id: Uuid) {
    id in t.outbox && t.outbox[id].publishedAt.None?
  }

  // ----- The invariant -----

  /** Outbox rows and log entries are the same events. */
  ghost predicate OutboxOk(t: Tables) {
    && (forall i, j :: 0 <= i < j < |t.log| ==> t.log[i].id != t.log[j].id)
    && (forall e :: e in t.log ==> e.id in t.outbox && t.outbox[e.id].payload == e)
    && (forall id :: id in t.outbox ==> RowOk(t, id, t.outbox[id]))
  }

  ghost predicate RowOk(t: Tables, id: Uuid, row: OutboxRow) {
    && row.id == id == row.payload.id && row.payload in t.log
    && row.kind == row.payload.kind && row.aggregateId == row.payload.companyId
    && row.createdAt == row.payload.occurredAt
  }

  ghost predicate StoredIdsOk(services: map<TxId, Transaction>, outbox: Outbox) {
    && (forall x :: x in services ==> StoredOk(services[x]))
    && (forall x :: x in services && services[x].job.Stored? ==> services[x].job.event.id !in outbox)
    && (forall x, y ::
          x in services && y in services && x != y && services[x].job.Stored? && services[y].job.Stored? ==>
            services[x].job.event.id != services[y].job.event.id)
  }

  ghost predicate TodoOk(b: Batch) {
    && (forall j, k :: 0 <= j < k < |b.todo| ==>
          b.todo[j].id != b.todo[k].id && b.todo[j].createdAt <= b.todo[k].createdAt)
    && (forall k :: 0 <= k < |b.todo| ==> b.todo[k].id !in b.marks)
    && (b.answer.Some? ==> b.todo != [])
    && (!b.fetched ==> b.todo == [] && b.marks == map[])
    && (b.fate == Committed ==> b.todo == [])
  }

  /** `mark` is what one MarkPublished or MarkFailed makes of `row`. */
  ghost predicate IsMarkOf(row: OutboxRow, mark: OutboxRow, now: Time) {
    || mark == Published(row, now)
    || exists reason :: mark == Failed(row, now, reason)
  }

  ghost predicate OpenOk(outbox: Outbox, b: Batch) {
    && (forall k :: 0 <= k < |b.todo| ==>
          Lookup(outbox, b.todo[k].id) == Some(b.todo[k]) && Eligible(b.todo[k], b.began))
    && (forall id :: id in b.marks ==>
          id in outbox && Eligible(outbox[id], b.began) && IsMarkOf(outbox[id], b.marks[id], b.began))
  }

  /** A committed mark is still visible: publication is final, a refusal has pushed the row back. */
  ghost predicate CommittedOk(outbox: Outbox, b: Batch) {
    && (forall id :: HasSent(b, id) ==> id in outbox && outbox[id].publishedAt.Some?)
    && (forall id :: HasRefused(b, id) ==> id in outbox && outbox[id].availableAt >= b.began + BACKOFF)
  }

  ghost predicate BatchesOk(outbox: Outbox, batches: map<TxId, Batch>) {
    && (forall x :: x in batches ==> TodoOk(batches[x]))
    && (forall x :: x in batches && batches[x].fate == Open ==> OpenOk(outbox, batches[x]))
    && (forall x :: x in batches && batches[x].fate == Committed ==> CommittedOk(outbox, batches[x]))
  }

  /** No outbox row is in the hands of two open batches. */
  ghost predicate HandedOutOnce(batches: map<TxId, Batch>) {
    forall x, y :: x in batches && y in batches && x != y && batches[x].fate == Open && batches[y].fate == Open ==>
      Held(batches[x]) !! Held(batches[y])
  }

  ghost predicate CountsOk(s: State, id: Uuid) {
    && Count(s.delivered, id) == |Senders(s, id)|
    && |CommittedSenders(s, id)| == (if IsPublished(s.db, id) then 1 else 0)
  }

  /** These batches began at least the backoff apart. */
  ghost predicate Spaced(batches: map<TxId, Batch>, ids: set<TxId>)
    requires ids <= batches.Keys
  {
    forall x, y :: x in ids && y in ids && x != y ==>
      || batches[x].began + BACKOFF <= batches[y].began
      || batches[y].began + BACKOFF <= batches[x].began
  }

  ghost predicate BackoffOk(s: State, id: Uuid)
    requires id in s.db.outbox
  {
    && id in s.born
    && s.db.outbox[id].attempts == |CommittedRefusers(s, id)|
    && s.db.outbox[id].availableAt >= s.born[id] + BACKOFF * s.db.outbox[id].attempts
    && (s.db.outbox[id].attempts == 0 ==> s.db.outbox[id].availableAt == s.born[id])
    && Spaced(s.batches, CommittedRefusers(s, id))
  }

  ghost predicate Sound(s: State) {
    && s.services.Keys !! s.batches.Keys
    && OutboxOk(s.db)
    && StoredIdsOk(s.services, s.db.outbox)
    && BatchesOk(s.db.outbox, s.batches)
    && HandedOutOnce(s.batches)
    && (forall e :: e in s.delivered ==> e in s.db.log)
    && (forall id :: CountsOk(s, id))
    && (forall id :: id in s.db.outbox ==> BackoffOk(s, id))
  }

  // ----- Frames: what the sets of senders and refusers depend on -----

  lemma SameSenders(s: State, t: State, x: TxId, id: Uuid)
    requires x in t.batches && t.batches.Keys == s.batches.Keys + {x}
    requires forall y :: y in s.batches && y != x ==> t.batches[y] == s.batches[y]
    requires x in s.batches ==> (HasSent(s.batches[x], id) <==> HasSent(t.batches[x], id))
    requires x !in s.batches ==> !HasSent(t.batches[x], id)
    ensures Senders(t, id) == Senders(s, id)
  {
  }

  lemma SameCommitted(s: State, t: State, x: TxId, id: Uuid)
    requires x in t.batches && t.batches[x].fate != Committed && t.batches.Keys == s.batches.Keys + {x}
    requires forall y :: y in s.batches && y != x ==> t.batches[y] == s.batches[y]
    requires x in s.batches ==> s.batches[x].fate != Committed
    ensures CommittedSenders(t, id) == CommittedSenders(s, id)
    ensures CommittedRefusers(t, id) == CommittedRefusers(s, id)
  {
  }

  lemma SameBackoff(s: State, t: State, id: Uuid)
    requires id in s.db.outbox && BackoffOk(s, id)
    requires id in t.db.outbox && t.db.outbox[id].attempts == s.db.outbox[id].attempts
    requires t.db.outbox[id].availableAt == s.db.outbox[id].availableAt
    requires id in t.born && t.born[id] == s.born[id]
    requires forall x :: x in CommittedRefusers(s, id) ==> x in t.batches && t.batches[x].began == s.batches[x].began
    requires CommittedRefusers(t, id) == CommittedRefusers(s, id)
    ensures BackoffOk(t, id)
  {
  }

  lemma CountAppend(delivered: seq<Event>, e: Event, id: Uuid)
    ensures Count(delivered + [e], id) == Count(delivered, id) + if e.id == id then 1 else 0
  {
    assert (delivered + [e])[..|delivered|] == delivered;
  }

  lemma SameRecords(s: State, t: State)
    requires t.batches == s.batches && t.delivered == s.delivered
    requires s.db.outbox.Keys <= t.db.outbox.Keys
    requires forall id :: id in s.db.outbox ==> t.db.outbox[id] == s.db.outbox[id]
    requires forall id :: id in t.db.outbox && id !in s.db.outbox ==> t.db.outbox[id].publishedAt.None?
    requires forall id :: CountsOk(s, id)
    ensures forall id :: CountsOk(t, id)
  {
    forall id ensures CountsOk(t, id) {
      assert CountsOk(s, id);
      assert Senders(t, id) == Senders(s, id) && CommittedSenders(t, id) == CommittedSenders(s, id);
    }
  }

  lemma SubsetSize<T>(a: set<T>, b: set<T>)
    requires a <= b
    ensures |a| <= |b|
  {
    assert b == a + (b - a);
  }

  // ----- Steps that leave the batches alone -----

  /** Until it commits, a service transaction leaves everything to do with batches alone. */
  lemma ServiceStepsKeepBatches(s: State, a: Action)
    requires Enabled(s, a) && (a.Begin? || a.x in s.services) && !a.CommitService?
    ensures Next(s, a).db == s.db && Next(s, a).batches == s.batches && Next(s, a).delivered == s.delivered
    ensures s.dbClock <= Next(s, a).dbClock
  {
  }

  lemma ServiceStepKeepsSound(s: State, a: Action)
    requires Sound(s) && Safe(s) && Enabled(s, a) && !a.BeginBatch? && a.x !in s.batches && !a.CommitService?
    ensures Sound(Next(s, a))
  {
    var t := Next(s, a);
    assert t.batches == s.batches && t.db == s.db && t.born == s.born;
    SameRecords(s, t);
    StoredIdsStay(s, a);
    SameBatchesSameBackoff(s, t);
  }

  lemma SameBatchesSameBackoff(s: State, t: State)
    requires t.batches == s.batches && t.db == s.db && t.born == s.born
    requires forall id :: id in s.db.outbox ==> BackoffOk(s, id)
    ensures forall id :: id in t.db.outbox ==> BackoffOk(t, id)
  {
    forall id | id in t.db.outbox ensures BackoffOk(t, id) {
      assert CommittedRefusers(t, id) == CommittedRefusers(s, id);
      SameBackoff(s, t, id);
    }
  }

  lemma StoredIdsStay(s: State, a: Action)
    requires StoredIdsOk(s.services, s.db.outbox) && Safe(s)
    requires Enabled(s, a) && !a.BeginBatch? && a.x !in s.batches && !a.CommitService?
    ensures StoredIdsOk(Next(s, a).services, Next(s, a).db.outbox)
  {
    if a.Begin? || a.AbortService? {
    } else {
      LocalStepKeepsStoredIds(s, a);
    }
  }

  lemma ReplacingKeepsStoredIds(s: State, x: TxId, v: Transaction)
    requires StoredIdsOk(s.services, s.db.outbox) && StoredOk(v)
    requires v.job.Stored? ==> EventIdFree(s, x, v.job.event.id)
    ensures StoredIdsOk(s.services[x := v], s.db.outbox)
  {
  }

  lemma LocalStepKeepsStoredIds(s: State, a: Action)
    requires StoredIdsOk(s.services, s.db.outbox) && Safe(s)
    requires a.x in s.services && ServiceEnabled(s, a) && LocalStep(a)
    ensures StoredIdsOk(NextOfService(s, a).services, s.db.outbox)
  {
    var v := s.services[a.x].(job := NextJob(s, a));
    NextJobIsOk(s, a);
    ReplacingKeepsStoredIds(s, a.x, v);
  }

  lemma CommitKeepsSound(s: State, x: TxId)
    requires Sound(s) && x in s.services && s.services[x].job.Stored?
    ensures Sound(AfterCommit(s, x))
  {
    var t := AfterCommit(s, x);
    CommitKeepsOutboxOk(s, x);
    CommitKeepsBatches(s, x);
    SameRecords(s, t);
    forall id | id in t.db.outbox ensures BackoffOk(t, id) {
      assert CommittedRefusers(t, id) == CommittedRefusers(s, id);
      if id == s.services[x].job.event.id {
        assert forall y :: y in s.batches && s.batches[y].fate == Committed ==> CommittedOk(s.db.outbox, s.batches[y]);
        assert CommittedRefusers(s, id) == {};
      } else {
        SameBackoff(s, t, id);
      }
    }
  }

  lemma CommitKeepsOutboxOk(s: State, x: TxId)
    requires OutboxOk(s.db) && StoredIdsOk(s.services, s.db.outbox) && x in s.services && s.services[x].job.Stored?
    ensures OutboxOk(AfterCommit(s, x).db) && StoredIdsOk(AfterCommit(s, x).services, AfterCommit(s, x).db.outbox)
  {
    var t := AfterCommit(s, x);
    var row := s.services[x].job.event;
    assert StoredOk(s.services[x]);
    assert forall i :: 0 <= i < |s.db.log| ==> s.db.log[i] in s.db.log && t.db.log[i] == s.db.log[i];
    assert t.db.log[|s.db.log|] == row.payload;
    forall id | id in t.db.outbox ensures RowOk(t.db, id, t.db.outbox[id]) {
      if id != row.id {
        assert RowOk(s.db, id, s.db.outbox[id]);
      }
    }
  }

  lemma CommitKeepsBatches(s: State, x: TxId)
    requires BatchesOk(s.db.outbox, s.batches) && StoredIdsOk(s.services, s.db.outbox)
    requires x in s.services && s.services[x].job.Stored?
    ensures BatchesOk(AfterCommit(s, x).db.outbox, AfterCommit(s, x).batches)
  {
    var t := AfterCommit(s, x);
    forall y | y in t.batches && t.batches[y].fate == Open ensures OpenOk(t.db.outbox, t.batches[y]) {
      assert OpenOk(s.db.outbox, s.batches[y]);
    }
    forall y | y in t.batches && t.batches[y].fate == Committed ensures CommittedOk(t.db.outbox, t.batches[y]) {
      assert CommittedOk(s.db.outbox, s.batches[y]);
    }
  }

  // ----- Steps of a batch before its commit -----

  /** What one batch action does to the record of its batch. */
  lemma NextBatchIsOk(s: State, a: Action)
    requires BatchesOk(s.db.outbox, s.batches) && OutboxOk(s.db)
    requires a.x in s.batches && BatchEnabled(s, a) && !a.CommitBatch?
    ensures var b := NextBatch(s, a); TodoOk(b) && (b.fate == Open ==> OpenOk(s.db.outbox, b)) && b.fate != Committed
  {
    var b := s.batches[a.x];
    assert TodoOk(b) && OpenOk(s.db.outbox, b);
    if a.Mark? {
      var c := NextBatch(s, a);
      assert forall k :: 0 <= k < |c.todo| ==> c.todo[k] == b.todo[k + 1];
      var id, outcome := b.todo[0].id, b.answer.value;
      assert IsMarkOf(s.db.outbox[id], Marked(s.db.outbox[id], outcome, b.began), b.began) by {
        if outcome.Refused? {
          assert Marked(s.db.outbox[id], outcome, b.began) == Failed(s.db.outbox[id], b.began, outcome.reason);
        }
      }
    }
  }

  lemma NextBatchSent(s: State, a: Action)
    requires BatchesOk(s.db.outbox, s.batches) && a.x in s.batches && BatchEnabled(s, a)
    ensures forall id :: HasSent(NextBatch(s, a), id) <==>
              || HasSent(s.batches[a.x], id)
              || (a.Send? && a.outcome.Acked? && s.batches[a.x].todo[0].id == id)
    ensures a.Send? ==> !HasSent(s.batches[a.x], s.batches[a.x].todo[0].id)
    ensures a.Fetch? ==> Held(NextBatch(s, a)) == Ids(a.rows)
    ensures !a.Fetch? ==> Held(NextBatch(s, a)) == Held(s.batches[a.x])
  {
    var b := s.batches[a.x];
    assert TodoOk(b) && OpenOk(s.db.outbox, b);
    if a.Mark? {
      MarkMovesId(b.todo);
    }
  }

  lemma MarkMovesId(todo: seq<OutboxRow>)
    requires todo != []
    ensures Ids(todo) == {todo[0].id} + Ids(todo[1..])
  {
    assert todo == [todo[0]] + todo[1..];
  }

  lemma ReplacingKeepsHandOut(batches: map<TxId, Batch>, x: TxId, b: Batch)
    requires HandedOutOnce(batches)
    requires b.fate == Open ==>
               forall y :: y in batches && y != x && batches[y].fate == Open ==> Held(b) !! Held(batches[y])
    ensures HandedOutOnce(batches[x := b])
  {
  }

  lemma BatchStepKeepsHandOut(s: State, a: Action)
    requires BatchesOk(s.db.outbox, s.batches) && HandedOutOnce(s.batches) && a.x in s.batches && BatchEnabled(s, a)
    ensures HandedOutOnce(NextOfBatch(s, a).batches)
  {
    NextBatchSent(s, a);
    forall y | y in s.batches && y != a.x && s.batches[y].fate == Open
      ensures Held(NextBatch(s, a)) !! Held(s.batches[y])
    {
      if a.Fetch? {
        assert forall id :: id in Held(s.batches[y]) ==> id in LockedByOthers(s, a.x);
      }
    }
    ReplacingKeepsHandOut(s.batches, a.x, NextBatch(s, a));
  }

  /** `t` differs from `s` in the record of the uncommitted batch `x`, and perhaps in `delivered`. */
  ghost predicate OnlyBatchChanged(s: State, t: State, x: TxId) {
    && x in t.batches && t.batches.Keys == s.batches.Keys + {x}
    && (forall y :: y in s.batches && y != x ==> t.batches[y] == s.batches[y])
    && t.batches[x].fate != Committed && (x in s.batches ==> s.batches[x].fate != Committed)
    && t.db == s.db && t.services == s.services && t.born == s.born
  }

  lemma OnlyBatchChangedKeepsBackoff(s: State, t: State, x: TxId)
    requires OnlyBatchChanged(s, t, x)
    requires forall id :: id in s.db.outbox ==> BackoffOk(s, id)
    ensures forall id :: id in t.db.outbox ==> BackoffOk(t, id)
  {
    forall id | id in t.db.outbox ensures BackoffOk(t, id) {
      assert BackoffOk(s, id);
      SameCommitted(s, t, x, id);
      SameBackoff(s, t, id);
    }
  }

  lemma SilentChangeKeepsCounts(s: State, t: State, x: TxId, id: Uuid)
    requires OnlyBatchChanged(s, t, x) && CountsOk(s, id) && t.delivered == s.delivered
    requires x in s.batches ==> (HasSent(t.batches[x], id) <==> HasSent(s.batches[x], id))
    requires x !in s.batches ==> !HasSent(t.batches[x], id)
    ensures CountsOk(t, id)
  {
    SameCommitted(s, t, x, id);
    SameSenders(s, t, x, id);
  }

  lemma OneMoreSender(s: State, t: State, x: TxId, id: Uuid)
    requires OnlyBatchChanged(s, t, x) && x in s.batches
    requires !HasSent(s.batches[x], id) && HasSent(t.batches[x], id)
    ensures |Senders(t, id)| == |Senders(s, id)| + 1
  {
    assert Senders(t, id) == Senders(s, id) + {x};
    assert x !in Senders(s, id);
  }

  lemma AckKeepsCounts(s: State, t: State, x: TxId, e: Event, id: Uuid)
    requires OnlyBatchChanged(s, t, x) && CountsOk(s, id) && t.delivered == s.delivered + [e]
    requires x in s.batches && !HasSent(s.batches[x], e.id)
    requires HasSent(t.batches[x], id) <==> id == e.id || HasSent(s.batches[x], id)
    ensures CountsOk(t, id)
  {
    SameCommitted(s, t, x, id);
    CountAppend(s.delivered, e, id);
    if e.id == id {
      OneMoreSender(s, t, x, id);
    } else {
      SameSenders(s, t, x, id);
    }
  }

  lemma ReplacingKeepsBatches(outbox: Outbox, batches: map<TxId, Batch>, x: TxId, b: Batch)
    requires BatchesOk(outbox, batches)
    requires TodoOk(b) && (b.fate == Open ==> OpenOk(outbox, b)) && b.fate != Committed
    ensures BatchesOk(outbox, batches[x := b])
  {
  }

  lemma OpenStepKeepsCounts(s: State, a: Action)
    requires Sound(s) && a.x in s.batches && BatchEnabled(s, a) && !a.CommitBatch?
    requires OnlyBatchChanged(s, NextOfBatch(s, a), a.x)
    ensures forall id :: CountsOk(NextOfBatch(s, a), id)
  {
    var t := NextOfBatch(s, a);
    NextBatchSent(s, a);
    if a.Send? && a.outcome.Acked? {
      OnlySendableIsSent(s, a.x);
      forall id ensures CountsOk(t, id) {
        AckKeepsCounts(s, t, a.x, s.batches[a.x].todo[0].payload, id);
      }
    } else {
      forall id ensures CountsOk(t, id) {
        SilentChangeKeepsCounts(s, t, a.x, id);
      }
    }
  }

  lemma DeliveredStaysLogged(s: State, a: Action)
    requires Sound(s) && a.x in s.batches && BatchEnabled(s, a)
    ensures forall e :: e in NextOfBatch(s, a).delivered ==> e in s.db.log
  {
    if a.Send? {
      OnlySendableIsSent(s, a.x);
    }
  }

  lemma OpenStepKeepsBatches(s: State, a: Action)
    requires BatchesOk(s.db.outbox, s.batches) && OutboxOk(s.db)
    requires a.x in s.batches && BatchEnabled(s, a) && !a.CommitBatch?
    ensures BatchesOk(s.db.outbox, NextOfBatch(s, a).batches)
  {
    NextBatchIsOk(s, a);
    ReplacingKeepsBatches(s.db.outbox, s.batches, a.x, NextBatch(s, a));
  }

  lemma OpenStepChangesOneBatch(s: State, a: Action)
    requires a.x in s.batches && BatchEnabled(s, a) && !a.CommitBatch?
    ensures OnlyBatchChanged(s, NextOfBatch(s, a), a.x)
  {
  }

  lemma OpenStepKeepsSound(s: State, a: Action)
    requires Sound(s) && a.x in s.batches && BatchEnabled(s, a) && !a.CommitBatch?
    ensures Sound(NextOfBatch(s, a))
  {
    var t := NextOfBatch(s, a);
    OpenStepKeepsBatches(s, a);
    OpenStepChangesOneBatch(s, a);
    assert HandedOutOnce(t.batches) by { BatchStepKeepsHandOut(s, a); }
    assert forall id :: id in t.db.outbox ==> BackoffOk(t, id) by { OnlyBatchChangedKeepsBackoff(s, t, a.x); }
    assert forall id :: CountsOk(t, id) by { OpenStepKeepsCounts(s, a); }
    assert forall e :: e in t.delivered ==> e in t.db.log by { DeliveredStaysLogged(s, a); }
  }

  lemma OnlySendableIsSent(s: State, x: TxId)
    requires Sound(s) && x in s.batches && s.batches[x].fate == Open && s.batches[x].todo != []
    ensures IsPending(s.db, s.batches[x].todo[0].id)
    ensures s.batches[x].todo[0].payload in s.db.log && s.batches[x].todo[0].payload.id == s.batches[x].todo[0].id
  {
    var row := s.batches[x].todo[0];
    assert OpenOk(s.db.outbox, s.batches[x]);
    assert RowOk(s.db, row.id, s.db.outbox[row.id]);
  }

  lemma NewBatchKeepsHandOut(batches: map<TxId, Batch>, x: TxId, b: Batch)
    requires HandedOutOnce(batches) && x !in batches && Held(b) == {}
    ensures HandedOutOnce(batches[x := b])
  {
  }

  lemma BeginBatchKeepsSound(s: State, a: Action)
    requires Sound(s) && a.BeginBatch? && Enabled(s, a)
    ensures Sound(Next(s, a))
  {
    var t := Next(s, a);
    NewBatchKeepsHandOut(s.batches, a.x, t.batches[a.x]);
    ReplacingKeepsBatches(s.db.outbox, s.batches, a.x, t.batches[a.x]);
    NewBatchKeepsRecords(s, t, a.x);
  }

  lemma NewBatchKeepsRecords(s: State, t: State, x: TxId)
    requires OnlyBatchChanged(s, t, x) && t.delivered == s.delivered && x !in s.batches
    requires forall id :: !HasSent(t.batches[x], id)
    requires (forall id :: CountsOk(s, id)) && forall id :: id in s.db.outbox ==> BackoffOk(s, id)
    ensures (forall id :: CountsOk(t, id)) && forall id :: id in t.db.outbox ==> BackoffOk(t, id)
  {
    OnlyBatchChangedKeepsBackoff(s, t, x);
    forall id ensures CountsOk(t, id) {
      SilentChangeKeepsCounts(s, t, x, id);
    }
  }

  // ----- The commit of a batch -----

  ghost predicate Committing(s: State, x: TxId) {
    Sound(s) && x in s.batches && s.batches[x].fate == Open && s.batches[x].fetched && s.batches[x].todo == []
  }

  /** Each row marked by the batch: it was pending and available when the batch began. */
  lemma MarkFacts(s: State, x: TxId, id: Uuid)
    requires Committing(s, x) && id in s.batches[x].marks
    ensures id in s.db.outbox && Eligible(s.db.outbox[id], s.batches[x].began)
    ensures IsMarkOf(s.db.outbox[id], s.batches[x].marks[id], s.batches[x].began)
    ensures HasSent(s.batches[x], id) <==> s.batches[x].marks[id] == Published(s.db.outbox[id], s.batches[x].began)
  {
    assert OpenOk(s.db.outbox, s.batches[x]);
  }

  lemma CommitBatchKeepsOutboxOk(s: State, x: TxId)
    requires Committing(s, x)
    ensures OutboxOk(NextOfBatch(s, CommitBatch(x)).db)
    ensures NextOfBatch(s, CommitBatch(x)).db.outbox.Keys == s.db.outbox.Keys
  {
    var t := NextOfBatch(s, CommitBatch(x));
    forall id | id in s.batches[x].marks
      ensures id in s.db.outbox && s.batches[x].marks[id].payload == s.db.outbox[id].payload
    {
      MarkFacts(s, x, id);
    }
    forall id | id in t.db.outbox ensures RowOk(t.db, id, t.db.outbox[id]) {
      assert RowOk(s.db, id, s.db.outbox[id]);
      if id in s.batches[x].marks {
        MarkFacts(s, x, id);
      }
    }
  }

  lemma CommitBatchKeepsOpen(s: State, x: TxId, y: TxId)
    requires Committing(s, x) && y in s.batches && y != x && s.batches[y].fate == Open
    ensures OpenOk(s.db.outbox + s.batches[x].marks, s.batches[y])
  {
    var b := s.batches[y];
    assert OpenOk(s.db.outbox, b);
    assert Held(b) !! Held(s.batches[x]);
    assert forall k :: 0 <= k < |b.todo| ==> b.todo[k].id in Held(b);
  }

  lemma CommitBatchKeepsCommitted(s: State, x: TxId, y: TxId)
    requires Committing(s, x) && y in s.batches && s.batches[y].fate == Committed
    ensures CommittedOk(s.db.outbox + s.batches[x].marks, s.batches[y])
  {
    assert CommittedOk(s.db.outbox, s.batches[y]);
    forall id | id in s.batches[x].marks
      ensures !HasSent(s.batches[y], id)
      ensures HasRefused(s.batches[y], id) ==> s.batches[x].marks[id].availableAt >= s.batches[y].began + BACKOFF
    {
      MarkFacts(s, x, id);
    }
  }

  lemma CommitBatchMakesCommitted(s: State, x: TxId)
    requires Committing(s, x)
    ensures CommittedOk(s.db.outbox + s.batches[x].marks, s.batches[x].(fate := Committed))
  {
    forall id | id in s.batches[x].marks
      ensures HasRefused(s.batches[x], id) ==> s.batches[x].marks[id].availableAt == s.batches[x].began + BACKOFF
    {
      MarkFacts(s, x, id);
    }
  }

  lemma BatchesOkFrom(outbox: Outbox, batches: map<TxId, Batch>, x: TxId, b: Batch)
    requires TodoOk(b) && b.fate == Committed && CommittedOk(outbox, b)
    requires forall y :: y in batches ==> TodoOk(batches[y])
    requires forall y :: y in batches && y != x && batches[y].fate == Open ==> OpenOk(outbox, batches[y])
    requires forall y :: y in batches && batches[y].fate == Committed ==> CommittedOk(outbox, batches[y])
    ensures BatchesOk(outbox, batches[x := b])
  {
  }

  lemma CommitBatchKeepsBatches(s: State, x: TxId)
    requires Committing(s, x)
    ensures BatchesOk(s.db.outbox + s.batches[x].marks, s.batches[x := s.batches[x].(fate := Committed)])
  {
    var outbox := s.db.outbox + s.batches[x].marks;
    CommitBatchMakesCommitted(s, x);
    forall y | y in s.batches && y != x && s.batches[y].fate == Open
      ensures OpenOk(outbox, s.batches[y])
    {
      CommitBatchKeepsOpen(s, x, y);
    }
    forall y | y in s.batches && s.batches[y].fate == Committed
      ensures CommittedOk(outbox, s.batches[y])
    {
      CommitBatchKeepsCommitted(s, x, y);
    }
    BatchesOkFrom(outbox, s.batches, x, s.batches[x].(fate := Committed));
  }

  lemma CommitBatchSets(s: State, t: State, x: TxId, id: Uuid)
    requires x in s.batches && s.batches[x].fate == Open
    requires t.batches == s.batches[x := s.batches[x].(fate := Committed)]
    ensures Senders(t, id) == Senders(s, id)
    ensures CommittedSenders(t, id) == CommittedSenders(s, id) + (if HasSent(s.batches[x], id) then {x} else {})
    ensures CommittedRefusers(t, id) == CommittedRefusers(s, id) + (if HasRefused(s.batches[x], id) then {x} else {})
    ensures x !in CommittedSenders(s, id) && x !in CommittedRefusers(s, id)
  {
    assert forall i :: HasSent(t.batches[x], i) == HasSent(s.batches[x], i);
    assert forall i :: HasRefused(t.batches[x], i) == HasRefused(s.batches[x], i);
  }

  /** A row handed to this batch was available when it began, so every earlier refusal is old enough. */
  lemma EarlierRefusersAreOlder(s: State, x: TxId, y: TxId, id: Uuid)
    requires Committing(s, x) && id in s.batches[x].marks && y in CommittedRefusers(s, id)
    ensures s.batches[y].began + BACKOFF <= s.batches[x].began
  {
    MarkFacts(s, x, id);
    assert CommittedOk(s.db.outbox, s.batches[y]);
  }

  lemma CommitBatchKeepsCounts(s: State, x: TxId, id: Uuid)
    requires Committing(s, x)
    ensures CountsOk(NextOfBatch(s, CommitBatch(x)), id)
  {
    assert CountsOk(s, id);
    CommitBatchSets(s, NextOfBatch(s, CommitBatch(x)), x, id);
    if id in s.batches[x].marks {
      MarkFacts(s, x, id);
    }
  }

  lemma SpacedWithOneMore(batches: map<TxId, Batch>, ids: set<TxId>, x: TxId, b: Batch)
    requires ids <= batches.Keys && Spaced(batches, ids) && x !in ids
    requires forall y :: y in ids ==> batches[y].began + BACKOFF <= b.began
    ensures Spaced(batches[x := b], ids + {x})
  {
  }

  lemma RefusalKeepsBackoff(s: State, t: State, x: TxId, id: Uuid)
    requires x in s.batches && s.batches[x].fate == Open && HasRefused(s.batches[x], id)
    requires t.batches == s.batches[x := s.batches[x].(fate := Committed)] && t.born == s.born
    requires id in s.db.outbox && BackoffOk(s, id) && s.db.outbox[id].availableAt <= s.batches[x].began
    requires id in t.db.outbox && t.db.outbox[id].attempts == s.db.outbox[id].attempts + 1
    requires t.db.outbox[id].availableAt == s.batches[x].began + BACKOFF
    requires forall y :: y in CommittedRefusers(s, id) ==> s.batches[y].began + BACKOFF <= s.batches[x].began
    ensures BackoffOk(t, id)
  {
    var refusers := CommittedRefusers(s, id);
    CommitBatchSets(s, t, x, id);
    assert |refusers + {x}| == |refusers| + 1;
    SpacedWithOneMore(s.batches, refusers, x, s.batches[x].(fate := Committed));
  }

  lemma OtherwiseKeepsBackoff(s: State, t: State, x: TxId, id: Uuid)
    requires x in s.batches && s.batches[x].fate == Open && !HasRefused(s.batches[x], id)
    requires t.batches == s.batches[x := s.batches[x].(fate := Committed)] && t.born == s.born
    requires id in s.db.outbox && BackoffOk(s, id)
    requires id in t.db.outbox && t.db.outbox[id].attempts == s.db.outbox[id].attempts
    requires t.db.outbox[id].availableAt == s.db.outbox[id].availableAt
    ensures BackoffOk(t, id)
  {
    CommitBatchSets(s, t, x, id);
    SameBackoff(s, t, id);
  }

  lemma CommitBatchKeepsBackoff(s: State, x: TxId, id: Uuid)
    requires Committing(s, x) && id in s.db.outbox
    ensures id in NextOfBatch(s, CommitBatch(x)).db.outbox && BackoffOk(NextOfBatch(s, CommitBatch(x)), id)
  {
    var t := NextOfBatch(s, CommitBatch(x));
    if id in s.batches[x].marks {
      MarkFacts(s, x, id);
    }
    if HasRefused(s.batches[x], id) {
      forall y | y in CommittedRefusers(s, id) ensures s.batches[y].began + BACKOFF <= s.batches[x].began {
        EarlierRefusersAreOlder(s, x, y, id);
      }
      RefusalKeepsBackoff(s, t, x, id);
    } else {
      OtherwiseKeepsBackoff(s, t, x, id);
    }
  }

  lemma CommitBatchKeepsSound(s: State, x: TxId)
    requires Committing(s, x)
    ensures Sound(NextOfBatch(s, CommitBatch(x)))
  {
    var t := NextOfBatch(s, CommitBatch(x));
    CommitBatchKeepsOutboxOk(s, x);
    CommitBatchKeepsBatches(s, x);
    BatchStepKeepsHandOut(s, CommitBatch(x));
    forall id ensures CountsOk(t, id) {
      CommitBatchKeepsCounts(s, x, id);
    }
    forall id | id in t.db.outbox ensures BackoffOk(t, id) {
      CommitBatchKeepsBackoff(s, x, id);
    }
  }

  // ----- Every run -----

  lemma StepKeepsSound(s: State, a: Action)
    requires Sound(s) && Safe(s) && Enabled(s, a)
    ensures Sound(Next(s, a))
  {
    if a.BeginBatch? {
      BeginBatchKeepsSound(s, a);
    } else if a.CommitService? {
      CommitKeepsSound(s, a.x);
    } else if a.x !in s.batches {
      ServiceStepKeepsSound(s, a);
    } else if a.CommitBatch? {
      CommitBatchKeepsSound(s, a.x);
    } else {
      OpenStepKeepsSound(s, a);
    }
  }

  lemma {:induction false} RunsAreSound(acts: seq<Action>)
    requires CanRun(INIT, acts)
    ensures Sound(After(INIT, acts)) && Safe(After(INIT, acts))
  {
    RunsAreSafe(acts);
    if acts == [] {
      assert forall id :: Senders(INIT, id) == {} && CommittedSenders(INIT, id) == {};
    } else {
      var front := acts[..|acts| - 1];
      RunsAreSound(front);
      StepKeepsSound(After(INIT, front), acts[|acts| - 1]);
    }
  }

  lemma ReachableIsSound(s: State)
    requires Reachable(s)
    ensures Sound(s) && Safe(s)
  {
    var acts :| LeadsTo(acts, s);
    RunsAreSound(acts);
  }
}
