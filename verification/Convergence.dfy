/** Order and convergence with one publisher and an accepting producer: which sends overtake an older event
    of the same company, and what that costs. Duplicates from rolled-back or crashed batches do no harm. */
module Convergence {
  import opened Wrappers
  import opened Domain
  import opened Tables
  import opened Steps
  import opened Safety
  import opened Delivery

  // ----- One publisher, no producer failure -----

  ghost predicate NoOpenBatch(s: State) {
    forall y :: y in s.batches ==> s.batches[y].fate != Open
  }

  /** One publisher at a time and no producer failure. */
  ghost predicate CalmAction(s: State, a: Action) {
    (a.BeginBatch? ==> NoOpenBatch(s)) && (a.Send? ==> a.outcome.Acked?)
  }

  ghost predicate Calm(acts: seq<Action>)
    requires CanRun(INIT, acts)
  {
    acts == [] ||
    (Calm(acts[..|acts| - 1]) && CalmAction(After(INIT, acts[..|acts| - 1]), acts[|acts| - 1]))
  }

  ghost predicate CalmlyLeadsTo(acts: seq<Action>, s: State) {
    CanRun(INIT, acts) && Calm(acts) && After(INIT, acts) == s
  }

  // ----- Overtaking -----

  /** The row `j` is pending and older than the row `id` of the same company. */
  ghost predicate OlderPending(outbox: Outbox, j: Uuid, id: Uuid) {
    && j in outbox && id in outbox && outbox[j].publishedAt.None?
    && outbox[j].aggregateId == outbox[id].aggregateId && outbox[j].createdAt < outbox[id].createdAt
  }

  /** The next event of the batch passes an older one of its company, which was not available to the batch. */
  ghost predicate Passes(s: State, x: TxId)
    requires x in s.batches && s.batches[x].todo != []
  {
    exists j :: OlderPending(s.db.outbox, j, s.batches[x].todo[0].id) && s.db.outbox[j].availableAt > s.batches[x].began
  }

  /** No send of the run passes anything. */
  ghost predicate NothingPassed(acts: seq<Action>)
    requires CanRun(INIT, acts)
  {
    acts == [] ||
    var s, a := After(INIT, acts[..|acts| - 1]), acts[|acts| - 1];
    NothingPassed(acts[..|acts| - 1]) && (a.Send? ==> !Passes(s, a.x))
  }

  /** The event was sent, and the last time it was, it passed something. */
  ghost predicate LastSendPassed(acts: seq<Action>, id: Uuid)
    requires CanRun(INIT, acts)
  {
    acts != [] &&
    var s, a := After(INIT, acts[..|acts| - 1]), acts[|acts| - 1];
    if a.Send? && s.batches[a.x].todo[0].id == id then Passes(s, a.x) else LastSendPassed(acts[..|acts| - 1], id)
  }

  /** Whatever is delivered, the older events of its company were delivered before. */
  ghost predicate OlderFirst(log: seq<Event>, delivered: seq<Event>) {
    forall k, e ::
      0 <= k < |delivered| && e in log && e.companyId == delivered[k].companyId
      && e.occurredAt < delivered[k].occurredAt ==>
        e in delivered[..k]
  }

  // ----- What calm runs keep -----

  ghost predicate OneOpenBatch(batches: map<TxId, Batch>) {
    forall x, y :: x in batches && y in batches && batches[x].fate == Open && batches[y].fate == Open ==> x == y
  }

  ghost predicate NoRefusal(b: Batch) {
    (b.answer.Some? ==> b.answer == Some(Acked)) && forall id :: !HasRefused(b, id)
  }

  ghost predicate NoRefusals(batches: map<TxId, Batch>) {
    forall x :: x in batches ==> NoRefusal(batches[x])
  }

  /** What the batch has marked is no younger than what it will send. */
  ghost predicate GoesByStamp(b: Batch) {
    forall id, k :: id in b.marks && 0 <= k < |b.todo| ==> b.marks[id].createdAt <= b.todo[k].createdAt
  }

  /** The row was not handed to the batch, though the batch has a younger one of its company. */
  ghost predicate IsSkipped(outbox: Outbox, b: Batch, j: Uuid) {
    j !in Held(b) && exists i :: i in Held(b) && OlderPending(outbox, j, i)
  }

  ghost predicate SkipsOnlyUnavailable(outbox: Outbox, b: Batch) {
    forall j :: IsSkipped(outbox, b, j) ==> outbox[j].availableAt > b.began
  }

  ghost predicate SentWasAvailable(outbox: Outbox, b: Batch) {
    forall id :: HasSent(b, id) ==> id in outbox && outbox[id].availableAt <= b.began
  }

  ghost predicate OpenIsLatest(s: State) {
    && (forall y :: y in s.batches ==> s.batches[y].began <= s.dbClock)
    && (forall x, y :: x in s.batches && y in s.batches && s.batches[x].fate == Open ==>
          s.batches[y].began <= s.batches[x].began)
  }

  ghost predicate OpenInOrder(outbox: Outbox, b: Batch) {
    b.fate == Open ==> GoesByStamp(b) && SkipsOnlyUnavailable(outbox, b)
  }

  ghost predicate CalmOk(s: State) {
    && OneOpenBatch(s.batches)
    && NoRefusals(s.batches)
    && OpenIsLatest(s)
    && (forall x :: x in s.batches ==>
          OpenInOrder(s.db.outbox, s.batches[x]) && SentWasAvailable(s.db.outbox, s.batches[x]))
  }

  /** Every row is still there and as available as before. */
  ghost predicate Carries(outbox: Outbox, later: Outbox) {
    forall id :: id in outbox ==> id in later && later[id].availableAt == outbox[id].availableAt
  }

  lemma HeldIsKnown(s: State, y: TxId)
    requires Sound(s) && y in s.batches && s.batches[y].fate == Open
    ensures forall id :: id in Held(s.batches[y]) ==> id in s.db.outbox && s.db.outbox[id].publishedAt.None?
    ensures forall id :: HasSent(s.batches[y], id) ==> id in Held(s.batches[y])
  {
    assert OpenOk(s.db.outbox, s.batches[y]);
  }

  lemma NewRowIsYoungest(s: State, x: TxId, id: Uuid)
    requires Safe(s) && Sound(s) && x in s.services && s.services[x].job.Stored? && id in s.db.outbox
    requires s.db.outbox[id].aggregateId == s.services[x].job.event.aggregateId
    ensures s.db.outbox[id].createdAt <= s.services[x].job.event.createdAt
  {
    assert RowOk(s.db, id, s.db.outbox[id]);
    assert StoredOk(s.services[x]);
  }

  /** The commit of a service transaction adds no row that is older than another of its company. */
  lemma CommitAddsNoOlder(s: State, x: TxId, j: Uuid, id: Uuid)
    requires Safe(s) && Sound(s) && x in s.services && s.services[x].job.Stored? && id in s.db.outbox
    requires OlderPending(AfterCommit(s, x).db.outbox, j, id)
    ensures OlderPending(s.db.outbox, j, id) && AfterCommit(s, x).db.outbox[j] == s.db.outbox[j]
  {
    assert id != s.services[x].job.event.id;
    if j == s.services[x].job.event.id && s.db.outbox[id].aggregateId == s.services[x].job.event.aggregateId {
      NewRowIsYoungest(s, x, id);
    }
  }

  lemma CommitSkipsNothingNew(s: State, x: TxId, y: TxId, j: Uuid)
    requires Safe(s) && Sound(s) && x in s.services && s.services[x].job.Stored?
    requires y in s.batches && s.batches[y].fate == Open && IsSkipped(AfterCommit(s, x).db.outbox, s.batches[y], j)
    ensures IsSkipped(s.db.outbox, s.batches[y], j) && AfterCommit(s, x).db.outbox[j] == s.db.outbox[j]
  {
    var i :| i in Held(s.batches[y]) && OlderPending(AfterCommit(s, x).db.outbox, j, i);
    HeldIsKnown(s, y);
    CommitAddsNoOlder(s, x, j, i);
  }

  lemma CommitKeepsCalmOk(s: State, x: TxId)
    requires Safe(s) && Sound(s) && CalmOk(s) && x in s.services && s.services[x].job.Stored?
    ensures CalmOk(AfterCommit(s, x))
  {
    var t := AfterCommit(s, x);
    assert s.services[x].job.event.id !in s.db.outbox;
    forall y | y in s.batches
      ensures OpenInOrder(t.db.outbox, s.batches[y]) && SentWasAvailable(t.db.outbox, s.batches[y])
    {
      assert OpenInOrder(s.db.outbox, s.batches[y]) && SentWasAvailable(s.db.outbox, s.batches[y]);
      forall j | s.batches[y].fate == Open && IsSkipped(t.db.outbox, s.batches[y], j)
        ensures t.db.outbox[j].availableAt > s.batches[y].began
      {
        CommitSkipsNothingNew(s, x, y, j);
      }
    }
  }

  lemma NobodyElseIsOpen(s: State, x: TxId)
    requires OneOpenBatch(s.batches) && x in s.batches && s.batches[x].fate == Open
    ensures LockedByOthers(s, x) == {}
  {
  }

  lemma SelectionSkipsOnlyUnavailable(outbox: Outbox, b: Batch)
    requires IsSelection(outbox, {}, b.began, b.limit, b.todo) && b.marks == map[]
    requires forall id :: id in outbox ==> outbox[id].id == id
    ensures SkipsOnlyUnavailable(outbox, b)
  {
    forall j | IsSkipped(outbox, b, j) ensures outbox[j].availableAt > b.began {
      var i :| i in Held(b) && OlderPending(outbox, j, i);
      var k :| 0 <= k < |b.todo| && b.todo[k].id == i;
      assert b.todo[k] == outbox[i] && b.todo[k] in b.todo;
    }
  }

  lemma FetchKeepsInOrder(s: State, a: Action)
    requires Sound(s) && OneOpenBatch(s.batches) && a.Fetch? && a.x in s.batches && BatchEnabled(s, a)
    ensures OpenInOrder(s.db.outbox, NextBatch(s, a))
  {
    NobodyElseIsOpen(s, a.x);
    assert TodoOk(s.batches[a.x]);
    assert forall id :: id in s.db.outbox ==> RowOk(s.db, id, s.db.outbox[id]);
    SelectionSkipsOnlyUnavailable(s.db.outbox, NextBatch(s, a));
  }

  lemma SameHeldSameSkipped(outbox: Outbox, b: Batch, c: Batch)
    requires Held(c) == Held(b) && c.began == b.began && SkipsOnlyUnavailable(outbox, b)
    ensures SkipsOnlyUnavailable(outbox, c)
  {
    forall j | IsSkipped(outbox, c, j) ensures outbox[j].availableAt > c.began {
      assert IsSkipped(outbox, b, j);
    }
  }

  /** What a calm batch action does to the record of its batch. */
  lemma NextBatchIsCalm(s: State, a: Action)
    requires Sound(s) && CalmOk(s) && a.x in s.batches && BatchEnabled(s, a) && CalmAction(s, a) && !a.CommitBatch?
    ensures NoRefusal(NextBatch(s, a)) && SentWasAvailable(s.db.outbox, NextBatch(s, a))
  {
    var b, c := s.batches[a.x], NextBatch(s, a);
    assert TodoOk(b) && OpenOk(s.db.outbox, b) && NoRefusal(b) && SentWasAvailable(s.db.outbox, b);
    NextBatchSent(s, a);
    forall id ensures !HasRefused(c, id) {
      assert !HasRefused(b, id);
    }
  }

  lemma NextBatchStaysInOrder(s: State, a: Action)
    requires Sound(s) && CalmOk(s) && a.x in s.batches && BatchEnabled(s, a) && !a.CommitBatch?
    ensures OpenInOrder(s.db.outbox, NextBatch(s, a))
  {
    var b := s.batches[a.x];
    assert TodoOk(b) && OpenOk(s.db.outbox, b) && OpenInOrder(s.db.outbox, b);
    if a.Fetch? {
      FetchKeepsInOrder(s, a);
    } else if !a.AbortBatch? {
      NextBatchSent(s, a);
      SameHeldSameSkipped(s.db.outbox, b, NextBatch(s, a));
      MarkGoesByStamp(s, a);
    }
  }

  lemma MarkGoesByStamp(s: State, a: Action)
    requires a.x in s.batches && BatchEnabled(s, a) && (a.Mark? || a.Send?)
    requires TodoOk(s.batches[a.x]) && OpenOk(s.db.outbox, s.batches[a.x]) && GoesByStamp(s.batches[a.x])
    ensures GoesByStamp(NextBatch(s, a))
  {
    if a.Mark? {
      var b := s.batches[a.x];
      assert b.todo[0] == s.db.outbox[b.todo[0].id];
      assert forall k :: 0 <= k < |NextBatch(s, a).todo| ==> NextBatch(s, a).todo[k] == b.todo[k + 1];
    }
  }

  lemma ReplacingKeepsCalmOk(s: State, t: State, x: TxId)
    requires CalmOk(s) && x in t.batches && t.batches == s.batches[x := t.batches[x]] && t.db == s.db
    requires t.dbClock >= s.dbClock && NoRefusal(t.batches[x])
    requires OpenInOrder(s.db.outbox, t.batches[x]) && SentWasAvailable(s.db.outbox, t.batches[x])
    requires t.batches[x].fate == Open ==> forall y :: y in s.batches && s.batches[y].fate == Open ==> y == x
    requires if x in s.batches then t.batches[x].began == s.batches[x].began && s.batches[x].fate == Open
             else t.batches[x].fate == Open && s.dbClock <= t.batches[x].began <= t.dbClock
    ensures CalmOk(t)
  {
  }

  lemma CommitBatchMarks(s: State, x: TxId)
    requires Committing(s, x) && NoRefusals(s.batches)
    ensures Carries(s.db.outbox, s.db.outbox + s.batches[x].marks)
    ensures forall id :: id in s.batches[x].marks ==>
              && id in s.db.outbox && s.batches[x].marks[id].publishedAt.Some? && HasSent(s.batches[x], id)
              && s.batches[x].marks[id].createdAt == s.db.outbox[id].createdAt
              && s.batches[x].marks[id].aggregateId == s.db.outbox[id].aggregateId
  {
    assert NoRefusal(s.batches[x]);
    forall id | id in s.batches[x].marks
      ensures id in s.db.outbox && s.batches[x].marks[id].publishedAt.Some?
      ensures s.batches[x].marks[id] == Published(s.db.outbox[id], s.batches[x].began)
    {
      assert !HasRefused(s.batches[x], id);
      MarkFacts(s, x, id);
    }
  }

  lemma CommitBatchKeepsCalmOk(s: State, x: TxId)
    requires Committing(s, x) && CalmOk(s)
    ensures CalmOk(NextOfBatch(s, CommitBatch(x)))
  {
    var t := NextOfBatch(s, CommitBatch(x));
    CommitBatchMarks(s, x);
    forall y | y in t.batches
      ensures NoRefusal(t.batches[y]) && t.batches[y].fate != Open && SentWasAvailable(t.db.outbox, t.batches[y])
    {
      assert NoRefusal(s.batches[y]) && SentWasAvailable(s.db.outbox, s.batches[y]);
      assert forall id :: HasSent(t.batches[y], id) <==> HasSent(s.batches[y], id);
      assert forall id :: HasRefused(t.batches[y], id) <==> HasRefused(s.batches[y], id);
    }
  }

  lemma ServiceStepKeepsCalmOk(s: State, a: Action)
    requires CalmOk(s) && Enabled(s, a) && (a.Begin? || a.x in s.services) && !a.CommitService?
    ensures CalmOk(Next(s, a))
  {
    ServiceStepsKeepBatches(s, a);
  }

  lemma BeginBatchKeepsCalmOk(s: State, a: Action)
    requires CalmOk(s) && a.BeginBatch? && Enabled(s, a) && NoOpenBatch(s)
    ensures CalmOk(Next(s, a))
  {
    var b := Next(s, a).batches[a.x];
    assert Held(b) == {} && forall id :: !HasSent(b, id) && !HasRefused(b, id);
    ReplacingKeepsCalmOk(s, Next(s, a), a.x);
  }

  lemma OpenStepKeepsCalmOk(s: State, a: Action)
    requires Sound(s) && CalmOk(s) && a.x in s.batches && BatchEnabled(s, a) && CalmAction(s, a) && !a.CommitBatch?
    ensures CalmOk(NextOfBatch(s, a))
  {
    NextBatchIsCalm(s, a);
    NextBatchStaysInOrder(s, a);
    ReplacingKeepsCalmOk(s, NextOfBatch(s, a), a.x);
  }

  lemma StepKeepsCalmOk(s: State, a: Action)
    requires Safe(s) && Sound(s) && CalmOk(s) && Enabled(s, a) && CalmAction(s, a)
    ensures CalmOk(Next(s, a))
  {
    if a.CommitService? {
      CommitKeepsCalmOk(s, a.x);
    } else if a.CommitBatch? {
      CommitBatchKeepsCalmOk(s, a.x);
    } else if a.BeginBatch? {
      BeginBatchKeepsCalmOk(s, a);
    } else if a.Begin? || a.x in s.services {
      ServiceStepKeepsCalmOk(s, a);
    } else {
      OpenStepKeepsCalmOk(s, a);
    }
  }

  lemma {:induction false} CalmRunsAreOk(acts: seq<Action>)
    requires CanRun(INIT, acts) && Calm(acts)
    ensures CalmOk(After(INIT, acts))
  {
    if acts != [] {
      var front := acts[..|acts| - 1];
      CalmRunsAreOk(front);
      RunsAreSound(front);
      StepKeepsCalmOk(After(INIT, front), acts[|acts| - 1]);
    }
  }

  // ----- Order: nothing is delivered too early, if and only if nothing is passed -----

  lemma {:induction false} CountedIsDelivered(delivered: seq<Event>, id: Uuid)
    ensures Count(delivered, id) > 0 <==> exists e :: e in delivered && e.id == id
  {
    if delivered != [] {
      var front, last := delivered[..|delivered| - 1], delivered[|delivered| - 1];
      CountedIsDelivered(front, id);
      assert delivered == front + [last];
      if last.id == id {
        assert last in delivered;
      }
    }
  }

  /** An event is delivered when some batch has sent it. */
  lemma DeliveredIffSent(s: State, e: Event)
    requires Sound(s) && e in s.db.log
    ensures e in s.delivered <==> Senders(s, e.id) != {}
  {
    assert CountsOk(s, e.id);
    CountedIsDelivered(s.delivered, e.id);
    if f :| f in s.delivered && f.id == e.id {
      assert f in s.db.log && s.db.outbox[f.id].payload == f && s.db.outbox[e.id].payload == e;
    }
  }

  /** A row that was not available to the open batch has never been sent. */
  lemma UnavailableIsUnsent(s: State, x: TxId, j: Uuid)
    requires Sound(s) && CalmOk(s) && x in s.batches && s.batches[x].fate == Open
    requires j in s.db.outbox && s.db.outbox[j].availableAt > s.batches[x].began
    ensures Senders(s, j) == {}
  {
    forall y | y in s.batches ensures !HasSent(s.batches[y], j) {
      assert SentWasAvailable(s.db.outbox, s.batches[y]);
    }
  }

  /** What is next: a pending row, as it is in the outbox. */
  lemma NextRow(s: State, x: TxId)
    requires Sound(s) && x in s.batches && s.batches[x].fate == Open && s.batches[x].todo != []
    ensures var row := s.batches[x].todo[0];
            && IsPending(s.db, row.id) && row == s.db.outbox[row.id] && RowOk(s.db, row.id, row)
            && row.id in Held(s.batches[x]) && row.id !in s.batches[x].marks
  {
    assert TodoOk(s.batches[x]) && OpenOk(s.db.outbox, s.batches[x]);
    OnlySendableIsSent(s, x);
    assert RowOk(s.db, s.batches[x].todo[0].id, s.db.outbox[s.batches[x].todo[0].id]);
  }

  /** What the batch still has to send is no older than what is next. */
  lemma OlderIsNotToCome(s: State, x: TxId, j: Uuid)
    requires Sound(s) && x in s.batches && s.batches[x].fate == Open && s.batches[x].todo != []
    requires OlderPending(s.db.outbox, j, s.batches[x].todo[0].id)
    ensures j !in Ids(s.batches[x].todo)
  {
    var b := s.batches[x];
    assert TodoOk(b) && OpenOk(s.db.outbox, b);
    assert forall k :: 0 <= k < |b.todo| ==>
             b.todo[k] == s.db.outbox[b.todo[k].id] && b.todo[k].createdAt >= b.todo[0].createdAt;
  }

  /** When nothing is passed, the older pending rows of the next one's company are marked already. */
  lemma OlderIsMarked(s: State, x: TxId, j: Uuid)
    requires Sound(s) && CalmOk(s) && x in s.batches && s.batches[x].fate == Open && s.batches[x].todo != []
    requires !Passes(s, x) && OlderPending(s.db.outbox, j, s.batches[x].todo[0].id)
    ensures j in s.batches[x].marks
  {
    NextRow(s, x);
    OlderIsNotToCome(s, x, j);
    assert OpenInOrder(s.db.outbox, s.batches[x]);
    assert !IsSkipped(s.db.outbox, s.batches[x], j);
  }

  lemma OlderIsOut(s: State, x: TxId, e: Event)
    requires Sound(s) && CalmOk(s) && x in s.batches && s.batches[x].fate == Open && s.batches[x].todo != []
    requires !Passes(s, x) && e in s.db.log && e.companyId == s.batches[x].todo[0].payload.companyId
    requires e.occurredAt < s.batches[x].todo[0].payload.occurredAt
    ensures e in s.delivered
  {
    NextRow(s, x);
    assert RowOk(s.db, e.id, s.db.outbox[e.id]);
    DeliveredIffSent(s, e);
    if IsPublished(s.db, e.id) {
      assert CountsOk(s, e.id);
      var y :| y in CommittedSenders(s, e.id);
      assert y in Senders(s, e.id);
    } else {
      assert OlderPending(s.db.outbox, e.id, s.batches[x].todo[0].id);
      OlderIsMarked(s, x, e.id);
      assert NoRefusal(s.batches[x]) && !HasRefused(s.batches[x], e.id);
      assert x in Senders(s, e.id);
    }
  }

  lemma AppendOlderFirst(log: seq<Event>, delivered: seq<Event>, next: Event)
    ensures OlderFirst(log, delivered + [next]) <==>
              && OlderFirst(log, delivered)
              && forall e :: e in log && e.companyId == next.companyId && e.occurredAt < next.occurredAt ==>
                   e in delivered
  {
    var d := delivered + [next];
    assert d[..|delivered|] == delivered && d[|delivered|] == next;
    assert forall k :: 0 <= k < |delivered| ==> d[..k] == delivered[..k] && d[k] == delivered[k];
  }

  lemma SendKeepsOlderFirstIff(s: State, a: Action)
    requires Sound(s) && CalmOk(s) && a.Send? && a.x in s.batches && BatchEnabled(s, a) && a.outcome.Acked?
    ensures OlderFirst(s.db.log, NextOfBatch(s, a).delivered) <==> OlderFirst(s.db.log, s.delivered) && !Passes(s, a.x)
  {
    var row := s.batches[a.x].todo[0];
    AppendOlderFirst(s.db.log, s.delivered, row.payload);
    NextRow(s, a.x);
    if Passes(s, a.x) {
      var j :| OlderPending(s.db.outbox, j, row.id) && s.db.outbox[j].availableAt > s.batches[a.x].began;
      UnavailableIsUnsent(s, a.x, j);
      assert RowOk(s.db, j, s.db.outbox[j]);
      DeliveredIffSent(s, s.db.outbox[j].payload);
    } else {
      forall e | e in s.db.log && e.companyId == row.payload.companyId && e.occurredAt < row.payload.occurredAt
        ensures e in s.delivered
      {
        OlderIsOut(s, a.x, e);
      }
    }
  }

  lemma LogGrowsOlderFirst(log: seq<Event>, delivered: seq<Event>, e: Event)
    requires forall k :: 0 <= k < |delivered| && delivered[k].companyId == e.companyId ==>
               delivered[k].occurredAt <= e.occurredAt
    ensures OlderFirst(log + [e], delivered) <==> OlderFirst(log, delivered)
  {
    assert forall f :: f in log + [e] <==> f in log || f == e;
  }

  lemma CommitKeepsOlderFirstIff(s: State, x: TxId)
    requires Safe(s) && Sound(s) && x in s.services && s.services[x].job.Stored?
    ensures OlderFirst(AfterCommit(s, x).db.log, s.delivered) <==> OlderFirst(s.db.log, s.delivered)
  {
    var e := s.services[x].job.event.payload;
    forall k | 0 <= k < |s.delivered| && s.delivered[k].companyId == e.companyId
      ensures s.delivered[k].occurredAt <= e.occurredAt
    {
      assert s.delivered[k] in s.delivered;
    }
    LogGrowsOlderFirst(s.db.log, s.delivered, e);
  }

  lemma OtherStepsKeepDelivery(s: State, a: Action)
    requires Enabled(s, a) && !a.Send? && !a.CommitService?
    ensures Next(s, a).db.log == s.db.log && Next(s, a).delivered == s.delivered
  {
  }

  /** In a calm run the older events of a company come out first if and only if no send passes a row that
      was not available to its batch. */
  lemma {:induction false} OlderFirstIffNothingPassed(acts: seq<Action>)
    requires CanRun(INIT, acts) && Calm(acts)
    ensures OlderFirst(After(INIT, acts).db.log, After(INIT, acts).delivered) <==> NothingPassed(acts)
  {
    if acts != [] {
      var front, a := acts[..|acts| - 1], acts[|acts| - 1];
      var s := After(INIT, front);
      OlderFirstIffNothingPassed(front);
      RunsAreSound(front);
      CalmRunsAreOk(front);
      if a.Send? {
        SendKeepsOlderFirstIff(s, a);
      } else if a.CommitService? {
        CommitKeepsOlderFirstIff(s, a.x);
      } else {
        OtherStepsKeepDelivery(s, a);
      }
    }
  }

  // ----- Convergence: an event has the last word unless its last send passed something -----

  /** The last delivery about `c` is stamped `at` or later. */
  ghost predicate ReachedStamp(delivered: seq<Event>, c: Uuid, at: Time) {
    About(delivered, c) != [] && About(delivered, c)[|About(delivered, c)| - 1].occurredAt >= at
  }

  ghost predicate ReachedRow(s: State, id: Uuid) {
    id in s.db.outbox && ReachedStamp(s.delivered, s.db.outbox[id].aggregateId, s.db.outbox[id].createdAt)
  }

  /** Nothing older of its company can come out after the event any more, unless the event does again. */
  ghost predicate Settled(s: State, id: Uuid) {
    && (IsPublished(s.db, id) ==> ReachedRow(s, id) && forall j :: !OlderPending(s.db.outbox, j, id))
    && (forall x :: x in s.batches && s.batches[x].fate == Open && HasSent(s.batches[x], id) ==>
          ReachedRow(s, id) && forall j :: OlderPending(s.db.outbox, j, id) ==> j in s.batches[x].marks)
  }

  /** Another event of its company comes out after the event: it has, or it is still to come. */
  ghost predicate Overtook(s: State, id: Uuid, o: Event) {
    && id in s.db.outbox && o in s.db.log && o.companyId == s.db.outbox[id].aggregateId && o.id != id
    && (o !in s.delivered || FollowsAll(s.delivered, o, id))
  }

  ghost predicate FollowsAll(delivered: seq<Event>, o: Event, id: Uuid) {
    exists k :: 0 <= k < |delivered| && delivered[k] == o && forall l :: k < l < |delivered| ==> delivered[l].id != id
  }

  lemma AppendReaches(delivered: seq<Event>, e: Event, c: Uuid, at: Time)
    requires if e.companyId == c then at <= e.occurredAt else ReachedStamp(delivered, c, at)
    ensures ReachedStamp(delivered + [e], c, at)
  {
    AboutAppend(delivered, e, c);
  }

  /** A send that passes nothing settles its event. */
  lemma SendSettles(s: State, a: Action)
    requires Sound(s) && CalmOk(s) && a.Send? && a.x in s.batches && BatchEnabled(s, a) && a.outcome.Acked?
    requires !Passes(s, a.x)
    ensures Settled(NextOfBatch(s, a), s.batches[a.x].todo[0].id)
  {
    var t, row := NextOfBatch(s, a), s.batches[a.x].todo[0];
    NextRow(s, a.x);
    AppendReaches(s.delivered, row.payload, row.aggregateId, row.createdAt);
    forall j | OlderPending(t.db.outbox, j, row.id) ensures j in t.batches[a.x].marks {
      OlderIsMarked(s, a.x, j);
    }
    assert forall y :: y in t.batches && t.batches[y].fate == Open ==> y == a.x;
  }

  lemma OtherSendKeepsReached(s: State, a: Action, id: Uuid)
    requires Sound(s) && CalmOk(s) && a.Send? && a.x in s.batches && BatchEnabled(s, a) && a.outcome.Acked?
    requires ReachedRow(s, id)
    requires !OlderPending(s.db.outbox, s.batches[a.x].todo[0].id, id)
    ensures ReachedRow(NextOfBatch(s, a), id)
  {
    NextRow(s, a.x);
    AppendReaches(s.delivered, s.batches[a.x].todo[0].payload, s.db.outbox[id].aggregateId, s.db.outbox[id].createdAt);
  }

  lemma OtherSendKeepsSettled(s: State, a: Action, id: Uuid)
    requires Sound(s) && CalmOk(s) && a.Send? && a.x in s.batches && BatchEnabled(s, a) && a.outcome.Acked?
    requires Settled(s, id) && s.batches[a.x].todo[0].id != id
    ensures Settled(NextOfBatch(s, a), id)
  {
    var t := NextOfBatch(s, a);
    NextRow(s, a.x);
    NextBatchSent(s, a);
    if IsPublished(s.db, id) || HasSent(s.batches[a.x], id) {
      OtherSendKeepsReached(s, a, id);
    }
    assert forall y :: y in t.batches && t.batches[y].fate == Open ==> y == a.x;
  }

  lemma CommitKeepsSettled(s: State, x: TxId, id: Uuid)
    requires Safe(s) && Sound(s) && Settled(s, id) && x in s.services && s.services[x].job.Stored?
    ensures Settled(AfterCommit(s, x), id)
  {
    var t := AfterCommit(s, x);
    assert StoredOk(s.services[x]);
    forall y | y in s.batches && s.batches[y].fate == Open && HasSent(s.batches[y], id) ensures id in s.db.outbox {
      HeldIsKnown(s, y);
    }
    forall j | id in s.db.outbox && OlderPending(t.db.outbox, j, id) ensures OlderPending(s.db.outbox, j, id) {
      CommitAddsNoOlder(s, x, j, id);
    }
  }

  lemma CommitBatchKeepsSettled(s: State, x: TxId, id: Uuid)
    requires Committing(s, x) && CalmOk(s) && Settled(s, id)
    ensures Settled(NextOfBatch(s, CommitBatch(x)), id)
  {
    var t := NextOfBatch(s, CommitBatch(x));
    CommitBatchMarks(s, x);
    forall j | OlderPending(t.db.outbox, j, id) ensures OlderPending(s.db.outbox, j, id) && j !in s.batches[x].marks {
    }
    assert forall y :: y in t.batches ==> t.batches[y].fate != Open;
  }

  lemma SilentKeepsSettled(s: State, a: Action, id: Uuid)
    requires Sound(s) && Settled(s, id) && a.x in s.batches && BatchEnabled(s, a) && !a.Send? && !a.CommitBatch?
    ensures Settled(NextOfBatch(s, a), id)
  {
    NextBatchSent(s, a);
  }

  lemma ServiceStepKeepsSettled(s: State, a: Action, id: Uuid)
    requires Settled(s, id) && Enabled(s, a) && (a.Begin? || a.x in s.services) && !a.CommitService?
    ensures Settled(Next(s, a), id)
  {
    ServiceStepsKeepBatches(s, a);
  }

  lemma BeginBatchKeepsSettled(s: State, a: Action, id: Uuid)
    requires Settled(s, id) && a.BeginBatch? && Enabled(s, a)
    ensures Settled(Next(s, a), id)
  {
    assert !HasSent(Next(s, a).batches[a.x], id);
  }

  lemma OtherStepKeepsSettled(s: State, a: Action, id: Uuid)
    requires Safe(s) && Sound(s) && CalmOk(s) && Enabled(s, a) && CalmAction(s, a) && Settled(s, id)
    requires a.Send? ==> s.batches[a.x].todo[0].id != id
    ensures Settled(Next(s, a), id)
  {
    if a.CommitService? {
      CommitKeepsSettled(s, a.x, id);
    } else if a.CommitBatch? {
      CommitBatchKeepsSettled(s, a.x, id);
    } else if a.BeginBatch? {
      BeginBatchKeepsSettled(s, a, id);
    } else if a.Begin? || a.x in s.services {
      ServiceStepKeepsSettled(s, a, id);
    } else if a.Send? {
      OtherSendKeepsSettled(s, a, id);
    } else {
      SilentKeepsSettled(s, a, id);
    }
  }

  lemma {:induction false} UnpassedIsSettled(acts: seq<Action>, id: Uuid)
    requires CanRun(INIT, acts) && Calm(acts) && !LastSendPassed(acts, id)
    ensures Settled(After(INIT, acts), id)
  {
    if acts != [] {
      var front, a := acts[..|acts| - 1], acts[|acts| - 1];
      var s := After(INIT, front);
      RunsAreSound(front);
      CalmRunsAreOk(front);
      if a.Send? && s.batches[a.x].todo[0].id == id {
        SendSettles(s, a);
      } else {
        UnpassedIsSettled(front, id);
        OtherStepKeepsSettled(s, a, id);
      }
    }
  }

  lemma AppendFollows(delivered: seq<Event>, e: Event, o: Event, id: Uuid)
    requires e.id != id && (o !in delivered || FollowsAll(delivered, o, id))
    ensures o !in delivered + [e] || FollowsAll(delivered + [e], o, id)
  {
    var d := delivered + [e];
    if o in delivered {
      var k :| 0 <= k < |delivered| && delivered[k] == o && forall l :: k < l < |delivered| ==> delivered[l].id != id;
      assert d[k] == o && forall l :: k < l < |d| ==> d[l].id != id;
    } else if o == e {
      assert d[|delivered|] == o;
    }
  }

  lemma CommitBatchKeepsAggregate(s: State, x: TxId, id: Uuid)
    requires Committing(s, x) && id in s.db.outbox
    ensures var t := NextOfBatch(s, CommitBatch(x)).db;
            id in t.outbox && t.outbox[id].aggregateId == s.db.outbox[id].aggregateId
  {
    if id in s.batches[x].marks {
      MarkFacts(s, x, id);
    }
  }

  lemma OtherStepKeepsOvertook(s: State, a: Action, id: Uuid, o: Event)
    requires Sound(s) && Enabled(s, a) && CalmAction(s, a) && Overtook(s, id, o)
    requires a.Send? ==> s.batches[a.x].todo[0].id != id
    ensures Overtook(Next(s, a), id, o)
  {
    if a.CommitBatch? {
      CommitBatchKeepsAggregate(s, a.x, id);
    } else if a.Send? {
      OnlySendableIsSent(s, a.x);
      AppendFollows(s.delivered, s.batches[a.x].todo[0].payload, o, id);
    } else if a.CommitService? {
      assert s.services[a.x].job.event.id !in s.db.outbox;
    } else if a.Begin? || a.x in s.services {
      ServiceStepsKeepBatches(s, a);
    }
  }

  lemma PassingSendIsOvertaken(s: State, a: Action) returns (o: Event)
    requires Sound(s) && CalmOk(s) && a.Send? && a.x in s.batches && BatchEnabled(s, a) && a.outcome.Acked?
    requires Passes(s, a.x)
    ensures Overtook(NextOfBatch(s, a), s.batches[a.x].todo[0].id, o)
  {
    var row := s.batches[a.x].todo[0];
    var j :| OlderPending(s.db.outbox, j, row.id) && s.db.outbox[j].availableAt > s.batches[a.x].began;
    o := s.db.outbox[j].payload;
    assert RowOk(s.db, j, s.db.outbox[j]);
    UnavailableIsUnsent(s, a.x, j);
    DeliveredIffSent(s, o);
    OnlySendableIsSent(s, a.x);
  }

  lemma {:induction false} PassedIsOvertaken(acts: seq<Action>, id: Uuid) returns (o: Event)
    requires CanRun(INIT, acts) && Calm(acts) && LastSendPassed(acts, id)
    ensures Overtook(After(INIT, acts), id, o)
  {
    var front, a := acts[..|acts| - 1], acts[|acts| - 1];
    var s := After(INIT, front);
    RunsAreSound(front);
    CalmRunsAreOk(front);
    if a.Send? && s.batches[a.x].todo[0].id == id {
      o := PassingSendIsOvertaken(s, a);
    } else {
      o := PassedIsOvertaken(front, id);
      OtherStepKeepsOvertook(s, a, id, o);
    }
  }

  lemma {:induction false} NothingPassedAtAll(acts: seq<Action>, id: Uuid)
    requires CanRun(INIT, acts) && NothingPassed(acts)
    ensures !LastSendPassed(acts, id)
  {
    if acts != [] {
      NothingPassedAtAll(acts[..|acts| - 1], id);
    }
  }

  // ----- Orderly availability -----

  /** No pending row hides behind its `available_at` while a younger row of its company is available. */
  ghost predicate AvailableInOrder(outbox: Outbox, now: Time) {
    forall i, j :: OlderPending(outbox, i, j) && Eligible(outbox[j], now) ==> outbox[i].availableAt <= now
  }

  /** Besides, no fetch finds a row that hides. */
  ghost predicate OrderlyAction(s: State, a: Action)
    requires Enabled(s, a)
  {
    CalmAction(s, a) && (a.Fetch? ==> AvailableInOrder(s.db.outbox, s.batches[a.x].began))
  }

  ghost predicate Orderly(acts: seq<Action>)
    requires CanRun(INIT, acts)
  {
    acts == [] ||
    (Orderly(acts[..|acts| - 1]) && OrderlyAction(After(INIT, acts[..|acts| - 1]), acts[|acts| - 1]))
  }

  ghost predicate SkipsNothing(s: State) {
    forall x, j :: x in s.batches && s.batches[x].fate == Open ==> !IsSkipped(s.db.outbox, s.batches[x], j)
  }

  lemma FetchSkipsNothing(s: State, a: Action)
    requires Sound(s) && CalmOk(s) && a.Fetch? && a.x in s.batches && BatchEnabled(s, a)
    requires AvailableInOrder(s.db.outbox, s.batches[a.x].began)
    ensures SkipsNothing(NextOfBatch(s, a))
  {
    var t, b := NextOfBatch(s, a), NextBatch(s, a);
    FetchKeepsInOrder(s, a);
    NextBatchSent(s, a);
    forall j, i | i in Held(b) && OlderPending(s.db.outbox, j, i) ensures s.db.outbox[j].availableAt <= b.began {
      var k :| 0 <= k < |a.rows| && a.rows[k].id == i;
      assert Lookup(s.db.outbox, a.rows[k].id) == Some(a.rows[k]);
    }
    assert forall j :: !IsSkipped(s.db.outbox, b, j);
    assert forall y :: y in t.batches && t.batches[y].fate == Open ==> y == a.x;
  }

  lemma SilentSkipsNothing(s: State, a: Action)
    requires Sound(s) && CalmOk(s) && SkipsNothing(s) && a.x in s.batches && BatchEnabled(s, a)
    requires !a.Fetch? && !a.CommitBatch?
    ensures SkipsNothing(NextOfBatch(s, a))
  {
    var t := NextOfBatch(s, a);
    assert Held(NextBatch(s, a)) == Held(s.batches[a.x]) by {
      NextBatchSent(s, a);
    }
    forall y, j | y in t.batches && t.batches[y].fate == Open ensures !IsSkipped(t.db.outbox, t.batches[y], j) {
      assert y == a.x && !IsSkipped(s.db.outbox, s.batches[y], j);
    }
  }

  lemma CommitBatchSkipsNothing(s: State, x: TxId)
    requires CalmOk(s) && x in s.batches && BatchEnabled(s, CommitBatch(x))
    ensures SkipsNothing(NextOfBatch(s, CommitBatch(x)))
  {
    assert forall y :: y in s.batches && s.batches[y].fate == Open ==> y == x;
  }

  lemma CommitSkipsNothing(s: State, x: TxId)
    requires Safe(s) && Sound(s) && SkipsNothing(s) && x in s.services && s.services[x].job.Stored?
    ensures SkipsNothing(AfterCommit(s, x))
  {
    var t := AfterCommit(s, x);
    forall y, j | y in t.batches && t.batches[y].fate == Open ensures !IsSkipped(t.db.outbox, t.batches[y], j) {
      if IsSkipped(t.db.outbox, t.batches[y], j) {
        CommitSkipsNothingNew(s, x, y, j);
        assert false;
      }
    }
  }

  lemma ServiceStepSkipsNothing(s: State, a: Action)
    requires SkipsNothing(s) && Enabled(s, a) && (a.Begin? || a.x in s.services) && !a.CommitService?
    ensures SkipsNothing(Next(s, a))
  {
    ServiceStepsKeepBatches(s, a);
  }

  lemma BeginBatchSkipsNothing(s: State, a: Action)
    requires SkipsNothing(s) && a.BeginBatch? && Enabled(s, a)
    ensures SkipsNothing(Next(s, a))
  {
    assert Held(Next(s, a).batches[a.x]) == {};
  }

  lemma StepSkipsNothing(s: State, a: Action)
    requires Safe(s) && Sound(s) && CalmOk(s) && SkipsNothing(s) && Enabled(s, a) && OrderlyAction(s, a)
    ensures SkipsNothing(Next(s, a))
    ensures a.Send? ==> !Passes(s, a.x)
  {
    if a.CommitService? {
      CommitSkipsNothing(s, a.x);
    } else if a.BeginBatch? {
      BeginBatchSkipsNothing(s, a);
    } else if a.Begin? || a.x in s.services {
      ServiceStepSkipsNothing(s, a);
    } else if a.Fetch? {
      FetchSkipsNothing(s, a);
    } else if a.CommitBatch? {
      CommitBatchSkipsNothing(s, a.x);
    } else {
      SilentSkipsNothing(s, a);
      if a.Send? {
        SkipsNothingPassesNothing(s, a.x);
      }
    }
  }

  /** Orderly availability is enough for nothing to be passed. */
  lemma {:induction false} OrderlyRunsPassNothing(acts: seq<Action>)
    requires CanRun(INIT, acts) && Orderly(acts)
    ensures Calm(acts) && NothingPassed(acts) && SkipsNothing(After(INIT, acts))
  {
    if acts != [] {
      var front := acts[..|acts| - 1];
      OrderlyRunsPassNothing(front);
      RunsAreSound(front);
      CalmRunsAreOk(front);
      StepSkipsNothing(After(INIT, front), acts[|acts| - 1]);
    }
  }

  lemma HeldWasAvailable(s: State, x: TxId, id: Uuid)
    requires Sound(s) && x in s.batches && s.batches[x].fate == Open && id in Held(s.batches[x])
    ensures id in s.db.outbox && s.db.outbox[id].availableAt <= s.batches[x].began
  {
    assert OpenOk(s.db.outbox, s.batches[x]);
  }

  lemma SkipsNothingPassesNothing(s: State, x: TxId)
    requires Sound(s) && SkipsNothing(s) && x in s.batches && s.batches[x].fate == Open && s.batches[x].todo != []
    ensures !Passes(s, x)
  {
    NextRow(s, x);
    forall j | OlderPending(s.db.outbox, j, s.batches[x].todo[0].id)
      ensures s.db.outbox[j].availableAt <= s.batches[x].began
    {
      assert !IsSkipped(s.db.outbox, s.batches[x], j);
      HeldWasAvailable(s, x, j);
    }
  }

  ghost predicate OrderlyLeadsTo(acts: seq<Action>, s: State) {
    CanRun(INIT, acts) && Orderly(acts) && After(INIT, acts) == s
  }

  /** Reached by one publisher without producer failures, with rows available in order. */
  ghost predicate OrderlyReachable(s: State) {
    exists acts :: OrderlyLeadsTo(acts, s)
  }

  ghost predicate UnpassedLeadsTo(acts: seq<Action>, s: State) {
    CalmlyLeadsTo(acts, s) && NothingPassed(acts)
  }

  /** Reached by one publisher without producer failures, with no send that passes an older event. */
  ghost predicate UnpassedReachable(s: State) {
    exists acts :: UnpassedLeadsTo(acts, s)
  }

  lemma OrderlyIsUnpassed(s: State)
    requires OrderlyReachable(s)
    ensures UnpassedReachable(s)
  {
    var acts :| OrderlyLeadsTo(acts, s);
    OrderlyRunsPassNothing(acts);
    assert UnpassedLeadsTo(acts, s);
  }
}
