/** Where the guarantees end: concrete runs that show a premise cannot be dropped. */
module Limits {
  import opened Wrappers
  import opened Text
  import opened Domain
  import opened Tables
  import opened Steps
  import opened Safety
  import opened Serial
  import opened Delivery
  import opened Convergence
  import opened Guarantees
  import opened Batches
  import opened Refinement

  /** One publisher and an accepting producer can get here. */
  ghost predicate CalmlyReachable(s: State) {
    exists acts :: CalmlyLeadsTo(acts, s)
  }

  lemma CalmStep(s: State, a: Action, t: State)
    requires CalmlyReachable(s) && Enabled(s, a) && CalmAction(s, a) && Next(s, a) == t
    ensures CalmlyReachable(t)
  {
    var acts :| CalmlyLeadsTo(acts, s);
    RunOneMore(INIT, acts, a);
    assert (acts + [a])[..|acts|] == acts;
    assert CalmlyLeadsTo(acts + [a], t);
  }

  lemma CalmJob(s: State, a: Action, next: Job)
    requires CalmlyReachable(s) && a.x in s.services && LocalStep(a) && !a.StampAndStore?
    requires ServiceEnabled(s, a) && NextJob(s, a) == next
    ensures CalmlyReachable(s.(services := s.services[a.x := s.services[a.x].(job := next)]))
  {
    CalmStep(s, a, s.(services := s.services[a.x := s.services[a.x].(job := next)]));
  }

  lemma CalmStore(s: State, x: TxId, eventId: Uuid, stamp: Time)
    requires CalmlyReachable(s) && x in s.services && s.services[x].job.Wrote?
    requires s.appClock <= stamp && EventIdFree(s, x, eventId)
    ensures var v := s.services[x];
            var job := Stored(v.job.w, NewOutboxRow(EventOf(v.job.w, eventId, stamp), v.began));
            CalmlyReachable(s.(services := s.services[x := v.(job := job)], appClock := stamp))
  {
    var v := s.services[x];
    var job := Stored(v.job.w, NewOutboxRow(EventOf(v.job.w, eventId, stamp), v.began));
    CalmStep(s, StampAndStore(x, eventId, stamp), s.(services := s.services[x := v.(job := job)], appClock := stamp));
  }

  /** A transaction ready to write its row, undisturbed until its commit. */
  lemma CalmTransaction(s: State, x: TxId, w: Write, eventId: Uuid, stamp: Time)
    requires CalmlyReachable(s) && x in s.services && s.services[x].job == Ready(w.kind, w.carried)
    requires TryWrite(s.db, w.kind, w.carried) == Some(w) && Unblocked(s, x, w)
    requires s.appClock <= stamp && EventIdFree(s, x, eventId)
    ensures CalmlyReachable(s.(db := Effect(s.db, w, eventId, stamp, s.services[x].began), services := s.services - {x},
                               born := s.born[eventId := s.services[x].began], appClock := stamp))
  {
    var began := s.services[x].began;
    CalmJob(s, WriteRow(x), Wrote(w));
    var s1 := s.(services := s.services[x := Transaction(began, Wrote(w))]);
    CalmStore(s1, x, eventId, stamp);
    var job := Stored(w, NewOutboxRow(EventOf(w, eventId, stamp), began));
    var s2 := s1.(services := s1.services[x := Transaction(began, job)], appClock := stamp);
    CalmStep(s2, CommitService(x), AfterCommit(s2, x));
    assert AfterCommit(s2, x).services == s.services - {x};
  }

  /** A batch that publishes one row and commits. */
  lemma CalmBatch(s: State, x: TxId, row: OutboxRow)
    requires CalmlyReachable(s) && x !in s.services && x in s.batches
    requires var b := s.batches[x];
             && b == Batch(b.began, b.limit, false, [], None, map[], Open, map[])
             && IsSelection(s.db.outbox, {}, b.began, b.limit, [row])
    requires row.id in s.db.outbox && s.db.outbox[row.id] == row && LockedByOthers(s, x) == {}
    ensures var b := s.batches[x];
            CalmlyReachable(s.(
              db := s.db.(outbox := s.db.outbox[row.id := Published(row, b.began)]),
              batches := s.batches[x := Done(b, row)],
              delivered := s.delivered + [row.payload]))
  {
    var b := s.batches[x];
    CalmSend(s, x, row);
    var b2 := b.(fetched := true, todo := [row], answer := Some(Acked), answers := map[row.id := Acked]);
    var s2 := s.(batches := s.batches[x := b2], delivered := s.delivered + [row.payload]);
    var b3 := b2.(todo := [], answer := None, marks := map[row.id := Published(row, b.began)]);
    CalmRecord(s2, Mark(x), b3);
    var s3 := s2.(batches := s2.batches[x := b3]);
    CalmBatchCommit(s3, x, row, Published(row, b.began));
    assert s3.batches[x := Done(b, row)] == s.batches[x := Done(b, row)];
  }

  lemma CalmSend(s: State, x: TxId, row: OutboxRow)
    requires CalmlyReachable(s) && x !in s.services && x in s.batches && BatchEnabled(s, Fetch(x, [row]))
    requires s.batches[x].answer.None? && s.batches[x].answers == map[]
    ensures var b := Sent(s.batches[x], row);
            CalmlyReachable(s.(batches := s.batches[x := b], delivered := s.delivered + [row.payload]))
  {
    var b := s.batches[x];
    var b1, b2 := b.(fetched := true, todo := [row]), Sent(b, row);
    CalmRecord(s, Fetch(x, [row]), b1);
    var s1 := s.(batches := s.batches[x := b1]);
    assert s1.batches[x := b2] == s.batches[x := b2];
    CalmStep(s1, Send(x, Acked), s1.(batches := s1.batches[x := b2], delivered := s.delivered + [row.payload]));
  }

  /** The batch has fetched the row and sent its event. */
  function Sent(b: Batch, row: OutboxRow): Batch {
    b.(fetched := true, todo := [row], answer := Some(Acked), answers := map[row.id := Acked])
  }

  function Done(b: Batch, row: OutboxRow): Batch {
    b.(fetched := true, marks := map[row.id := Published(row, b.began)], fate := Committed,
       answers := map[row.id := Acked])
  }

  lemma CalmRecord(s: State, a: Action, b: Batch)
    requires CalmlyReachable(s) && a.x !in s.services && a.x in s.batches && (a.Fetch? || a.Mark?)
    requires BatchEnabled(s, a) && NextBatch(s, a) == b
    ensures CalmlyReachable(s.(batches := s.batches[a.x := b]))
  {
    CalmStep(s, a, s.(batches := s.batches[a.x := b]));
  }

  lemma CalmBatchCommit(s: State, x: TxId, row: OutboxRow, mark: OutboxRow)
    requires CalmlyReachable(s) && x !in s.services && x in s.batches && BatchEnabled(s, CommitBatch(x))
    requires s.batches[x].marks == map[row.id := mark]
    ensures CalmlyReachable(s.(db := s.db.(outbox := s.db.outbox[row.id := mark]),
                               batches := s.batches[x := s.batches[x].(fate := Committed)]))
  {
    assert s.db.outbox + map[row.id := mark] == s.db.outbox[row.id := mark];
    CalmStep(s, CommitBatch(x), s.(db := s.db.(outbox := s.db.outbox[row.id := mark]),
                                   batches := s.batches[x := s.batches[x].(fate := Committed)]));
  }

  // ----- A row that is not available yet is overtaken -----

  const ROW := Snapshot(1, "A", "", 0, true, "NonProfit", 0, 0)
  const GROWTH := Patch.Patch(None, None, Some(5), None, None)
  const GROWN := Snapshot(1, "A", "", 5, true, "NonProfit", 0, 0)

  const CREATED := NewOutboxRow(Event(11, Created, 1, 1, ROW), 6)
  const UPDATED := NewOutboxRow(Event(12, Updated, 2, 1, GROWN), 4)

  const BATCH := Batch(5, 10, false, [], None, map[], Open, map[])

  /** The patch begins first, then the batch, then the creation of the company. */
  const BEGUN := State(EMPTY, map[2 := Transaction(4, Patching(1, GROWTH)), 1 := Transaction(6, Creating(ROW))],
                       map[3 := BATCH], [], map[], 0, 6)

  const AFTER_CREATE := State(Tables(map[1 := ROW], map[11 := CREATED], [CREATED.payload]),
                              map[2 := Transaction(4, Patching(1, GROWTH))], map[3 := BATCH], [], map[11 := 6], 1, 6)

  const AFTER_PATCH := State(Tables(map[1 := GROWN], map[11 := CREATED, 12 := UPDATED],
                                    [CREATED.payload, UPDATED.payload]),
                             map[], map[3 := BATCH], [], map[11 := 6, 12 := 4], 2, 6)

  lemma RowIsWellFormed()
    ensures WellFormed(ROW)
  {
    assert ROW.name == "A" && TrimSpace("A") == "A";
  }

  lemma BegunIsReachable()
    ensures CalmlyReachable(BEGUN)
  {
    RowIsWellFormed();
    assert CalmlyLeadsTo([], INIT);
    var s1 := INIT.(services := map[2 := Transaction(4, Patching(1, GROWTH))], dbClock := 4);
    CalmStep(INIT, Begin(2, Patching(1, GROWTH), 4), s1);
    var s2 := s1.(batches := map[3 := BATCH], dbClock := 5);
    CalmStep(s1, BeginBatch(3, 10, 5), s2);
    CalmStep(s2, Begin(1, Creating(ROW), 6), BEGUN);
  }

  lemma AfterCreateIsReachable()
    ensures CalmlyReachable(AFTER_CREATE)
  {
    BegunIsReachable();
    RowIsWellFormed();
    CalmJob(BEGUN, CheckName(1), Ready(Created, ROW));
    var s := BEGUN.(services := BEGUN.services[1 := Transaction(6, Ready(Created, ROW))]);
    assert TryWrite(EMPTY, Created, ROW) == Some(CreateWrite(ROW));
    CalmTransaction(s, 1, CreateWrite(ROW), 11, 1);
    assert s.services - {1} == AFTER_CREATE.services;
    assert Effect(EMPTY, CreateWrite(ROW), 11, 1, 6) == AFTER_CREATE.db;
    assert BEGUN.born[11 := 6] == AFTER_CREATE.born;
  }

  const LOADED := AFTER_CREATE.(services := map[2 := Transaction(4, Loaded(GROWTH, ROW))])
  const READY := AFTER_CREATE.(services := map[2 := Transaction(4, Ready(Updated, GROWN))])

  lemma LoadedIsReachable()
    ensures CalmlyReachable(LOADED)
  {
    AfterCreateIsReachable();
    CalmJob(AFTER_CREATE, Load(2), Loaded(GROWTH, ROW));
    assert AFTER_CREATE.services[2 := Transaction(4, Loaded(GROWTH, ROW))] == LOADED.services;
  }

  lemma ReadyIsReachable()
    ensures CalmlyReachable(READY)
  {
    LoadedIsReachable();
    RowIsWellFormed();
    assert PatchAccepted(LOADED.db, GROWTH, ROW);
    CalmJob(LOADED, Steps.Action.Patch(2, 0), Ready(Updated, GROWN));
    assert LOADED.services[2 := Transaction(4, Ready(Updated, GROWN))] == READY.services;
  }

  lemma GrowthIsWritten()
    ensures TryWrite(READY.db, Updated, GROWN) == Some(UpdateWrite(ROW, GROWN))
  {
    assert Named(READY.db.companies, "A") - {1} == {};
  }

  lemma AfterPatchIsReachable()
    ensures CalmlyReachable(AFTER_PATCH)
  {
    ReadyIsReachable();
    GrowthIsWritten();
    CalmTransaction(READY, 2, UpdateWrite(ROW, GROWN), 12, 2);
    PatchLeavesAfterPatch();
  }

  lemma PatchLeavesAfterPatch()
    ensures READY.services - {2} == AFTER_PATCH.services
    ensures Effect(READY.db, UpdateWrite(ROW, GROWN), 12, 2, 4) == AFTER_PATCH.db
    ensures READY.born[12 := 4] == AFTER_PATCH.born
  {
  }

  const PUBLISHED_UPDATE := AFTER_PATCH.(
    db := AFTER_PATCH.db.(outbox := map[11 := CREATED, 12 := Published(UPDATED, 5)]),
    batches := map[3 := Done(BATCH, UPDATED)], delivered := [UPDATED.payload])

  const NEXT_BATCH := Batch(7, 10, false, [], None, map[], Open, map[])

  const SECOND_BATCH := PUBLISHED_UPDATE.(batches := map[3 := Done(BATCH, UPDATED), 4 := NEXT_BATCH], dbClock := 7)

  lemma PublishedUpdateIsReachable()
    ensures CalmlyReachable(PUBLISHED_UPDATE)
  {
    AfterPatchIsReachable();
    assert Ids([UPDATED]) == {12} && LockedByOthers(AFTER_PATCH, 3) == {};
    CalmBatch(AFTER_PATCH, 3, UPDATED);
    FirstBatchLeavesPublishedUpdate();
  }

  lemma FirstBatchLeavesPublishedUpdate()
    ensures AFTER_PATCH.db.outbox[12 := Published(UPDATED, 5)] == PUBLISHED_UPDATE.db.outbox
    ensures AFTER_PATCH.batches[3 := Done(BATCH, UPDATED)] == PUBLISHED_UPDATE.batches
    ensures AFTER_PATCH.delivered + [UPDATED.payload] == PUBLISHED_UPDATE.delivered
  {
  }

  lemma SecondBatchIsReachable()
    ensures CalmlyReachable(SECOND_BATCH)
  {
    PublishedUpdateIsReachable();
    assert PUBLISHED_UPDATE.batches[4 := NEXT_BATCH] == SECOND_BATCH.batches;
    CalmStep(PUBLISHED_UPDATE, BeginBatch(4, 10, 7), SECOND_BATCH);
  }

  const FINAL := SECOND_BATCH.(
    db := AFTER_PATCH.db.(outbox := map[11 := Published(CREATED, 7), 12 := Published(UPDATED, 5)]),
    batches := map[3 := Done(BATCH, UPDATED), 4 := Done(NEXT_BATCH, CREATED)],
    delivered := [UPDATED.payload, CREATED.payload])

  lemma SecondFetchTakesTheCreation()
    ensures IsSelection(SECOND_BATCH.db.outbox, {}, 7, 10, [CREATED]) && LockedByOthers(SECOND_BATCH, 4) == {}
  {
    assert Ids([CREATED]) == {11};
  }

  lemma FinalIsReachable()
    ensures CalmlyReachable(FINAL)
  {
    SecondBatchIsReachable();
    SecondFetchTakesTheCreation();
    assert SECOND_BATCH.batches[4] == NEXT_BATCH;
    CalmBatch(SECOND_BATCH, 4, CREATED);
    SecondBatchLeavesFinal();
  }

  lemma SecondBatchLeavesFinal()
    ensures SECOND_BATCH.db.outbox[11 := Published(CREATED, 7)] == FINAL.db.outbox
    ensures SECOND_BATCH.batches[4 := Done(NEXT_BATCH, CREATED)] == FINAL.batches
    ensures SECOND_BATCH.delivered + [CREATED.payload] == FINAL.delivered
  {
  }

  lemma FinalReplaysToTheOldCompany()
    ensures !EqualUpToCreation(Replay(FINAL.delivered), FINAL.db.companies)
  {
    ReplayAppend([UPDATED.payload], CREATED.payload);
    assert FINAL.delivered == [UPDATED.payload] + [CREATED.payload];
    assert Replay(FINAL.delivered)[1] == ROW && FINAL.db.companies[1] == GROWN;
  }

  /** Without orderly availability the stream does not converge: one publisher, no failure, distinct
      stamps and nothing pending, and yet the creation, which was not available to the first batch,
      is delivered after the update and undoes it. */
  lemma AvailabilityIsNeeded()
    ensures exists s ::
              && CalmlyReachable(s) && DistinctStamps(s.db.log)
              && NothingPending(s.db)
              && !EqualUpToCreation(Replay(s.delivered), s.db.companies)
  {
    FinalIsReachable();
    FinalReplaysToTheOldCompany();
    assert DistinctStamps(FINAL.db.log);
  }

  // ----- A refused send, a second publisher, equal stamps: each lets an update out before its creation -----

  /** A company created and then patched, with the two events stamped 1 and `stamp`. */
  function Pair(stamp: Time): State {
    WithCommitted(WithCommitted(INIT, CreateWrite(ROW), 11, 1, 0), UpdateWrite(ROW, GROWN), 12, stamp, 0)
  }

  const FIRST := NewOutboxRow(Event(11, Created, 1, 1, ROW), 0)

  function Second(stamp: Time): OutboxRow {
    NewOutboxRow(Event(12, Updated, stamp, 1, GROWN), 0)
  }

  lemma PairIsReachable(stamp: Time)
    requires stamp >= 1
    ensures Reachable(Pair(stamp))
    ensures Pair(stamp).db == Tables(map[1 := GROWN], map[11 := FIRST, 12 := Second(stamp)],
                                     [FIRST.payload, Second(stamp).payload])
  {
    RowIsWellFormed();
    assert LeadsTo([], INIT);
    CreateIsARun(INIT, 1, ROW, 0, 11, 1);
    var s := WithCommitted(INIT, CreateWrite(ROW), 11, 1, 0);
    assert s.db == Tables(map[1 := ROW], map[11 := FIRST], [FIRST.payload]);
    PatchIsARun(s, 2, 1, GROWTH, 0, 0, 12, stamp);
  }

  /** Every pending row was available to every batch. */
  ghost predicate AllWereAvailable(s: State) {
    forall x, id :: x in s.batches && IsPending(s.db, id) ==> s.db.outbox[id].availableAt <= s.batches[x].began
  }

  /** The update is out and its creation is not. */
  ghost predicate UpdateIsFirst(s: State, stamp: Time) {
    s.db == Pair(stamp).db && s.delivered == [Second(stamp).payload]
  }

  lemma UpdateFirstIsOutOfOrder(s: State, stamp: Time)
    requires UpdateIsFirst(s, stamp) && stamp >= 1
    ensures !FirstDeliveriesInCommitOrder(s)
    ensures stamp > 1 ==> DistinctStamps(s.db.log)
    ensures (forall x :: x in s.batches ==> s.batches[x].began == 0) ==> AllWereAvailable(s)
  {
    PairIsReachable(stamp);
    assert s.db.log[0].companyId == s.db.log[1].companyId && s.delivered[0] == s.db.log[1];
    assert s.db.log[0] !in s.delivered[..0];
  }

  /** What one batch over the pair leaves when it is rolled back. */
  lemma OneBatch(stamp: Time, rows: seq<OutboxRow>, answers: seq<Outcome>) returns (s: State)
    requires stamp >= 1 && IsSelection(Pair(stamp).db.outbox, {}, 0, 10, rows) && |answers| <= |rows|
    ensures Reachable(s) && s.db == Pair(stamp).db && s.delivered == Acks(rows, answers)
    ensures s.batches == map[3 := Batch(0, 10, true, rows[|answers|..], None, MarksOf(rows, answers, 0), RolledBack,
                                        AnswersOf(rows, answers))]
  {
    PairIsReachable(stamp);
    assert HeldByOpen(Pair(stamp)) == {};
    BatchIsARun(Pair(stamp), 3, 10, 0, rows, answers);
    s := AfterBatch(Pair(stamp), 3, 10, 0, rows, answers, RolledBack);
    assert [] + Acks(rows, answers) == Acks(rows, answers);
  }

  /** One publisher whose first send is refused goes on to the next event of the company. */
  lemma AcceptanceIsNeeded()
    ensures exists s ::
              && Reachable(s) && DistinctStamps(s.db.log) && |s.batches| == 1 && AllWereAvailable(s)
              && !FirstDeliveriesInCommitOrder(s)
  {
    BothAreSelected();
    var rows, answers := [FIRST, Second(2)], [Refused("unreachable"), Acked];
    var s := OneBatch(2, rows, answers);
    assert answers[..1] == [answers[0]] && Acks(rows, [answers[0]]) == [];
    UpdateFirstIsOutOfOrder(s, 2);
  }

  lemma BothAreSelected()
    ensures IsSelection(Pair(2).db.outbox, {}, 0, 10, [FIRST, Second(2)])
  {
    PairIsReachable(2);
    assert Ids([FIRST, Second(2)]) == {11, 12};
  }

  /** Among equal stamps the query may return the rows in any order. */
  lemma DistinctStampsAreNeeded()
    ensures exists s ::
              && Reachable(s) && |s.batches| == 1 && NoRefusals(s.batches) && AllWereAvailable(s)
              && !FirstDeliveriesInCommitOrder(s)
  {
    YoungerFirstIsSelected();
    var s := OneBatch(1, [Second(1), FIRST], [Acked]);
    FirstAck([Second(1), FIRST]);
    OneAckedBatch(s);
    UpdateFirstIsOutOfOrder(s, 1);
  }

  lemma OneAckedBatch(s: State)
    requires s.batches.Keys == {3} && s.batches[3].began == 0 && s.batches[3].answer.None?
    requires forall id :: id in s.batches[3].marks ==> s.batches[3].marks[id].publishedAt.Some?
    ensures |s.batches| == 1 && NoRefusals(s.batches) && forall x :: x in s.batches ==> s.batches[x].began == 0
  {
    assert |s.batches| == |s.batches.Keys|;
  }

  lemma FirstAck(rows: seq<OutboxRow>)
    requires rows != []
    ensures Acks(rows, [Acked]) == [rows[0].payload]
    ensures MarksOf(rows, [Acked], 0) == map[rows[0].id := Published(rows[0], 0)]
  {
    assert [Acked][..0] == [];
  }

  lemma YoungerFirstIsSelected()
    ensures IsSelection(Pair(1).db.outbox, {}, 0, 10, [Second(1), FIRST])
  {
    PairIsReachable(1);
    assert Ids([Second(1), FIRST]) == {11, 12};
  }

  /** The first publisher has been handed the creation. */
  lemma FirstBatchHolds() returns (s: State)
    ensures Reachable(s) && s.db == Pair(2).db && s.services == map[] && s.delivered == [] && s.dbClock == 0
    ensures s.batches == map[3 := Batch(0, 1, true, [FIRST], None, map[], Open, map[])]
  {
    PairIsReachable(2);
    assert Ids([FIRST]) == {11} && HeldByOpen(Pair(2)) == {};
    FetchReaches(Pair(2), 3, 1, 0, [FIRST]);
    s := InBatch(Pair(2), 3, 1, 0, [FIRST], []);
  }

  lemma SecondIsSelected(s: State)
    requires s.db == Pair(2).db && s.batches == map[3 := Batch(0, 1, true, [FIRST], None, map[], Open, map[])]
    ensures IsSelection(s.db.outbox, HeldByOpen(s), 0, 1, [Second(2)])
  {
    PairIsReachable(2);
    assert Ids([FIRST]) == {11} && Ids([Second(2)]) == {12} && Held(s.batches[3]) == {11};
    assert HeldByOpen(s) == {11};
  }

  /** The second is handed the update and has sent it. */
  lemma TwoBatches() returns (s: State)
    ensures Reachable(s) && UpdateIsFirst(s, 2) && NoRefusals(s.batches)
    ensures forall x :: x in s.batches ==> s.batches[x].began == 0
  {
    var s1 := FirstBatchHolds();
    SecondIsSelected(s1);
    BatchIsARun(s1, 4, 1, 0, [Second(2)], [Acked]);
    s := AfterBatch(s1, 4, 1, 0, [Second(2)], [Acked], RolledBack);
    SecondLeaves(s1);
    SentByTheSecond(s1, s);
  }

  lemma SecondLeaves(s: State)
    ensures var t := AfterBatch(s, 4, 1, 0, [Second(2)], [Acked], RolledBack);
            && t.db == s.db && t.delivered == s.delivered + [Second(2).payload]
            && t.batches == s.batches[4 := t.batches[4]] && t.batches[4].began == 0 && t.batches[4].answer.None?
            && t.batches[4].marks == map[12 := Published(Second(2), 0)]
  {
    FirstAck([Second(2)]);
    var t := AfterBatch(s, 4, 1, 0, [Second(2)], [Acked], RolledBack);
    assert t.batches == s.batches[4 := t.batches[4]];
  }

  lemma SentByTheSecond(s: State, t: State)
    requires s.batches == map[3 := Batch(0, 1, true, [FIRST], None, map[], Open, map[])]
    requires 4 in t.batches && t.batches == s.batches[4 := t.batches[4]] && t.batches[4].began == 0
    requires t.batches[4].answer.None? && t.batches[4].marks == map[12 := Published(Second(2), 0)]
    ensures NoRefusals(t.batches) && forall x :: x in t.batches ==> t.batches[x].began == 0
  {
  }


  /** Two publishers are handed one event each, and the second sends first. */
  lemma OnePublisherIsNeeded()
    ensures exists s ::
              && Reachable(s) && DistinctStamps(s.db.log) && NoRefusals(s.batches) && AllWereAvailable(s)
              && !FirstDeliveriesInCommitOrder(s)
  {
    var s := TwoBatches();
    UpdateFirstIsOutOfOrder(s, 2);
  }

  // ----- A company recreated between the read and the write of a patch -----

  const REBORN := ROW.(createdAt := 9, updatedAt := 9)

  const OLD := WithCommitted(INIT, CreateWrite(ROW), 11, 1, 0)
  const READ := OLD.(services := map[2 := Transaction(1, Ready(Updated, GROWN))], dbClock := 1)
  const GONE := WithCommitted(READ, DeleteWrite(ROW), 12, 2, 2)
  const NEW := WithCommitted(GONE, CreateWrite(REBORN), 13, 3, 3)
  const OVERWRITE := Write(Updated, Some(REBORN), Some(GROWN.(createdAt := 9)), GROWN)

  /** A patch has read the company and is about to write it. */
  lemma ReadIsReachable()
    ensures Reachable(READ)
  {
    RowIsWellFormed();
    assert LeadsTo([], INIT);
    CreateIsARun(INIT, 1, ROW, 0, 11, 1);
    BeginReaches(OLD, 2, Patching(1, GROWTH), 1);
    var s := OLD.(dbClock := 1);
    JobStepReaches(s, Load(2), 1, Patching(1, GROWTH), Loaded(GROWTH, ROW));
    assert PatchAccepted(s.db, GROWTH, ROW);
    JobStepReaches(s, Steps.Action.Patch(2, 0), 1, Loaded(GROWTH, ROW), Ready(Updated, GROWN));
    assert With(s, 2, 1, Ready(Updated, GROWN)) == READ;
  }

  /** Meanwhile the company is deleted and created anew. */
  lemma NewIsReachable()
    ensures Reachable(NEW)
  {
    ReadIsReachable();
    RowIsWellFormed();
    DeleteIsARun(READ, 3, 1, 2, 12, 2);
    assert GONE.db.companies == map[];
    CreateIsARun(GONE, 4, REBORN, 3, 13, 3);
  }

  lemma OverwriteIsWritten()
    ensures TryWrite(NEW.db, Updated, GROWN) == Some(OVERWRITE)
  {
    assert NEW.db.companies == map[1 := REBORN];
    assert Named(NEW.db.companies, "A") - {1} == {};
  }

  lemma OverwriteCommits(s: State)
    requires s == NEW.(services := map[2 := Transaction(1, Wrote(OVERWRITE))]) && Reachable(s)
    ensures exists t :: Reachable(t) && t.db == Effect(NEW.db, OVERWRITE, 14, 4, 1)
  {
    var bare := NEW.(services := map[]);
    assert s == With(bare, 2, 1, Wrote(OVERWRITE));
    StoreReaches(bare, 2, 1, OVERWRITE, 14, 4);
    CommitReaches(bare.(appClock := 4), 2, 1, OVERWRITE, 14, 4);
  }

  /** The log does not always replay exactly: a patch that read a company before it was deleted and created
      anew overwrites the new row, whose creation time its event does not know. */
  lemma ExactReplayNeedsOneGeneration()
    ensures exists s :: Reachable(s) && Replay(s.db.log) != s.db.companies
  {
    NewIsReachable();
    OverwriteIsWritten();
    assert With(NEW, 2, 1, Ready(Updated, GROWN)) == NEW;
    JobStepReaches(NEW, WriteRow(2), 1, Ready(Updated, GROWN), Wrote(OVERWRITE));
    OverwriteCommits(With(NEW, 2, 1, Wrote(OVERWRITE)));
    var s :| Reachable(s) && s.db == Effect(NEW.db, OVERWRITE, 14, 4, 1);
    OverwriteIsNotReplayed();
  }

  lemma OverwriteIsNotReplayed()
    ensures var t := Effect(NEW.db, OVERWRITE, 14, 4, 1); Replay(t.log) != t.companies
  {
    ReplayAppend(NEW.db.log, EventOf(OVERWRITE, 14, 4));
    var t := Effect(NEW.db, OVERWRITE, 14, 4, 1);
    assert Replay(t.log)[1] == GROWN && t.companies[1].createdAt == 9;
  }
}
