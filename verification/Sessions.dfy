/** The code is a run of the interleaved system: whatever is called, in whatever order, and however it ends,
    the database and the producer are as some run of steps leaves them. */
module Sessions {
  import opened Domain
  import opened Tables
  import opened Steps
  import opened Serial
  import opened Refinement
  import opened Database
  import opened ServiceLayer
  import opened PublisherLoop

  /** A run has left the committed tables, the deliveries and the row locks of other publishers like this. */
  ghost predicate Mirrors(s: State, db: Database, delivered: seq<Event>, appNow: Time)
    reads db
  {
    && Reachable(s) && s.services == map[] && s.db == db.committed && s.delivered == delivered
    && HeldByOpen(s) == db.locked && s.dbClock <= db.clock && s.appClock <= appNow
  }

  lemma {:induction false} Above(ids: set<TxId>) returns (x: TxId)
    ensures forall y :: y in ids ==> y < x
  {
    if ids == {} {
      x := 0;
    } else {
      var y :| y in ids;
      var z := Above(ids - {y});
      x := if z > y then z else y + 1;
      assert forall i :: i in ids ==> i == y || i in ids - {y};
    }
  }

  lemma FreshTx(s: State) returns (x: TxId)
    ensures Fresh(s, x)
  {
    x := Above(s.services.Keys + s.batches.Keys);
  }

  // ----- One call -----

  datatype Call =
    | Create(input: CreateInput, draw: Draw)
    | Patch(id: Uuid, patch: Domain.Patch, draw: Draw, at: Time)
    | Delete(id: Uuid, draw: Draw)
    | Publish

  method CallCreate(service: Service, input: CreateInput, draw: Draw, appNow: Time,
                    ghost delivered: seq<Event>, ghost s: State)
    returns (ghost t: State)
    requires service.Idle() && Mirrors(s, service.db, delivered, appNow) && appNow <= draw.occurredAt
    modifies service.db`committed, service.db`work, service.db`now, service.db`failed, service.db`clock
    modifies service.db`faults
    ensures service.Idle() && Mirrors(t, service.db, delivered, draw.occurredAt)
  {
    ghost var x := FreshTx(s);
    ghost var before := service.db.committed;
    t := s;
    var _ := service.CreateCompany(input, draw);
    if service.db.committed != before {
      var row := InputRow(input, draw.createdAt);
      CreateIsARun(s, x, row, service.db.now, draw.eventId, draw.occurredAt);
      t := WithCommitted(s, CreateWrite(row), draw.eventId, draw.occurredAt, service.db.now);
    }
  }

  method CallPatch(service: Service, id: Uuid, patch: Domain.Patch, at: Time, draw: Draw, appNow: Time,
                   ghost delivered: seq<Event>, ghost s: State)
    returns (ghost t: State)
    requires service.Idle() && Mirrors(s, service.db, delivered, appNow) && appNow <= draw.occurredAt
    modifies service.db`committed, service.db`work, service.db`now, service.db`failed, service.db`clock
    modifies service.db`faults
    ensures service.Idle() && Mirrors(t, service.db, delivered, draw.occurredAt)
  {
    ghost var x := FreshTx(s);
    ghost var before := service.db.committed;
    t := s;
    var _ := service.PatchCompany(id, patch, draw, at);
    if service.db.committed != before {
      var row := before.companies[id];
      PatchIsARun(s, x, id, patch, at, service.db.now, draw.eventId, draw.occurredAt);
      t := WithCommitted(s, UpdateWrite(row, Patched(row, patch, at)), draw.eventId, draw.occurredAt, service.db.now);
    }
  }

  method CallDelete(service: Service, id: Uuid, draw: Draw, appNow: Time,
                    ghost delivered: seq<Event>, ghost s: State)
    returns (ghost t: State)
    requires service.Idle() && Mirrors(s, service.db, delivered, appNow) && appNow <= draw.occurredAt
    modifies service.db`committed, service.db`work, service.db`now, service.db`failed, service.db`clock
    modifies service.db`faults
    ensures service.Idle() && Mirrors(t, service.db, delivered, draw.occurredAt)
  {
    ghost var x := FreshTx(s);
    ghost var before := service.db.committed;
    t := s;
    var _ := service.DeleteCompany(id, draw);
    if service.db.committed != before {
      DeleteIsARun(s, x, id, service.db.now, draw.eventId, draw.occurredAt);
      t := WithCommitted(s, DeleteWrite(before.companies[id]), draw.eventId, draw.occurredAt, service.db.now);
    }
  }

  /** One call to the service, whatever its outcome. */
  method CallService(service: Service, call: Call, appNow: Time, ghost delivered: seq<Event>, ghost s: State)
    returns (ghost t: State)
    requires service.Idle() && !call.Publish?
    requires Mirrors(s, service.db, delivered, appNow) && appNow <= call.draw.occurredAt
    modifies service.db`committed, service.db`work, service.db`now, service.db`failed, service.db`clock
    modifies service.db`faults
    ensures service.Idle() && Mirrors(t, service.db, delivered, call.draw.occurredAt)
  {
    match call
    case Create(input, draw) =>
      t := CallCreate(service, input, draw, appNow, delivered, s);
    case Patch(id, patch, draw, at) =>
      t := CallPatch(service, id, patch, at, draw, appNow, delivered, s);
    case Delete(id, draw) =>
      t := CallDelete(service, id, draw, appNow, delivered, s);
  }

  /** One batch of the publisher, whatever its outcome. */
  method RunBatch(publisher: Publisher, appNow: Time, ghost s: State) returns (ghost t: State)
    requires publisher.Idle() && publisher.batch >= 1
    requires Mirrors(s, publisher.db, publisher.producer.delivered, appNow)
    modifies publisher.db`committed, publisher.db`work, publisher.db`now, publisher.db`failed, publisher.db`clock
    modifies publisher.db`faults, publisher.producer
    ensures publisher.Idle() && Mirrors(t, publisher.db, publisher.producer.delivered, appNow)
  {
    ghost var x := FreshTx(s);
    ghost var before := publisher.db.committed;
    var e;
    ghost var rows, answers;
    e, rows, answers := publisher.ProcessBatch();
    t := s;
    if rows != [] {
      var fate := if publisher.db.committed == before then RolledBack else Committed;
      BatchIsARun(s, x, publisher.batch, publisher.db.now, rows, answers);
      AfterBatchHoldsNothing(s, x, publisher.batch, publisher.db.now, rows, answers, fate);
      t := AfterBatch(s, x, publisher.batch, publisher.db.now, rows, answers, fate);
    }
  }

  // ----- Any number of calls -----

  /** The application's clock does not run backwards from one call to the next. */
  ghost predicate ClocksGoOn(calls: seq<Call>, appNow: Time) {
    && (forall i :: 0 <= i < |calls| && !calls[i].Publish? ==> appNow <= calls[i].draw.occurredAt)
    && (forall i, j :: 0 <= i < j < |calls| && !calls[i].Publish? && !calls[j].Publish? ==>
          calls[i].draw.occurredAt <= calls[j].draw.occurredAt)
  }

  /** Any sequence of service calls and batches over one database, with failures, refusals, rolled-back
      batches and doubtful commits: what it leaves is left by a run. */
  method Session(service: Service, publisher: Publisher, calls: seq<Call>, appNow: Time, ghost s: State)
    returns (ghost t: State, ghost appLater: Time)
    requires service.Idle() && publisher.Idle() && publisher.db == service.db && publisher.batch >= 1
    requires Mirrors(s, service.db, publisher.producer.delivered, appNow) && ClocksGoOn(calls, appNow)
    modifies service.db`committed, service.db`work, service.db`now, service.db`failed, service.db`clock
    modifies service.db`faults
    modifies publisher.producer
    ensures service.Idle() && publisher.Idle()
    ensures Mirrors(t, service.db, publisher.producer.delivered, appLater)
  {
    t := s;
    var now := appNow;
    for i := 0 to |calls|
      invariant service.Idle() && publisher.Idle()
      invariant Mirrors(t, service.db, publisher.producer.delivered, now)
      invariant ClocksGoOn(calls[i..], now)
    {
      assert calls[i..][0] == calls[i] && calls[i..][1..] == calls[i + 1..];
      if calls[i].Publish? {
        t := RunBatch(publisher, now, t);
      } else {
        t := CallService(service, calls[i], now, publisher.producer.delivered, t);
        now := calls[i].draw.occurredAt;
      }
    }
    appLater := now;
  }

  /** The same from an empty database, with service and publisher wired as in production. */
  method Production(interval: Time, batch: int, calls: seq<Call>)
    returns (service: Service, publisher: Publisher, ghost t: State)
    requires ClocksGoOn(calls, 0)
    ensures fresh(service.db) && publisher.db == service.db
    ensures Reachable(t) && t.db == service.db.committed && t.delivered == publisher.producer.delivered
  {
    var db := new Database({});
    var producer := new Producer();
    service := new Service(db);
    publisher := new Publisher(db, producer, interval, batch);
    assert LeadsTo([], INIT);
    ghost var later;
    t, later := Session(service, publisher, calls, 0, INIT);
  }
}
