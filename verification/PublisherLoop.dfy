/** The outbox publisher: fetch, send and mark inside one transaction. */
module PublisherLoop {
  import opened Wrappers
  import opened Domain
  import opened Tables
  import opened Serial
  import opened Safety
  import opened Delivery
  import opened Batches
  import opened Database
  import opened Repositories

  /** The event producer; what it has acknowledged can never be taken back. */
  class Producer {
    ghost var delivered: seq<Event>

    constructor ()
      ensures delivered == []
    {
      delivered := [];
    }

    method Publish(event: Event) returns (e: Option<string>)
      modifies this
      ensures delivered == old(delivered) + if e.None? then [event] else []
    {
      var accepted: bool := *;
      var reason: string := *;
      if accepted {
        delivered := delivered + [event];
        return None;
      }
      return Some(reason);
    }
  }

  const DEFAULT_INTERVAL: Time := 2_000_000
  const DEFAULT_BATCH := 10

  class Publisher {
    const db: Database
    const repo: OutboxRepository
    const tx: TransactionManager
    const producer: Producer
    const interval: Time
    const batch: nat

    /** A batch size or interval that is not positive is replaced by the default. */
    constructor (db: Database, producer: Producer, interval: Time, batchSize: int)
      ensures Wired() && this.db == db && this.producer == producer
      ensures this.batch >= 1 && this.interval > 0
      ensures batchSize >= 1 ==> this.batch == batchSize
      ensures batchSize < 1 ==> this.batch == 10
      ensures this.interval == if interval > 0 then interval else 2_000_000
    {
      this.db, this.producer := db, producer;
      repo := new OutboxRepository(db);
      tx := new TransactionManager(db);
      this.interval := if interval <= 0 then DEFAULT_INTERVAL else interval;
      this.batch := if batchSize <= 0 then DEFAULT_BATCH else batchSize;
    }

    predicate Wired() {
      repo.db == db && tx.db == db
    }

    ghost predicate Idle()
      reads db
    {
      Wired() && db.work.None? && SerialOk(db.committed)
    }

    /** The workspace after the first |answers| rows. */
    ghost predicate HasMarked(before: Tables, rows: seq<OutboxRow>, answers: seq<Outcome>)
      reads db
    {
      && |answers| <= |rows|
      && db.work == Some(before.(outbox := MarkAll(before.outbox, rows, answers, db.now)))
    }

    /** Sends one event and marks its row: the body of the loop. */
    method SendAndMark(ctx: Context, event: OutboxEvent, ghost before: Tables, ghost sent: seq<Event>,
                       ghost rows: seq<OutboxRow>, ghost answers: seq<Outcome>)
      returns (e: Option<Error>, ghost answer: Outcome)
      requires Wired() && ctx.InTx? && !db.failed && HasMarked(before, rows, answers) && AreRows(before.outbox, rows)
      requires |answers| < |rows| && event == Scan(rows[|answers|]) && producer.delivered == sent + Acks(rows, answers)
      modifies db`committed, db`work, db`failed, db`clock, db`faults, producer
      ensures db.work.Some? && unchanged(db`committed, db`clock) && old(db.faults) <= db.faults
      ensures e.None? ==> !db.failed
      ensures db.faults == old(db.faults) ==> e.None?
      ensures producer.delivered == sent + Acks(rows, answers + [answer])
      ensures e.None? ==> HasMarked(before, rows, answers + [answer])
      ensures e.Some? ==> e.value.Infrastructure?
    {
      MarkAllMarksEach(before.outbox, rows, answers, db.now);
      var refused := producer.Publish(event.event);
      if refused.Some? {
        answer := Refused(refused.value);
        e := repo.MarkFailed(ctx, event.id, refused.value);
      } else {
        answer := Acked;
        e := repo.MarkPublished(ctx, event.id);
      }
      MarkAllAppend(before.outbox, rows, answers, db.now, answer);
    }

    /** Handles the fetched rows in order and goes on after a producer failure; a repository error ends it. */
    method ProcessInTx(ctx: Context) returns (e: Option<Error>, ghost rows: seq<OutboxRow>, ghost answers: seq<Outcome>)
      requires Wired() && ctx.InTx? && db.work.Some? && !db.failed
      requires forall id :: id in db.work.value.outbox ==> db.work.value.outbox[id].id == id
      modifies db`committed, db`work, db`failed, db`clock, db`faults, producer
      ensures db.work.Some? && unchanged(db`committed, db`clock) && old(db.faults) <= db.faults
      ensures e.None? ==> !db.failed
      ensures db.faults == old(db.faults) ==> e.None?
      ensures |answers| <= |rows| && producer.delivered == old(producer.delivered) + Acks(rows, answers)
      ensures e.None? ==> |answers| == |rows| && HasMarked(old(db.work).value, rows, answers)
      ensures e.None? || rows != [] ==> IsSelection(old(db.work).value.outbox, db.locked, db.now, batch, rows)
      ensures e.Some? ==> e.value.Infrastructure?
    {
      ghost var before := db.work.value;
      answers := [];
      var events;
      events, rows := repo.FetchPending(ctx, batch);
      if events.Failure? {
        return Some(events.error), rows, answers;
      }
      SelectionIsRows(before.outbox, db.locked, db.now, batch, rows);
      var i := 0;
      while i < |events.value|
        invariant i <= |events.value| == |rows| && |answers| == i
        invariant db.work.Some? && unchanged(db`committed, db`clock) && old(db.faults) <= db.faults && !db.failed
        invariant HasMarked(before, rows, answers)
        invariant producer.delivered == old(producer.delivered) + Acks(rows, answers)
      {
        ghost var answer;
        e, answer := SendAndMark(ctx, events.value[i], before, old(producer.delivered), rows, answers);
        answers := answers + [answer];
        if e.Some? {
          return;
        }
        i := i + 1;
      }
      e := None;
    }

    /** An error-free batch commits the marks of exactly the first min(batch, eligible) rows that are not
        locked. A batch with an error commits nothing, unless the commit itself reports it; its deliveries
        stand in any case. */
    method ProcessBatch() returns (e: Option<Error>, ghost rows: seq<OutboxRow>, ghost answers: seq<Outcome>)
      requires Idle()
      modifies db`committed, db`work, db`now, db`failed, db`clock, db`faults, producer
      ensures Idle() && old(db.clock) <= db.clock && (rows != [] ==> old(db.clock) <= db.now <= db.clock)
      ensures |answers| <= |rows| && producer.delivered == old(producer.delivered) + Acks(rows, answers)
      ensures e.None? || rows != [] ==> IsSelection(old(db.committed).outbox, db.locked, db.now, batch, rows)
      ensures e.None? || db.committed != old(db.committed) ==>
                && |answers| == |rows|
                && db.committed
                   == old(db.committed).(outbox := MarkAll(old(db.committed).outbox, rows, answers, db.now))
      ensures e.None? || db.committed != old(db.committed) ==>
                && |answers| == |rows|
                && db.committed.companies == old(db.committed).companies && db.committed.log == old(db.committed).log
                && EachMarked(old(db.committed).outbox, db.committed.outbox, rows, answers, db.now)
      ensures old(db.faults) <= db.faults && (db.faults == old(db.faults) ==> e.None?)
      ensures db.committed != old(db.committed) ==> e.None? || e == Some(CommitFailed)
      ensures e.None? ==>
                && |rows| == Min(batch, |EligibleIds(old(db.committed).outbox, db.now) - db.locked|)
                && |Pending(db.committed.outbox)| == |Pending(old(db.committed).outbox)| - CountAcks(answers)
                && TotalAttempts(db.committed.log, db.committed.outbox)
                   == TotalAttempts(old(db.committed).log, old(db.committed).outbox) + |rows| - CountAcks(answers)
      ensures e.None? && CountAcks(answers) == |rows| && db.locked == {} ==>
                SuccessfulBatch(old(db.committed), db.committed, db.now, batch)
    {
      var ctx := tx.Enter(Background);
      if ctx.Failure? {
        return Some(ctx.error), [], [];
      }
      assert forall id :: id in db.committed.outbox ==> RowOk(db.committed, id, db.committed.outbox[id]);
      e, rows, answers := ProcessInTx(ctx.value);
      ghost var marked := e.None?;
      e := tx.Leave(Background, e);
      if marked {
        MarkedBatch(old(db.committed), db.locked, rows, answers, db.now, batch);
      }
    }
  }

  /** What marking all the rows of a fetch makes of the tables. */
  lemma MarkedBatch(t: Tables, locked: set<Uuid>, rows: seq<OutboxRow>, answers: seq<Outcome>, now: Time, limit: nat)
    requires SerialOk(t) && IsSelection(t.outbox, locked, now, limit, rows) && |answers| == |rows|
    ensures var u := t.(outbox := MarkAll(t.outbox, rows, answers, now));
            && SerialOk(u) && EachMarked(t.outbox, u.outbox, rows, answers, now)
            && |rows| == Min(limit, |EligibleIds(t.outbox, now) - locked|)
            && |Pending(u.outbox)| == |Pending(t.outbox)| - CountAcks(answers)
            && TotalAttempts(u.log, u.outbox) == TotalAttempts(t.log, t.outbox) + |rows| - CountAcks(answers)
            && (CountAcks(answers) == |rows| && locked == {} ==> SuccessfulBatch(t, u, now, limit))
  {
    SelectionIsRows(t.outbox, locked, now, limit, rows);
    MarkAllIsEachMarked(t.outbox, rows, answers, now);
    MarkAllKeepsOutboxOk(t, rows, answers, now);
    BatchConserves(t, rows, answers, now);
    SelectionSize(t.outbox, locked, now, limit, rows);
    OnlyAcksAreAllAcks(answers);
    SameCompaniesSameHistories(t, MarkAll(t.outbox, rows, answers, now));
  }

  lemma SameCompaniesSameHistories(t: Tables, outbox: Outbox)
    requires HistoriesFit(t)
    ensures HistoriesFit(t.(outbox := outbox))
  {
    forall c ensures HistoryFits(t.(outbox := outbox), c) {
      assert HistoryFits(t, c);
    }
  }
}
