/** The two repositories: SQL statements executed in the caller's transaction, errors mapped to the domain. */
module Repositories {
  import opened Wrappers
  import opened Domain
  import opened Tables
  import opened Database

  /** mapPostgresError: the two unique constraints of `companies` have domain errors of their own. */
  function MapSqlError(e: SqlError): Error {
    match e
    case UniqueViolation(constraint) =>
      if constraint == COMPANIES_PKEY then DuplicateID
      else if constraint == COMPANIES_NAME_KEY then DuplicateName
      else Infrastructure(constraint)
    case CheckViolation => Infrastructure("check violation")
    case OutOfRange => Infrastructure("out of range")
    case InFailedTransaction => Infrastructure("current transaction is aborted")
    case Connection => Infrastructure("connection")
  }

  /** The error of a write that went wrong says what is in the tables, or nothing about them. */
  predicate Explains(t: Tables, st: Statement, e: Error) {
    || e.Infrastructure?
    || (e == NotFound && Run(t, st, 0) == Success((t, 0)))
    || (e == DuplicateID && Run(t, st, 0) == Failure(UniqueViolation(COMPANIES_PKEY)))
    || (e == DuplicateName && Run(t, st, 0) == Failure(UniqueViolation(COMPANIES_NAME_KEY)))
  }

  class CompanyRepository {
    const db: Database

    constructor (db: Database)
      ensures this.db == db
    {
      this.db := db;
    }

    /** Executes a row write and maps its outcome; a statement that touches no row finds no company. */
    method Write(ctx: Context, st: Statement) returns (e: Option<Error>)
      requires st.InsertCompany? || st.UpdateCompany? || st.DeleteCompany?
      requires db.work.Some? <==> ctx.InTx?
      modifies db`committed, db`work, db`failed, db`clock, db`faults
      ensures (db.work.Some? <==> ctx.InTx?) && old(db.faults) <= db.faults
      ensures ctx.InTx? ==> unchanged(db`committed, db`clock)
      ensures e.None? ==> db.Usable(ctx)
      ensures e.None? ==> Run(old(db.View(ctx)), st, 0) == Success((db.View(ctx), 1))
      ensures e.Some? ==> db.View(ctx) == old(db.View(ctx)) && Explains(old(db.View(ctx)), st, e.value)
      ensures db.faults == old(db.faults) && old(db.Usable(ctx)) ==>
                match Run(old(db.View(ctx)), st, 0)
                case Failure(error) => e == Some(MapSqlError(error))
                case Success((_, n)) => e == if n == 0 then Some(NotFound) else None
    {
      var r := db.Exec(ctx, st);
      if r.Failure? {
        return Some(MapSqlError(r.error));
      }
      if r.value == 0 {
        return Some(NotFound);
      }
      return None;
    }

    method Create(ctx: Context, company: Company) returns (e: Option<Error>)
      requires db.work.Some? <==> ctx.InTx?
      modifies db`committed, db`work, db`failed, db`clock, db`faults
      ensures (db.work.Some? <==> ctx.InTx?) && old(db.faults) <= db.faults
      ensures ctx.InTx? ==> unchanged(db`committed, db`clock)
      ensures e.None? ==> db.Usable(ctx)
      ensures e.None? ==> Run(old(db.View(ctx)), InsertCompany(company.Row()), 0) == Success((db.View(ctx), 1))
      ensures e.None? ==>
                db.View(ctx)
                == old(db.View(ctx)).(companies := old(db.View(ctx)).companies[company.id := company.Row()])
      ensures e.Some? ==> db.View(ctx) == old(db.View(ctx))
      ensures e == Some(DuplicateID) ==> company.id in old(db.View(ctx)).companies
      ensures e == Some(DuplicateName) ==> Named(old(db.View(ctx)).companies, company.name) != {}
      ensures e.Some? ==> e.value in {DuplicateID, DuplicateName} || e.value.Infrastructure?
      ensures db.faults == old(db.faults) && old(db.Usable(ctx)) && WellFormed(company.Row()) ==>
                var companies, fits := old(db.View(ctx)).companies, company.employees <= 2_147_483_647;
                var taken := exists i :: i in companies && companies[i].name == company.name;
                && (e.None? <==> fits && company.id !in companies && !taken)
                && (e == Some(DuplicateID) <==> fits && company.id in companies)
                && (e == Some(DuplicateName) <==> fits && company.id !in companies && taken)
    {
      e := Write(ctx, InsertCompany(company.Row()));
      NamedMeansTaken(old(db.View(ctx)).companies, company.name);
    }

    /** `created_at` is not written. */
    method Update(ctx: Context, company: Company) returns (e: Option<Error>)
      requires db.work.Some? <==> ctx.InTx?
      modifies db`committed, db`work, db`failed, db`clock, db`faults
      ensures (db.work.Some? <==> ctx.InTx?) && old(db.faults) <= db.faults
      ensures ctx.InTx? ==> unchanged(db`committed, db`clock)
      ensures e.None? ==> db.Usable(ctx)
      ensures e.None? ==> Run(old(db.View(ctx)), UpdateCompany(company.Row()), 0) == Success((db.View(ctx), 1))
      ensures e.None? ==>
                var companies := old(db.View(ctx)).companies;
                && company.id in companies
                && db.View(ctx) == old(db.View(ctx)).(companies := companies[
                     company.id := company.Row().(createdAt := companies[company.id].createdAt)])
      ensures e.Some? ==> db.View(ctx) == old(db.View(ctx))
      ensures e == Some(NotFound) ==> company.id !in old(db.View(ctx)).companies
      ensures e == Some(DuplicateName) ==> !(Named(old(db.View(ctx)).companies, company.name) <= {company.id})
      ensures e.Some? ==> e.value in {NotFound, DuplicateName} || e.value.Infrastructure?
      ensures db.faults == old(db.faults) && old(db.Usable(ctx)) && WellFormed(company.Row()) ==>
                var companies, fits := old(db.View(ctx)).companies, company.employees <= 2_147_483_647;
                var taken := exists i :: i in companies && i != company.id && companies[i].name == company.name;
                && (e.None? <==> fits && company.id in companies && !taken)
                && (e == Some(NotFound) <==> fits && company.id !in companies)
                && (e == Some(DuplicateName) <==> fits && company.id in companies && taken)
    {
      e := Write(ctx, UpdateCompany(company.Row()));
      NamedMeansTaken(old(db.View(ctx)).companies, company.name);
    }

    method Delete(ctx: Context, id: Uuid) returns (e: Option<Error>)
      requires db.work.Some? <==> ctx.InTx?
      modifies db`committed, db`work, db`failed, db`clock, db`faults
      ensures (db.work.Some? <==> ctx.InTx?) && old(db.faults) <= db.faults
      ensures ctx.InTx? ==> unchanged(db`committed, db`clock)
      ensures e.None? ==> db.Usable(ctx)
      ensures e.None? ==> Run(old(db.View(ctx)), DeleteCompany(id), 0) == Success((db.View(ctx), 1))
      ensures e.None? ==>
                && id in old(db.View(ctx)).companies
                && db.View(ctx) == old(db.View(ctx)).(companies := old(db.View(ctx)).companies - {id})
      ensures e.Some? ==> db.View(ctx) == old(db.View(ctx))
      ensures e == Some(NotFound) ==> id !in old(db.View(ctx)).companies
      ensures e.Some? ==> e.value == NotFound || e.value.Infrastructure?
      ensures db.faults == old(db.faults) && old(db.Usable(ctx)) ==>
                (e.None? <==> id in old(db.View(ctx)).companies)
                && (e == Some(NotFound) <==> id !in old(db.View(ctx)).companies)
    {
      e := Write(ctx, DeleteCompany(id));
    }

    method GetByID(ctx: Context, id: Uuid) returns (r: Result<Company, Error>)
      requires db.work.Some? <==> ctx.InTx?
      modifies db`failed, db`faults
      ensures old(db.faults) <= db.faults
      ensures r.Success? ==> fresh(r.value) && Lookup(db.View(ctx).companies, id) == Some(r.value.Row())
      ensures r.Failure? ==> r.error == NotFound || r.error.Infrastructure?
      ensures r.Success? || r == Failure(NotFound) ==> db.Usable(ctx) && db.failed == old(db.failed)
      ensures r == Failure(NotFound) ==> id !in db.View(ctx).companies
      ensures db.faults == old(db.faults) && old(db.Usable(ctx)) ==>
                (r.Success? <==> id in db.View(ctx).companies)
                && (r == Failure(NotFound) <==> id !in db.View(ctx).companies)
    {
      var e := db.Read(ctx);
      if e.Some? {
        return Failure(e.value);
      }
      if id !in db.View(ctx).companies {
        return Failure(NotFound);
      }
      var c := new Company(db.View(ctx).companies[id]);
      return Success(c);
    }

    method GetByName(ctx: Context, name: string) returns (r: Result<Company, Error>)
      requires db.work.Some? <==> ctx.InTx?
      modifies db`failed, db`faults
      ensures old(db.faults) <= db.faults
      ensures r.Success? ==> fresh(r.value)
      ensures r.Success? ==>
                exists id :: id in Named(db.View(ctx).companies, name) && db.View(ctx).companies[id] == r.value.Row()
      ensures r.Failure? ==> r.error == NotFound || r.error.Infrastructure?
      ensures r.Success? || r == Failure(NotFound) ==> db.Usable(ctx) && db.failed == old(db.failed)
      ensures r == Failure(NotFound) ==> Named(db.View(ctx).companies, name) == {}
      ensures db.faults == old(db.faults) && old(db.Usable(ctx)) ==>
                var taken := exists i :: i in db.View(ctx).companies && db.View(ctx).companies[i].name == name;
                (r.Success? <==> taken) && (r == Failure(NotFound) <==> !taken)
    {
      NamedMeansTaken(db.View(ctx).companies, name);
      var e := db.Read(ctx);
      if e.Some? {
        return Failure(e.value);
      }
      var ids := Named(db.View(ctx).companies, name);
      if ids == {} {
        return Failure(NotFound);
      }
      var id :| id in ids;
      var c := new Company(db.View(ctx).companies[id]);
      assert id in Named(db.View(ctx).companies, name) && db.View(ctx).companies[id] == c.Row();
      return Success(c);
    }
  }

  /** An event on its way to the outbox still points at the live company. */
  datatype LiveEvent = LiveEvent(id: Uuid, kind: EventKind, occurredAt: Time, company: Company)

  /** A pending event as the publisher gets it. */
  datatype OutboxEvent = OutboxEvent(id: Uuid, event: Event, attempts: nat)

  function Scan(row: OutboxRow): OutboxEvent {
    OutboxEvent(row.id, row.payload, row.attempts)
  }

  function ScanAll(rows: seq<OutboxRow>): seq<OutboxEvent> {
    seq(|rows|, k requires 0 <= k < |rows| => Scan(rows[k]))
  }

  class OutboxRepository {
    const db: Database

    constructor (db: Database)
      ensures this.db == db
    {
      this.db := db;
    }

    /** Stores a copy of what the company is now. */
    method Store(ctx: Context, event: LiveEvent) returns (e: Option<Error>)
      requires db.work.Some? <==> ctx.InTx?
      modifies db`committed, db`work, db`failed, db`clock, db`faults
      ensures (db.work.Some? <==> ctx.InTx?) && old(db.faults) <= db.faults
      ensures ctx.InTx? ==> unchanged(db`committed, db`clock)
      ensures e.Some? ==> db.View(ctx) == old(db.View(ctx)) && e.value.Infrastructure?
      ensures e.None? ==> db.Usable(ctx)
      ensures db.faults == old(db.faults) && old(db.Usable(ctx)) ==>
                (e.None? <==> event.id !in old(db.View(ctx)).outbox)
      ensures e.None? ==>
                var payload := Event(event.id, event.kind, event.occurredAt, event.company.id, event.company.Row());
                && event.id !in old(db.View(ctx)).outbox
                && db.View(ctx) == Tables(
                     old(db.View(ctx)).companies,
                     old(db.View(ctx)).outbox[event.id := OutboxRow(
                       event.id, event.kind, event.company.id, payload, 0, None, db.Now(ctx), None, event.occurredAt)],
                     old(db.View(ctx)).log + [payload])
    {
      var payload := Event(event.id, event.kind, event.occurredAt, event.company.id, event.company.Row());
      var r := db.Exec(ctx, InsertEvent(payload));
      e := if r.Failure? then Some(MapSqlError(r.error)) else None;
    }

    /** The oldest eligible rows first, at most `limit`, passing over the rows others have locked. */
    method FetchPending(ctx: Context, limit: nat)
      returns (r: Result<seq<OutboxEvent>, Error>, ghost rows: seq<OutboxRow>)
      requires db.work.Some? <==> ctx.InTx?
      requires forall id :: id in db.View(ctx).outbox ==> db.View(ctx).outbox[id].id == id
      modifies db`failed, db`faults
      ensures r.Success? ==> IsSelection(db.View(ctx).outbox, db.locked, db.Now(ctx), limit, rows)
      ensures r.Success? ==> r.value == ScanAll(rows)
      ensures r.Failure? ==> r.error.Infrastructure? && rows == []
      ensures r.Failure? ==> old(db.faults) < db.faults || !old(db.Usable(ctx))
      ensures r.Success? ==> db.Usable(ctx) && db.failed == old(db.failed)
      ensures old(db.faults) <= db.faults
    {
      var e := db.Read(ctx);
      if e.Some? {
        return Failure(e.value), [];
      }
      assert db.View(ctx) == old(db.View(ctx));
      var events;
      ghost var broke;
      events, rows, broke := ScanPending(db.View(ctx).outbox, db.locked, db.Now(ctx), limit);
      if events.None? {
        db.failed := db.failed || ctx.InTx?;
        assert broke;
        db.faults := db.faults + 1;
        return Failure(Infrastructure("scan outbox event")), [];
      }
      return Success(events.value), rows;
    }

    method MarkPublished(ctx: Context, id: Uuid) returns (e: Option<Error>)
      requires db.work.Some? <==> ctx.InTx?
      modifies db`committed, db`work, db`failed, db`clock, db`faults
      ensures (db.work.Some? <==> ctx.InTx?) && old(db.faults) <= db.faults
      ensures ctx.InTx? ==> unchanged(db`committed, db`clock)
      ensures e.Some? ==> db.View(ctx) == old(db.View(ctx)) && e.value.Infrastructure?
      ensures e.None? ==> db.Usable(ctx)
      ensures db.faults == old(db.faults) && old(db.Usable(ctx)) ==> e.None?
      ensures e.None? ==>
                && db.View(ctx).companies == old(db.View(ctx)).companies && db.View(ctx).log == old(db.View(ctx)).log
                && db.View(ctx).outbox == if id in old(db.View(ctx)).outbox
                     then old(db.View(ctx)).outbox[id := old(db.View(ctx)).outbox[id].(
                            publishedAt := Some(db.Now(ctx)), lastError := None)]
                     else old(db.View(ctx)).outbox
    {
      var r := db.Exec(ctx, Statement.MarkPublished(id));
      e := if r.Failure? then Some(MapSqlError(r.error)) else None;
    }

    method MarkFailed(ctx: Context, id: Uuid, reason: string) returns (e: Option<Error>)
      requires db.work.Some? <==> ctx.InTx?
      modifies db`committed, db`work, db`failed, db`clock, db`faults
      ensures (db.work.Some? <==> ctx.InTx?) && old(db.faults) <= db.faults
      ensures ctx.InTx? ==> unchanged(db`committed, db`clock)
      ensures e.Some? ==> db.View(ctx) == old(db.View(ctx)) && e.value.Infrastructure?
      ensures e.None? ==> db.Usable(ctx)
      ensures db.faults == old(db.faults) && old(db.Usable(ctx)) ==> e.None?
      ensures e.None? ==>
                && db.View(ctx).companies == old(db.View(ctx)).companies && db.View(ctx).log == old(db.View(ctx)).log
                && db.View(ctx).outbox == if id in old(db.View(ctx)).outbox
                     then old(db.View(ctx)).outbox[id := old(db.View(ctx)).outbox[id].(
                            attempts := old(db.View(ctx)).outbox[id].attempts + 1, lastError := Some(reason),
                            availableAt := db.Now(ctx) + 10_000_000)]
                     else old(db.View(ctx)).outbox
    {
      var r := db.Exec(ctx, Statement.MarkFailed(id, reason));
      e := if r.Failure? then Some(MapSqlError(r.error)) else None;
    }
  }

  /** The cursor has returned `rows`; the eligible unlocked rows `left` come after all of them. */
  ghost predicate Scanned(outbox: Outbox, locked: set<Uuid>, now: Time, rows: seq<OutboxRow>, left: set<Uuid>) {
    && (forall id :: id in left ==> id in outbox && Eligible(outbox[id], now) && id !in locked && id !in Ids(rows))
    && (forall k :: 0 <= k < |rows| ==>
          Lookup(outbox, rows[k].id) == Some(rows[k]) && Eligible(rows[k], now) && rows[k].id !in locked)
    && (forall j, k :: 0 <= j < k < |rows| ==> rows[j].id != rows[k].id && rows[j].createdAt <= rows[k].createdAt)
    && (forall r, id :: r in rows && id in left ==> r.createdAt <= outbox[id].createdAt)
    && (forall id :: id in outbox && Eligible(outbox[id], now) && id !in locked ==> id in left || id in Ids(rows))
  }

  lemma ScanAllAppend(rows: seq<OutboxRow>, row: OutboxRow)
    ensures ScanAll(rows + [row]) == ScanAll(rows) + [Scan(row)]
  {
  }

  lemma ScanOldest(outbox: Outbox, locked: set<Uuid>, now: Time, rows: seq<OutboxRow>, left: set<Uuid>, oldest: Uuid)
    requires Scanned(outbox, locked, now, rows, left) && oldest in left && outbox[oldest].id == oldest
    requires forall id :: id in left ==> outbox[oldest].createdAt <= outbox[id].createdAt
    ensures Scanned(outbox, locked, now, rows + [outbox[oldest]], left - {oldest})
  {
    assert Ids(rows + [outbox[oldest]]) == Ids(rows) + {oldest};
    assert forall k :: 0 <= k < |rows| ==> rows[k].id in Ids(rows) && rows[k] in rows;
  }

  lemma ScannedIsSelection(outbox: Outbox, locked: set<Uuid>, now: Time, limit: nat, rows: seq<OutboxRow>,
                           left: set<Uuid>)
    requires Scanned(outbox, locked, now, rows, left) && |rows| <= limit && (|rows| == limit || left == {})
    ensures IsSelection(outbox, locked, now, limit, rows)
  {
  }

  /** The query's cursor and the scan of its rows; a row that cannot be scanned gives up the whole answer. */
  method ScanPending(outbox: Outbox, locked: set<Uuid>, now: Time, limit: nat)
    returns (events: Option<seq<OutboxEvent>>, ghost rows: seq<OutboxRow>, ghost broke: bool)
    requires forall id :: id in outbox ==> outbox[id].id == id
    ensures events.None? ==> broke
    ensures events.Some? ==> IsSelection(outbox, locked, now, limit, rows) && events.value == ScanAll(rows)
    ensures events.Some? ==> |events.value| <= limit && forall e :: e in events.value ==>
              e.id in outbox && Eligible(outbox[e.id], now) && e == Scan(outbox[e.id])
  {
    var scanned: seq<OutboxEvent> := [];
    var left := set id | id in outbox && Eligible(outbox[id], now) && id !in locked;
    rows := [];
    while |scanned| < limit && left != {}
      invariant |scanned| <= limit && scanned == ScanAll(rows)
      invariant Scanned(outbox, locked, now, rows, left)
      decreases |left|
    {
      var broken: bool := *;
      if broken {
        return None, rows, true;
      }
      OldestExists(outbox, left);
      var oldest :| oldest in left && forall id | id in left :: outbox[oldest].createdAt <= outbox[id].createdAt;
      ScanOldest(outbox, locked, now, rows, left, oldest);
      ScanAllAppend(rows, outbox[oldest]);
      scanned := scanned + [Scan(outbox[oldest])];
      rows := rows + [outbox[oldest]];
      left := left - {oldest};
    }
    ScannedIsSelection(outbox, locked, now, limit, rows, left);
    return Some(scanned), rows, false;
  }

  lemma {:induction false} OldestExists(outbox: Outbox, ids: set<Uuid>)
    requires ids != {} && ids <= outbox.Keys
    ensures exists id :: id in ids && forall j :: j in ids ==> outbox[id].createdAt <= outbox[j].createdAt
    decreases |ids|
  {
    var some :| some in ids;
    var rest := ids - {some};
    if rest != {} {
      OldestExists(outbox, rest);
      var least :| least in rest && forall j :: j in rest ==> outbox[least].createdAt <= outbox[j].createdAt;
      var id := if outbox[some].createdAt <= outbox[least].createdAt then some else least;
      assert id in ids && forall j :: j in ids ==> outbox[id].createdAt <= outbox[j].createdAt;
    } else {
      assert ids == rest + {some};
      assert forall j :: j in ids ==> outbox[some].createdAt <= outbox[j].createdAt;
    }
  }
}
