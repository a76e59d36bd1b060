/** The application service over a database nobody else is using; any database call may fail. */
module ServiceLayer {
  import opened Wrappers
  import opened Text
  import opened Domain
  import opened Tables
  import opened Steps
  import opened Serial
  import opened Database
  import opened Repositories

  datatype CreateInput = CreateInput(
    id: Uuid, name: string, description: string, employees: int, registered: bool, kind: string)

  function InputRow(input: CreateInput, at: Time): Snapshot {
    NewRow(input.id, input.name, input.description, input.employees, input.registered, input.kind, at)
  }

  /** The input that asks for this row. */
  function InputOf(b: Snapshot): CreateInput {
    CreateInput(b.id, b.name, b.description, b.employees, b.registered, b.kind)
  }

  /** What the clock and the UUID source answer during one call. */
  datatype Draw = Draw(createdAt: Time, eventId: Uuid, occurredAt: Time)

  class Service {
    const db: Database
    const repo: CompanyRepository
    const outbox: OutboxRepository
    const tx: TransactionManager

    constructor (db: Database)
      ensures this.db == db && Wired() && fresh(repo) && fresh(outbox) && fresh(tx)
    {
      this.db := db;
      repo := new CompanyRepository(db);
      outbox := new OutboxRepository(db);
      tx := new TransactionManager(db);
    }

    predicate Wired() {
      repo.db == db && outbox.db == db && tx.db == db
    }

    ghost predicate Idle()
      reads db
    {
      Wired() && db.work.None? && SerialOk(db.committed)
    }

    /** The database clock has not run backwards, and what was committed was begun meanwhile. */
    ghost predicate ClockRan(before: Time, committed: Tables)
      reads db
    {
      before <= db.clock && (db.committed != committed ==> before <= db.now <= db.clock)
    }

    /** Inside the transaction: everything `w` and its event change, and nothing else. */
    ghost predicate Prepared(before: Tables, w: Write, draw: Draw)
      reads db
    {
      db.work == Some(Effect(before, w, draw.eventId, draw.occurredAt, db.now))
    }

    /** The same, committed. */
    ghost predicate Committed(before: Tables, w: Write, draw: Draw)
      reads db
    {
      db.committed == Effect(before, w, draw.eventId, draw.occurredAt, db.now)
    }

    /** The committed log and outbox have gained exactly this event, to be sent from the begin of its
        transaction on. */
    ghost predicate Records(before: Tables, e: Event)
      reads db
    {
      && db.committed.log == before.log + [e] && e.id !in before.outbox
      && db.committed.outbox
         == before.outbox[e.id := OutboxRow(e.id, e.kind, e.companyId, e, 0, None, db.now, None, e.occurredAt)]
    }

    method Publish(ctx: Context, kind: EventKind, company: Company, draw: Draw) returns (e: Option<Error>)
      requires Wired() && ctx.InTx? && db.work.Some? && !db.failed
      modifies db`committed, db`work, db`failed, db`clock, db`faults
      ensures db.work.Some? && unchanged(db`committed, db`clock) && old(db.faults) <= db.faults
      ensures e.None? ==> !db.failed
      ensures e.Some? ==> e.value.Infrastructure?
      ensures db.faults == old(db.faults) ==> (e.None? <==> draw.eventId !in old(db.work).value.outbox)
      ensures e.None? ==>
                var payload := Event(draw.eventId, kind, draw.occurredAt, company.id, company.Row());
                && draw.eventId !in old(db.work).value.outbox
                && db.work.value == Tables(
                     old(db.work).value.companies,
                     old(db.work).value.outbox[draw.eventId := NewOutboxRow(payload, db.now)],
                     old(db.work).value.log + [payload])
    {
      e := outbox.Store(ctx, LiveEvent(draw.eventId, kind, draw.occurredAt, company));
    }

    // ----- Create -----

    method CreateInTx(ctx: Context, company: Company, draw: Draw) returns (e: Option<Error>)
      requires Wired() && ctx.InTx? && db.work.Some? && !db.failed
      requires CompaniesOk(db.work.value.companies) && WellFormed(company.Row())
      modifies db`committed, db`work, db`failed, db`clock, db`faults
      ensures db.work.Some? && unchanged(db`committed, db`clock) && old(db.faults) <= db.faults
      ensures e.None? ==> !db.failed
      ensures e.None? ==>
                && CreateFits(old(db.work).value, company.Row(), draw.eventId)
                && Prepared(old(db.work).value, CreateWrite(company.Row()), draw)
      ensures e == Some(DuplicateName) ==> Named(old(db.work).value.companies, company.name) != {}
      ensures e == Some(DuplicateID) ==>
                company.id in old(db.work).value.companies && Named(old(db.work).value.companies, company.name) == {}
      ensures db.faults == old(db.faults) ==>
                var t := old(db.work).value;
                var taken := exists i :: i in t.companies && t.companies[i].name == company.name;
                var fits := company.employees <= 2_147_483_647;
                && (e.None? <==> !taken && company.id !in t.companies && fits && draw.eventId !in t.outbox)
                && (e == Some(DuplicateName) <==> taken)
                && (e == Some(DuplicateID) <==> !taken && company.id in t.companies && fits)
      ensures e.Some? ==> e.value in {DuplicateName, DuplicateID} || e.value.Infrastructure?
    {
      NamedMeansTaken(db.work.value.companies, company.name);
      var found := repo.GetByName(ctx, company.name);
      if found.Success? {
        return Some(DuplicateName);
      } else if found.error != NotFound {
        return Some(found.error);
      }
      e := repo.Create(ctx, company);
      if e.Some? {
        return;
      }
      CreateIsEffect(old(db.work).value, company.Row());
      e := Publish(ctx, Created, company, draw);
    }

    /** The transaction of CreateCompany. */
    method InsertWithEvent(company: Company, draw: Draw) returns (e: Option<Error>)
      requires Idle() && WellFormed(company.Row())
      modifies db`committed, db`work, db`now, db`failed, db`clock, db`faults
      ensures Idle() && ClockRan(old(db.clock), old(db.committed)) && old(db.faults) <= db.faults
      ensures e.None? || db.committed != old(db.committed) ==>
                && CreateFits(old(db.committed), company.Row(), draw.eventId)
                && Committed(old(db.committed), CreateWrite(company.Row()), draw)
      ensures db.committed != old(db.committed) ==> e.None? || e == Some(CommitFailed)
      ensures e == Some(DuplicateName) ==> Named(old(db.committed).companies, company.name) != {}
      ensures e == Some(DuplicateID) ==>
                company.id in old(db.committed).companies && Named(old(db.committed).companies, company.name) == {}
      ensures db.faults == old(db.faults) ==>
                var t := old(db.committed);
                var taken := exists i :: i in t.companies && t.companies[i].name == company.name;
                var fits := company.employees <= 2_147_483_647;
                && (e.None? <==> !taken && company.id !in t.companies && fits && draw.eventId !in t.outbox)
                && (e == Some(DuplicateName) <==> taken)
                && (e == Some(DuplicateID) <==> !taken && company.id in t.companies && fits)
      ensures e.Some? ==> e.value in {DuplicateName, DuplicateID, CommitFailed} || e.value.Infrastructure?
    {
      var ctx := tx.Enter(Background);
      if ctx.Failure? {
        return Some(ctx.error);
      }
      e := CreateInTx(ctx.value, company, draw);
      ghost var prepared := e.None?;
      e := tx.Leave(Background, e);
      if prepared {
        CreateIsEffect(old(db.committed), company.Row());
        EffectKeepsSerialOk(old(db.committed), CreateWrite(company.Row()), draw.eventId, draw.occurredAt, db.now);
      }
    }

    /** Success commits exactly the new row and its event. A failure commits nothing, unless it is the
        commit that reports it; and it names its cause. */
    method CreateCompany(input: CreateInput, draw: Draw) returns (r: Result<Company, Error>)
      requires Idle()
      modifies db`committed, db`work, db`now, db`failed, db`clock, db`faults
      ensures Idle() && ClockRan(old(db.clock), old(db.committed)) && old(db.faults) <= db.faults
      ensures r.Success? ==> r.value.Row() == InputRow(input, draw.createdAt)
      ensures r.Success? || db.committed != old(db.committed) ==>
                && CreateFits(old(db.committed), InputRow(input, draw.createdAt), draw.eventId)
                && Committed(old(db.committed), CreateWrite(InputRow(input, draw.createdAt)), draw)
      ensures db.committed != old(db.committed) ==> r.Success? || r == Failure(CommitFailed)
      ensures r.Success? || db.committed != old(db.committed) ==>
                && input.id != NIL && input.id !in old(db.committed).companies && input.id in db.committed.companies
                && var row := db.committed.companies[input.id];
                   && row.id == input.id && row.name == TrimSpace(input.name)
                   && row.description == TrimSpace(input.description) && row.employees == input.employees
                   && row.registered == input.registered && row.kind == input.kind
                   && row.createdAt == row.updatedAt == draw.createdAt
                   && db.committed.companies == old(db.committed).companies[input.id := row]
                   && Records(old(db.committed), Event(draw.eventId, Created, draw.occurredAt, input.id, row))
                   && (r.Success? ==> r.value.Row() == row)
      ensures forall b ::
                WellFormed(b) && b.createdAt == b.updatedAt == draw.createdAt && input == InputOf(b)
                && db.committed != old(db.committed) ==>
                  db.committed.companies == old(db.committed).companies[b.id := b]
      ensures db.faults == old(db.faults) ==>
                var companies := old(db.committed).companies;
                var valid :=
                  && input.id != 0 && 1 <= |TrimSpace(input.name)| <= 15 && |TrimSpace(input.description)| <= 3000
                  && input.employees >= 0
                  && input.kind in {"Corporations", "NonProfit", "Cooperative", "Sole Proprietorship"};
                var taken := exists i :: i in companies && companies[i].name == TrimSpace(input.name);
                var fits := input.employees <= 2_147_483_647;
                && (r.Success? <==> valid && !taken && input.id !in companies && fits
                                    && draw.eventId !in old(db.committed).outbox)
                && (r.Failure? && r.error.Invalid? <==> !valid)
                && (r == Failure(DuplicateName) <==> valid && taken)
                && (r == Failure(DuplicateID) <==> valid && !taken && input.id in companies && fits)
      ensures !Valid(InputRow(input, draw.createdAt)) <==>
                r == Failure(Invalid(FieldErrors(InputRow(input, draw.createdAt))))
      ensures r == Failure(DuplicateName) ==> Named(old(db.committed).companies, TrimSpace(input.name)) != {}
      ensures r == Failure(DuplicateID) ==>
                && input.id in old(db.committed).companies
                && Named(old(db.committed).companies, TrimSpace(input.name)) == {}
      ensures r.Failure? ==>
                r.error in {DuplicateName, DuplicateID, CommitFailed} || r.error.Infrastructure? || r.error.Invalid?
    {
      var company := NewWithID(input.id, input.name, input.description, input.employees, input.registered,
                               input.kind, draw.createdAt);
      if company.Failure? {
        return Failure(company.error);
      }
      var e := InsertWithEvent(company.value, draw);
      EffectInWords(old(db.committed), CreateWrite(company.value.Row()), draw.eventId, draw.occurredAt, db.now);
      forall b | WellFormed(b) && b.createdAt == b.updatedAt == draw.createdAt && input == InputOf(b)
        ensures InputRow(input, draw.createdAt) == b
      {
        RowIsMadeOfItsFields(b, draw.createdAt);
      }
      if e.Some? {
        return Failure(e.value);
      }
      return Success(company.value);
    }

    // ----- Patch -----

    /** The name check of PatchCompany, on the trimmed name. */
    method CheckName(ctx: Context, id: Uuid, patch: Patch) returns (e: Option<Error>)
      requires Wired() && ctx.InTx? && db.work.Some? && !db.failed && CompaniesOk(db.work.value.companies)
      modifies db`failed, db`faults
      ensures old(db.faults) <= db.faults
      ensures e.None? ==> !db.failed
      ensures e.None? && patch.name.Some? ==> Named(db.work.value.companies, TrimSpace(patch.name.value)) <= {id}
      ensures e == Some(DuplicateName) ==>
                patch.name.Some? && !(Named(db.work.value.companies, TrimSpace(patch.name.value)) <= {id})
      ensures e.Some? ==> e.value == DuplicateName || e.value.Infrastructure?
      ensures db.faults == old(db.faults) ==>
                e == if patch.name.Some? && !(Named(db.work.value.companies, TrimSpace(patch.name.value)) <= {id})
                     then Some(DuplicateName) else None
    {
      e := None;
      if patch.name.Some? {
        var name := TrimSpace(patch.name.value);
        NamedMeansTaken(db.work.value.companies, name);
        var found := repo.GetByName(ctx, name);
        if found.Success? && found.value.id != id {
          return Some(DuplicateName);
        } else if found.Failure? && found.error != NotFound {
          return Some(found.error);
        }
      }
    }

    /** Up to the row write: `existing` is read, the name is checked, and the object is mutated in place. */
    method ReadAndPatch(ctx: Context, id: Uuid, patch: Patch, at: Time) returns (e: Option<Error>, existing: Company?)
      requires Wired() && ctx.InTx? && db.work.Some? && !db.failed && !patch.IsEmpty()
      requires CompaniesOk(db.work.value.companies)
      modifies db`failed, db`faults
      ensures old(db.faults) <= db.faults
      ensures e.None? ==>
                && !db.failed && PatchGetsToTheWrite(db.work.value, id, patch)
                && existing != null && fresh(existing)
                && existing.Row() == Patched(db.work.value.companies[id], patch, at)
      ensures e.Some? ==> Declines(db.work.value, id, patch, e.value)
      ensures e.Some? && e.value.Infrastructure? ==> old(db.faults) < db.faults
    {
      existing := null;
      var found := repo.GetByID(ctx, id);
      if found.Failure? {
        return Some(found.error), null;
      }
      existing := found.value;
      e := CheckName(ctx, id, patch);
      if e.Some? {
        return;
      }
      PatchAcceptedIffFieldsOk(existing.Row(), patch, at);
      e := existing.ApplyPatch(patch, at);
    }

    /** `existing` is read, mutated in place, written and published; on a failure it may be left half patched. */
    method PatchInTx(ctx: Context, id: Uuid, patch: Patch, draw: Draw, at: Time)
      returns (e: Option<Error>, existing: Company?)
      requires Wired() && ctx.InTx? && db.work.Some? && !db.failed && !patch.IsEmpty()
      requires CompaniesOk(db.work.value.companies)
      modifies db`committed, db`work, db`failed, db`clock, db`faults
      ensures db.work.Some? && unchanged(db`committed, db`clock) && old(db.faults) <= db.faults
      ensures e.None? ==>
                && !db.failed && PatchFits(old(db.work).value, id, patch, draw.eventId)
                && existing != null && existing.Row() == Patched(old(db.work).value.companies[id], patch, at)
                && Prepared(old(db.work).value, UpdateWrite(old(db.work).value.companies[id], existing.Row()), draw)
      ensures e.Some? ==> Declines(old(db.work).value, id, patch, e.value)
      ensures db.faults == old(db.faults) ==>
                (PatchFits(old(db.work).value, id, patch, draw.eventId) ==> e.None?)
                && (e.Some? && e.value.Infrastructure? ==> PatchGetsToTheWrite(old(db.work).value, id, patch))
    {
      ghost var t := db.work.value;
      e, existing := ReadAndPatch(ctx, id, patch, at);
      if e.Some? {
        return;
      }
      PatchCheckMatchesWrite(t, id, patch, at);
      PatchAcceptedIffFieldsOk(t.companies[id], patch, at);
      NamedMeansTaken(t.companies, existing.name);
      e := repo.Update(ctx, existing);
      if e.Some? {
        return;
      }
      e := Publish(ctx, Updated, existing, draw);
    }

    /** All the checks of a patch pass; what is left to object to is the row write and the event. */
    ghost predicate PatchGetsToTheWrite(t: Tables, id: Uuid, patch: Patch) {
      && id in t.companies && PatchOk(patch)
      && (patch.name.Some? ==> Named(t.companies, TrimSpace(patch.name.value)) <= {id})
    }

    /** The error of a failing patch says what is wrong, or is one of the database. */
    ghost predicate Declines(t: Tables, id: Uuid, patch: Patch, e: Error) {
      match e
      case NotFound => id !in t.companies
      case DuplicateName =>
        id in t.companies && patch.name.Some? && !(Named(t.companies, TrimSpace(patch.name.value)) <= {id})
      case Invalid(_) =>
        && id in t.companies && !PatchOk(patch)
        && (patch.name.Some? ==> Named(t.companies, TrimSpace(patch.name.value)) <= {id})
      case Infrastructure(_) => true
      case _ => false
    }

    /** The transaction of PatchCompany. */
    method PatchWithEvent(id: Uuid, patch: Patch, draw: Draw, at: Time) returns (e: Option<Error>, existing: Company?)
      requires Wired() && db.work.None? && CompaniesOk(db.committed.companies) && !patch.IsEmpty()
      modifies db`committed, db`work, db`now, db`failed, db`clock, db`faults
      ensures db.work.None? && ClockRan(old(db.clock), old(db.committed)) && old(db.faults) <= db.faults
      ensures e.None? || db.committed != old(db.committed) ==>
                && PatchFits(old(db.committed), id, patch, draw.eventId)
                && var row := old(db.committed).companies[id];
                   && Committed(old(db.committed), UpdateWrite(row, Patched(row, patch, at)), draw)
                   && (e.None? ==> existing != null && existing.Row() == Patched(row, patch, at))
      ensures db.committed != old(db.committed) ==> e.None? || e == Some(CommitFailed)
      ensures e.Some? ==> e.value == CommitFailed || Declines(old(db.committed), id, patch, e.value)
      ensures db.faults == old(db.faults) ==>
                (PatchFits(old(db.committed), id, patch, draw.eventId) ==> e.None?) && e != Some(CommitFailed)
                && (e.Some? && e.value.Infrastructure? ==> PatchGetsToTheWrite(old(db.committed), id, patch))
    {
      var ctx := tx.Enter(Background);
      if ctx.Failure? {
        return Some(ctx.error), null;
      }
      e, existing := PatchInTx(ctx.value, id, patch, draw, at);
      e := tx.Leave(Background, e);
    }

    /** All or nothing: success commits exactly the field-wise overlay and one event with that same
        snapshot, and a failure commits nothing, unless it is the commit that reports it. */
    method PatchCompany(id: Uuid, patch: Patch, draw: Draw, at: Time) returns (r: Result<Company, Error>)
      requires Idle()
      modifies db`committed, db`work, db`now, db`failed, db`clock, db`faults
      ensures Idle() && ClockRan(old(db.clock), old(db.committed)) && old(db.faults) <= db.faults
      ensures r.Success? || db.committed != old(db.committed) ==>
                && PatchFits(old(db.committed), id, patch, draw.eventId)
                && var row := old(db.committed).companies[id];
                   && Committed(old(db.committed), UpdateWrite(row, Patched(row, patch, at)), draw)
                   && (r.Success? ==> r.value.Row() == Patched(row, patch, at))
      ensures db.committed != old(db.committed) ==> r.Success? || r == Failure(CommitFailed)
      ensures r.Success? || db.committed != old(db.committed) ==>
                && id in old(db.committed).companies && id in db.committed.companies
                && var before, row := old(db.committed).companies[id], db.committed.companies[id];
                   && row.id == id && row.createdAt == before.createdAt && row.updatedAt == at
                   && row.name == (if patch.name.Some? then TrimSpace(patch.name.value) else before.name)
                   && row.description
                      == (if patch.description.Some? then TrimSpace(patch.description.value) else before.description)
                   && row.employees == (if patch.employees.Some? then patch.employees.value else before.employees)
                   && row.registered == (if patch.registered.Some? then patch.registered.value else before.registered)
                   && row.kind == (if patch.kind.Some? then patch.kind.value else before.kind)
                   && db.committed.companies == old(db.committed).companies[id := row]
                   && Records(old(db.committed), Event(draw.eventId, Updated, draw.occurredAt, id, row))
                   && (r.Success? ==> r.value.Row() == row)
      ensures forall b :: WellFormed(b) && patch == FullPatch(b) && db.committed != old(db.committed) ==>
                var before := old(db.committed).companies[id];
                db.committed.companies
                == old(db.committed).companies[id := b.(id := id, createdAt := before.createdAt, updatedAt := at)]
      ensures db.faults == old(db.faults) ==>
                var companies := old(db.committed).companies;
                var empty := patch == Patch.Patch(None, None, None, None, None);
                var taken := patch.name.Some?
                             && exists i ::
                                  i in companies && i != id && companies[i].name == TrimSpace(patch.name.value);
                var good :=
                  && (patch.name.Some? ==> 1 <= |TrimSpace(patch.name.value)| <= 15)
                  && (patch.description.Some? ==> |TrimSpace(patch.description.value)| <= 3000)
                  && (patch.employees.Some? ==> patch.employees.value >= 0)
                  && (patch.kind.Some? ==>
                        patch.kind.value in {"Corporations", "NonProfit", "Cooperative", "Sole Proprietorship"});
                var fits := patch.employees.Some? ==> patch.employees.value <= 2_147_483_647;
                && (r == Failure(EmptyPatch) <==> empty)
                && (r == Failure(NotFound) <==> !empty && id !in companies)
                && (r == Failure(DuplicateName) <==> !empty && id in companies && taken)
                && (r.Failure? && r.error.Invalid? <==> !empty && id in companies && !taken && !good)
                && (r.Success? <==> !empty && id in companies && !taken && good && fits
                                    && draw.eventId !in old(db.committed).outbox)
      ensures r == Failure(EmptyPatch) <==> patch.IsEmpty()
      ensures r.Failure? && r.error != EmptyPatch ==>
                r.error == CommitFailed || Declines(old(db.committed), id, patch, r.error)
    {
      if patch.IsEmpty() {
        return Failure(EmptyPatch);
      }
      var e, existing := PatchWithEvent(id, patch, draw, at);
      if db.committed != old(db.committed) {
        PatchKeepsSerialOk(old(db.committed), id, patch, draw.eventId, at, draw.occurredAt, db.now);
      }
      PatchInWords(old(db.committed), id, patch, draw, at, db.now);
      if e.Some? {
        return Failure(e.value);
      }
      return Success(existing);
    }

    /** When a patch fits, and what its effect is, field by field. */
    lemma PatchInWords(t: Tables, id: Uuid, patch: Patch, draw: Draw, at: Time, now: Time)
      requires SerialOk(t)
      ensures patch.name.Some? ==>
                (Named(t.companies, TrimSpace(patch.name.value)) <= {id} <==>
                 !exists i :: i in t.companies && i != id && t.companies[i].name == TrimSpace(patch.name.value))
      ensures PatchOk(patch) <==>
                && (patch.name.Some? ==> 1 <= |TrimSpace(patch.name.value)| <= 15)
                && (patch.description.Some? ==> |TrimSpace(patch.description.value)| <= 3000)
                && (patch.employees.Some? ==> patch.employees.value >= 0)
                && (patch.kind.Some? ==>
                      patch.kind.value in {"Corporations", "NonProfit", "Cooperative", "Sole Proprietorship"})
      ensures id in t.companies ==>
                && t.companies[id].id == id
                && (Overlay(t.companies[id], patch).employees <= 2_147_483_647 <==>
                    (patch.employees.Some? ==> patch.employees.value <= 2_147_483_647))
                && forall b :: WellFormed(b) && patch == FullPatch(b) ==>
                     Patched(t.companies[id], patch, at)
                     == b.(id := id, createdAt := t.companies[id].createdAt, updatedAt := at)
    {
      PatchOkInWords(patch);
      if patch.name.Some? {
        NamedMeansTaken(t.companies, TrimSpace(patch.name.value));
      }
      if id in t.companies {
        forall b | WellFormed(b) && patch == FullPatch(b)
          ensures Patched(t.companies[id], patch, at)
                  == b.(id := id, createdAt := t.companies[id].createdAt, updatedAt := at)
        {
          FullPatchMakesTheRow(t.companies[id], b);
        }
      }
    }

    // ----- Delete and get -----

    method DeleteInTx(ctx: Context, id: Uuid, draw: Draw) returns (e: Option<Error>)
      requires Wired() && ctx.InTx? && db.work.Some? && !db.failed && CompaniesOk(db.work.value.companies)
      modifies db`committed, db`work, db`failed, db`clock, db`faults
      ensures db.work.Some? && unchanged(db`committed, db`clock) && old(db.faults) <= db.faults
      ensures e.None? ==>
                && !db.failed && DeleteFits(old(db.work).value, id, draw.eventId)
                && Prepared(old(db.work).value, DeleteWrite(old(db.work).value.companies[id]), draw)
      ensures e == Some(NotFound) ==> id !in old(db.work).value.companies
      ensures e.Some? ==> e.value == NotFound || e.value.Infrastructure?
      ensures db.faults == old(db.faults) ==>
                (e.None? <==> id in old(db.work).value.companies && draw.eventId !in old(db.work).value.outbox)
                && (e == Some(NotFound) <==> id !in old(db.work).value.companies)
    {
      var company := repo.GetByID(ctx, id);
      if company.Failure? {
        return Some(company.error);
      }
      DeleteIsEffect(old(db.work).value, id);
      e := repo.Delete(ctx, id);
      if e.Some? {
        return;
      }
      e := Publish(ctx, Deleted, company.value, draw);
    }

    /** All or nothing again: the removal and its event, which carries the row that was removed. */
    method DeleteCompany(id: Uuid, draw: Draw) returns (e: Option<Error>)
      requires Idle()
      modifies db`committed, db`work, db`now, db`failed, db`clock, db`faults
      ensures Idle() && ClockRan(old(db.clock), old(db.committed)) && old(db.faults) <= db.faults
      ensures e.None? || db.committed != old(db.committed) ==>
                && DeleteFits(old(db.committed), id, draw.eventId)
                && Committed(old(db.committed), DeleteWrite(old(db.committed).companies[id]), draw)
      ensures e.None? || db.committed != old(db.committed) ==>
                && id in old(db.committed).companies
                && db.committed.companies == old(db.committed).companies - {id}
                && Records(old(db.committed),
                           Event(draw.eventId, Deleted, draw.occurredAt, id, old(db.committed).companies[id]))
      ensures db.committed != old(db.committed) ==> e.None? || e == Some(CommitFailed)
      ensures e == Some(NotFound) ==> id !in old(db.committed).companies
      ensures e.Some? ==> e.value in {NotFound, CommitFailed} || e.value.Infrastructure?
      ensures db.faults == old(db.faults) ==>
                (e.None? <==> id in old(db.committed).companies && draw.eventId !in old(db.committed).outbox)
                && (e == Some(NotFound) <==> id !in old(db.committed).companies)
    {
      var ctx := tx.Enter(Background);
      if ctx.Failure? {
        return Some(ctx.error);
      }
      e := DeleteInTx(ctx.value, id, draw);
      ghost var prepared := e.None?;
      e := tx.Leave(Background, e);
      if prepared {
        ghost var w := DeleteWrite(old(db.committed).companies[id]);
        DeleteIsEffect(old(db.committed), id);
        EffectKeepsSerialOk(old(db.committed), w, draw.eventId, draw.occurredAt, db.now);
        EffectInWords(old(db.committed), w, draw.eventId, draw.occurredAt, db.now);
      }
    }

    method GetCompany(id: Uuid) returns (r: Result<Company, Error>)
      requires Idle()
      modifies db`failed, db`faults
      ensures Idle() && db.committed == old(db.committed) && old(db.faults) <= db.faults
      ensures r.Success? ==> Lookup(db.committed.companies, id) == Some(r.value.Row())
      ensures r == Failure(NotFound) ==> id !in db.committed.companies
      ensures r.Failure? ==> r.error == NotFound || r.error.Infrastructure?
      ensures db.faults == old(db.faults) ==>
                (r.Success? <==> id in db.committed.companies)
                && (r == Failure(NotFound) <==> id !in db.committed.companies)
    {
      r := repo.GetByID(Background, id);
    }
  }
}
