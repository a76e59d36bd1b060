/** One PostgreSQL connection's worth of transactions: begin, commit, rollback, and calls that join the
    transaction already in their context. */
module Database {
  import opened Wrappers
  import opened Domain
  import opened Tables

  /** A context either carries the open transaction or does not. */
  datatype Context = Background | InTx

  /** The committed tables, and the workspace of the one open transaction. Any call may fail; `faults`
      counts the calls that did so without a reason in the tables. */
  class Database {
    var committed: Tables
    var work: Option<Tables>
    var now: Time       // now() of the open transaction
    var failed: bool    // a statement failed: the open transaction can only be rolled back
    var clock: Time
    var locked: set<Uuid>    // outbox rows that transactions of other connections have locked

    ghost var faults: nat

    constructor (locked: set<Uuid>)
      ensures committed == EMPTY && work.None? && clock == 0 && this.locked == locked
    {
      committed, work, now, failed, clock, this.locked, faults := EMPTY, None, 0, false, 0, locked, 0;
    }

    /** What a statement executed with this context sees. */
    function View(ctx: Context): Tables
      reads this
      requires ctx.InTx? ==> work.Some?
    {
      if ctx.InTx? then work.value else committed
    }

    /** What now() answers to a statement executed with this context. */
    function Now(ctx: Context): Time
      reads this
    {
      if ctx.InTx? then now else clock
    }

    /** No earlier failure makes the database refuse a statement executed with this context. */
    predicate Usable(ctx: Context)
      reads this
    {
      ctx.InTx? ==> !failed
    }

    method Tick()
      modifies this`clock
      ensures clock >= old(clock)
    {
      var later: Time :| later >= clock;
      clock := later;
    }

    method Begin() returns (e: Option<Error>)
      requires work.None?
      modifies `work, `now, `failed, `clock, `faults
      ensures old(clock) <= clock && old(faults) <= faults
      ensures e.Some? ==> e.value.Infrastructure? && work.None? && old(faults) < faults
      ensures e.None? ==> work == Some(committed) && !failed && now == clock
    {
      Tick();
      var unreachable: bool := *;
      if unreachable {
        faults := faults + 1;
        return Some(Infrastructure("begin transaction"));
      }
      work, now, failed := Some(committed), clock, false;
      return None;
    }

    /** A commit that reports an error may still have taken effect. */
    method Commit() returns (e: Option<Error>)
      requires work.Some?
      modifies `committed, `work, `faults
      ensures work.None? && old(faults) <= faults
      ensures e.None? ==> !old(failed) && committed == old(work).value
      ensures e.Some? ==> old(failed) || old(faults) < faults
      ensures e.Some? ==> e == Some(CommitFailed)
      ensures e.Some? ==> committed == old(committed) || (!old(failed) && committed == old(work).value)
    {
      var applied: bool := *;
      var reported: bool := *;
      if !failed && !(applied && reported) {
        faults := faults + 1;
      }
      e := Some(CommitFailed);
      if !failed && applied {
        committed := work.value;
        e := if reported then None else Some(CommitFailed);
      }
      work := None;
    }

    method Rollback() returns (e: Option<Error>)
      requires work.Some?
      modifies `work, `faults
      ensures work.None? && committed == old(committed) && old(faults) <= faults
      ensures e.Some? ==> e.value.Infrastructure? && old(faults) < faults
    {
      var lost: bool := *;
      work := None;
      if lost {
        faults := faults + 1;
      }
      e := if lost then Some(Infrastructure("rollback transaction")) else None;
    }

    /** Executes one statement in the context's transaction, or on its own when there is none. */
    method Exec(ctx: Context, st: Statement) returns (r: Result<nat, SqlError>)
      requires work.Some? <==> ctx.InTx?
      modifies `committed, `work, `failed, `clock, `faults
      ensures (work.Some? <==> ctx.InTx?) && old(faults) <= faults
      ensures faults == old(faults) && old(Usable(ctx)) ==>
                (r.Success? <==> Run(old(View(ctx)), st, Now(ctx)).Success?)
                && (r.Failure? ==> Run(old(View(ctx)), st, Now(ctx)) == Failure(r.error))
      ensures ctx.InTx? ==> unchanged(`committed, `clock)
      ensures r.Success? ==> old(Usable(ctx)) && failed == old(failed)
      ensures r.Success? ==> Run(old(View(ctx)), st, Now(ctx)) == Success((View(ctx), r.value))
      ensures r.Failure? ==> View(ctx) == old(View(ctx)) && (ctx.InTx? ==> failed)
      ensures r.Failure? && r.error != Connection && r.error != InFailedTransaction ==>
                Run(old(View(ctx)), st, Now(ctx)) == Failure(r.error)
    {
      var broken: bool := *;
      if broken || (ctx.InTx? && failed) {
        failed := failed || ctx.InTx?;
        if broken {
          faults := faults + 1;
        }
        return Failure(if broken then Connection else InFailedTransaction);
      }
      if ctx.Background? {
        Tick();
        var effect := Run(committed, st, clock);
        if effect.Failure? {
          return Failure(effect.error);
        }
        committed := effect.value.0;
        return Success(effect.value.1);
      }
      var effect := Run(work.value, st, now);
      if effect.Failure? {
        failed := true;
        return Failure(effect.error);
      }
      work := Some(effect.value.0);
      return Success(effect.value.1);
    }

    /** Whether a read gets through to the database. */
    method Read(ctx: Context) returns (e: Option<Error>)
      requires work.Some? <==> ctx.InTx?
      modifies `failed, `faults
      ensures old(faults) <= faults
      ensures e.None? ==> failed == old(failed) && Usable(ctx)
      ensures e.Some? ==> e.value.Infrastructure? && (!old(Usable(ctx)) || old(faults) < faults)
    {
      var broken: bool := *;
      if broken || (ctx.InTx? && failed) {
        failed := failed || ctx.InTx?;
        if broken {
          faults := faults + 1;
        }
        return Some(Infrastructure("query"));
      }
      return None;
    }
  }

  /** WithinTransaction, cut at the point where it calls the function: `Enter` is what precedes the call
      and `Leave` what follows it. */
  class TransactionManager {
    const db: Database

    constructor (db: Database)
      ensures this.db == db
    {
      this.db := db;
    }

    method Enter(ctx: Context) returns (r: Result<Context, Error>)
      requires db.work.Some? <==> ctx.InTx?
      modifies db`work, db`now, db`failed, db`clock, db`faults
      ensures old(db.clock) <= db.clock && old(db.faults) <= db.faults
      ensures ctx.InTx? ==> r == Success(ctx) && unchanged(db)
      ensures ctx.Background? && r.Success? ==>
                r.value == InTx && db.work == Some(db.committed) && !db.failed && db.now == db.clock
      ensures r.Failure? ==> r.error.Infrastructure? && db.work.None? && old(db.faults) < db.faults
    {
      if ctx.InTx? {
        return Success(ctx);
      }
      var e := db.Begin();
      if e.Some? {
        return Failure(e.value);
      }
      return Success(InTx);
    }

    /** `outcome` is what the function returned, `ctx` the context WithinTransaction was called with. */
    method Leave(ctx: Context, outcome: Option<Error>) returns (e: Option<Error>)
      requires db.work.Some?
      modifies db`committed, db`work, db`faults
      ensures old(db.faults) <= db.faults
      ensures ctx.InTx? ==> e == outcome && unchanged(db)
      ensures ctx.Background? && db.faults == old(db.faults) ==>
                && e == (if outcome.Some? then outcome else if old(db.failed) then Some(CommitFailed) else None)
                && db.committed == if e.None? then old(db.work).value else old(db.committed)
      ensures ctx.Background? ==> db.work.None?
      ensures ctx.Background? && outcome.Some? ==> e.Some? && db.committed == old(db.committed)
      ensures ctx.Background? && outcome.Some? ==> e == outcome || e.value.Infrastructure?
      ensures ctx.Background? && outcome.None? && e.None? ==> !old(db.failed) && db.committed == old(db.work).value
      ensures ctx.Background? && outcome.None? && e.Some? ==>
                && e == Some(CommitFailed)
                && (db.committed == old(db.committed) || (!old(db.failed) && db.committed == old(db.work).value))
    {
      if ctx.InTx? {
        return outcome;
      }
      if outcome.Some? {
        var rollback := db.Rollback();
        return if rollback.Some? then rollback else outcome;
      }
      e := db.Commit();
    }
  }
}
