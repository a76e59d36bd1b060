/** WithinTransaction at any nesting depth. The functions passed to it are written down as scripts:
    statements with what follows a success and what follows an error, returns, and further calls to
    WithinTransaction whose errors are kept or swallowed. */
module Nesting {
  import opened Wrappers
  import opened Domain
  import opened Tables
  import opened Database

  datatype Script =
    | Return(outcome: Option<Error>)
    | Execute(st: Statement, next: Script, rescue: Script)
    | Within(body: Script, swallow: bool, next: Script)     // a call's error is returned, unless it is swallowed

  /** The open transaction after a script: its workspace, whether a statement has failed, what was returned. */
  datatype Progress = Progress(work: Tables, failed: bool, outcome: Option<Error>)

  /** `end` is a possible result of running the script in an open transaction. Any statement may fail;
      a nested call is its body run in place, with no begin, commit or rollback of its own. */
  ghost predicate MayEnd(s: Script, work: Tables, now: Time, failed: bool, end: Progress) {
    match s
    case Return(outcome) => end == Progress(work, failed, outcome)
    case Execute(st, next, rescue) =>
      || MayEnd(rescue, work, now, true, end)
      || (!failed && Run(work, st, now).Success? && MayEnd(next, Run(work, st, now).value.0, now, false, end))
    case Within(body, swallow, next) =>
      exists mid ::
        && MayEnd(body, work, now, failed, mid)
        && if mid.outcome.Some? && !swallow then end == mid else MayEnd(next, mid.work, now, mid.failed, end)
  }

  /** How the script ends when no call breaks: a statement fails only for what is in the tables, or because
      one has failed before. */
  function Ends(s: Script, work: Tables, now: Time, failed: bool): Progress {
    match s
    case Return(outcome) => Progress(work, failed, outcome)
    case Execute(st, next, rescue) =>
      if !failed && Run(work, st, now).Success? then Ends(next, Run(work, st, now).value.0, now, false)
      else Ends(rescue, work, now, true)
    case Within(body, swallow, next) =>
      var mid := Ends(body, work, now, failed);
      if mid.outcome.Some? && !swallow then mid else Ends(next, mid.work, now, mid.failed)
  }

  /** The function of a call to WithinTransaction, executing in the open transaction. */
  method Call(tx: TransactionManager, s: Script) returns (e: Option<Error>)
    requires tx.db.work.Some?
    modifies tx.db
    ensures tx.db.work.Some? && unchanged(tx.db`committed, tx.db`now, tx.db`clock, tx.db`locked)
    ensures MayEnd(s, old(tx.db.work).value, tx.db.now, old(tx.db.failed), Progress(tx.db.work.value, tx.db.failed, e))
    ensures old(tx.db.faults) <= tx.db.faults
    ensures tx.db.faults == old(tx.db.faults) ==>
              Progress(tx.db.work.value, tx.db.failed, e)
              == Ends(s, old(tx.db.work).value, tx.db.now, old(tx.db.failed))
    decreases s, 0
  {
    match s
    case Return(outcome) =>
      e := outcome;
    case Execute(st, next, rescue) =>
      var r := tx.db.Exec(InTx, st);
      if r.Success? {
        e := Call(tx, next);
      } else {
        e := Call(tx, rescue);
      }
    case Within(body, swallow, next) =>
      e := WithinTransaction(tx, InTx, body);
      ghost var mid := Progress(tx.db.work.value, tx.db.failed, e);
      if e.Some? && !swallow {
        assert MayEnd(body, old(tx.db.work).value, tx.db.now, old(tx.db.failed), mid);
        return;
      }
      e := Call(tx, next);
      ghost var end := Progress(tx.db.work.value, tx.db.failed, e);
      assert MayEnd(next, mid.work, tx.db.now, mid.failed, end);
      assert MayEnd(s, old(tx.db.work).value, tx.db.now, old(tx.db.failed), end);
  }

  /** The script ran through without an error, and this is its workspace. */
  ghost predicate RanThrough(s: Script, before: Tables, now: Time, after: Tables) {
    MayEnd(s, before, now, false, Progress(after, false, None))
  }

  /** Committed state changes only in the outermost call, and only to the workspace of a script that ran
      through. An error leaves it alone, unless it is the commit itself that reported the error. */
  method WithinTransaction(tx: TransactionManager, ctx: Context, s: Script) returns (e: Option<Error>)
    requires tx.db.work.Some? <==> ctx.InTx?
    modifies tx.db
    ensures tx.db.work.Some? <==> ctx.InTx?
    ensures ctx.InTx? ==> unchanged(tx.db`committed, tx.db`now, tx.db`clock, tx.db`locked)
    ensures ctx.InTx? ==>
              MayEnd(s, old(tx.db.work).value, tx.db.now, old(tx.db.failed),
                     Progress(tx.db.work.value, tx.db.failed, e))
    ensures old(tx.db.faults) <= tx.db.faults
    ensures ctx.InTx? && tx.db.faults == old(tx.db.faults) ==>
              Progress(tx.db.work.value, tx.db.failed, e)
              == Ends(s, old(tx.db.work).value, tx.db.now, old(tx.db.failed))
    ensures ctx.Background? && tx.db.faults == old(tx.db.faults) ==>
              var end := Ends(s, old(tx.db.committed), tx.db.now, false);
              && e == (if end.outcome.Some? then end.outcome else if end.failed then Some(CommitFailed) else None)
              && tx.db.committed == if e.None? then end.work else old(tx.db.committed)
    ensures ctx.Background? && e.None? ==> RanThrough(s, old(tx.db.committed), tx.db.now, tx.db.committed)
    ensures ctx.Background? && e.Some? ==>
              || tx.db.committed == old(tx.db.committed)
              || (e == Some(CommitFailed) && RanThrough(s, old(tx.db.committed), tx.db.now, tx.db.committed))
    decreases s, 1
  {
    var inner := tx.Enter(ctx);
    if inner.Failure? {
      return Some(inner.error);
    }
    e := Call(tx, s);
    e := tx.Leave(ctx, e);
  }

  // ----- Towers of calls are flat -----

  predicate IsFlat(s: Script) {
    match s
    case Return(_) => true
    case Execute(_, next, rescue) => IsFlat(next) && IsFlat(rescue)
    case Within(_, _, _) => false
  }

  /** `next` put in the places where the flat script `s` returns without an error, or wherever it returns. */
  function Splice(s: Script, swallow: bool, next: Script): (r: Script)
    requires IsFlat(s)
    ensures IsFlat(next) ==> IsFlat(r)
  {
    match s
    case Return(outcome) => if outcome.Some? && !swallow then s else next
    case Execute(st, rest, rescue) => Execute(st, Splice(rest, swallow, next), Splice(rescue, swallow, next))
  }

  /** The same statements without any call. */
  function Flatten(s: Script): (r: Script)
    ensures IsFlat(r)
  {
    match s
    case Return(_) => s
    case Execute(st, next, rescue) => Execute(st, Flatten(next), Flatten(rescue))
    case Within(body, swallow, next) => Splice(Flatten(body), swallow, Flatten(next))
  }

  lemma {:induction false} SpliceIsSequence(s: Script, swallow: bool, next: Script, work: Tables, now: Time,
                                            failed: bool, end: Progress)
    requires IsFlat(s)
    ensures MayEnd(Splice(s, swallow, next), work, now, failed, end)
            <==> MayEnd(Within(s, swallow, next), work, now, failed, end)
  {
    match s
    case Return(outcome) =>
      assert MayEnd(s, work, now, failed, Progress(work, failed, outcome));
    case Execute(st, rest, rescue) =>
      SpliceIsSequence(rescue, swallow, next, work, now, true, end);
      assert forall mid :: MayEnd(rescue, work, now, true, mid) ==> MayEnd(s, work, now, failed, mid);
      if !failed && Run(work, st, now).Success? {
        var after := Run(work, st, now).value.0;
        SpliceIsSequence(rest, swallow, next, after, now, false, end);
        assert forall mid :: MayEnd(rest, after, now, false, mid) ==> MayEnd(s, work, now, failed, mid);
      }
  }

  /** However deep the calls are nested, and whoever swallows an error, the transaction does what the flat
      script does: there are no savepoints. */
  lemma {:induction false} NestingIsFlat(s: Script, work: Tables, now: Time, failed: bool, end: Progress)
    ensures MayEnd(s, work, now, failed, end) <==> MayEnd(Flatten(s), work, now, failed, end)
  {
    match s
    case Return(_) =>
    case Execute(st, next, rescue) =>
      NestingIsFlat(rescue, work, now, true, end);
      if Run(work, st, now).Success? {
        NestingIsFlat(next, Run(work, st, now).value.0, now, false, end);
      }
    case Within(body, swallow, next) =>
      forall mid ensures MayEnd(body, work, now, failed, mid) <==> MayEnd(Flatten(body), work, now, failed, mid) {
        NestingIsFlat(body, work, now, failed, mid);
      }
      forall mid: Progress
        ensures MayEnd(next, mid.work, now, mid.failed, end) <==> MayEnd(Flatten(next), mid.work, now, mid.failed, end)
      {
        NestingIsFlat(next, mid.work, now, mid.failed, end);
      }
      SpliceIsSequence(Flatten(body), swallow, Flatten(next), work, now, failed, end);
  }

  /** Ending without broken calls is one way to end. */
  lemma {:induction false} EndsMayEnd(s: Script, work: Tables, now: Time, failed: bool)
    ensures MayEnd(s, work, now, failed, Ends(s, work, now, failed))
  {
    match s
    case Return(_) =>
    case Execute(st, next, rescue) =>
      if !failed && Run(work, st, now).Success? {
        EndsMayEnd(next, Run(work, st, now).value.0, now, false);
      } else {
        EndsMayEnd(rescue, work, now, true);
      }
    case Within(body, swallow, next) =>
      var mid := Ends(body, work, now, failed);
      EndsMayEnd(body, work, now, failed);
      EndsMayEnd(next, mid.work, now, mid.failed);
  }

  /** A failed statement poisons the whole transaction, even when some nested caller swallows its error. */
  lemma {:induction false} FailureStays(s: Script, work: Tables, now: Time, end: Progress)
    requires MayEnd(s, work, now, true, end)
    ensures end.failed && end.work == work
  {
    match s
    case Return(_) =>
    case Execute(_, _, rescue) =>
      FailureStays(rescue, work, now, end);
    case Within(body, swallow, next) =>
      var mid :| && MayEnd(body, work, now, true, mid)
                 && if mid.outcome.Some? && !swallow then end == mid else MayEnd(next, mid.work, now, mid.failed, end);
      FailureStays(body, work, now, mid);
      if !(mid.outcome.Some? && !swallow) {
        FailureStays(next, mid.work, now, end);
      }
  }

  /** There is no rollback to the begin of a nested call: when its caller swallows an error the call returned
      after a successful statement, that statement is committed, and nothing else can be. */
  lemma SwallowedErrorKeepsItsWrite(st: Statement, error: Error, rescue: Script, work: Tables, now: Time, after: Tables)
    ensures RanThrough(Within(Execute(st, Return(Some(error)), rescue), true, Return(None)), work, now, after)
            <==> Run(work, st, now).Success? && after == Run(work, st, now).value.0
  {
    var body, end := Execute(st, Return(Some(error)), rescue), Progress(after, false, None);
    if RanThrough(Within(body, true, Return(None)), work, now, after) {
      var mid :| MayEnd(body, work, now, false, mid) && MayEnd(Return(None), mid.work, now, mid.failed, end);
      if !MayEnd(rescue, work, now, true, mid) {
        assert MayEnd(Return(Some(error)), Run(work, st, now).value.0, now, false, mid);
      } else {
        FailureStays(rescue, work, now, mid);
      }
    }
    if Run(work, st, now).Success? && after == Run(work, st, now).value.0 {
      var mid := Progress(after, false, Some(error));
      assert MayEnd(Return(Some(error)), after, now, false, mid);
      assert MayEnd(body, work, now, false, mid);
      assert MayEnd(Return(None), mid.work, now, mid.failed, end);
      assert MayEnd(Within(body, true, Return(None)), work, now, false, end);
    }
  }
}
