/** Orderly availability comes for free when the transactions on a company begin in the order in which they
    commit: then no committed event can be waiting while a younger one of its company is available. */
module Turns {
  import opened Domain
  import opened Tables
  import opened Steps
  import opened Safety
  import opened Delivery
  import opened Convergence
  import opened Guarantees

  /** A committing transaction began no earlier than those that committed events of its company before. */
  ghost predicate TurnAction(s: State, a: Action)
    requires Enabled(s, a)
  {
    a.CommitService? ==>
      forall e :: e in s.db.log && e.companyId == s.services[a.x].job.event.payload.companyId ==>
        e.id in s.born && s.born[e.id] <= s.services[a.x].began
  }

  ghost predicate TakesTurns(acts: seq<Action>)
    requires CanRun(INIT, acts)
  {
    acts == [] ||
    (TakesTurns(acts[..|acts| - 1]) && TurnAction(After(INIT, acts[..|acts| - 1]), acts[|acts| - 1]))
  }

  ghost predicate BornInOrder(log: seq<Event>, born: map<Uuid, Time>) {
    forall e, f :: e in log && f in log && e.companyId == f.companyId && e.occurredAt < f.occurredAt ==>
      e.id in born && f.id in born && born[e.id] <= born[f.id]
  }

  lemma CommitKeepsBornInOrder(s: State, x: TxId)
    requires Safe(s) && Sound(s) && BornInOrder(s.db.log, s.born) && x in s.services && s.services[x].job.Stored?
    requires TurnAction(s, CommitService(x)) && x !in s.batches
    ensures BornInOrder(AfterCommit(s, x).db.log, AfterCommit(s, x).born)
  {
    var row := s.services[x].job.event;
    assert StoredOk(s.services[x]) && row.id !in s.db.outbox;
    assert forall e :: e in s.db.log ==> e.id != row.id;
  }

  lemma {:induction false} TurnsKeepBirths(acts: seq<Action>)
    requires CanRun(INIT, acts) && Calm(acts) && TakesTurns(acts)
    ensures var s := After(INIT, acts); BornInOrder(s.db.log, s.born)
  {
    if acts != [] {
      var front, a := acts[..|acts| - 1], acts[|acts| - 1];
      TurnsKeepBirths(front);
      RunsAreSound(front);
      if a.CommitService? {
        CommitKeepsBornInOrder(After(INIT, front), a.x);
      }
    }
  }

  /** Never refused, a row is available from the begin of its transaction on. */
  lemma BirthsDecideAvailability(s: State, now: Time)
    requires Sound(s) && BornInOrder(s.db.log, s.born) && NoRefusals(s.batches)
    ensures AvailableInOrder(s.db.outbox, now)
  {
    forall id | id in s.db.outbox
      ensures id in s.born && s.db.outbox[id].availableAt == s.born[id] && RowOk(s.db, id, s.db.outbox[id])
    {
      assert BackoffOk(s, id);
      assert CommittedRefusers(s, id) == {};
    }
  }

  lemma {:induction false} TurnsAreOrderly(acts: seq<Action>)
    requires CanRun(INIT, acts) && Calm(acts) && TakesTurns(acts)
    ensures Orderly(acts)
  {
    if acts != [] {
      var front, a := acts[..|acts| - 1], acts[|acts| - 1];
      TurnsAreOrderly(front);
      TurnsKeepBirths(front);
      CalmRunsAreOk(front);
      RunsAreSound(front);
      var s := After(INIT, front);
      if a.Fetch? {
        BirthsDecideAvailability(s, s.batches[a.x].began);
      }
    }
  }

  ghost predicate TurnsLeadTo(acts: seq<Action>, s: State) {
    CanRun(INIT, acts) && Calm(acts) && TakesTurns(acts) && After(INIT, acts) == s
  }

  /** Reached by one publisher without producer failures, with service transactions that take turns. */
  ghost predicate TurnsReachable(s: State) {
    exists acts :: TurnsLeadTo(acts, s)
  }

  /** Convergence with a premise on the service transactions alone. */
  lemma TurnsConverge(s: State)
    requires TurnsReachable(s) && DistinctStamps(s.db.log) && NothingPending(s.db)
    ensures UnpassedReachable(s)
    ensures EqualUpToCreation(Replay(s.delivered), s.db.companies)
  {
    var acts :| TurnsLeadTo(acts, s);
    TurnsAreOrderly(acts);
    assert OrderlyLeadsTo(acts, s);
    OrderlyIsUnpassed(s);
    UnpassedStreamConverges(s);
  }
}
