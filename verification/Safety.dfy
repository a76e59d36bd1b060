/** What every interleaving of service transactions keeps: the table constraints, a lawful history per
    company, stamps in commit order, and a log that replays to the table. */
module Safety {
  import opened Wrappers
  import opened Domain
  import opened Tables
  import opened Steps

  // ----- Service transactions in flight -----

  ghost predicate WriteOk(w: Write) {
    && WellFormed(w.carried)
    && (w.kind != Deleted ==> w.carried.employees <= MAX_INT32)
    && match w.kind
       case Created => w.before.None? && w.after == Some(w.carried)
       case Updated => w.before.Some? && w.after == Some(w.carried.(createdAt := w.before.value.createdAt))
       case Deleted => w.before.Some? && w.after.None?
  }

  ghost predicate StoredOk(v: Transaction) {
    v.job.Stored? ==>
      var e := v.job.event.payload;
      && v.job.event == NewOutboxRow(e, v.began)
      && e == Event(e.id, v.job.w.kind, e.occurredAt, v.job.w.carried.id, v.job.w.carried)
  }

  ghost predicate JobOk(v: Transaction) {
    && StoredOk(v)
    && match v.job
       case Creating(row) => WellFormed(row)
       case Loaded(_, row) => WellFormed(row)
       case Ready(_, row) => WellFormed(row)
       case Wrote(w) => WriteOk(w)
       case Stored(w, _) => WriteOk(w)
       case _ => true
  }

  /** The row under an uncommitted write is still the committed one, and no other committed row has
      the name it is about to take: the locks keep both. */
  ghost predicate WriteFits(companies: map<Uuid, Snapshot>, w: Write) {
    && w.before == Lookup(companies, w.carried.id)
    && (w.after.Some? ==> Named(companies, w.after.value.name) <= {w.carried.id})
  }

  ghost predicate ServicesOk(companies: map<Uuid, Snapshot>, services: map<TxId, Transaction>) {
    && (forall x :: x in services ==> JobOk(services[x]))
    && (forall x :: x in services && WriteOf(services[x].job).Some? ==>
          WriteFits(companies, WriteOf(services[x].job).value))
    && (forall x, y ::
          x in services && y in services && x != y
          && WriteOf(services[x].job).Some? && WriteOf(services[y].job).Some? ==>
            !Clashes(WriteOf(services[x].job).value, WriteOf(services[y].job).value))
  }

  // ----- The log and the table -----

  ghost predicate HistoryFits(t: Tables, c: Uuid) {
    var h := About(t.log, c);
    && Lawful(h)
    && (Says(h).Some? <==> c in t.companies)
    && (c in t.companies ==> Undated(Says(h).value) == Undated(t.companies[c]))
  }

  ghost predicate HistoriesFit(t: Tables) {
    forall c :: HistoryFits(t, c)
  }

  // ----- Stamps -----

  ghost predicate StampsInCommitOrder(log: seq<Event>) {
    forall i, j :: 0 <= i < j < |log| && log[i].companyId == log[j].companyId ==>
      log[i].occurredAt <= log[j].occurredAt
  }

  /** An event about to be committed is stamped after everything its company has in the log. */
  ghost predicate StampsOk(s: State) {
    && StampsInCommitOrder(s.db.log)
    && (forall e :: e in s.db.log ==> e.occurredAt <= s.appClock)
    && (forall x :: x in s.services && s.services[x].job.Stored? ==>
          && s.services[x].job.event.payload.occurredAt <= s.appClock
          && forall e :: e in s.db.log && e.companyId == s.services[x].job.event.payload.companyId ==>
               e.occurredAt <= s.services[x].job.event.payload.occurredAt)
  }

  ghost predicate Safe(s: State) {
    && s.services.Keys !! s.batches.Keys
    && CompaniesOk(s.db.companies)
    && ServicesOk(s.db.companies, s.services)
    && HistoriesFit(s.db)
    && StampsOk(s)
  }

  // ----- Table facts -----

  lemma TryWriteFits(t: Tables, kind: EventKind, row: Snapshot)
    requires CompaniesOk(t.companies) && WellFormed(row) && TryWrite(t, kind, row).Some?
    ensures WriteOk(TryWrite(t, kind, row).value) && WriteFits(t.companies, TryWrite(t, kind, row).value)
  {
  }

  lemma InstallKeepsCompaniesOk(companies: map<Uuid, Snapshot>, w: Write)
    requires CompaniesOk(companies) && WriteOk(w) && WriteFits(companies, w)
    ensures CompaniesOk(Install(companies, w))
  {
    var after := Install(companies, w);
    forall i, j | i in after && j in after && after[i].name == after[j].name
      ensures i == j
    {
      if w.after.Some? {
        assert forall k :: k in Named(companies, w.after.value.name) ==> k == w.carried.id;
        assert i in companies && companies[i].name == w.after.value.name ==> i in Named(companies, w.after.value.name);
        assert j in companies && companies[j].name == w.after.value.name ==> j in Named(companies, w.after.value.name);
      }
    }
  }

  /** Another transaction's commit does not disturb a write it does not clash with. */
  lemma InstallKeepsOtherWrite(companies: map<Uuid, Snapshot>, v: Write, w: Write)
    requires WriteFits(companies, v) && WriteFits(companies, w) && !Clashes(v, w)
    ensures WriteFits(Install(companies, v), w)
  {
    if w.after.Some? {
      var name := w.after.value.name;
      forall id | id in Named(Install(companies, v), name)
        ensures id == w.carried.id
      {
        assert v.after.Some? ==> v.after.value.name != name;
        assert id in Named(companies, name);
      }
    }
  }

  lemma LawfulAppend(h: seq<Event>, e: Event)
    requires Lawful(h) && (e.kind == Created <==> Says(h).None?)
    ensures Lawful(h + [e])
  {
    var g := h + [e];
    forall i | 0 <= i < |g|
      ensures g[i].kind == Created <==> Says(g[..i]).None?
    {
      if i < |h| {
        assert g[i] == h[i] && g[..i] == h[..i];
      } else {
        assert g[..i] == h;
      }
    }
  }

  lemma CommitKeepsHistory(t: Tables, w: Write, e: Event, outbox: Outbox, c: Uuid)
    requires WriteOk(w) && WriteFits(t.companies, w) && HistoryFits(t, c)
    requires e.companyId == w.carried.id && e.kind == w.kind && e.company == w.carried
    ensures HistoryFits(Tables(Install(t.companies, w), outbox, t.log + [e]), c)
  {
    AboutAppend(t.log, e, c);
    if c == e.companyId {
      var h := About(t.log, c);
      LawfulAppend(h, e);
      assert Says(h + [e]) == if e.kind == Deleted then None else Some(e.company);
    }
  }

  // ----- One step -----

  ghost predicate LocalStep(a: Action) {
    a.CheckName? || a.Load? || a.Patch? || a.WriteRow? || a.StampAndStore?
  }

  lemma NextJobIsOk(s: State, a: Action)
    requires Safe(s) && a.x in s.services && ServiceEnabled(s, a) && LocalStep(a)
    ensures JobOk(s.services[a.x].(job := NextJob(s, a)))
    ensures var w := WriteOf(NextJob(s, a)); w.Some? ==> WriteFits(s.db.companies, w.value)
  {
    var v := s.services[a.x];
    assert JobOk(v);
    if a.Patch? {
      PatchAcceptedIffFieldsOk(v.job.row, v.job.patch, a.at);
    } else if a.WriteRow? {
      TryWriteFits(s.db, v.job.kind, v.job.row);
    }
  }

  lemma NextJobClashesWithNone(s: State, a: Action, y: TxId)
    requires Safe(s) && a.x in s.services && ServiceEnabled(s, a) && LocalStep(a)
    requires y in s.services && y != a.x && WriteOf(s.services[y].job).Some? && WriteOf(NextJob(s, a)).Some?
    ensures !Clashes(WriteOf(NextJob(s, a)).value, WriteOf(s.services[y].job).value)
    ensures !Clashes(WriteOf(s.services[y].job).value, WriteOf(NextJob(s, a)).value)
  {
  }

  lemma ReplacingKeepsServices(companies: map<Uuid, Snapshot>, services: map<TxId, Transaction>, x: TxId,
                               v: Transaction)
    requires ServicesOk(companies, services) && JobOk(v)
    requires WriteOf(v.job).Some? ==> WriteFits(companies, WriteOf(v.job).value)
    requires WriteOf(v.job).Some? ==>
               forall y :: y in services && y != x && WriteOf(services[y].job).Some? ==>
                 && !Clashes(WriteOf(v.job).value, WriteOf(services[y].job).value)
                 && !Clashes(WriteOf(services[y].job).value, WriteOf(v.job).value)
    ensures ServicesOk(companies, services[x := v])
  {
  }

  lemma StepKeepsServices(s: State, a: Action)
    requires Safe(s) && a.x in s.services && ServiceEnabled(s, a) && LocalStep(a)
    ensures ServicesOk(s.db.companies, NextOfService(s, a).services)
  {
    NextJobIsOk(s, a);
    forall y | y in s.services && y != a.x && WriteOf(s.services[y].job).Some? && WriteOf(NextJob(s, a)).Some?
      ensures !Clashes(WriteOf(NextJob(s, a)).value, WriteOf(s.services[y].job).value)
      ensures !Clashes(WriteOf(s.services[y].job).value, WriteOf(NextJob(s, a)).value)
    {
      NextJobClashesWithNone(s, a, y);
    }
    ReplacingKeepsServices(s.db.companies, s.services, a.x, s.services[a.x].(job := NextJob(s, a)));
  }

  lemma StepKeepsStamps(s: State, a: Action)
    requires Safe(s) && a.x in s.services && ServiceEnabled(s, a) && LocalStep(a)
    ensures StampsOk(NextOfService(s, a))
  {
  }

  lemma CommitKeepsSafe(s: State, x: TxId)
    requires Safe(s) && x in s.services && s.services[x].job.Stored?
    ensures Safe(AfterCommit(s, x))
  {
    var t := AfterCommit(s, x);
    var w, e := s.services[x].job.w, s.services[x].job.event.payload;
    InstallKeepsCompaniesOk(s.db.companies, w);
    forall y | y in t.services && WriteOf(t.services[y].job).Some?
      ensures WriteFits(t.db.companies, WriteOf(t.services[y].job).value)
    {
      InstallKeepsOtherWrite(s.db.companies, w, WriteOf(s.services[y].job).value);
    }
    forall c ensures HistoryFits(t.db, c) {
      assert HistoryFits(s.db, c);
      CommitKeepsHistory(s.db, w, e, t.db.outbox, c);
    }
    CommitKeepsStamps(s, x);
  }

  /** The event is stamped under the row lock, so no other open transaction has stamped an event of
      the same company, and none in the log is later. */
  lemma CommitKeepsStamps(s: State, x: TxId)
    requires Safe(s) && x in s.services && s.services[x].job.Stored?
    ensures StampsOk(AfterCommit(s, x))
  {
    var t := AfterCommit(s, x);
    var e := s.services[x].job.event.payload;
    assert forall i :: 0 <= i < |s.db.log| ==> s.db.log[i] in s.db.log;
    forall y | y in t.services && t.services[y].job.Stored?
      ensures t.services[y].job.event.payload.companyId != e.companyId
    {
      StoredEventsDiffer(s, x, y);
    }
  }

  lemma StoredEventsDiffer(s: State, x: TxId, y: TxId)
    requires ServicesOk(s.db.companies, s.services) && x in s.services && y in s.services && x != y
    requires s.services[x].job.Stored? && s.services[y].job.Stored?
    ensures s.services[x].job.event.payload.companyId != s.services[y].job.event.payload.companyId
  {
    assert JobOk(s.services[x]) && JobOk(s.services[y]);
    assert !Clashes(s.services[x].job.w, s.services[y].job.w);
  }

  lemma StepKeepsSafe(s: State, a: Action)
    requires Safe(s) && Enabled(s, a)
    ensures Safe(Next(s, a))
  {
    if a.Begin? {
    } else if a.BeginBatch? {
    } else if a.x in s.services {
      if a.CommitService? {
        CommitKeepsSafe(s, a.x);
      } else if !a.AbortService? {
        StepKeepsServices(s, a);
        StepKeepsStamps(s, a);
      }
    } else {
      BatchStepKeepsSafe(s, a);
    }
  }

  lemma BatchStepKeepsSafe(s: State, a: Action)
    requires Safe(s) && a.x in s.batches && BatchEnabled(s, a)
    ensures Safe(NextOfBatch(s, a))
  {
    var t := NextOfBatch(s, a);
    forall c ensures HistoryFits(t.db, c) {
      assert HistoryFits(s.db, c);
    }
  }

  lemma {:induction false} RunsAreSafe(acts: seq<Action>)
    requires CanRun(INIT, acts)
    ensures Safe(After(INIT, acts))
  {
    if acts != [] {
      var front := acts[..|acts| - 1];
      RunsAreSafe(front);
      StepKeepsSafe(After(INIT, front), acts[|acts| - 1]);
    }
  }
}
