/** When the log replays to exactly the table: an update writes every column but `created_at`, so its event
    can carry the creation time of a company that has been deleted and created anew since it was read. */
module Generations {
  import opened Wrappers
  import opened Domain
  import opened Tables
  import opened Steps
  import opened Safety
  import opened Delivery

  /** The snapshot an update event carries has the creation time of the row it overwrites. */
  predicate SameGeneration(w: Write) {
    w.kind == Updated && w.before.Some? ==> w.carried.createdAt == w.before.value.createdAt
  }

  // ----- One commit -----

  lemma InstallMatchesEventIff(w: Write, e: Event, companies: map<Uuid, Snapshot>, replayed: map<Uuid, Snapshot>)
    requires WriteOk(w) && e.companyId == w.carried.id && e.kind == w.kind && e.company == w.carried
    ensures Lookup(ApplyEvent(replayed, e), e.companyId) == Lookup(Install(companies, w), e.companyId)
            <==> SameGeneration(w)
  {
    if w.kind == Updated && SameGeneration(w) {
      assert w.after.value == w.carried;
    }
  }

  /** A commit makes the replay exact for its company if and only if its update read the generation it
      overwrites, whatever the replay was before; other companies are not concerned. */
  lemma CommitReplaysExactlyIff(s: State, x: TxId, c: Uuid)
    requires Reachable(s) && x in s.services && s.services[x].job.Stored?
    ensures var t, w := AfterCommit(s, x).db, s.services[x].job.w;
            if c == w.carried.id then Lookup(Replay(t.log), c) == Lookup(t.companies, c) <==> SameGeneration(w)
            else && Lookup(Replay(t.log), c) == Lookup(Replay(s.db.log), c)
                 && Lookup(t.companies, c) == Lookup(s.db.companies, c)
  {
    ReachableIsSound(s);
    var w, e := s.services[x].job.w, s.services[x].job.event.payload;
    assert JobOk(s.services[x]);
    ReplayAppend(s.db.log, e);
    InstallMatchesEventIff(w, e, s.db.companies, Replay(s.db.log));
  }

  // ----- Whole runs -----

  lemma OtherStepsKeepCompanies(s: State, a: Action)
    requires Enabled(s, a) && !a.CommitService?
    ensures Next(s, a).db.companies == s.db.companies && Next(s, a).db.log == s.db.log
  {
  }

  /** The last write about the company that was committed kept its generation. */
  ghost predicate LastWriteKept(acts: seq<Action>, c: Uuid)
    requires CanRun(INIT, acts)
  {
    acts == [] ||
    var s, a := After(INIT, acts[..|acts| - 1]), acts[|acts| - 1];
    if a.CommitService? && s.services[a.x].job.w.carried.id == c then SameGeneration(s.services[a.x].job.w)
    else LastWriteKept(acts[..|acts| - 1], c)
  }

  lemma {:induction false} CompanyReplaysExactlyIff(acts: seq<Action>, c: Uuid)
    requires CanRun(INIT, acts)
    ensures var t := After(INIT, acts).db;
            Lookup(Replay(t.log), c) == Lookup(t.companies, c) <==> (c in t.companies ==> LastWriteKept(acts, c))
  {
    if acts != [] {
      var front, a := acts[..|acts| - 1], acts[|acts| - 1];
      var s := After(INIT, front);
      CompanyReplaysExactlyIff(front, c);
      assert LeadsTo(front, s) && LeadsTo(acts, After(INIT, acts));
      if a.CommitService? {
        CommitReplaysExactlyIff(s, a.x, c);
        DeletedIsGone(acts, c);
      } else {
        OtherStepsKeepCompanies(s, a);
      }
    }
  }

  lemma DeletedIsGone(acts: seq<Action>, c: Uuid)
    requires CanRun(INIT, acts)
    ensures var t := After(INIT, acts).db; c !in t.companies ==> c !in Replay(t.log)
  {
    RunsAreSound(acts);
    var t := After(INIT, acts).db;
    assert HistoryFits(t, c);
    ReplayIsLastWriterWins(t.log, c);
  }

  /** The log replays to exactly the table if and only if, of every company in the table, the last write
      kept its generation. */
  lemma LogReplaysExactlyIff(acts: seq<Action>)
    requires CanRun(INIT, acts)
    ensures var t := After(INIT, acts).db;
            Replay(t.log) == t.companies <==> forall c :: c in t.companies ==> LastWriteKept(acts, c)
  {
    var t := After(INIT, acts).db;
    forall c: Uuid
      ensures Lookup(Replay(t.log), c) == Lookup(t.companies, c) <==> (c in t.companies ==> LastWriteKept(acts, c))
    {
      CompanyReplaysExactlyIff(acts, c);
    }
    if forall c :: c in t.companies ==> LastWriteKept(acts, c) {
      SameLookupsSameMap(Replay(t.log), t.companies);
    }
  }

  lemma SameLookupsSameMap<V>(a: map<Uuid, V>, b: map<Uuid, V>)
    requires forall c: Uuid :: Lookup(a, c) == Lookup(b, c)
    ensures a == b
  {
    forall c: Uuid ensures c in a <==> c in b {
      assert Lookup(a, c) == Lookup(b, c);
    }
    forall c: Uuid | c in a ensures a[c] == b[c] {
      assert Lookup(a, c) == Lookup(b, c);
    }
  }

  // ----- What decides the generation: a creation between the read and the write -----

  predicate IsCreationOf(e: Event, c: Uuid) {
    e.kind == Created && e.companyId == c
  }

  /** The creation time in the last creation of the company. */
  function Birth(log: seq<Event>, c: Uuid): Option<Time> {
    if log == [] then None
    else if IsCreationOf(log[|log| - 1], c) then Some(log[|log| - 1].company.createdAt)
    else Birth(log[..|log| - 1], c)
  }

  /** The log at the moment the transaction read its company. */
  ghost function ReadLog(acts: seq<Action>, x: TxId): seq<Event>
    requires CanRun(INIT, acts)
  {
    if acts == [] then []
    else if acts[|acts| - 1] == Load(x) then After(INIT, acts[..|acts| - 1]).db.log
    else ReadLog(acts[..|acts| - 1], x)
  }

  /** No creation of the company has been committed since the transaction read it. */
  ghost predicate NotRecreated(acts: seq<Action>, x: TxId, c: Uuid)
    requires CanRun(INIT, acts)
  {
    var log := After(INIT, acts).db.log;
    forall k :: |ReadLog(acts, x)| <= k < |log| ==> !IsCreationOf(log[k], c)
  }

  /** Every creation of the company has a time of its own. */
  ghost predicate DistinctBirths(log: seq<Event>, c: Uuid) {
    forall i, j :: 0 <= i < j < |log| && IsCreationOf(log[i], c) && IsCreationOf(log[j], c) ==>
      log[i].company.createdAt != log[j].company.createdAt
  }

  lemma BirthAppend(log: seq<Event>, e: Event, c: Uuid)
    ensures Birth(log + [e], c) == if IsCreationOf(e, c) then Some(e.company.createdAt) else Birth(log, c)
  {
    assert (log + [e])[..|log|] == log;
  }

  lemma {:induction false} BirthIsAnEvent(log: seq<Event>, c: Uuid)
    requires Birth(log, c).Some?
    ensures exists k :: 0 <= k < |log| && IsCreationOf(log[k], c) && Birth(log, c) == Some(log[k].company.createdAt)
  {
    if !IsCreationOf(log[|log| - 1], c) {
      BirthIsAnEvent(log[..|log| - 1], c);
    }
  }

  /** The birth on record changes with a creation, and when creations have distinct times, only with one. */
  lemma {:induction false} BirthChangesWithCreations(log: seq<Event>, n: nat, c: Uuid)
    requires n <= |log| && Birth(log[..n], c).Some?
    ensures (forall k :: n <= k < |log| ==> !IsCreationOf(log[k], c)) ==> Birth(log, c) == Birth(log[..n], c)
    ensures DistinctBirths(log, c) && Birth(log, c) == Birth(log[..n], c) ==>
              forall k :: n <= k < |log| ==> !IsCreationOf(log[k], c)
  {
    if n == |log| {
      assert log[..n] == log;
    } else {
      var front, last := log[..|log| - 1], log[|log| - 1];
      assert front[..n] == log[..n];
      BirthChangesWithCreations(front, n, c);
      if IsCreationOf(last, c) {
        BirthIsAnEvent(log[..n], c);
      }
    }
  }

  /** The creation time of a row is that of its company's last creation. */
  ghost predicate BirthsOk(t: Tables) {
    forall c :: c in t.companies ==> Birth(t.log, c) == Some(t.companies[c].createdAt)
  }

  /** The snapshot a patch has read, or is about to write, is as old as the company was when it was read. */
  ghost predicate ReadOk(log: seq<Event>, read: seq<Event>, job: Job) {
    var row := match job
               case Loaded(_, row) => Some(row)
               case Ready(kind, row) => if kind == Updated then Some(row) else None
               case Wrote(w) => if w.kind == Updated then Some(w.carried) else None
               case Stored(w, _) => if w.kind == Updated then Some(w.carried) else None
               case _ => None;
    row.Some? ==> read <= log && Birth(read, row.value.id) == Some(row.value.createdAt)
  }

  lemma CommitKeepsBirths(s: State, x: TxId)
    requires Safe(s) && BirthsOk(s.db) && x in s.services && s.services[x].job.Stored?
    ensures BirthsOk(AfterCommit(s, x).db)
  {
    var t := AfterCommit(s, x).db;
    assert JobOk(s.services[x]);
    forall c | c in t.companies ensures Birth(t.log, c) == Some(t.companies[c].createdAt) {
      BirthAppend(s.db.log, s.services[x].job.event.payload, c);
    }
  }

  lemma {:induction false} RunsKeepBirths(acts: seq<Action>)
    requires CanRun(INIT, acts)
    ensures BirthsOk(After(INIT, acts).db)
  {
    if acts != [] {
      var front, a := acts[..|acts| - 1], acts[|acts| - 1];
      RunsKeepBirths(front);
      RunsAreSafe(front);
      if a.CommitService? {
        CommitKeepsBirths(After(INIT, front), a.x);
      } else {
        OtherStepsKeepCompanies(After(INIT, front), a);
      }
    }
  }

  lemma LogOnlyGrows(s: State, a: Action)
    requires Enabled(s, a)
    ensures s.db.log <= Next(s, a).db.log
  {
  }

  lemma LocalStepKeepsRead(s: State, a: Action, read: seq<Event>)
    requires Safe(s) && BirthsOk(s.db) && a.x in s.services && ServiceEnabled(s, a) && LocalStep(a)
    requires if a.Load? then read == s.db.log else ReadOk(s.db.log, read, s.services[a.x].job)
    ensures ReadOk(s.db.log, read, NextJob(s, a))
  {
  }

  lemma StepKeepsRead(s: State, a: Action, x: TxId, read: seq<Event>)
    requires Safe(s) && BirthsOk(s.db) && Enabled(s, a) && x in s.services && x in Next(s, a).services
    requires ReadOk(s.db.log, read, s.services[x].job)
    ensures ReadOk(Next(s, a).db.log, if a == Load(x) then s.db.log else read, Next(s, a).services[x].job)
  {
    LogOnlyGrows(s, a);
    if a.x == x {
      LocalStepKeepsRead(s, a, if a == Load(x) then s.db.log else read);
    }
  }

  lemma {:induction false} ReadsAreOk(acts: seq<Action>, x: TxId)
    requires CanRun(INIT, acts) && x in After(INIT, acts).services
    ensures ReadOk(After(INIT, acts).db.log, ReadLog(acts, x), After(INIT, acts).services[x].job)
  {
    if acts != [] {
      var front, a := acts[..|acts| - 1], acts[|acts| - 1];
      var s := After(INIT, front);
      RunsAreSafe(front);
      RunsKeepBirths(front);
      if x in s.services {
        ReadsAreOk(front, x);
        StepKeepsRead(s, a, x, ReadLog(front, x));
      }
    }
  }

  /** A patch whose company is not created anew between its read and its commit keeps the generation; and
      when creations have distinct times, only such a patch does. */
  lemma GenerationIsKeptIff(acts: seq<Action>, x: TxId)
    requires CanRun(INIT, acts) && x in After(INIT, acts).services && After(INIT, acts).services[x].job.Stored?
    requires After(INIT, acts).services[x].job.w.kind == Updated
    ensures var w := After(INIT, acts).services[x].job.w;
            && (NotRecreated(acts, x, w.carried.id) ==> SameGeneration(w))
            && (DistinctBirths(After(INIT, acts).db.log, w.carried.id) ==>
                  (SameGeneration(w) <==> NotRecreated(acts, x, w.carried.id)))
  {
    var s := After(INIT, acts);
    var w, read := s.services[x].job.w, ReadLog(acts, x);
    RunsAreSafe(acts);
    RunsKeepBirths(acts);
    ReadsAreOk(acts, x);
    assert JobOk(s.services[x]) && WriteFits(s.db.companies, w);
    assert s.db.log[..|read|] == read;
    BirthChangesWithCreations(s.db.log, |read|, w.carried.id);
  }

  /** The last write about the company that was committed is no update whose company was created anew
      after it was read. */
  ghost predicate LastWriteUndisturbed(acts: seq<Action>, c: Uuid)
    requires CanRun(INIT, acts)
  {
    acts == [] ||
    var front, a := acts[..|acts| - 1], acts[|acts| - 1];
    var s := After(INIT, front);
    if a.CommitService? && s.services[a.x].job.w.carried.id == c then
      s.services[a.x].job.w.kind == Updated ==> NotRecreated(front, a.x, c)
    else LastWriteUndisturbed(front, c)
  }

  lemma {:induction false} UndisturbedIsKept(acts: seq<Action>, c: Uuid)
    requires CanRun(INIT, acts)
    ensures LastWriteUndisturbed(acts, c) ==> LastWriteKept(acts, c)
    ensures DistinctBirths(After(INIT, acts).db.log, c) && LastWriteKept(acts, c) ==> LastWriteUndisturbed(acts, c)
  {
    if acts != [] {
      var front, a := acts[..|acts| - 1], acts[|acts| - 1];
      var s := After(INIT, front);
      UndisturbedIsKept(front, c);
      LogOnlyGrows(s, a);
      assert DistinctBirths(Next(s, a).db.log, c) ==> DistinctBirths(s.db.log, c);
      if a.CommitService? && s.services[a.x].job.w.kind == Updated {
        GenerationIsKeptIff(front, a.x);
      }
    }
  }

  /** The log replays to exactly the table if, and when creations have distinct times only if, no company in
      the table was last written by an update whose company was created anew after it was read. */
  lemma LogReplaysExactly(acts: seq<Action>)
    requires CanRun(INIT, acts)
    ensures var t := After(INIT, acts).db;
            (forall c :: c in t.companies ==> LastWriteUndisturbed(acts, c)) ==> Replay(t.log) == t.companies
    ensures var t := After(INIT, acts).db;
            (forall c :: DistinctBirths(t.log, c)) && Replay(t.log) == t.companies ==>
              forall c :: c in t.companies ==> LastWriteUndisturbed(acts, c)
  {
    LogReplaysExactlyIff(acts);
    forall c: Uuid
      ensures LastWriteUndisturbed(acts, c) ==> LastWriteKept(acts, c)
      ensures DistinctBirths(After(INIT, acts).db.log, c) && LastWriteKept(acts, c) ==> LastWriteUndisturbed(acts, c)
    {
      UndisturbedIsKept(acts, c);
    }
  }
}
