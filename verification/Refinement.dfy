/** What one service call or one batch commits and delivers is reached by steps, from any reachable state in
    which nobody holds the locks it needs. */
module Refinement {
  import opened Wrappers
  import opened Text
  import opened Domain
  import opened Tables
  import opened Steps
  import opened Safety
  import opened Delivery
  import opened Serial
  import opened Batches

  // ----- Service calls -----

  /** `s` with the service transaction `x` at `job`. */
  function With(s: State, x: TxId, began: Time, job: Job): State {
    s.(services := s.services[x := Transaction(began, job)])
  }

  lemma JobStepReaches(s: State, a: Action, began: Time, job: Job, next: Job)
    requires Reachable(With(s, a.x, began, job)) && LocalStep(a) && !a.StampAndStore?
    requires ServiceEnabled(With(s, a.x, began, job), a) && NextJob(With(s, a.x, began, job), a) == next
    ensures Reachable(With(s, a.x, began, next))
  {
    var s1 := With(s, a.x, began, job);
    StepReaches(s1, a);
    assert s1.services[a.x := Transaction(began, next)] == s.services[a.x := Transaction(began, next)];
  }

  lemma StoreReaches(s: State, x: TxId, began: Time, w: Write, eventId: Uuid, stamp: Time)
    requires Reachable(With(s, x, began, Wrote(w))) && EventIdUnused(s, eventId) && s.appClock <= stamp
    ensures Reachable(With(s.(appClock := stamp), x, began, Stored(w, NewOutboxRow(EventOf(w, eventId, stamp), began))))
  {
    var job := Stored(w, NewOutboxRow(EventOf(w, eventId, stamp), began));
    var s1 := With(s, x, began, Wrote(w));
    assert EventIdFree(s1, x, eventId);
    StepReaches(s1, StampAndStore(x, eventId, stamp));
    assert s1.services[x := Transaction(began, job)] == s.services[x := Transaction(began, job)];
  }

  lemma CommitReaches(s: State, x: TxId, began: Time, w: Write, eventId: Uuid, stamp: Time)
    requires Reachable(With(s, x, began, Stored(w, NewOutboxRow(EventOf(w, eventId, stamp), began))))
    requires x !in s.services
    ensures Reachable(s.(db := Effect(s.db, w, eventId, stamp, began), born := s.born[eventId := began]))
  {
    var s1 := With(s, x, began, Stored(w, NewOutboxRow(EventOf(w, eventId, stamp), began)));
    StepReaches(s1, CommitService(x));
    assert s1.services - {x} == s.services;
  }

  /** No open transaction has written this company, or has or gets one of these names with its write. */
  ghost predicate Unheld(s: State, id: Uuid, names: set<string>) {
    forall y :: y in s.services && (s.services[y].job.Wrote? || s.services[y].job.Stored?) ==>
      var w := s.services[y].job.w;
      && w.carried.id != id
      && (w.before.Some? ==> w.before.value.name !in names)
      && (w.after.Some? ==> w.after.value.name !in names)
  }

  /** Neither a committed event nor an uncommitted one has this id. */
  ghost predicate EventIdUnused(s: State, eventId: Uuid) {
    && eventId !in s.db.outbox
    && forall y :: y in s.services && s.services[y].job.Stored? ==> s.services[y].job.event.id != eventId
  }

  lemma UnheldIsUnblocked(s: State, x: TxId, w: Write, names: set<string>)
    requires x !in s.services && Unheld(s, w.carried.id, names)
    requires (w.before.Some? ==> w.before.value.name in names) && (w.after.Some? ==> w.after.value.name in names)
    ensures forall began, job :: Unblocked(With(s, x, began, job), x, w)
  {
  }

  /** The transaction `x` is ready to write its row. */
  lemma ReadyReachesEffect(s: State, x: TxId, w: Write, names: set<string>, began: Time, eventId: Uuid, stamp: Time)
    requires Reachable(With(s, x, began, Ready(w.kind, w.carried))) && x !in s.services && s.dbClock == began
    requires TryWrite(s.db, w.kind, w.carried) == Some(w) && Unheld(s, w.carried.id, names)
    requires (w.before.Some? ==> w.before.value.name in names) && (w.after.Some? ==> w.after.value.name in names)
    requires EventIdUnused(s, eventId) && s.appClock <= stamp
    ensures Reachable(WithCommitted(s, w, eventId, stamp, began))
  {
    UnheldIsUnblocked(s, x, w, names);
    JobStepReaches(s, WriteRow(x), began, Ready(w.kind, w.carried), Wrote(w));
    StoreReaches(s, x, began, w, eventId, stamp);
    CommitReaches(s.(appClock := stamp), x, began, w, eventId, stamp);
  }

  /** A call can go through from here: its event's id is new and the clocks go on. */
  ghost predicate CanCall(s: State, x: TxId, began: Time, eventId: Uuid, stamp: Time) {
    Reachable(s) && Fresh(s, x) && EventIdUnused(s, eventId) && s.dbClock <= began && s.appClock <= stamp
  }

  lemma BeginReaches(s: State, x: TxId, job: Job, began: Time)
    requires Reachable(s) && Fresh(s, x) && s.dbClock <= began && BeginsJob(job)
    ensures Reachable(With(s.(dbClock := began), x, began, job))
  {
    StepReaches(s, Begin(x, job, began));
  }

  lemma CreateIsARun(s: State, x: TxId, row: Snapshot, began: Time, eventId: Uuid, stamp: Time)
    requires CanCall(s, x, began, eventId, stamp) && CreateFits(s.db, row, eventId) && Unheld(s, row.id, {row.name})
    ensures Reachable(WithCommitted(s, CreateWrite(row), eventId, stamp, began))
  {
    var s1 := s.(dbClock := began);
    BeginReaches(s, x, Creating(row), began);
    JobStepReaches(s1, CheckName(x), began, Creating(row), Ready(Created, row));
    assert TryWrite(s.db, Created, row) == Some(CreateWrite(row));
    ReadyReachesEffect(s1, x, CreateWrite(row), {row.name}, began, eventId, stamp);
  }

  lemma PatchedIsWritten(t: Tables, id: Uuid, patch: Patch, eventId: Uuid, at: Time)
    requires CompaniesOk(t.companies) && PatchFits(t, id, patch, eventId)
    ensures PatchAccepted(t, patch, t.companies[id])
    ensures var row, after := t.companies[id], Patched(t.companies[id], patch, at);
            TryWrite(t, Updated, after) == Some(UpdateWrite(row, after))
  {
    PatchAcceptedIffFieldsOk(t.companies[id], patch, at);
    PatchCheckMatchesWrite(t, id, patch, at);
  }

  lemma PatchIsARun(s: State, x: TxId, id: Uuid, patch: Patch, at: Time, began: Time, eventId: Uuid, stamp: Time)
    requires CanCall(s, x, began, eventId, stamp) && PatchFits(s.db, id, patch, eventId)
    requires Unheld(s, id, {s.db.companies[id].name} + if patch.name.Some? then {TrimSpace(patch.name.value)} else {})
    ensures var row := s.db.companies[id];
            Reachable(WithCommitted(s, UpdateWrite(row, Patched(row, patch, at)), eventId, stamp, began))
  {
    var row := s.db.companies[id];
    var after, s1 := Patched(row, patch, at), s.(dbClock := began);
    ReachableIsSound(s);
    PatchedIsWritten(s.db, id, patch, eventId, at);
    BeginReaches(s, x, Patching(id, patch), began);
    JobStepReaches(s1, Load(x), began, Patching(id, patch), Loaded(patch, row));
    JobStepReaches(s1, Steps.Action.Patch(x, at), began, Loaded(patch, row), Ready(Updated, after));
    ReadyReachesEffect(s1, x, UpdateWrite(row, after), {row.name, after.name}, began, eventId, stamp);
  }

  lemma DeleteIsARun(s: State, x: TxId, id: Uuid, began: Time, eventId: Uuid, stamp: Time)
    requires CanCall(s, x, began, eventId, stamp) && DeleteFits(s.db, id, eventId)
    requires Unheld(s, id, {s.db.companies[id].name})
    ensures Reachable(WithCommitted(s, DeleteWrite(s.db.companies[id]), eventId, stamp, began))
  {
    var row, s1 := s.db.companies[id], s.(dbClock := began);
    ReachableIsSound(s);
    BeginReaches(s, x, Deleting(id), began);
    JobStepReaches(s1, Load(x), began, Deleting(id), Ready(Deleted, row));
    DeleteIsEffect(s.db, id);
    assert TryWrite(s.db, Deleted, row) == Some(DeleteWrite(row));
    ReadyReachesEffect(s1, x, DeleteWrite(row), {row.name}, began, eventId, stamp);
  }

  // ----- Batches -----

  function MarksOf(rows: seq<OutboxRow>, answers: seq<Outcome>, now: Time): Outbox
    requires |answers| <= |rows|
  {
    if answers == [] then map[]
    else
      var n := |answers| - 1;
      MarksOf(rows, answers[..n], now)[rows[n].id := Marked(rows[n], answers[n], now)]
  }

  function AnswersOf(rows: seq<OutboxRow>, answers: seq<Outcome>): map<Uuid, Outcome>
    requires |answers| <= |rows|
  {
    if answers == [] then map[]
    else
      var n := |answers| - 1;
      AnswersOf(rows, answers[..n])[rows[n].id := answers[n]]
  }

  lemma {:induction false} MarksMakeMarkAll(outbox: Outbox, rows: seq<OutboxRow>, answers: seq<Outcome>, now: Time)
    requires |answers| <= |rows|
    ensures outbox + MarksOf(rows, answers, now) == MarkAll(outbox, rows, answers, now)
  {
    if answers != [] {
      MarksMakeMarkAll(outbox, rows, answers[..|answers| - 1], now);
    }
  }

  /** The batch `x` has sent and marked the first |answers| of its rows. */
  function InBatch(s: State, x: TxId, limit: nat, began: Time, rows: seq<OutboxRow>, answers: seq<Outcome>): State
    requires |answers| <= |rows|
  {
    var b := Batch(began, limit, true, rows[|answers|..], None, MarksOf(rows, answers, began), Open,
                   AnswersOf(rows, answers));
    s.(batches := s.batches[x := b],
       delivered := s.delivered + Acks(rows, answers), dbClock := began)
  }

  ghost predicate CanBatch(s: State, x: TxId, limit: nat, began: Time, rows: seq<OutboxRow>) {
    && Reachable(s) && Fresh(s, x) && limit >= 1 && s.dbClock <= began
    && IsSelection(s.db.outbox, HeldByOpen(s), began, limit, rows)
  }

  lemma BeginBatchReaches(s: State, x: TxId, limit: nat, began: Time)
    requires Reachable(s) && Fresh(s, x) && limit >= 1 && s.dbClock <= began
    ensures var b := Batch(began, limit, false, [], None, map[], Open, map[]);
            var t := s.(batches := s.batches[x := b], dbClock := began);
            Reachable(t) && LockedByOthers(t, x) == HeldByOpen(s)
  {
    StepReaches(s, BeginBatch(x, limit, began));
    var t := Next(s, BeginBatch(x, limit, began));
    assert forall y :: y in s.batches ==> y in t.batches && t.batches[y] == s.batches[y];
    assert forall y :: y in t.batches && y != x ==> y in s.batches;
  }

  lemma FetchReaches(s: State, x: TxId, limit: nat, began: Time, rows: seq<OutboxRow>)
    requires CanBatch(s, x, limit, began, rows)
    ensures Reachable(InBatch(s, x, limit, began, rows, []))
  {
    BeginBatchReaches(s, x, limit, began);
    var b := Batch(began, limit, false, [], None, map[], Open, map[]);
    var s1 := s.(batches := s.batches[x := b], dbClock := began);
    StepReaches(s1, Fetch(x, rows));
    var s2 := InBatch(s, x, limit, began, rows, []);
    assert rows[0..] == rows && s.delivered + [] == s.delivered;
    assert s1.batches[x := s2.batches[x]] == s2.batches;
  }

  lemma {:induction false} SendingReaches(s: State, x: TxId, limit: nat, began: Time, rows: seq<OutboxRow>,
                                          answers: seq<Outcome>)
    requires CanBatch(s, x, limit, began, rows) && |answers| <= |rows|
    ensures Reachable(InBatch(s, x, limit, began, rows, answers))
  {
    if answers == [] {
      FetchReaches(s, x, limit, began, rows);
    } else {
      var n := |answers| - 1;
      SendingReaches(s, x, limit, began, rows, answers[..n]);
      HandledIsOneMore(s, x, limit, began, rows, answers[..n], answers[n]);
      SendThenMarkReaches(InBatch(s, x, limit, began, rows, answers[..n]), x, answers[n]);
      assert answers[..n] + [answers[n]] == answers;
    }
  }

  /** The state once the first row of the batch's todo list is answered and marked. */
  ghost function Handled(s: State, x: TxId, a: Outcome): State
    requires x in s.batches && s.batches[x].todo != [] && s.batches[x].todo[0].id in s.db.outbox
  {
    var b := s.batches[x];
    var id := b.todo[0].id;
    s.(batches := s.batches[x := b.(todo := b.todo[1..], marks := b.marks[id := Marked(s.db.outbox[id], a, b.began)],
                                    answers := b.answers[id := a])],
       delivered := s.delivered + if a.Acked? then [b.todo[0].payload] else [])
  }

  lemma HandledIsOneMore(s: State, x: TxId, limit: nat, began: Time, rows: seq<OutboxRow>, answers: seq<Outcome>,
                         a: Outcome)
    requires CanBatch(s, x, limit, began, rows) && |answers| < |rows|
    ensures var t := InBatch(s, x, limit, began, rows, answers);
            && t.batches[x].todo[0].id in t.db.outbox
            && Handled(t, x, a) == InBatch(s, x, limit, began, rows, answers + [a])
  {
    var s0, s1 := InBatch(s, x, limit, began, rows, answers), InBatch(s, x, limit, began, rows, answers + [a]);
    assert s0.batches[x].todo[0] == rows[|answers|] && Lookup(s.db.outbox, rows[|answers|].id) == Some(rows[|answers|]);
    MarkAllAppend(map[], rows, answers, began, a);
    assert (answers + [a])[..|answers|] == answers;
    assert s0.batches[x].todo[1..] == s1.batches[x].todo;
    assert s1.batches == s0.batches[x := s1.batches[x]];
    assert s1.delivered == s0.delivered + if a.Acked? then [rows[|answers|].payload] else [];
  }

  lemma SendThenMarkReaches(s: State, x: TxId, a: Outcome)
    requires Reachable(s) && x !in s.services && x in s.batches && s.batches[x].fate == Open
    requires s.batches[x].todo != [] && s.batches[x].answer.None? && s.batches[x].todo[0].id in s.db.outbox
    ensures Reachable(Handled(s, x, a))
  {
    SendReachesAnswer(s, x, a);
    var s1 := s.(batches := s.batches[x := Answered(s.batches[x], a)],
                 delivered := s.delivered + if a.Acked? then [s.batches[x].todo[0].payload] else []);
    MarkReachesNext(s1, x);
    var s2 := s1.(batches := s1.batches[x := NextBatch(s1, Mark(x))]);
    assert s2.batches == s.batches[x := s2.batches[x]];
  }

  function Answered(b: Batch, a: Outcome): Batch
    requires b.todo != []
  {
    b.(answer := Some(a), answers := b.answers[b.todo[0].id := a])
  }

  lemma SendReachesAnswer(s: State, x: TxId, a: Outcome)
    requires Reachable(s) && x !in s.services && x in s.batches && BatchEnabled(s, Send(x, a))
    ensures Reachable(s.(batches := s.batches[x := Answered(s.batches[x], a)],
                         delivered := s.delivered + if a.Acked? then [s.batches[x].todo[0].payload] else []))
  {
    StepReaches(s, Send(x, a));
    assert s.delivered + [] == s.delivered;
  }

  lemma MarkReachesNext(s: State, x: TxId)
    requires Reachable(s) && x !in s.services && x in s.batches && BatchEnabled(s, Mark(x))
    ensures Reachable(s.(batches := s.batches[x := NextBatch(s, Mark(x))]))
  {
    StepReaches(s, Mark(x));
  }

  /** The batch `x` has ended after its first |answers| rows. */
  function AfterBatch(s: State, x: TxId, limit: nat, began: Time, rows: seq<OutboxRow>, answers: seq<Outcome>,
                      fate: Fate): State
    requires |answers| <= |rows|
  {
    var t := InBatch(s, x, limit, began, rows, answers);
    t.(batches := t.batches[x := t.batches[x].(fate := fate)],
       db := if fate == Committed then s.db.(outbox := MarkAll(s.db.outbox, rows, answers, began)) else s.db)
  }

  /** A batch that has handled all its rows can commit to MarkAll, and a batch that stops anywhere rolls
      back and leaves only its deliveries. */
  lemma BatchIsARun(s: State, x: TxId, limit: nat, began: Time, rows: seq<OutboxRow>, answers: seq<Outcome>)
    requires CanBatch(s, x, limit, began, rows) && |answers| <= |rows|
    ensures Reachable(AfterBatch(s, x, limit, began, rows, answers, RolledBack))
    ensures |answers| == |rows| ==> Reachable(AfterBatch(s, x, limit, began, rows, answers, Committed))
  {
    SendingReaches(s, x, limit, began, rows, answers);
    var t := InBatch(s, x, limit, began, rows, answers);
    StepReaches(t, AbortBatch(x));
    if |answers| == |rows| {
      StepReaches(t, CommitBatch(x));
      MarksMakeMarkAll(s.db.outbox, rows, answers, began);
    }
  }

  /** An ended batch holds no locks. */
  lemma AfterBatchHoldsNothing(s: State, x: TxId, limit: nat, began: Time, rows: seq<OutboxRow>, answers: seq<Outcome>,
                               fate: Fate)
    requires Fresh(s, x) && |answers| <= |rows| && fate != Open
    ensures HeldByOpen(AfterBatch(s, x, limit, began, rows, answers, fate)) == HeldByOpen(s)
  {
    var t := AfterBatch(s, x, limit, began, rows, answers, fate);
    assert forall y :: y in s.batches ==> y in t.batches && t.batches[y] == s.batches[y];
    assert forall y :: y in t.batches && t.batches[y].fate == Open ==> y in s.batches;
  }
}
