/** Any number of service transactions and publisher batches, interleaved statement by statement over
    one READ COMMITTED database. A crash is the abort of the transactions it cuts off. */
module Steps {
  import opened Wrappers
  import opened Text
  import opened Domain
  import opened Tables

  type TxId = nat

  /** An uncommitted row write: the row before and after, and the snapshot the event will carry. */
  datatype Write = Write(kind: EventKind, before: Option<Snapshot>, after: Option<Snapshot>, carried: Snapshot)

  /** Where a service transaction stands. */
  datatype Job =
    | Creating(row: Snapshot)                      // validated, name not looked up yet
    | Patching(id: Uuid, patch: Patch)             // before GetByID
    | Deleting(id: Uuid)                           // before GetByID
    | Loaded(patch: Patch, row: Snapshot)          // GetByID answered
    | Ready(kind: EventKind, row: Snapshot)        // next is the row write
    | Wrote(w: Write)                              // row and index locks are held from here on
    | Stored(w: Write, event: OutboxRow)           // event inserted, next is the commit

  datatype Transaction = Transaction(began: Time, job: Job)

  datatype Fate = Open | Committed | RolledBack

  /** A publisher transaction; it stays on record after its end. `answer` is the producer's word on the next
      event, not marked yet, `marks` are the updates of the rows, and `answers` all that the producer said. */
  datatype Batch = Batch(
    began: Time, limit: nat, fetched: bool, todo: seq<OutboxRow>, answer: Option<Outcome>,
    marks: map<Uuid, OutboxRow>, fate: Fate, answers: map<Uuid, Outcome>)

  /** `delivered` is what the producer acknowledged, `born` when the transaction that stored an
      event began; the clocks are the application's and the database's. */
  datatype State = State(
    db: Tables, services: map<TxId, Transaction>, batches: map<TxId, Batch>,
    delivered: seq<Event>, born: map<Uuid, Time>, appClock: Time, dbClock: Time)

  const INIT := State(EMPTY, map[], map[], [], map[], 0, 0)

  datatype Action =
    | Begin(x: TxId, job: Job, at: Time)
    | CheckName(x: TxId)
    | Load(x: TxId)
    | Patch(x: TxId, at: Time)
    | WriteRow(x: TxId)
    | StampAndStore(x: TxId, eventId: Uuid, at: Time)
    | CommitService(x: TxId)
    | AbortService(x: TxId)
    | BeginBatch(x: TxId, limit: nat, at: Time)
    | Fetch(x: TxId, rows: seq<OutboxRow>)
    | Send(x: TxId, outcome: Outcome)
    | Mark(x: TxId)
    | CommitBatch(x: TxId)
    | AbortBatch(x: TxId)

  // ----- Locks -----

  function WriteOf(job: Job): Option<Write> {
    match job
    case Wrote(w) => Some(w)
    case Stored(w, _) => Some(w)
    case _ => None
  }

  predicate HoldsName(w: Write, name: string) {
    (w.before.Some? && w.before.value.name == name) || (w.after.Some? && w.after.value.name == name)
  }

  /** Two writes that PostgreSQL does not let coexist: same row, or a common entry of the name index. */
  predicate Clashes(v: Write, w: Write) {
    || v.carried.id == w.carried.id
    || (v.before.Some? && HoldsName(w, v.before.value.name))
    || (v.after.Some? && HoldsName(w, v.after.value.name))
  }

  ghost predicate Unblocked(s: State, x: TxId, w: Write) {
    forall y :: y in s.services && y != x && WriteOf(s.services[y].job).Some? ==>
      !Clashes(w, WriteOf(s.services[y].job).value)
  }

  /** The outbox rows a batch has locked: fetched and not yet marked, or marked. */
  function Held(b: Batch): set<Uuid> {
    Ids(b.todo) + b.marks.Keys
  }

  /** The rows locked by the open batches other than `x`. */
  function LockedByOthers(s: State, x: TxId): set<Uuid> {
    set y, id | y in s.batches && y != x && s.batches[y].fate == Open && id in Held(s.batches[y]) :: id
  }

  /** The rows locked by all open batches. */
  function HeldByOpen(s: State): set<Uuid> {
    set y, id | y in s.batches && s.batches[y].fate == Open && id in Held(s.batches[y]) :: id
  }

  // ----- Statements of a service transaction -----

  function WriteStatement(kind: EventKind, row: Snapshot): Statement {
    match kind
    case Created => InsertCompany(row)
    case Updated => UpdateCompany(row)
    case Deleted => DeleteCompany(row.id)
  }

  /** The row write as seen by its transaction, when it succeeds and touches its one row. */
  function TryWrite(t: Tables, kind: EventKind, row: Snapshot): Option<Write> {
    var r := Run(t, WriteStatement(kind, row), 0);
    if r.Failure? || r.value.1 == 0 then None
    else Some(Write(kind, Lookup(t.companies, row.id), Lookup(r.value.0.companies, row.id), row))
  }

  predicate PatchAccepted(t: Tables, patch: Patch, row: Snapshot) {
    && (patch.name.Some? ==> Named(t.companies, TrimSpace(patch.name.value)) <= {row.id})
    && PatchOk(patch) && Valid(Overlay(row, patch))
  }

  predicate Fresh(s: State, x: TxId) {
    x !in s.services && x !in s.batches
  }

  predicate BeginsJob(job: Job) {
    match job
    case Creating(row) => WellFormed(row)
    case Patching(_, patch) => !patch.IsEmpty()
    case Deleting(_) => true
    case _ => false
  }

  predicate EventIdFree(s: State, x: TxId, id: Uuid) {
    && id !in s.db.outbox
    && forall y | y in s.services && y != x && s.services[y].job.Stored? :: s.services[y].job.event.id != id
  }

  // ----- The step relation -----

  ghost predicate ServiceEnabled(s: State, a: Action)
    requires a.x in s.services
  {
    var v := s.services[a.x];
    match a
    case CheckName(_) => v.job.Creating? && Named(s.db.companies, v.job.row.name) == {}
    case Load(_) => (v.job.Patching? || v.job.Deleting?) && v.job.id in s.db.companies
    case Patch(_, _) => v.job.Loaded? && PatchAccepted(s.db, v.job.patch, v.job.row)
    case WriteRow(_) =>
      && v.job.Ready?
      && TryWrite(s.db, v.job.kind, v.job.row).Some?
      && Unblocked(s, a.x, TryWrite(s.db, v.job.kind, v.job.row).value)
    case StampAndStore(_, eventId, at) => v.job.Wrote? && s.appClock <= at && EventIdFree(s, a.x, eventId)
    case CommitService(_) => v.job.Stored?
    case AbortService(_) => true
    case _ => false
  }

  ghost predicate BatchEnabled(s: State, a: Action)
    requires a.x in s.batches
  {
    var b := s.batches[a.x];
    b.fate == Open &&
    match a
    case Fetch(_, rows) => !b.fetched && IsSelection(s.db.outbox, LockedByOthers(s, a.x), b.began, b.limit, rows)
    case Send(_, _) => b.todo != [] && b.answer.None?
    case Mark(_) => b.todo != [] && b.answer.Some? && b.todo[0].id in s.db.outbox
    case CommitBatch(_) => b.fetched && b.todo == []
    case AbortBatch(_) => true
    case _ => false
  }

  ghost predicate Enabled(s: State, a: Action) {
    match a
    case Begin(x, job, at) => Fresh(s, x) && BeginsJob(job) && s.dbClock <= at
    case BeginBatch(x, limit, at) => Fresh(s, x) && limit >= 1 && s.dbClock <= at
    case _ => if a.x in s.services then ServiceEnabled(s, a) else a.x in s.batches && BatchEnabled(s, a)
  }

  /** What a committed row write leaves in the table. */
  function Install(companies: map<Uuid, Snapshot>, w: Write): map<Uuid, Snapshot> {
    if w.after.Some? then companies[w.carried.id := w.after.value] else companies - {w.carried.id}
  }

  ghost function NextJob(s: State, a: Action): Job
    requires a.x in s.services && ServiceEnabled(s, a) && !a.CommitService? && !a.AbortService?
  {
    var v := s.services[a.x];
    match a
    case CheckName(_) => Ready(Created, v.job.row)
    case Load(_) =>
      var row := s.db.companies[v.job.id];
      if v.job.Patching? then Loaded(v.job.patch, row) else Ready(Deleted, row)
    case Patch(_, at) => Ready(Updated, Overlay(v.job.row, v.job.patch).(updatedAt := at))
    case WriteRow(_) => Wrote(TryWrite(s.db, v.job.kind, v.job.row).value)
    case StampAndStore(_, eventId, at) =>
      var w := v.job.w;
      Stored(w, NewOutboxRow(Event(eventId, w.kind, at, w.carried.id, w.carried), v.began))
  }

  ghost function NextBatch(s: State, a: Action): Batch
    requires a.x in s.batches && BatchEnabled(s, a)
  {
    var b := s.batches[a.x];
    match a
    case Fetch(_, rows) => b.(fetched := true, todo := rows)
    case Send(_, outcome) => b.(answer := Some(outcome), answers := b.answers[b.todo[0].id := outcome])
    case Mark(_) =>
      var id := b.todo[0].id;
      b.(todo := b.todo[1..], answer := None, marks := b.marks[id := Marked(s.db.outbox[id], b.answer.value, b.began)])
    case CommitBatch(_) => b.(fate := Committed)
    case AbortBatch(_) => b.(fate := RolledBack)
  }

  ghost function AfterCommit(s: State, x: TxId): State
    requires x in s.services && s.services[x].job.Stored?
  {
    var Stored(w, event) := s.services[x].job;
    s.(db := Tables(Install(s.db.companies, w), s.db.outbox[event.id := event], s.db.log + [event.payload]),
       services := s.services - {x},
       born := s.born[event.id := s.services[x].began])
  }

  ghost function NextOfService(s: State, a: Action): State
    requires a.x in s.services && ServiceEnabled(s, a)
  {
    if a.CommitService? then AfterCommit(s, a.x)
    else if a.AbortService? then s.(services := s.services - {a.x})
    else
      var t := s.(services := s.services[a.x := s.services[a.x].(job := NextJob(s, a))]);
      if a.StampAndStore? then t.(appClock := a.at) else t
  }

  ghost function NextOfBatch(s: State, a: Action): State
    requires a.x in s.batches && BatchEnabled(s, a)
  {
    var t := s.(batches := s.batches[a.x := NextBatch(s, a)]);
    if a.Send? && a.outcome.Acked? then t.(delivered := s.delivered + [s.batches[a.x].todo[0].payload])
    else if a.CommitBatch? then t.(db := s.db.(outbox := s.db.outbox + s.batches[a.x].marks))
    else t
  }

  ghost function Next(s: State, a: Action): State
    requires Enabled(s, a)
  {
    if a.Begin? then s.(services := s.services[a.x := Transaction(a.at, a.job)], dbClock := a.at)
    else if a.BeginBatch? then
      s.(batches := s.batches[a.x := Batch(a.at, a.limit, false, [], None, map[], Open, map[])], dbClock := a.at)
    else if a.x in s.services then NextOfService(s, a)
    else NextOfBatch(s, a)
  }

  // ----- Runs -----

  /** Every action is enabled where it is taken. */
  ghost predicate CanRun(s: State, acts: seq<Action>)
    decreases |acts|, 0
  {
    acts == [] ||
    (CanRun(s, acts[..|acts| - 1]) && Enabled(After(s, acts[..|acts| - 1]), acts[|acts| - 1]))
  }

  ghost function After(s: State, acts: seq<Action>): State
    requires CanRun(s, acts)
    decreases |acts|, 1
  {
    if acts == [] then s else Next(After(s, acts[..|acts| - 1]), acts[|acts| - 1])
  }

  lemma RunOneMore(s: State, acts: seq<Action>, a: Action)
    requires CanRun(s, acts) && Enabled(After(s, acts), a)
    ensures CanRun(s, acts + [a]) && After(s, acts + [a]) == Next(After(s, acts), a)
  {
    assert (acts + [a])[..|acts|] == acts;
  }

  /** `acts` is a run from the empty database that ends in `s`. */
  ghost predicate LeadsTo(acts: seq<Action>, s: State) {
    CanRun(INIT, acts) && After(INIT, acts) == s
  }

  ghost predicate Reachable(s: State) {
    exists acts :: LeadsTo(acts, s)
  }

  lemma StepReaches(s: State, a: Action)
    requires Reachable(s) && Enabled(s, a)
    ensures Reachable(Next(s, a))
  {
    var acts :| LeadsTo(acts, s);
    RunOneMore(INIT, acts, a);
    assert LeadsTo(acts + [a], Next(s, a));
  }
}
