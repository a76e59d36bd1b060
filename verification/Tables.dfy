/** The two tables, what each SQL statement does to them, and what the event log says about them. */
module Tables {
  import opened Wrappers
  import opened Domain

  datatype EventKind = Created | Updated | Deleted

  datatype Event = Event(id: Uuid, kind: EventKind, occurredAt: Time, companyId: Uuid, company: Snapshot)

  /** A row of outbox_events; `payload` is the stored copy of the event. */
  datatype OutboxRow = OutboxRow(
    id: Uuid, kind: EventKind, aggregateId: Uuid, payload: Event, attempts: nat,
    lastError: Option<string>, availableAt: Time, publishedAt: Option<Time>, createdAt: Time)

  type Outbox = map<Uuid, OutboxRow>

  /** Both tables, and the inserted events in the order they became visible. The log is no table:
      it is the history the tables are compared with. */
  datatype Tables = Tables(companies: map<Uuid, Snapshot>, outbox: Outbox, log: seq<Event>)

  const EMPTY := Tables(map[], map[], [])

  const COMPANIES_PKEY := "companies_pkey"
  const COMPANIES_NAME_KEY := "companies_name_key"
  const OUTBOX_PKEY := "outbox_events_pkey"
  const MAX_INT32 := 0x7fff_ffff
  const BACKOFF: Time := 10_000_000

  datatype SqlError =
    | UniqueViolation(constraint: string)
    | CheckViolation
    | OutOfRange
    | InFailedTransaction
    | Connection

  datatype Statement =
    | InsertCompany(row: Snapshot)
    | UpdateCompany(row: Snapshot)
    | DeleteCompany(id: Uuid)
    | InsertEvent(event: Event)
    | MarkPublished(id: Uuid)
    | MarkFailed(id: Uuid, reason: string)

  function Lookup<V>(m: map<Uuid, V>, id: Uuid): Option<V> {
    if id in m then Some(m[id]) else None
  }

  /** Ids of the companies with this name. */
  function Named(companies: map<Uuid, Snapshot>, name: string): set<Uuid> {
    set id | id in companies && companies[id].name == name
  }

  lemma NamedMeansTaken(companies: map<Uuid, Snapshot>, name: string)
    ensures Named(companies, name) != {} <==> exists i :: i in companies && companies[i].name == name
    ensures forall id :: Named(companies, name) <= {id} <==>
              !exists i :: i in companies && i != id && companies[i].name == name
  {
    forall i | i in companies && companies[i].name == name ensures i in Named(companies, name) {
    }
  }

  predicate ChecksPass(row: Snapshot) {
    |row.name| <= 15 && |row.description| <= 3000 && row.employees >= 0 && KnownType(row.kind)
  }

  function NewOutboxRow(event: Event, now: Time): OutboxRow {
    OutboxRow(event.id, event.kind, event.companyId, event, 0, None, now, None, event.occurredAt)
  }

  function Published(row: OutboxRow, now: Time): OutboxRow {
    row.(publishedAt := Some(now), lastError := None)
  }

  function Failed(row: OutboxRow, now: Time, reason: string): OutboxRow {
    row.(attempts := row.attempts + 1, lastError := Some(reason), availableAt := now + BACKOFF)
  }

  /** What the producer answered to one Publish call. */
  datatype Outcome = Acked | Refused(reason: string)

  function Marked(row: OutboxRow, outcome: Outcome, now: Time): OutboxRow {
    if outcome.Acked? then Published(row, now) else Failed(row, now, outcome.reason)
  }

  /** The effect of one statement in a transaction begun at `now`, with the number of rows affected. */
  function Run(t: Tables, st: Statement, now: Time): Result<(Tables, nat), SqlError> {
    match st
    case InsertCompany(row) =>
      if row.employees > MAX_INT32 then Failure(OutOfRange)
      else if !ChecksPass(row) then Failure(CheckViolation)
      else if row.id in t.companies then Failure(UniqueViolation(COMPANIES_PKEY))
      else if Named(t.companies, row.name) != {} then Failure(UniqueViolation(COMPANIES_NAME_KEY))
      else Success((t.(companies := t.companies[row.id := row]), 1))
    case UpdateCompany(row) =>
      if row.employees > MAX_INT32 then Failure(OutOfRange)
      else if row.id !in t.companies then Success((t, 0))
      else if !ChecksPass(row) then Failure(CheckViolation)
      else if Named(t.companies, row.name) - {row.id} != {} then Failure(UniqueViolation(COMPANIES_NAME_KEY))
      else
        var stored := row.(createdAt := t.companies[row.id].createdAt);
        Success((t.(companies := t.companies[row.id := stored]), 1))
    case DeleteCompany(id) =>
      if id !in t.companies then Success((t, 0))
      else Success((t.(companies := t.companies - {id}), 1))
    case InsertEvent(event) =>
      if event.id in t.outbox then Failure(UniqueViolation(OUTBOX_PKEY))
      else Success((t.(outbox := t.outbox[event.id := NewOutboxRow(event, now)], log := t.log + [event]), 1))
    case MarkPublished(id) =>
      if id !in t.outbox then Success((t, 0))
      else Success((t.(outbox := t.outbox[id := Published(t.outbox[id], now)]), 1))
    case MarkFailed(id, reason) =>
      if id !in t.outbox then Success((t, 0))
      else Success((t.(outbox := t.outbox[id := Failed(t.outbox[id], now, reason)]), 1))
  }

  // ----- The table constraints -----

  ghost predicate CompaniesOk(companies: map<Uuid, Snapshot>) {
    && (forall id :: id in companies ==>
          companies[id].id == id && WellFormed(companies[id]) && companies[id].employees <= MAX_INT32)
    && (forall i, j :: i in companies && j in companies && companies[i].name == companies[j].name ==> i == j)
  }

  // ----- FetchPending -----

  predicate Eligible(row: OutboxRow, now: Time) {
    row.publishedAt.None? && row.availableAt <= now
  }

  function Ids(rows: seq<OutboxRow>): set<Uuid> {
    set r | r in rows :: r.id
  }

  /** `rows` is an answer to "the first `limit` eligible unlocked rows by created_at": any order among
      equal stamps is allowed. */
  ghost predicate IsSelection(outbox: Outbox, locked: set<Uuid>, now: Time, limit: nat, rows: seq<OutboxRow>) {
    && |rows| <= limit
    && (forall k :: 0 <= k < |rows| ==>
          && Lookup(outbox, rows[k].id) == Some(rows[k])
          && Eligible(rows[k], now) && rows[k].id !in locked)
    && (forall j, k :: 0 <= j < k < |rows| ==> rows[j].id != rows[k].id && rows[j].createdAt <= rows[k].createdAt)
    && (forall id :: id in outbox && Eligible(outbox[id], now) && id !in locked && id !in Ids(rows) ==>
          |rows| == limit && forall r :: r in rows ==> r.createdAt <= outbox[id].createdAt)
  }

  // ----- Reading the log -----

  /** Created inserts, updated replaces, deleted removes. */
  function ApplyEvent(m: map<Uuid, Snapshot>, e: Event): map<Uuid, Snapshot> {
    if e.kind == Deleted then m - {e.companyId} else m[e.companyId := e.company]
  }

  function Replay(events: seq<Event>): map<Uuid, Snapshot> {
    if events == [] then map[] else ApplyEvent(Replay(events[..|events| - 1]), events[|events| - 1])
  }

  /** The events about one company, in order. */
  function About(events: seq<Event>, c: Uuid): seq<Event> {
    if events == [] then []
    else
      var front, e := About(events[..|events| - 1], c), events[|events| - 1];
      if e.companyId == c then front + [e] else front
  }

  /** What a history says its company is now. */
  function Says(history: seq<Event>): Option<Snapshot> {
    if history == [] || history[|history| - 1].kind == Deleted then None
    else Some(history[|history| - 1].company)
  }

  /** A prefix of (created updated* deleted)*: an event is a creation exactly when what precedes it is
      empty or ends in a deletion. */
  ghost predicate Lawful(history: seq<Event>) {
    forall i :: 0 <= i < |history| ==> (history[i].kind == Created <==> Says(history[..i]).None?)
  }

  /** A company without its creation time. */
  function Undated(c: Snapshot): Snapshot {
    c.(createdAt := 0)
  }

  ghost predicate EqualUpToCreation(a: map<Uuid, Snapshot>, b: map<Uuid, Snapshot>) {
    a.Keys == b.Keys && forall id :: id in a ==> Undated(a[id]) == Undated(b[id])
  }

  lemma AboutAppend(events: seq<Event>, e: Event, c: Uuid)
    ensures About(events + [e], c) == if e.companyId == c then About(events, c) + [e] else About(events, c)
  {
    assert (events + [e])[..|events|] == events;
  }

  lemma ReplayAppend(events: seq<Event>, e: Event)
    ensures Replay(events + [e]) == ApplyEvent(Replay(events), e)
  {
    assert (events + [e])[..|events|] == events;
  }

  /** Replay is last-writer-wins: it knows of each company what its last event says. */
  lemma {:induction false} ReplayIsLastWriterWins(events: seq<Event>, c: Uuid)
    ensures Lookup(Replay(events), c) == Says(About(events, c))
  {
    if events != [] {
      ReplayIsLastWriterWins(events[..|events| - 1], c);
    }
  }

  /** Position of an event about `c` in the whole sequence, and back. */
  lemma {:induction false} AboutMembers(events: seq<Event>, c: Uuid)
    ensures forall e :: e in About(events, c) <==> e in events && e.companyId == c
  {
    if events != [] {
      var front, last := events[..|events| - 1], events[|events| - 1];
      AboutMembers(front, c);
      assert events == front + [last];
    }
  }

  /** The last event about `c` is a last element of the sequence among those about `c`. */
  lemma {:induction false} LastAbout(events: seq<Event>, c: Uuid) returns (k: nat)
    requires About(events, c) != []
    ensures k < |events| && events[k].companyId == c
    ensures About(events, c)[|About(events, c)| - 1] == events[k]
    ensures forall j :: k < j < |events| ==> events[j].companyId != c
  {
    var n := |events| - 1;
    if events[n].companyId == c {
      k := n;
    } else {
      k := LastAbout(events[..n], c);
    }
  }
}
