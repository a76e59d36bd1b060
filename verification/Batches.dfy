/** What one batch does to the outbox, and how many batches empty it. */
module Batches {
  import opened Wrappers
  import opened Domain
  import opened Tables
  import opened Delivery

  /** The outbox after the first |answers| of the fetched rows have been sent and marked. */
  function MarkAll(outbox: Outbox, rows: seq<OutboxRow>, answers: seq<Outcome>, now: Time): Outbox
    requires |answers| <= |rows|
  {
    if answers == [] then outbox
    else
      var n := |answers| - 1;
      MarkAll(outbox, rows, answers[..n], now)[rows[n].id := Marked(rows[n], answers[n], now)]
  }

  /** What the producer acknowledged meanwhile. */
  function Acks(rows: seq<OutboxRow>, answers: seq<Outcome>): seq<Event>
    requires |answers| <= |rows|
  {
    if answers == [] then []
    else
      var n := |answers| - 1;
      Acks(rows, answers[..n]) + if answers[n].Acked? then [rows[n].payload] else []
  }

  lemma MarkAllAppend(outbox: Outbox, rows: seq<OutboxRow>, answers: seq<Outcome>, now: Time, a: Outcome)
    requires |answers| < |rows|
    ensures MarkAll(outbox, rows, answers + [a], now)
            == MarkAll(outbox, rows, answers, now)[rows[|answers|].id := Marked(rows[|answers|], a, now)]
    ensures Acks(rows, answers + [a]) == Acks(rows, answers) + if a.Acked? then [rows[|answers|].payload] else []
  {
    assert (answers + [a])[..|answers|] == answers;
  }

  /** `rows` are distinct current rows of the outbox. */
  ghost predicate AreRows(outbox: Outbox, rows: seq<OutboxRow>) {
    && (forall k :: 0 <= k < |rows| ==> Lookup(outbox, rows[k].id) == Some(rows[k]))
    && (forall j, k :: 0 <= j < k < |rows| ==> rows[j].id != rows[k].id)
  }

  /** Each handled row becomes its mark, in whatever order, and every other row is untouched. */
  lemma {:induction false} MarkAllMarksEach(outbox: Outbox, rows: seq<OutboxRow>, answers: seq<Outcome>, now: Time)
    requires |answers| <= |rows| && AreRows(outbox, rows)
    ensures var after := MarkAll(outbox, rows, answers, now);
            && after.Keys == outbox.Keys
            && (forall k :: 0 <= k < |answers| ==> after[rows[k].id] == Marked(rows[k], answers[k], now))
            && (forall id :: id in outbox && (forall k :: 0 <= k < |answers| ==> rows[k].id != id) ==>
                  after[id] == outbox[id])
  {
    if answers != [] {
      MarkAllMarksEach(outbox, rows, answers[..|answers| - 1], now);
    }
  }

  /** Every handled row is what the answer about it asks for, and every other row is as it was. */
  ghost predicate EachMarked(outbox: Outbox, after: Outbox, rows: seq<OutboxRow>, answers: seq<Outcome>, now: Time) {
    && |rows| == |answers| && after.Keys == outbox.Keys
    && (forall id :: id in outbox && (forall k :: 0 <= k < |rows| ==> rows[k].id != id) ==> after[id] == outbox[id])
    && (forall k :: 0 <= k < |rows| ==>
          && rows[k].id in after
          && after[rows[k].id] == match answers[k]
             case Acked => rows[k].(publishedAt := Some(now), lastError := None)
             case Refused(reason) =>
               rows[k].(attempts := rows[k].attempts + 1, lastError := Some(reason), availableAt := now + 10_000_000))
  }

  lemma MarkAllIsEachMarked(outbox: Outbox, rows: seq<OutboxRow>, answers: seq<Outcome>, now: Time)
    requires |answers| == |rows| && AreRows(outbox, rows)
    ensures EachMarked(outbox, MarkAll(outbox, rows, answers, now), rows, answers, now)
  {
    MarkAllMarksEach(outbox, rows, answers, now);
  }

  // ----- Conservation -----

  function Pending(outbox: Outbox): set<Uuid> {
    set id | id in outbox && outbox[id].publishedAt.None?
  }

  /** Attempts summed over the events of the log. */
  function TotalAttempts(log: seq<Event>, outbox: Outbox): nat
    requires forall e :: e in log ==> e.id in outbox
  {
    if log == [] then 0
    else TotalAttempts(log[..|log| - 1], outbox) + outbox[log[|log| - 1].id].attempts
  }

  function CountAcks(answers: seq<Outcome>): nat {
    if answers == [] then 0
    else CountAcks(answers[..|answers| - 1]) + if answers[|answers| - 1].Acked? then 1 else 0
  }

  lemma {:induction false} AttemptsElsewhere(log: seq<Event>, outbox: Outbox, id: Uuid, row: OutboxRow)
    requires forall e :: e in log ==> e.id in outbox
    requires id in outbox && (forall i, j :: 0 <= i < j < |log| ==> log[i].id != log[j].id)
    ensures TotalAttempts(log, outbox[id := row])
              + (if exists e :: e in log && e.id == id then outbox[id].attempts else 0)
            == TotalAttempts(log, outbox) + (if exists e :: e in log && e.id == id then row.attempts else 0)
  {
    if log != [] {
      var front, last := log[..|log| - 1], log[|log| - 1];
      AttemptsElsewhere(front, outbox, id, row);
      assert log == front + [last];
      if last.id == id {
        assert forall e :: e in front ==> e.id != id;
      } else {
        assert (exists e :: e in log && e.id == id) <==> (exists e :: e in front && e.id == id);
      }
    }
  }

  /** A batch acknowledges or refuses each of its rows: the pending rows shrink by the acknowledgements
      and the attempts grow by the refusals. */
  lemma {:induction false} BatchConserves(t: Tables, rows: seq<OutboxRow>, answers: seq<Outcome>, now: Time)
    requires OutboxOk(t) && |answers| <= |rows| && AreRows(t.outbox, rows)
    requires forall k :: 0 <= k < |rows| ==> rows[k].publishedAt.None?
    ensures var after := MarkAll(t.outbox, rows, answers, now);
            && after.Keys == t.outbox.Keys
            && |Pending(after)| == |Pending(t.outbox)| - CountAcks(answers)
            && TotalAttempts(t.log, after) == TotalAttempts(t.log, t.outbox) + |answers| - CountAcks(answers)
            && |Acks(rows, answers)| == CountAcks(answers)
  {
    if answers == [] {
    } else {
      var n := |answers| - 1;
      BatchConserves(t, rows, answers[..n], now);
      MarkAllMarksEach(t.outbox, rows, answers[..n], now);
      OneMarkConserves(t, MarkAll(t.outbox, rows, answers[..n], now), rows[n], answers[n], now);
    }
  }

  lemma OneMarkConserves(t: Tables, outbox: Outbox, row: OutboxRow, a: Outcome, now: Time)
    requires OutboxOk(t) && outbox.Keys == t.outbox.Keys
    requires Lookup(outbox, row.id) == Some(row) && row.publishedAt.None?
    ensures var after := outbox[row.id := Marked(row, a, now)];
            && |Pending(after)| == |Pending(outbox)| - (if a.Acked? then 1 else 0)
            && TotalAttempts(t.log, after) == TotalAttempts(t.log, outbox) + (if a.Acked? then 0 else 1)
  {
    var after := outbox[row.id := Marked(row, a, now)];
    assert Pending(after) == if a.Acked? then Pending(outbox) - {row.id} else Pending(outbox);
    assert row.id in Pending(outbox);
    AttemptsElsewhere(t.log, outbox, row.id, Marked(row, a, now));
    assert RowOk(t, row.id, t.outbox[row.id]);
    assert t.outbox[row.id].payload in t.log && t.outbox[row.id].payload.id == row.id;
  }

  /** What the query may answer, in words: pending, available and unlocked rows, the oldest first, and when
      it leaves one out it is full and has nothing younger. */
  lemma SelectionInWords(outbox: Outbox, locked: set<Uuid>, now: Time, limit: nat, rows: seq<OutboxRow>)
    ensures IsSelection(outbox, locked, now, limit, rows) <==>
              && |rows| <= limit
              && (forall k :: 0 <= k < |rows| ==>
                    && rows[k].id in outbox && outbox[rows[k].id] == rows[k] && rows[k].id !in locked
                    && rows[k].publishedAt == None && rows[k].availableAt <= now)
              && (forall j, k :: 0 <= j < k < |rows| ==>
                    rows[j].id != rows[k].id && rows[j].createdAt <= rows[k].createdAt)
              && (forall id ::
                    id in outbox && id !in locked && outbox[id].publishedAt == None && outbox[id].availableAt <= now
                    && (forall k :: 0 <= k < |rows| ==> rows[k].id != id) ==>
                      && |rows| == limit
                      && forall k :: 0 <= k < |rows| ==> rows[k].createdAt <= outbox[id].createdAt)
  {
    assert forall id :: id in Ids(rows) <==> exists k :: 0 <= k < |rows| && rows[k].id == id;
    assert forall k :: 0 <= k < |rows| ==> rows[k] in rows;
  }

  lemma SelectionIsRows(outbox: Outbox, locked: set<Uuid>, now: Time, limit: nat, rows: seq<OutboxRow>)
    requires IsSelection(outbox, locked, now, limit, rows)
    ensures AreRows(outbox, rows) && forall k :: 0 <= k < |rows| ==> rows[k].publishedAt.None?
  {
  }

  // ----- Draining -----

  function AllAcked(n: nat): seq<Outcome> {
    seq(n, _ => Acked)
  }

  lemma {:induction false} CountAllAcked(n: nat)
    ensures CountAcks(AllAcked(n)) == n
  {
    if n > 0 {
      CountAllAcked(n - 1);
      assert AllAcked(n)[..n - 1] == AllAcked(n - 1);
    }
  }

  lemma {:induction false} OnlyAcksAreAllAcks(answers: seq<Outcome>)
    ensures CountAcks(answers) <= |answers|
    ensures CountAcks(answers) == |answers| ==> answers == AllAcked(|answers|)
  {
    if answers != [] {
      var front := answers[..|answers| - 1];
      OnlyAcksAreAllAcks(front);
      if CountAcks(answers) == |answers| {
        assert answers == front + [Acked];
      }
    }
  }

  /** A committed batch of a publisher with this batch size whose sends all succeed. */
  ghost predicate SuccessfulBatch(t: Tables, u: Tables, now: Time, limit: nat) {
    exists rows ::
      && IsSelection(t.outbox, {}, now, limit, rows)
      && u == t.(outbox := MarkAll(t.outbox, rows, AllAcked(|rows|), now))
  }

  /** Every pending row is available at `now`. */
  ghost predicate AllAvailable(outbox: Outbox, now: Time) {
    forall id :: id in Pending(outbox) ==> outbox[id].availableAt <= now
  }

  function Min(a: int, b: int): int {
    if a < b then a else b
  }

  function EligibleIds(outbox: Outbox, now: Time): set<Uuid> {
    set id | id in outbox && Eligible(outbox[id], now)
  }

  /** A fetch returns min(limit, eligible) of the rows that are not locked. */
  lemma SelectionSize(outbox: Outbox, locked: set<Uuid>, now: Time, limit: nat, rows: seq<OutboxRow>)
    requires IsSelection(outbox, locked, now, limit, rows)
    ensures |rows| == Min(limit, |EligibleIds(outbox, now) - locked|)
    ensures Ids(rows) <= EligibleIds(outbox, now) - locked
  {
    var ids := EligibleIds(outbox, now) - locked;
    IdsSize(rows);
    forall id | id in Ids(rows) ensures id in ids {
      var k :| 0 <= k < |rows| && rows[k].id == id;
      assert Lookup(outbox, rows[k].id) == Some(rows[k]);
    }
    SubsetSize(Ids(rows), ids);
    if |rows| < limit {
      assert Ids(rows) == ids;
    }
  }

  lemma {:induction false} IdsSize(rows: seq<OutboxRow>)
    requires forall j, k :: 0 <= j < k < |rows| ==> rows[j].id != rows[k].id
    ensures |Ids(rows)| == |rows|
  {
    if rows != [] {
      var front, last := rows[..|rows| - 1], rows[|rows| - 1];
      IdsSize(front);
      assert rows == front + [last];
      assert Ids(rows) == Ids(front) + {last.id};
      assert last.id !in Ids(front);
    }
  }

  lemma SuccessfulBatchDrains(t: Tables, u: Tables, now: Time, limit: nat)
    requires OutboxOk(t) && AllAvailable(t.outbox, now) && SuccessfulBatch(t, u, now, limit)
    ensures OutboxOk(u) && |Pending(u.outbox)| == |Pending(t.outbox)| - Min(limit, |Pending(t.outbox)|)
    ensures forall later :: later >= now ==> AllAvailable(u.outbox, later)
  {
    var rows: seq<OutboxRow> :| && IsSelection(t.outbox, {}, now, limit, rows)
                && u == t.(outbox := MarkAll(t.outbox, rows, AllAcked(|rows|), now));
    var answers := AllAcked(|rows|);
    SelectionIsRows(t.outbox, {}, now, limit, rows);
    SelectionSize(t.outbox, {}, now, limit, rows);
    assert EligibleIds(t.outbox, now) - {} == Pending(t.outbox);
    BatchConserves(t, rows, answers, now);
    CountAllAcked(|rows|);
    MarkAllKeepsOutboxOk(t, rows, answers, now);
    AckedLeaveTheRest(t.outbox, rows, now);
  }

  /** After acknowledgements only, what is still pending is an untouched row. */
  lemma AckedLeaveTheRest(outbox: Outbox, rows: seq<OutboxRow>, now: Time)
    requires AreRows(outbox, rows)
    ensures var after := MarkAll(outbox, rows, AllAcked(|rows|), now);
            forall id :: id in Pending(after) ==> id in Pending(outbox) && after[id] == outbox[id]
  {
    var answers := AllAcked(|rows|);
    var after := MarkAll(outbox, rows, answers, now);
    MarkAllMarksEach(outbox, rows, answers, now);
    forall id | id in Pending(after) ensures forall k :: 0 <= k < |rows| ==> rows[k].id != id {
      assert forall k :: 0 <= k < |rows| ==> after[rows[k].id] == Published(rows[k], now);
    }
  }

  lemma MarkAllKeepsOutboxOk(t: Tables, rows: seq<OutboxRow>, answers: seq<Outcome>, now: Time)
    requires OutboxOk(t) && |answers| <= |rows| && AreRows(t.outbox, rows)
    ensures OutboxOk(t.(outbox := MarkAll(t.outbox, rows, answers, now)))
  {
    var u := t.(outbox := MarkAll(t.outbox, rows, answers, now));
    MarkAllMarksEach(t.outbox, rows, answers, now);
    forall id | id in u.outbox
      ensures RowOk(u, id, u.outbox[id]) && u.outbox[id].payload == t.outbox[id].payload
    {
      assert RowOk(t, id, t.outbox[id]);
      if k :| 0 <= k < |answers| && rows[k].id == id {
        assert u.outbox[id] == Marked(rows[k], answers[k], now);
      }
    }
  }

  /** Consecutive successful batches at the given times, with nothing stored in between. */
  ghost predicate Draining(ts: seq<Tables>, times: seq<Time>, limit: nat) {
    && |ts| == |times| + 1
    && (forall i :: 0 <= i < |times| ==> SuccessfulBatch(ts[i], ts[i + 1], times[i], limit))
    && (forall i, j :: 0 <= i < j < |times| ==> times[i] <= times[j])
  }

  lemma {:induction false} DrainProgress(ts: seq<Tables>, times: seq<Time>, limit: nat, k: nat)
    requires Draining(ts, times, limit) && k <= |times| && OutboxOk(ts[0])
    requires times != [] ==> AllAvailable(ts[0].outbox, times[0])
    ensures OutboxOk(ts[k])
    ensures |Pending(ts[k].outbox)| == |Pending(ts[0].outbox)| - Min(k * limit, |Pending(ts[0].outbox)|)
    ensures forall i :: k <= i < |times| ==> AllAvailable(ts[k].outbox, times[i])
  {
    if k > 0 {
      DrainProgress(ts, times, limit, k - 1);
      SuccessfulBatchDrains(ts[k - 1], ts[k], times[k - 1], limit);
      assert k * limit == (k - 1) * limit + limit;
    }
  }

  /** With nothing new, an accepting producer and all n pending rows available, exactly ceil(n / batch)
      batches empty the outbox: after fewer, something is still pending. */
  lemma DrainTakesCeilingOfBatches(ts: seq<Tables>, times: seq<Time>, limit: nat, k: nat)
    requires Draining(ts, times, limit) && k <= |times| && OutboxOk(ts[0]) && limit >= 1
    requires times != [] ==> AllAvailable(ts[0].outbox, times[0])
    ensures Pending(ts[k].outbox) == {} <==> k >= (|Pending(ts[0].outbox)| + limit - 1) / limit
  {
    var n := |Pending(ts[0].outbox)|;
    DrainProgress(ts, times, limit, k);
    CeilingDivision(n, limit, k);
  }

  lemma CeilingDivision(n: nat, limit: nat, k: nat)
    requires limit >= 1
    ensures k * limit >= n <==> k >= (n + limit - 1) / limit
  {
    var c := (n + limit - 1) / limit;
    assert n <= c * limit < n + limit;
    if k >= c {
      assert k * limit >= c * limit;
    } else {
      assert k * limit <= (c - 1) * limit;
    }
  }
}
