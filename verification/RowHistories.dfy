/** What an outbox row says about the batches that handled it: whose begin it carries as its publication,
    and whose refusal it waits out. */
module RowHistories {
  import opened Wrappers
  import opened Domain
  import opened Tables
  import opened Steps
  import opened Safety
  import opened Delivery

  // ----- A batch and the answers it got -----

  /** The marks of a batch are what the producer's answers make of the rows. */
  ghost predicate AnswersOk(b: Batch) {
    && (forall id :: id in b.answers <==>
          id in b.marks || (b.answer.Some? && b.todo != [] && b.todo[0].id == id))
    && (b.answer.Some? ==> b.todo != [] && b.answers[b.todo[0].id] == b.answer.value)
    && (forall id :: id in b.marks ==>
          match b.answers[id]
          case Acked => b.marks[id].publishedAt == Some(b.began) && b.marks[id].lastError == None
          case Refused(reason) =>
            && b.marks[id].publishedAt == None && b.marks[id].lastError == Some(reason)
            && b.marks[id].availableAt == b.began + 10_000_000)
  }

  ghost predicate AllAnswersOk(batches: map<TxId, Batch>) {
    forall x :: x in batches ==> AnswersOk(batches[x])
  }

  lemma NextBatchKeepsAnswers(s: State, a: Action)
    requires Sound(s) && a.x in s.batches && BatchEnabled(s, a) && AnswersOk(s.batches[a.x])
    ensures AnswersOk(NextBatch(s, a))
  {
    var b := s.batches[a.x];
    assert TodoOk(b) && OpenOk(s.db.outbox, b);
    if a.Mark? {
      var row := b.todo[0];
      assert Lookup(s.db.outbox, row.id) == Some(row) && Eligible(row, b.began);
    }
  }

  lemma BatchStepKeepsAnswers(s: State, a: Action)
    requires Sound(s) && a.x in s.batches && BatchEnabled(s, a) && AllAnswersOk(s.batches)
    ensures AllAnswersOk(NextOfBatch(s, a).batches)
  {
    NextBatchKeepsAnswers(s, a);
  }

  lemma ServiceStepKeepsAnswers(s: State, a: Action)
    requires Enabled(s, a) && (a.Begin? || a.x in s.services)
    ensures Next(s, a).batches == s.batches
  {
  }

  lemma BeginBatchKeepsAnswers(s: State, a: Action)
    requires Enabled(s, a) && a.BeginBatch? && AllAnswersOk(s.batches)
    ensures AllAnswersOk(Next(s, a).batches)
  {
    assert AnswersOk(Next(s, a).batches[a.x]);
  }

  lemma StepKeepsAnswers(s: State, a: Action)
    requires Sound(s) && Enabled(s, a) && AllAnswersOk(s.batches)
    ensures AllAnswersOk(Next(s, a).batches)
  {
    if a.BeginBatch? {
      BeginBatchKeepsAnswers(s, a);
    } else if a.Begin? || a.x in s.services {
      ServiceStepKeepsAnswers(s, a);
    } else {
      BatchStepKeepsAnswers(s, a);
    }
  }

  lemma AnswersTell(b: Batch, id: Uuid)
    requires AnswersOk(b) && TodoOk(b)
    ensures HasSent(b, id) <==> id in b.answers && b.answers[id].Acked?
    ensures b.fate == Committed ==> (HasRefused(b, id) <==> id in b.answers && b.answers[id].Refused?)
  {
  }

  // ----- A row and its batches -----

  ghost predicate IsRefuser(batches: map<TxId, Batch>, id: Uuid, x: TxId) {
    x in batches && batches[x].fate == Committed && id in batches[x].answers && batches[x].answers[id].Refused?
  }

  ghost predicate IsPublisher(batches: map<TxId, Batch>, id: Uuid, x: TxId) {
    x in batches && batches[x].fate == Committed && id in batches[x].answers && batches[x].answers[id].Acked?
  }

  /** The last committed batch that was refused the event. */
  ghost predicate IsLatestRefuser(batches: map<TxId, Batch>, id: Uuid, x: TxId) {
    && IsRefuser(batches, id, x)
    && forall y :: IsRefuser(batches, id, y) ==> batches[y].began <= batches[x].began
  }

  ghost predicate WaitsFor(row: OutboxRow, b: Batch, id: Uuid)
    requires id in b.answers && b.answers[id].Refused?
  {
    row.availableAt == b.began + 10_000_000 && row.lastError == Some(b.answers[id].reason)
  }

  ghost predicate RowTold(row: OutboxRow, id: Uuid, batches: map<TxId, Batch>) {
    if row.publishedAt.Some? then
      row.lastError == None && exists x :: IsPublisher(batches, id, x) && row.publishedAt == Some(batches[x].began)
    else if row.attempts == 0 then
      row.lastError == None
    else
      exists x :: IsLatestRefuser(batches, id, x) && WaitsFor(row, batches[x], id)
  }

  ghost predicate RowsTold(s: State) {
    forall id :: id in s.db.outbox ==> RowTold(s.db.outbox[id], id, s.batches)
  }

  /** Rows depend on committed batches only. */
  lemma OpenChangeKeepsTold(row: OutboxRow, id: Uuid, batches: map<TxId, Batch>, x: TxId, b: Batch)
    requires RowTold(row, id, batches) && b.fate != Committed && (x in batches ==> batches[x].fate != Committed)
    ensures RowTold(row, id, batches[x := b])
  {
    var after := batches[x := b];
    assert forall y :: IsRefuser(after, id, y) <==> IsRefuser(batches, id, y);
    assert forall y :: IsPublisher(after, id, y) <==> IsPublisher(batches, id, y);
    if row.publishedAt.Some? {
      var y :| IsPublisher(batches, id, y) && row.publishedAt == Some(batches[y].began);
      assert IsPublisher(after, id, y) && row.publishedAt == Some(after[y].began);
    } else if row.attempts > 0 {
      var y :| IsLatestRefuser(batches, id, y) && WaitsFor(row, batches[y], id);
      assert IsLatestRefuser(after, id, y) && WaitsFor(row, after[y], id);
    }
  }

  /** The batch says nothing about the row. */
  lemma SilentCommitKeepsTold(row: OutboxRow, id: Uuid, batches: map<TxId, Batch>, x: TxId)
    requires RowTold(row, id, batches) && x in batches && batches[x].fate == Open && id !in batches[x].answers
    ensures RowTold(row, id, batches[x := batches[x].(fate := Committed)])
  {
    var after := batches[x := batches[x].(fate := Committed)];
    assert forall y :: IsRefuser(after, id, y) <==> IsRefuser(batches, id, y);
    assert forall y :: IsPublisher(after, id, y) <==> IsPublisher(batches, id, y);
    if row.publishedAt.Some? {
      var y :| IsPublisher(batches, id, y) && row.publishedAt == Some(batches[y].began);
      assert IsPublisher(after, id, y) && row.publishedAt == Some(after[y].began);
    } else if row.attempts > 0 {
      var y :| IsLatestRefuser(batches, id, y) && WaitsFor(row, batches[y], id);
      assert IsLatestRefuser(after, id, y) && WaitsFor(row, after[y], id);
    }
  }

  /** A batch that is refused a row began after every batch that was refused it before. */
  lemma EarlierRefuserIsOlder(s: State, x: TxId, id: Uuid, y: TxId)
    requires Committing(s, x) && AllAnswersOk(s.batches) && id in s.batches[x].marks && IsRefuser(s.batches, id, y)
    ensures s.batches[y].began <= s.batches[x].began
  {
    assert AnswersOk(s.batches[y]) && TodoOk(s.batches[y]);
    AnswersTell(s.batches[y], id);
    EarlierRefusersAreOlder(s, x, y, id);
  }

  lemma RefusedIsLatest(batches: map<TxId, Batch>, x: TxId, id: Uuid)
    requires x in batches && id in batches[x].answers && batches[x].answers[id].Refused?
    requires forall y :: IsRefuser(batches, id, y) ==> batches[y].began <= batches[x].began
    ensures IsLatestRefuser(batches[x := batches[x].(fate := Committed)], id, x)
  {
    var after := batches[x := batches[x].(fate := Committed)];
    assert forall y :: IsRefuser(after, id, y) ==> y == x || IsRefuser(batches, id, y);
  }

  lemma MarkCounts(s: State, x: TxId, id: Uuid)
    requires Committing(s, x) && id in s.batches[x].marks
    ensures s.batches[x].marks[id].publishedAt.Some? || s.batches[x].marks[id].attempts > 0
  {
    MarkFacts(s, x, id);
  }

  lemma MarkTells(mark: OutboxRow, id: Uuid, batches: map<TxId, Batch>, x: TxId)
    requires x in batches && AnswersOk(batches[x]) && id in batches[x].marks && mark == batches[x].marks[id]
    requires mark.publishedAt.Some? || mark.attempts > 0
    requires forall y :: IsRefuser(batches, id, y) ==> batches[y].began <= batches[x].began
    ensures RowTold(mark, id, batches[x := batches[x].(fate := Committed)])
  {
    var after := batches[x := batches[x].(fate := Committed)];
    if batches[x].answers[id].Acked? {
      assert IsPublisher(after, id, x);
    } else {
      RefusedIsLatest(batches, x, id);
      assert WaitsFor(mark, after[x], id);
    }
  }

  /** The mark the batch commits tells of the batch itself. */
  lemma CommittedMarkTells(s: State, x: TxId, id: Uuid)
    requires Committing(s, x) && AllAnswersOk(s.batches) && id in s.batches[x].marks
    ensures RowTold(s.batches[x].marks[id], id, s.batches[x := s.batches[x].(fate := Committed)])
  {
    MarkCounts(s, x, id);
    forall y | IsRefuser(s.batches, id, y) ensures s.batches[y].began <= s.batches[x].began {
      EarlierRefuserIsOlder(s, x, id, y);
    }
    MarkTells(s.batches[x].marks[id], id, s.batches, x);
  }

  lemma CommitBatchKeepsTold(s: State, x: TxId)
    requires Committing(s, x) && AllAnswersOk(s.batches) && RowsTold(s)
    ensures RowsTold(NextOfBatch(s, CommitBatch(x)))
  {
    var t := NextOfBatch(s, CommitBatch(x));
    assert AnswersOk(s.batches[x]) && TodoOk(s.batches[x]);
    CommitBatchKeepsOutboxOk(s, x);
    forall id | id in t.db.outbox ensures RowTold(t.db.outbox[id], id, t.batches) {
      if id in s.batches[x].marks {
        CommittedMarkTells(s, x, id);
      } else {
        SilentCommitKeepsTold(s.db.outbox[id], id, s.batches, x);
      }
    }
  }

  lemma OpenStepKeepsTold(s: State, t: State, x: TxId)
    requires RowsTold(s) && t.db == s.db && x in t.batches && t.batches == s.batches[x := t.batches[x]]
    requires t.batches[x].fate != Committed && (x in s.batches ==> s.batches[x].fate != Committed)
    ensures RowsTold(t)
  {
    forall id | id in t.db.outbox ensures RowTold(t.db.outbox[id], id, t.batches) {
      OpenChangeKeepsTold(s.db.outbox[id], id, s.batches, x, t.batches[x]);
    }
  }

  lemma CommitServiceKeepsTold(s: State, x: TxId)
    requires Sound(s) && RowsTold(s) && x in s.services && s.services[x].job.Stored?
    ensures RowsTold(AfterCommit(s, x))
  {
    assert StoredOk(s.services[x]);
  }

  lemma BeginBatchKeepsTold(s: State, a: Action)
    requires RowsTold(s) && Enabled(s, a) && a.BeginBatch?
    ensures RowsTold(Next(s, a))
  {
    OpenStepKeepsTold(s, Next(s, a), a.x);
  }

  lemma BatchStepKeepsTold(s: State, a: Action)
    requires RowsTold(s) && a.x in s.batches && BatchEnabled(s, a) && !a.CommitBatch?
    ensures RowsTold(NextOfBatch(s, a))
  {
    OpenStepKeepsTold(s, NextOfBatch(s, a), a.x);
  }

  lemma StepKeepsTold(s: State, a: Action)
    requires Sound(s) && AllAnswersOk(s.batches) && RowsTold(s) && Enabled(s, a)
    ensures RowsTold(Next(s, a))
  {
    if a.CommitService? {
      CommitServiceKeepsTold(s, a.x);
    } else if a.CommitBatch? {
      CommitBatchKeepsTold(s, a.x);
    } else if a.BeginBatch? {
      BeginBatchKeepsTold(s, a);
    } else if a.Begin? || a.x in s.services {
      ServiceStepsKeepBatches(s, a);
    } else {
      BatchStepKeepsTold(s, a);
    }
  }

  lemma {:induction false} RunsTell(acts: seq<Action>)
    requires CanRun(INIT, acts)
    ensures AllAnswersOk(After(INIT, acts).batches) && RowsTold(After(INIT, acts))
  {
    if acts != [] {
      var front, a := acts[..|acts| - 1], acts[|acts| - 1];
      RunsTell(front);
      RunsAreSound(front);
      StepKeepsAnswers(After(INIT, front), a);
      StepKeepsTold(After(INIT, front), a);
    }
  }

  // ----- What every reachable row tells -----

  /** The committed batches that were refused the event. */
  ghost function Refusers(s: State, id: Uuid): set<TxId> {
    set x | x in s.batches && s.batches[x].fate == Committed && id in s.batches[x].answers
            && s.batches[x].answers[id].Refused?
  }

  lemma RefusersAreMarkers(s: State, id: Uuid)
    requires Sound(s) && AllAnswersOk(s.batches)
    ensures Refusers(s, id) == CommittedRefusers(s, id)
  {
    forall x | x in s.batches && s.batches[x].fate == Committed
      ensures x in Refusers(s, id) <==> x in CommittedRefusers(s, id)
    {
      assert AnswersOk(s.batches[x]) && TodoOk(s.batches[x]);
      AnswersTell(s.batches[x], id);
    }
  }

  /** A row counts its refusals. A pending row without any is as it was stored; with some, it is withheld for
      ten seconds from the begin of the last committed batch that was refused it, for that reason. A
      published row has no error left and carries the begin of the batch that published it. */
  lemma RowTellsItsHistory(s: State, id: Uuid)
    requires Reachable(s) && id in s.db.outbox
    ensures var row := s.db.outbox[id];
            && row.attempts == |Refusers(s, id)|
            && (row.publishedAt.None? && row.attempts == 0 ==>
                  row.lastError == None && id in s.born && row.availableAt == s.born[id])
            && (row.publishedAt.None? && row.attempts > 0 ==>
                  exists x :: x in Refusers(s, id)
                              && (forall y :: y in Refusers(s, id) ==> s.batches[y].began <= s.batches[x].began)
                              && row.availableAt == s.batches[x].began + 10_000_000
                              && row.lastError == Some(s.batches[x].answers[id].reason))
            && (row.publishedAt.Some? ==>
                  && row.lastError == None
                  && exists x :: IsPublisher(s.batches, id, x) && row.publishedAt == Some(s.batches[x].began))
  {
    var acts :| LeadsTo(acts, s);
    RunsTell(acts);
    RunsAreSound(acts);
    RefusersAreMarkers(s, id);
    assert BackoffOk(s, id) && RowTold(s.db.outbox[id], id, s.batches);
    if s.db.outbox[id].publishedAt.None? && s.db.outbox[id].attempts > 0 {
      LastRefusalShows(s, id);
    }
  }

  lemma LastRefusalShows(s: State, id: Uuid)
    requires id in s.db.outbox && s.db.outbox[id].publishedAt.None? && s.db.outbox[id].attempts > 0
    requires RowTold(s.db.outbox[id], id, s.batches)
    ensures exists x :: x in Refusers(s, id)
                        && (forall y :: y in Refusers(s, id) ==> s.batches[y].began <= s.batches[x].began)
                        && s.db.outbox[id].availableAt == s.batches[x].began + 10_000_000
                        && s.db.outbox[id].lastError == Some(s.batches[x].answers[id].reason)
  {
    var x :| IsLatestRefuser(s.batches, id, x) && WaitsFor(s.db.outbox[id], s.batches[x], id);
    assert x in Refusers(s, id);
    forall y | y in Refusers(s, id) ensures s.batches[y].began <= s.batches[x].began {
      assert IsRefuser(s.batches, id, y);
    }
  }

  /** A row is published by one committed batch, and no other committed batch has sent its event. */
  lemma OnePublisherPerRow(s: State, id: Uuid, x: TxId, y: TxId)
    requires Reachable(s) && IsPublisher(s.batches, id, x) && IsPublisher(s.batches, id, y)
    ensures x == y && id in s.db.outbox && s.db.outbox[id].publishedAt == Some(s.batches[x].began)
  {
    var acts :| LeadsTo(acts, s);
    RunsTell(acts);
    RunsAreSound(acts);
    forall z | z in {x, y} ensures z in CommittedSenders(s, id) {
      assert AnswersOk(s.batches[z]) && TodoOk(s.batches[z]);
      AnswersTell(s.batches[z], id);
    }
    assert CountsOk(s, id);
    OneElement(CommittedSenders(s, id), x, y);
    assert RowTold(s.db.outbox[id], id, s.batches);
    var z :| IsPublisher(s.batches, id, z) && s.db.outbox[id].publishedAt == Some(s.batches[z].began);
    assert AnswersOk(s.batches[z]) && TodoOk(s.batches[z]);
    AnswersTell(s.batches[z], id);
    OneElement(CommittedSenders(s, id), x, z);
  }

  lemma OneElement(ids: set<TxId>, x: TxId, y: TxId)
    requires |ids| <= 1 && x in ids && y in ids
    ensures x == y
  {
    if x != y {
      SubsetSize({x, y}, ids);
    }
  }
}
