/** Which steps can be taken when: no step waits for more than the locks and the data it needs. */
module Progress {
  import opened Wrappers
  import opened Text
  import opened Domain
  import opened Tables
  import opened Steps
  import opened Safety
  import opened Delivery
  import opened Batches

  // ----- Service transactions -----

  lemma BeginsWhenValid(s: State, x: TxId, job: Job, at: Time)
    ensures Enabled(s, Begin(x, job, at)) <==>
              && x !in s.services && x !in s.batches && s.dbClock <= at
              && match job
                 case Creating(row) =>
                   && row.id != 0 && 1 <= |row.name| <= 15 && TrimSpace(row.name) == row.name
                   && |row.description| <= 3000 && TrimSpace(row.description) == row.description
                   && row.employees >= 0
                   && row.kind in {"Corporations", "NonProfit", "Cooperative", "Sole Proprietorship"}
                 case Patching(_, patch) => patch != Patch.Patch(None, None, None, None, None)
                 case Deleting(_) => true
                 case _ => false
  {
    if job.Creating? {
      TrimmedIsItsTrim(job.row.name);
      TrimmedIsItsTrim(job.row.description);
    }
  }

  lemma TrimmedIsItsTrim(s: string)
    ensures Trimmed(s) <==> TrimSpace(s) == s
  {
    TrimSpaceTrims(s);
    if Trimmed(s) {
      TrimSpaceIsTheOnlyCut(s, 0, |s|);
    }
  }

  /** The name check passes when no committed company has the name. */
  lemma ChecksNameWhenFree(s: State, x: TxId)
    requires x in s.services && s.services[x].job.Creating?
    ensures Enabled(s, CheckName(x)) <==>
              forall i :: i in s.db.companies ==> s.db.companies[i].name != s.services[x].job.row.name
  {
    NamedMeansTaken(s.db.companies, s.services[x].job.row.name);
  }

  lemma LoadsWhenThere(s: State, x: TxId)
    requires x in s.services && (s.services[x].job.Patching? || s.services[x].job.Deleting?)
    ensures Enabled(s, Load(x)) <==> s.services[x].job.id in s.db.companies
  {
  }

  /** A patch is applied when its fields are valid and no other committed company has its name. */
  lemma PatchesWhenValid(s: State, x: TxId, at: Time)
    requires Reachable(s) && x in s.services && s.services[x].job.Loaded?
    ensures var p, id := s.services[x].job.patch, s.services[x].job.row.id;
            Enabled(s, Action.Patch(x, at)) <==>
              && (p.name.Some? ==>
                    && 1 <= |TrimSpace(p.name.value)| <= 15
                    && forall i :: i in s.db.companies && i != id ==> s.db.companies[i].name != TrimSpace(p.name.value))
              && (p.description.Some? ==> |TrimSpace(p.description.value)| <= 3000)
              && (p.employees.Some? ==> p.employees.value >= 0)
              && (p.kind.Some? ==> p.kind.value in {"Corporations", "NonProfit", "Cooperative", "Sole Proprietorship"})
  {
    ReachableIsSound(s);
    var p, row := s.services[x].job.patch, s.services[x].job.row;
    assert JobOk(s.services[x]);
    PatchAcceptedIffFieldsOk(row, p, at);
    PatchOkInWords(p);
    if p.name.Some? {
      NamedMeansTaken(s.db.companies, TrimSpace(p.name.value));
    }
  }

  /** The row can be written as far as the committed table is concerned. */
  ghost predicate FitsTable(companies: map<Uuid, Snapshot>, kind: EventKind, row: Snapshot) {
    match kind
    case Created =>
      && row.id !in companies && row.employees <= 2_147_483_647
      && forall i :: i in companies ==> companies[i].name != row.name
    case Updated =>
      && row.id in companies && row.employees <= 2_147_483_647
      && forall i :: i in companies && i != row.id ==> companies[i].name != row.name
    case Deleted =>
      row.id in companies
  }

  /** The uncommitted write of a transaction holds this name: its row had it, or is getting it. */
  ghost predicate Holds(v: Transaction, name: string) {
    && (v.job.Wrote? || v.job.Stored?)
    && ((v.job.w.before.Some? && v.job.w.before.value.name == name)
        || (v.job.w.after.Some? && v.job.w.after.value.name == name))
  }

  /** The uncommitted write of a transaction is one of this company. */
  ghost predicate HoldsRow(v: Transaction, id: Uuid) {
    (v.job.Wrote? || v.job.Stored?) && v.job.w.carried.id == id
  }

  /** No other transaction is in the way of writing the row: none has written the company, and none holds the
      name it has or the name it gets. */
  ghost predicate NobodyInTheWay(s: State, x: TxId, kind: EventKind, row: Snapshot) {
    forall y :: y in s.services && y != x ==>
      && !HoldsRow(s.services[y], row.id)
      && (row.id in s.db.companies ==> !Holds(s.services[y], s.db.companies[row.id].name))
      && (kind != Deleted ==> !Holds(s.services[y], row.name))
  }

  lemma TryWriteWhenFits(t: Tables, kind: EventKind, row: Snapshot)
    requires WellFormed(row)
    ensures TryWrite(t, kind, row).Some? <==> FitsTable(t.companies, kind, row)
    ensures TryWrite(t, kind, row).Some? ==>
              var w := TryWrite(t, kind, row).value;
              && w.carried == row && w.before == Lookup(t.companies, row.id)
              && (kind == Deleted ==> w.after == None)
              && (kind != Deleted ==> w.after.Some? && w.after.value.name == row.name)
  {
    var named := Named(t.companies, row.name);
    assert forall i :: i in named <==> i in t.companies && t.companies[i].name == row.name;
    assert forall i :: i in named && i != row.id ==> i in named - {row.id};
    if FitsTable(t.companies, kind, row) {
      assert kind == Created ==> named == {};
      assert kind == Updated ==> named - {row.id} == {};
    }
  }

  /** A row is written if and only if it fits the table and nobody is in the way. */
  lemma WritesWhenFree(s: State, x: TxId)
    requires Reachable(s) && x in s.services && s.services[x].job.Ready?
    ensures var kind, row := s.services[x].job.kind, s.services[x].job.row;
            Enabled(s, WriteRow(x)) <==> FitsTable(s.db.companies, kind, row) && NobodyInTheWay(s, x, kind, row)
  {
    ReachableIsSound(s);
    var kind, row := s.services[x].job.kind, s.services[x].job.row;
    assert JobOk(s.services[x]);
    TryWriteWhenFits(s.db, kind, row);
    if FitsTable(s.db.companies, kind, row) {
      UnblockedWhenNobodyInTheWay(s, x, kind, row);
    }
  }

  lemma UnblockedWhenNobodyInTheWay(s: State, x: TxId, kind: EventKind, row: Snapshot)
    requires WellFormed(row) && TryWrite(s.db, kind, row).Some?
    ensures Unblocked(s, x, TryWrite(s.db, kind, row).value) <==> NobodyInTheWay(s, x, kind, row)
  {
    TryWriteWhenFits(s.db, kind, row);
    var w := TryWrite(s.db, kind, row).value;
    forall y | y in s.services && y != x
      ensures (WriteOf(s.services[y].job).Some? ==> !Clashes(w, WriteOf(s.services[y].job).value)) <==>
                && !HoldsRow(s.services[y], row.id)
                && (row.id in s.db.companies ==> !Holds(s.services[y], s.db.companies[row.id].name))
                && (kind != Deleted ==> !Holds(s.services[y], row.name))
    {
    }
  }

  /** An event is stamped and stored whenever its id is new. */
  lemma StoresWhenIdIsNew(s: State, x: TxId, eventId: Uuid, at: Time)
    requires x in s.services && s.services[x].job.Wrote?
    ensures Enabled(s, StampAndStore(x, eventId, at)) <==>
              && s.appClock <= at && eventId !in s.db.outbox
              && forall y :: y in s.services && y != x && s.services[y].job.Stored? ==>
                   s.services[y].job.event.id != eventId
  {
  }

  /** A transaction that has stored its event can always commit, and any transaction can be aborted, which
      leaves nothing of it, its locks included. */
  lemma EndsWhenever(s: State, x: TxId)
    requires x in s.services
    ensures Enabled(s, CommitService(x)) <==> s.services[x].job.Stored?
    ensures Enabled(s, AbortService(x)) && Next(s, AbortService(x)) == s.(services := s.services - {x})
  {
  }

  /** Writes of different companies with different names do not wait for each other. */
  lemma UnrelatedWritesOverlap(s: State, x: TxId, y: TxId)
    requires Reachable(s) && x in s.services && y in s.services && x != y
    requires s.services[x].job.Ready? && s.services[y].job.Ready?
    requires Enabled(s, WriteRow(x)) && Enabled(s, WriteRow(y))
    requires var r, q := s.services[x].job.row, s.services[y].job.row;
             && r.id != q.id && r.name != q.name
             && (r.id in s.db.companies ==> s.db.companies[r.id].name != q.name)
             && (q.id in s.db.companies ==> s.db.companies[q.id].name != r.name)
    ensures Enabled(Next(s, WriteRow(x)), WriteRow(y))
  {
    var t := Next(s, WriteRow(x));
    StepReaches(s, WriteRow(x));
    WritesWhenFree(s, y);
    WritesWhenFree(t, y);
    ReachableIsSound(s);
    assert JobOk(s.services[x]);
    TryWriteWhenFits(s.db, s.services[x].job.kind, s.services[x].job.row);
    UnrelatedWriteIsNotInTheWay(s, x, y, TryWrite(s.db, s.services[x].job.kind, s.services[x].job.row).value);
  }

  lemma UnrelatedWriteIsNotInTheWay(s: State, x: TxId, y: TxId, w: Write)
    requires x in s.services && y in s.services && x != y && s.services[y].job.Ready?
    requires NobodyInTheWay(s, y, s.services[y].job.kind, s.services[y].job.row)
    requires var q := s.services[y].job.row;
             && w.carried.id != q.id
             && (w.before.Some? ==> w.before.value.name != q.name)
             && (w.after.Some? ==> w.after.value.name != q.name)
             && (q.id in s.db.companies ==>
                   && (w.before.Some? ==> w.before.value.name != s.db.companies[q.id].name)
                   && (w.after.Some? ==> w.after.value.name != s.db.companies[q.id].name))
    ensures var t := s.(services := s.services[x := s.services[x].(job := Wrote(w))]);
            NobodyInTheWay(t, y, s.services[y].job.kind, s.services[y].job.row)
  {
  }

  // ----- Batches -----

  lemma BatchBeginsWhenever(s: State, x: TxId, limit: nat, at: Time)
    ensures Enabled(s, BeginBatch(x, limit, at)) <==>
              x !in s.services && x !in s.batches && limit >= 1 && s.dbClock <= at
  {
  }

  /** The row is in the hands of an open batch other than `x`: fetched, or marked already. */
  ghost predicate TakenByOther(s: State, x: TxId, id: Uuid) {
    exists y ::
      && y in s.batches && y != x && s.batches[y].fate == Open
      && (id in s.batches[y].marks || exists k :: 0 <= k < |s.batches[y].todo| && s.batches[y].todo[k].id == id)
  }

  lemma LockedIsTaken(s: State, x: TxId, id: Uuid)
    ensures id in LockedByOthers(s, x) <==> TakenByOther(s, x, id)
  {
    if TakenByOther(s, x, id) {
      var y :| y in s.batches && y != x && s.batches[y].fate == Open
               && (id in s.batches[y].marks
                   || exists k :: 0 <= k < |s.batches[y].todo| && s.batches[y].todo[k].id == id);
      assert id in Held(s.batches[y]);
    }
  }

  /** A batch that has not fetched can fetch, and exactly the oldest pending, available rows that no other open
      batch has. */
  lemma FetchesTheOldest(s: State, x: TxId, rows: seq<OutboxRow>)
    requires x !in s.services && x in s.batches && s.batches[x].fate == Open && !s.batches[x].fetched
    ensures var b, outbox := s.batches[x], s.db.outbox;
            Enabled(s, Fetch(x, rows)) <==>
              && |rows| <= b.limit
              && (forall k :: 0 <= k < |rows| ==>
                    && rows[k].id in outbox && outbox[rows[k].id] == rows[k] && !TakenByOther(s, x, rows[k].id)
                    && rows[k].publishedAt == None && rows[k].availableAt <= b.began)
              && (forall j, k :: 0 <= j < k < |rows| ==>
                    rows[j].id != rows[k].id && rows[j].createdAt <= rows[k].createdAt)
              && (forall id ::
                    id in outbox && !TakenByOther(s, x, id) && outbox[id].publishedAt == None
                    && outbox[id].availableAt <= b.began && (forall k :: 0 <= k < |rows| ==> rows[k].id != id) ==>
                      && |rows| == b.limit
                      && forall k :: 0 <= k < |rows| ==> rows[k].createdAt <= outbox[id].createdAt)
  {
    SelectionInWords(s.db.outbox, LockedByOthers(s, x), s.batches[x].began, s.batches[x].limit, rows);
    forall id ensures id in LockedByOthers(s, x) <==> TakenByOther(s, x, id) {
      LockedIsTaken(s, x, id);
    }
  }

  /** The next event can be sent, whatever the producer answers. */
  lemma SendsWhenever(s: State, x: TxId, outcome: Outcome)
    requires x !in s.services && x in s.batches && s.batches[x].fate == Open
    ensures Enabled(s, Send(x, outcome)) <==> s.batches[x].todo != [] && s.batches[x].answer.None?
  {
  }

  /** What was answered can be marked. */
  lemma MarksWhenever(s: State, x: TxId)
    requires Reachable(s) && x in s.batches && s.batches[x].fate == Open
    ensures Enabled(s, Mark(x)) <==> s.batches[x].answer.Some?
  {
    ReachableIsSound(s);
    assert TodoOk(s.batches[x]) && OpenOk(s.db.outbox, s.batches[x]);
  }

  /** A batch can commit when it has handled what it fetched, and can be aborted at any time. */
  lemma BatchEndsWhenever(s: State, x: TxId)
    requires x !in s.services && x in s.batches && s.batches[x].fate == Open
    ensures Enabled(s, CommitBatch(x)) <==> s.batches[x].fetched && s.batches[x].todo == []
    ensures Enabled(s, AbortBatch(x))
    ensures Next(s, AbortBatch(x)) == s.(batches := s.batches[x := s.batches[x].(fate := RolledBack)])
  {
  }

  /** An open batch that has fetched is never stuck: it can send, mark or commit. */
  lemma FetchedBatchGoesOn(s: State, x: TxId)
    requires Reachable(s) && x in s.batches && s.batches[x].fate == Open && s.batches[x].fetched
    ensures Enabled(s, Send(x, Acked)) || Enabled(s, Mark(x)) || Enabled(s, CommitBatch(x))
  {
    ReachableIsSound(s);
    MarksWhenever(s, x);
  }
}
