/** What one service transaction commits when no other is open, and what that keeps. */
module Serial {
  import opened Wrappers
  import opened Text
  import opened Domain
  import opened Tables
  import opened Steps
  import opened Safety
  import opened Delivery
  import opened Generations

  function EventOf(w: Write, eventId: Uuid, stamp: Time): Event {
    Event(eventId, w.kind, stamp, w.carried.id, w.carried)
  }

  /** One company change together with its event. */
  function Effect(t: Tables, w: Write, eventId: Uuid, stamp: Time, now: Time): Tables {
    var e := EventOf(w, eventId, stamp);
    Tables(Install(t.companies, w), t.outbox[eventId := NewOutboxRow(e, now)], t.log + [e])
  }

  /** The effect of a write with its event, in words. */
  lemma EffectInWords(t: Tables, w: Write, eventId: Uuid, stamp: Time, now: Time)
    ensures var u, e := Effect(t, w, eventId, stamp, now), Event(eventId, w.kind, stamp, w.carried.id, w.carried);
            && u.log == t.log + [e]
            && u.outbox == t.outbox[eventId := OutboxRow(eventId, w.kind, w.carried.id, e, 0, None, now, None, stamp)]
            && u.companies == match w.after
                              case Some(row) => t.companies[w.carried.id := row]
                              case None => t.companies - {w.carried.id}
  {
  }

  /** The state once a whole transaction with this write has gone through. */
  function WithCommitted(s: State, w: Write, eventId: Uuid, stamp: Time, began: Time): State {
    s.(db := Effect(s.db, w, eventId, stamp, began), born := s.born[eventId := began],
       appClock := stamp, dbClock := began)
  }

  /** The tables as serial operations leave them: the log replays to exactly the companies. */
  ghost predicate SerialOk(t: Tables) {
    && CompaniesOk(t.companies)
    && HistoriesFit(t)
    && OutboxOk(t)
    && Replay(t.log) == t.companies
  }

  lemma EffectKeepsSerialOk(t: Tables, w: Write, eventId: Uuid, stamp: Time, now: Time)
    requires SerialOk(t) && WriteOk(w) && WriteFits(t.companies, w) && SameGeneration(w) && eventId !in t.outbox
    ensures SerialOk(Effect(t, w, eventId, stamp, now))
  {
    var u, e := Effect(t, w, eventId, stamp, now), EventOf(w, eventId, stamp);
    InstallKeepsCompaniesOk(t.companies, w);
    forall c ensures HistoryFits(u, c) {
      assert HistoryFits(t, c);
      CommitKeepsHistory(t, w, e, u.outbox, c);
    }
    ReplayAppend(t.log, e);
    EffectKeepsOutboxOk(t, w, eventId, stamp, now);
  }

  lemma EffectKeepsOutboxOk(t: Tables, w: Write, eventId: Uuid, stamp: Time, now: Time)
    requires OutboxOk(t) && eventId !in t.outbox
    ensures OutboxOk(Effect(t, w, eventId, stamp, now))
  {
    var u := Effect(t, w, eventId, stamp, now);
    assert forall i :: 0 <= i < |t.log| ==> t.log[i] in t.log && u.log[i] == t.log[i];
    assert u.log[|t.log|] == EventOf(w, eventId, stamp);
    forall id | id in u.outbox ensures RowOk(u, id, u.outbox[id]) {
      if id != eventId {
        assert RowOk(t, id, t.outbox[id]);
      }
    }
  }

  function CreateWrite(row: Snapshot): Write {
    Write(Created, None, Some(row), row)
  }

  function UpdateWrite(before: Snapshot, after: Snapshot): Write {
    Write(Updated, Some(before), Some(after), after)
  }

  function DeleteWrite(row: Snapshot): Write {
    Write(Deleted, Some(row), None, row)
  }

  function Patched(row: Snapshot, patch: Patch, at: Time): Snapshot {
    Overlay(row, patch).(updatedAt := at)
  }

  // ----- When the three operations go through -----

  ghost predicate CreateFits(t: Tables, row: Snapshot, eventId: Uuid) {
    && WellFormed(row) && row.employees <= MAX_INT32
    && row.id !in t.companies && Named(t.companies, row.name) == {} && eventId !in t.outbox
  }

  ghost predicate PatchFits(t: Tables, id: Uuid, patch: Patch, eventId: Uuid) {
    && id in t.companies && !patch.IsEmpty() && PatchOk(patch)
    && (patch.name.Some? ==> Named(t.companies, TrimSpace(patch.name.value)) <= {id})
    && Overlay(t.companies[id], patch).employees <= MAX_INT32 && eventId !in t.outbox
  }

  ghost predicate DeleteFits(t: Tables, id: Uuid, eventId: Uuid) {
    id in t.companies && eventId !in t.outbox
  }

  lemma CreateIsEffect(t: Tables, row: Snapshot)
    requires WellFormed(row) && Named(t.companies, row.name) == {} && Run(t, InsertCompany(row), 0).Success?
    ensures Run(t, InsertCompany(row), 0) == Success((t.(companies := Install(t.companies, CreateWrite(row))), 1))
    ensures WriteOk(CreateWrite(row)) && WriteFits(t.companies, CreateWrite(row)) && SameGeneration(CreateWrite(row))
  {
  }

  /** The trimmed name that is looked up is the name that is stored, and a patch without a name keeps a
      name that is already unique: after the check, the unique constraints have nothing left to object to. */
  lemma PatchCheckMatchesWrite(t: Tables, id: Uuid, patch: Patch, at: Time)
    requires CompaniesOk(t.companies) && id in t.companies && PatchOk(patch)
    requires patch.name.Some? ==> Named(t.companies, TrimSpace(patch.name.value)) <= {id}
    ensures var row, after := t.companies[id], Patched(t.companies[id], patch, at);
            && Named(t.companies, after.name) <= {id}
            && (Run(t, UpdateCompany(after), 0) == Failure(OutOfRange)
                || Run(t, UpdateCompany(after), 0)
                   == Success((t.(companies := Install(t.companies, UpdateWrite(row, after))), 1)))
            && (after.employees <= MAX_INT32 ==> WriteOk(UpdateWrite(row, after)))
            && WriteFits(t.companies, UpdateWrite(row, after)) && SameGeneration(UpdateWrite(row, after))
  {
    PatchAcceptedIffFieldsOk(t.companies[id], patch, at);
    var after := Patched(t.companies[id], patch, at);
    forall other | other in Named(t.companies, after.name) ensures other == id {
    }
    assert Named(t.companies, after.name) - {id} == {};
  }

  lemma PatchKeepsSerialOk(t: Tables, id: Uuid, patch: Patch, eventId: Uuid, at: Time, stamp: Time, now: Time)
    requires SerialOk(t) && PatchFits(t, id, patch, eventId)
    ensures var row := t.companies[id];
            SerialOk(Effect(t, UpdateWrite(row, Patched(row, patch, at)), eventId, stamp, now))
  {
    PatchCheckMatchesWrite(t, id, patch, at);
    EffectKeepsSerialOk(t, UpdateWrite(t.companies[id], Patched(t.companies[id], patch, at)), eventId, stamp, now);
  }

  lemma DeleteIsEffect(t: Tables, id: Uuid)
    requires CompaniesOk(t.companies) && id in t.companies
    ensures var w := DeleteWrite(t.companies[id]);
            && Run(t, DeleteCompany(id), 0) == Success((t.(companies := Install(t.companies, w)), 1))
            && WriteOk(w) && WriteFits(t.companies, w) && SameGeneration(w)
  {
  }
}
