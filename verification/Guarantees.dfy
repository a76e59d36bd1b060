/** The outbox protocol's promises, over every run of interleaved transactions, aborts and crashes. */
module Guarantees {
  import opened Wrappers
  import opened Text
  import opened Domain
  import opened Tables
  import opened Steps
  import opened Safety
  import opened Delivery
  import opened RowHistories
  import opened Convergence
  import opened Generations

  // ----- The company table and its events -----

  /** The committed companies always satisfy every rule of the domain and of the schema. */
  lemma TableInvariant(s: State)
    requires Reachable(s)
    ensures forall id :: id in s.db.companies ==>
              var c := s.db.companies[id];
              && c.id == id != NIL
              && 0 < |c.name| <= 15 && Trimmed(c.name)
              && |c.description| <= 3000 && Trimmed(c.description)
              && 0 <= c.employees <= MAX_INT32 && KnownType(c.kind) && ChecksPass(c)
    ensures forall i, j ::
              i in s.db.companies && j in s.db.companies && s.db.companies[i].name == s.db.companies[j].name ==> i == j
  {
    ReachableIsSound(s);
    assert TrimSpace("") == "";
  }

  /** A company's committed events form a prefix of (created updated* deleted)*, and the company is in
      the table exactly when the last of them is no deletion. */
  lemma HistoryLanguage(s: State, c: Uuid)
    requires Reachable(s)
    ensures Lawful(About(s.db.log, c))
    ensures c in s.db.companies <==> Says(About(s.db.log, c)).Some?
  {
    ReachableIsSound(s);
    assert HistoryFits(s.db, c);
  }

  /** Folding the log rebuilds the table, up to creation times. */
  lemma LogReplaysToTable(s: State)
    requires Reachable(s)
    ensures EqualUpToCreation(Replay(s.db.log), s.db.companies)
  {
    ReachableIsSound(s);
    HistoriesReplay(s.db);
  }

  lemma HistoriesReplay(t: Tables)
    requires HistoriesFit(t)
    ensures EqualUpToCreation(Replay(t.log), t.companies)
  {
    forall c: Uuid
      ensures c in Replay(t.log) <==> c in t.companies
      ensures c in t.companies ==> Undated(Replay(t.log)[c]) == Undated(t.companies[c])
    {
      assert HistoryFits(t, c);
      ReplayIsLastWriterWins(t.log, c);
    }
  }

  /** The stamps of one company's events never decrease in commit order. */
  lemma StampsFollowCommits(s: State, i: nat, j: nat)
    requires Reachable(s) && i < j < |s.db.log| && s.db.log[i].companyId == s.db.log[j].companyId
    ensures s.db.log[i].occurredAt <= s.db.log[j].occurredAt
  {
    ReachableIsSound(s);
  }

  /** From `s` to `t` exactly one event was committed: the log gained it, the outbox gained its row, and
      the table changed in its company only, to what the event says. */
  ghost predicate CommittedOne(s: Tables, t: Tables, e: Event) {
    && t.log == s.log + [e]
    && t.outbox.Keys == s.outbox.Keys + {e.id} && e.id !in s.outbox && t.outbox[e.id].payload == e
    && t.companies - {e.companyId} == s.companies - {e.companyId}
    && (e.kind == Created <==> e.companyId !in s.companies)
    && (e.kind == Deleted <==> e.companyId !in t.companies)
    && (e.companyId in t.companies ==> Undated(t.companies[e.companyId]) == Undated(e.company))
  }

  /** Table and log move together: a step leaves both alone or commits one company change with its event. */
  lemma NoChangeWithoutItsEvent(s: State, a: Action)
    requires Reachable(s) && Enabled(s, a)
    ensures var t := Next(s, a).db;
            || (t.companies == s.db.companies && t.log == s.db.log && t.outbox.Keys == s.db.outbox.Keys)
            || exists e :: CommittedOne(s.db, t, e)
  {
    ReachableIsSound(s);
    if a.CommitService? {
      CommitIsOneEvent(s, a.x);
    } else if a.CommitBatch? {
      CommitBatchKeepsOutboxOk(s, a.x);
    } else {
      assert Next(s, a).db == s.db;
    }
  }

  lemma CommitIsOneEvent(s: State, x: TxId)
    requires Safe(s) && Sound(s) && x in s.services && s.services[x].job.Stored?
    ensures CommittedOne(s.db, AfterCommit(s, x).db, s.services[x].job.event.payload)
  {
    var w, e := s.services[x].job.w, s.services[x].job.event.payload;
    assert JobOk(s.services[x]) && WriteFits(s.db.companies, w);
    var t := AfterCommit(s, x).db;
    assert t.companies - {e.companyId} == s.db.companies - {e.companyId};
  }

  // ----- The outbox -----

  /** The batch has fetched the row: it is still to be handled, or is marked. */
  ghost predicate HasRow(b: Batch, id: Uuid) {
    id in b.marks || exists k :: 0 <= k < |b.todo| && b.todo[k].id == id
  }

  lemma HasRowIsHeld(b: Batch, id: Uuid)
    ensures HasRow(b, id) <==> id in Held(b)
  {
  }

  /** Open batches have disjoint sets of rows, and every row they have is committed and pending. */
  lemma ExclusiveHandOut(s: State, x: TxId, y: TxId, id: Uuid)
    requires Reachable(s) && x in s.batches && y in s.batches && x != y
    requires s.batches[x].fate == Open && s.batches[y].fate == Open && HasRow(s.batches[x], id)
    ensures !HasRow(s.batches[y], id)
    ensures id in s.db.outbox && s.db.outbox[id].publishedAt == None
  {
    ReachableIsSound(s);
    HeldIsKnown(s, x);
    HasRowIsHeld(s.batches[x], id);
    HasRowIsHeld(s.batches[y], id);
    assert Held(s.batches[x]) !! Held(s.batches[y]);
  }

  lemma SendersSplit(s: State, id: Uuid)
    ensures |Senders(s, id)| == |CommittedSenders(s, id)| + |UnfinishedSenders(s, id)|
  {
    assert Senders(s, id) == CommittedSenders(s, id) + UnfinishedSenders(s, id);
    assert CommittedSenders(s, id) !! UnfinishedSenders(s, id);
  }

  /** The places in the stream where the event was delivered. */
  ghost function Deliveries(delivered: seq<Event>, id: Uuid): set<nat> {
    set k: nat | k < |delivered| && delivered[k].id == id
  }

  lemma {:induction false} CountIsDeliveries(delivered: seq<Event>, id: Uuid)
    ensures Count(delivered, id) == |Deliveries(delivered, id)|
  {
    if delivered != [] {
      var front, n := delivered[..|delivered| - 1], |delivered| - 1;
      CountIsDeliveries(front, id);
      assert Deliveries(delivered, id) == Deliveries(front, id) + if delivered[n].id == id then {n} else {};
    }
  }

  /** The batches to which the producer acknowledged the event and which did not commit. */
  ghost function Unfinished(s: State, id: Uuid): set<TxId> {
    set x | x in s.batches && s.batches[x].fate != Committed && id in s.batches[x].answers
            && s.batches[x].answers[id] == Acked
  }

  lemma UnfinishedAreSenders(s: State, id: Uuid)
    requires Sound(s) && AllAnswersOk(s.batches)
    ensures Unfinished(s, id) == UnfinishedSenders(s, id)
  {
    forall x | x in s.batches ensures HasSent(s.batches[x], id) <==>
                                        id in s.batches[x].answers && s.batches[x].answers[id] == Acked
    {
      assert AnswersOk(s.batches[x]) && TodoOk(s.batches[x]);
      AnswersTell(s.batches[x], id);
    }
  }

  /** An event has been delivered once for its published row, plus once for every batch that sent it
      and is still open, was rolled back, or crashed. */
  lemma ExactDuplicateCount(s: State, id: Uuid)
    requires Reachable(s)
    ensures |Deliveries(s.delivered, id)|
            == (if id in s.db.outbox && s.db.outbox[id].publishedAt.Some? then 1 else 0) + |Unfinished(s, id)|
  {
    var acts :| LeadsTo(acts, s);
    RunsAreSound(acts);
    RunsTell(acts);
    assert CountsOk(s, id);
    SendersSplit(s, id);
    UnfinishedAreSenders(s, id);
    CountIsDeliveries(s.delivered, id);
  }

  /** Every committed event has its row, and it is pending or delivered; nothing else is ever delivered. */
  lemma PendingOrDelivered(s: State, e: Event)
    requires Reachable(s)
    ensures e in s.db.log ==> e.id in s.db.outbox && s.db.outbox[e.id].payload == e
    ensures e in s.db.log && !IsPending(s.db, e.id) ==> e in s.delivered
    ensures e in s.delivered ==> e in s.db.log
  {
    ReachableIsSound(s);
    if e in s.db.log && IsPublished(s.db, e.id) {
      PublishedIsDelivered(s, e);
    }
  }

  /** The row `later` is what has become of `row`: the same event, tried at least as often, and for ever
      as it is once it is published. */
  ghost predicate Continues(row: OutboxRow, later: OutboxRow) {
    && later.payload == row.payload && later.attempts >= row.attempts
    && (row.publishedAt.Some? ==> later == row)
  }

  ghost predicate KeepsRows(outbox: Outbox, later: Outbox) {
    forall id :: id in outbox ==> id in later && Continues(outbox[id], later[id])
  }

  /** What `t` still knows of `s`. */
  ghost predicate LosesNothing(s: State, t: State) {
    && s.db.log <= t.db.log
    && s.delivered <= t.delivered
    && KeepsRows(s.db.outbox, t.db.outbox)
    && forall id :: IsPublished(s.db, id) ==> Count(t.delivered, id) == Count(s.delivered, id)
  }

  lemma CommitBatchKeepsRows(s: State, x: TxId)
    requires Committing(s, x)
    ensures KeepsRows(s.db.outbox, s.db.outbox + s.batches[x].marks)
  {
    forall id | id in s.batches[x].marks
      ensures id in s.db.outbox && Continues(s.db.outbox[id], s.batches[x].marks[id])
    {
      MarkFacts(s, x, id);
    }
  }

  lemma SendRepeatsNoPublished(s: State, x: TxId, id: Uuid)
    requires Sound(s) && x in s.batches && s.batches[x].fate == Open && s.batches[x].todo != [] && IsPublished(s.db, id)
    ensures Count(s.delivered + [s.batches[x].todo[0].payload], id) == Count(s.delivered, id)
  {
    OnlySendableIsSent(s, x);
    CountAppend(s.delivered, s.batches[x].todo[0].payload, id);
  }

  lemma StepLosesNothing(s: State, a: Action)
    requires Sound(s) && Enabled(s, a)
    ensures LosesNothing(s, Next(s, a))
  {
    if a.CommitBatch? {
      CommitBatchKeepsRows(s, a.x);
    } else if a.Send? && a.outcome.Acked? {
      forall id | IsPublished(s.db, id) ensures Count(Next(s, a).delivered, id) == Count(s.delivered, id) {
        SendRepeatsNoPublished(s, a.x, id);
      }
    } else if a.CommitService? {
      assert s.services[a.x].job.event.id !in s.db.outbox;
    }
  }

  lemma LosesNothingTwice(s: State, t: State, u: State)
    requires LosesNothing(s, t) && LosesNothing(t, u)
    ensures LosesNothing(s, u)
  {
    forall id | IsPublished(s.db, id) ensures IsPublished(t.db, id) {
      assert Continues(s.db.outbox[id], t.db.outbox[id]);
    }
  }

  /** No loss: committed rows are never removed or altered, `published_at` once set stays, and an event
      committed as published is never sent again, whatever is aborted or crashes. */
  lemma {:induction false} NothingIsLost(s: State, acts: seq<Action>)
    requires Reachable(s) && CanRun(s, acts)
    ensures Reachable(After(s, acts)) && LosesNothing(s, After(s, acts))
  {
    if acts != [] {
      var front, a := acts[..|acts| - 1], acts[|acts| - 1];
      NothingIsLost(s, front);
      ReachableIsSound(After(s, front));
      StepLosesNothing(After(s, front), a);
      LosesNothingTwice(s, After(s, front), Next(After(s, front), a));
      StepReaches(After(s, front), a);
    }
  }

  /** Attempts count the committed batches that were refused the event; each pushed the row back by ten
      seconds, so they were begun at least ten seconds apart. */
  lemma BackoffBound(s: State, id: Uuid)
    requires Reachable(s) && id in s.db.outbox
    ensures s.db.outbox[id].attempts == |Refusers(s, id)|
    ensures id in s.born && s.db.outbox[id].availableAt >= s.born[id] + 10_000_000 * s.db.outbox[id].attempts
    ensures forall x, y :: x in Refusers(s, id) && y in Refusers(s, id) && x != y ==>
              || s.batches[x].began + 10_000_000 <= s.batches[y].began
              || s.batches[y].began + 10_000_000 <= s.batches[x].began
  {
    var acts :| LeadsTo(acts, s);
    RunsAreSound(acts);
    RunsTell(acts);
    RefusersAreMarkers(s, id);
    assert BackoffOk(s, id);
  }

  // ----- Order and convergence with one publisher and no producer failure -----

  ghost predicate DistinctStamps(log: seq<Event>) {
    forall i, j :: 0 <= i < j < |log| && log[i].companyId == log[j].companyId ==>
      log[i].occurredAt != log[j].occurredAt
  }

  ghost predicate NothingPending(t: Tables) {
    forall id :: id in t.outbox ==> IsPublished(t, id)
  }

  /** Of one company, nothing is delivered before what was committed earlier has been. */
  ghost predicate FirstDeliveriesInCommitOrder(s: State) {
    forall i, j, k ::
      0 <= i < j < |s.db.log| && s.db.log[i].companyId == s.db.log[j].companyId
      && 0 <= k < |s.delivered| && s.delivered[k] == s.db.log[j] ==>
        s.db.log[i] in s.delivered[..k]
  }

  lemma CommitOrderGivesStampOrder(s: State, k: nat, e: Event)
    requires StampsInCommitOrder(s.db.log) && forall f :: f in s.delivered ==> f in s.db.log
    requires FirstDeliveriesInCommitOrder(s) && k < |s.delivered| && e in s.db.log
    requires e.companyId == s.delivered[k].companyId && e.occurredAt < s.delivered[k].occurredAt
    ensures e in s.delivered[..k]
  {
    var i :| 0 <= i < |s.db.log| && s.db.log[i] == e;
    assert s.delivered[k] in s.delivered;
    var j :| 0 <= j < |s.db.log| && s.db.log[j] == s.delivered[k];
    assert i < j;
  }

  lemma CommitOrderIsStampOrder(s: State)
    requires StampsInCommitOrder(s.db.log) && DistinctStamps(s.db.log) && forall f :: f in s.delivered ==> f in s.db.log
    ensures FirstDeliveriesInCommitOrder(s) <==> OlderFirst(s.db.log, s.delivered)
  {
    var log, d := s.db.log, s.delivered;
    if FirstDeliveriesInCommitOrder(s) {
      forall k, e | 0 <= k < |d| && e in log && e.companyId == d[k].companyId && e.occurredAt < d[k].occurredAt
        ensures e in d[..k]
      {
        CommitOrderGivesStampOrder(s, k, e);
      }
    } else {
      var i, j, k :| 0 <= i < j < |log| && log[i].companyId == log[j].companyId
                     && 0 <= k < |d| && d[k] == log[j] && log[i] !in d[..k];
      assert log[i] in log && log[i].occurredAt < d[k].occurredAt;
    }
  }

  /** First deliveries follow commit order, rolled-back batches included, if and only if no event is sent
      past an older pending one of its company that was not available when the batch began. */
  lemma FirstDeliveriesFollowCommits(acts: seq<Action>, s: State)
    requires CalmlyLeadsTo(acts, s) && DistinctStamps(s.db.log)
    ensures FirstDeliveriesInCommitOrder(s) <==> NothingPassed(acts)
  {
    RunsAreSound(acts);
    CommitOrderIsStampOrder(s);
    OlderFirstIffNothingPassed(acts);
  }

  function LastOf(events: seq<Event>, c: Uuid): Option<Event> {
    var h := About(events, c);
    if h == [] then None else Some(h[|h| - 1])
  }

  lemma SettledHasTheLastWord(log: seq<Event>, delivered: seq<Event>, c: Uuid, e: Event)
    requires StampsInCommitOrder(log) && DistinctStamps(log) && forall f :: f in delivered ==> f in log
    requires LastOf(log, c) == Some(e) && ReachedStamp(delivered, c, e.occurredAt)
    ensures LastOf(delivered, c) == Some(e)
  {
    var k := LastAbout(log, c);
    var m := LastAbout(delivered, c);
    assert delivered[m] in delivered;
    var j :| 0 <= j < |log| && log[j] == delivered[m];
    assert j == k;
  }

  lemma FollowedHasNotTheLastWord(delivered: seq<Event>, c: Uuid, e: Event, o: Event)
    requires FollowsAll(delivered, o, e.id) && o.companyId == c && o.id != e.id
    ensures LastOf(delivered, c) != Some(e)
  {
    var k :| 0 <= k < |delivered| && delivered[k] == o && forall l :: k < l < |delivered| ==> delivered[l].id != e.id;
    if About(delivered, c) != [] {
      var m := LastAbout(delivered, c);
      assert m >= k;
    }
  }

  lemma PublishedIsDelivered(s: State, e: Event)
    requires Sound(s) && e in s.db.log && IsPublished(s.db, e.id)
    ensures e in s.delivered
  {
    assert CountsOk(s, e.id);
    var x :| x in CommittedSenders(s, e.id);
    assert x in Senders(s, e.id);
    DeliveredIffSent(s, e);
  }

  lemma OvertakenHasNotTheLastWord(s: State, e: Event, o: Event)
    requires Sound(s) && NothingPending(s.db) && e in s.db.log && Overtook(s, e.id, o)
    ensures LastOf(s.delivered, e.companyId) != Some(e)
  {
    assert RowOk(s.db, e.id, s.db.outbox[e.id]);
    PublishedIsDelivered(s, o);
    FollowedHasNotTheLastWord(s.delivered, e.companyId, e, o);
  }

  /** Once nothing is pending, the last delivery about a company is its last commit if and only if the last
      send of that event passed nothing. */
  lemma LastDeliveryIsLastCommit(acts: seq<Action>, s: State, c: Uuid, e: Event)
    requires CalmlyLeadsTo(acts, s) && DistinctStamps(s.db.log) && NothingPending(s.db)
    requires LastOf(s.db.log, c) == Some(e)
    ensures LastOf(s.delivered, c) == Some(e) <==> !LastSendPassed(acts, e.id)
  {
    RunsAreSound(acts);
    AboutMembers(s.db.log, c);
    assert e in About(s.db.log, c);
    assert RowOk(s.db, e.id, s.db.outbox[e.id]);
    if LastSendPassed(acts, e.id) {
      var o := PassedIsOvertaken(acts, e.id);
      OvertakenHasNotTheLastWord(s, e, o);
    } else {
      UnpassedIsSettled(acts, e.id);
      SettledHasTheLastWord(s.db.log, s.delivered, c, e);
    }
  }

  /** The last deliveries are the last commits, company by company. */
  ghost predicate SameLastWords(s: State) {
    forall c :: LastOf(s.delivered, c) == LastOf(s.db.log, c)
  }

  /** What was committed last about each company passed nothing when it was last sent. */
  ghost predicate LastSendsPassNothing(acts: seq<Action>)
    requires CanRun(INIT, acts)
  {
    var log := After(INIT, acts).db.log;
    forall c :: LastOf(log, c).Some? ==> !LastSendPassed(acts, LastOf(log, c).value.id)
  }

  lemma DeliveredIsCommitted(s: State, c: Uuid)
    requires Sound(s) && LastOf(s.delivered, c).Some?
    ensures LastOf(s.db.log, c).Some?
  {
    var k := LastAbout(s.delivered, c);
    assert s.delivered[k] in s.delivered;
    AboutMembers(s.db.log, c);
  }

  lemma SameLastWordsIffLastSendsPassNothing(acts: seq<Action>, s: State)
    requires CalmlyLeadsTo(acts, s) && DistinctStamps(s.db.log) && NothingPending(s.db)
    ensures SameLastWords(s) <==> LastSendsPassNothing(acts)
  {
    RunsAreSound(acts);
    forall c: Uuid
      ensures LastOf(s.db.log, c).None? ==> LastOf(s.delivered, c).None?
      ensures LastOf(s.db.log, c).Some? ==>
                (LastOf(s.delivered, c) == LastOf(s.db.log, c) <==> !LastSendPassed(acts, LastOf(s.db.log, c).value.id))
    {
      if LastOf(s.delivered, c).Some? {
        DeliveredIsCommitted(s, c);
      }
      if LastOf(s.db.log, c).Some? {
        LastDeliveryIsLastCommit(acts, s, c, LastOf(s.db.log, c).value);
      }
    }
  }

  /** The same last words replay to the same companies, however often and in whatever order the rest came. */
  lemma SameLastWordsReplayTheSame(s: State)
    requires SameLastWords(s)
    ensures Replay(s.delivered) == Replay(s.db.log)
  {
    forall c: Uuid ensures Lookup(Replay(s.delivered), c) == Lookup(Replay(s.db.log), c) {
      assert LastOf(s.delivered, c) == LastOf(s.db.log, c);
      ReplayIsLastWriterWins(s.delivered, c);
      ReplayIsLastWriterWins(s.db.log, c);
    }
    SameLookupsSameMap(Replay(s.delivered), Replay(s.db.log));
  }

  /** Convergence: once nothing is pending, the whole delivered stream, duplicates and all, ends with the last
      word on every company and replays to the table, up to creation times. */
  lemma DeliveredStreamConverges(acts: seq<Action>, s: State)
    requires CalmlyLeadsTo(acts, s) && DistinctStamps(s.db.log) && NothingPending(s.db)
    requires LastSendsPassNothing(acts)
    ensures SameLastWords(s) && Replay(s.delivered) == Replay(s.db.log)
    ensures EqualUpToCreation(Replay(s.delivered), s.db.companies)
  {
    SameLastWordsIffLastSendsPassNothing(acts, s);
    SameLastWordsReplayTheSame(s);
    assert LeadsTo(acts, s);
    LogReplaysToTable(s);
  }

  /** Exact convergence: the delivered stream replays to exactly the table if and only if the last committed
      write about every company in it kept its generation. */
  lemma DeliveredStreamConvergesExactlyIff(acts: seq<Action>, s: State)
    requires CalmlyLeadsTo(acts, s) && DistinctStamps(s.db.log) && NothingPending(s.db)
    requires LastSendsPassNothing(acts)
    ensures Replay(s.delivered) == s.db.companies <==> forall c :: c in s.db.companies ==> LastWriteKept(acts, c)
  {
    DeliveredStreamConverges(acts, s);
    LogReplaysExactlyIff(acts);
  }

  /** In particular the stream converges when no send at all has passed anything. */
  lemma UnpassedStreamConverges(s: State)
    requires UnpassedReachable(s) && DistinctStamps(s.db.log) && NothingPending(s.db)
    ensures SameLastWords(s) && Replay(s.delivered) == Replay(s.db.log)
    ensures EqualUpToCreation(Replay(s.delivered), s.db.companies)
  {
    var acts :| UnpassedLeadsTo(acts, s);
    forall id ensures !LastSendPassed(acts, id) {
      NothingPassedAtAll(acts, id);
    }
    DeliveredStreamConverges(acts, s);
  }
}
