/** The worker's methods: each leaves the store its specification names, and the drain loops end. */
module WorkerLoop {
  import opened Domain
  import opened Tally
  import opened Tables
  import opened BatchWork
  import opened Worker
  import opened WorkerProgress

  class OutboxWorker {
    const c: Setup
    /** How many goroutines share the events that are applied one by one. */
    const concurrency: nat
    var store: Store

    /** New: a limit on retries or goroutines below 1 becomes 1. */
    constructor (batchSize: nat, concurrency: int, maxRetry: int, users: set<int>, guilds: set<int>, store: Store)
      ensures c.batchSize == batchSize && c.users == users && c.guilds == guilds && this.store == store
      ensures 1 <= this.concurrency && 1 <= c.maxRetry
      ensures (1 <= concurrency ==> this.concurrency == concurrency) && (concurrency < 1 ==> this.concurrency == 1)
      ensures (1 <= maxRetry ==> c.maxRetry == maxRetry) && (maxRetry < 1 ==> c.maxRetry == 1)
    {
      this.c := Setup(batchSize, if maxRetry < 1 then 1 else maxRetry, users, guilds);
      this.concurrency := if concurrency < 1 then 1 else concurrency;
      this.store := store;
    }

    /** Row by row into the event list, as the repository copies them. */
    method ListPendingEvents() returns (events: seq<Event>)
      ensures events == EventsAt(store.db.events, Window(c, store))
      ensures forall n :: 0 <= n < |events| ==>
                && events[n].id in store.db.events && events[n].content == store.db.events[events[n].id].content
                && events[n].retry == store.db.events[events[n].id].retry
    {
      var ids := Window(c, store);
      events := [];
      assert forall n :: 0 <= n < |ids| ==> ids[n] in ids;
      for n := 0 to |ids|
        invariant |events| == n && forall m :: 0 <= m < n ==> events[m] == EventAt(store.db.events, ids[m])
      {
        events := events + [EventAt(store.db.events, ids[n])];
      }
    }

    /** One statement over the rows in ascending order; a missing guild fails it. */
    method BulkIncrementGuildScores(deltas: seq<Delta>) returns (ok: bool)
      modifies this
      ensures ok <==> forall x :: x in SortByKey(deltas) ==> x.key in c.guilds
      ensures ok ==> var scores := AddDeltas(old(store).db.guildScores, SortByKey(deltas));
                     store == old(store).(db := old(store).db.(guildScores := scores))
    {
      var sorted := SortByKey(deltas);
      var scores := store.db.guildScores;
      assert sorted[..0] == [];
      for i := 0 to |sorted|
        invariant store == old(store) && scores == AddDeltas(store.db.guildScores, sorted[..i])
        invariant forall j :: 0 <= j < i ==> sorted[j].key in c.guilds
      {
        if sorted[i].key !in c.guilds {
          return false;
        }
        assert sorted[..i + 1][..i] == sorted[..i];
        scores := AddOne(scores, sorted[i].key, sorted[i].points);
      }
      assert sorted[..|sorted|] == sorted;
      store := store.(db := store.db.(guildScores := scores));
      ok := true;
    }

    method BulkInsertGuildScoreHistories(rows: seq<Entry>) returns (ok: bool)
      requires forall e :: e in rows ==> e.GuildEntry?
      modifies this
      ensures ok <==> forall e :: e in rows ==> e.guild in c.guilds && e.user in c.users
      ensures ok ==> store == old(store).(db := old(store).db.(guildRows := old(store).db.guildRows + rows))
    {
      for i := 0 to |rows|
        invariant store == old(store) && forall j :: 0 <= j < i ==> rows[j].guild in c.guilds && rows[j].user in c.users
      {
        assert rows[i] in rows;
        if rows[i].guild !in c.guilds || rows[i].user !in c.users {
          return false;
        }
      }
      store := store.(db := store.db.(guildRows := store.db.guildRows + rows));
      ok := true;
    }

    /** ApplyScoreDeltas: one ZINCRBY per delta. */
    method ApplyScoreDeltas(users: seq<Delta>, guilds: seq<Delta>)
      modifies this
      ensures store == old(store).(userZ := AddDeltas(old(store).userZ, users),
                                   guildZ := AddDeltas(old(store).guildZ, guilds))
    {
      var userZ, guildZ := store.userZ, store.guildZ;
      assert users[..0] == [] && guilds[..0] == [];
      for i := 0 to |users|
        invariant userZ == AddDeltas(store.userZ, users[..i]) && store == old(store)
      {
        assert users[..i + 1][..i] == users[..i];
        userZ := AddOne(userZ, users[i].key, users[i].points);
      }
      for i := 0 to |guilds|
        invariant guildZ == AddDeltas(store.guildZ, guilds[..i]) && store == old(store)
      {
        assert guilds[..i + 1][..i] == guilds[..i];
        guildZ := AddOne(guildZ, guilds[i].key, guilds[i].points);
      }
      assert users[..|users|] == users && guilds[..|guilds|] == guilds;
      store := store.(userZ := userZ, guildZ := guildZ);
    }

    method RecordRetry(id: nat)
      requires id in store.db.events
      modifies this
      ensures store == AfterRetry(c, old(store), id)
    {
      var row := store.db.events[id];
      store := store.(db := store.db.(events := store.db.events[id := row.(retry := row.retry + 1)]));
      var newRetryCount := store.db.events[id].retry;
      if newRetryCount == c.maxRetry {
        store := store.(dead := store.dead + [id]);
      }
    }

    /** Events that do not decode, each in its own transaction after the batch. */
    method RecordRetries(undecoded: seq<Event>, ghost now: nat)
      requires forall i :: i in Ids(undecoded) ==> i in store.db.events && !Decodable(store.db.events[i].content)
      modifies this
      ensures store == AfterEach(c, old(store), Ids(undecoded), now)
    {
      hide AfterEach, AfterOne, AfterRetry;
      ghost var ids := Ids(undecoded);
      NoEvents(c, store, now);
      assert ids[..0] == [];
      for n := 0 to |undecoded|
        invariant forall i :: i in ids[..n] ==> i in old(store).db.events
        invariant store == AfterEach(c, old(store), ids[..n], now)
      {
        assert ids[n] in ids && ids[n] == undecoded[n].id;
        assert ids[..n + 1] == ids[..n] + [ids[n]];
        AfterEachSnoc(c, old(store), ids[..n], ids[n], now);
        RetryIsOne(c, store, ids[n], now);
        RecordRetry(undecoded[n].id);
      }
      assert ids[..|ids|] == ids;
    }

    /** The batch path: all of the window in one transaction, or nothing of it. */
    method ApplyBatch(now: nat) returns (listed: nat, applied: nat, ok: bool)
      modifies this
      ensures ok <==> BatchSucceeds(c, old(store))
      ensures !ok ==> store == old(store)
      ensures ok ==> store == AfterEach(c, old(store), Window(c, old(store)), now)
      ensures ok ==> listed == |Window(c, old(store))|
      ensures ok ==> applied == CountFine(c, old(store).db.events, Window(c, old(store)))
      ensures ok ==> forall k :: Get(store.db.guildScores, k) ==
                       Get(old(store).db.guildScores, k) + Earned(old(store).db.events, Window(c, old(store)), k)
    {
      var saved := store;
      BatchEarns(c, store, now);
      var events := ListPendingEvents();
      var work, undecoded, errs := BuildBatchWork(events);
      BatchOutcome(c, saved, events, work, now);
      hide AfterEach, BatchSucceeds, AreTotals, Good, Bad, Scores, SortByKey, AddDeltas, EventsAt, Entries, Mark, Ids;
      if work.ids != [] {
        ok := BulkIncrementGuildScores(work.guildDeltas);
        if ok {
          ok := BulkInsertGuildScoreHistories(work.histories);
        }
        if !ok {
          store := saved;
          return 0, 0, false;
        }
        store := store.(db := store.db.(events := Mark(store.db.events, Elems(work.ids), now)));
      }
      ok := true;
      ApplyScoreDeltas(work.userDeltas, work.guildDeltas);
      assert store == AfterEach(c, saved, work.ids, now);
      RecordRetries(undecoded, now);
      listed, applied := |events|, |work.ids|;
    }

    static lemma BatchEarns(c: Setup, st: Store, now: nat)
      ensures BatchSucceeds(c, st) ==> forall k :: Get(AfterEach(c, st, Window(c, st), now).db.guildScores, k) ==
                                         Get(st.db.guildScores, k) + Earned(st.db.events, Window(c, st), k)
    {
      if BatchSucceeds(c, st) {
        forall k ensures Get(AfterEach(c, st, Window(c, st), now).db.guildScores, k) ==
                         Get(st.db.guildScores, k) + Earned(st.db.events, Window(c, st), k)
        {
          GuildsEarn(c, st, Window(c, st), now, k);
        }
      }
    }

    /** applyEventInTx: the statements of one event; any failure leaves the rollback to the caller. */
    method ApplyEventInTx(content: Content) returns (ok: bool)
      modifies this
      ensures ok <==> content.eventType == "ranking_score_added" && content.payload.Encoded?
                      && content.payload.score.guild in c.guilds && content.payload.score.user in c.users
      ensures ok <==> Applies(c, content)
      ensures ok ==> var p := content.payload.score;
                     store == old(store).(db := old(store).db.(
                       guildScores := AddOne(old(store).db.guildScores, p.guild, p.points),
                       guildRows := old(store).db.guildRows + [GuildEntry(p.guild, p.user, p.points)]))
      ensures store.db.events == old(store).db.events
    {
      match Decode(content)
      case Refused(why) => return false;
      case Ok(p) =>
        if p.guild !in c.guilds {
          return false;
        }
        store := store.(db := store.db.(guildScores := AddOne(store.db.guildScores, p.guild, p.points)));
        if p.user !in c.users {
          return false;
        }
        store := store.(db := store.db.(guildRows := store.db.guildRows + [EntryOf(p, ByGuild)]));
        return true;
    }

    /** One event in its own transaction; a claim that finds nothing counts as progress. */
    method ProcessOne(id: nat, now: nat) returns (progressed: bool)
      modifies this
      ensures !Eligible(old(store).db.events, id, c.maxRetry) ==> store == old(store) && progressed
      ensures Eligible(old(store).db.events, id, c.maxRetry) ==>
                store == AfterOne(c, old(store), id, now) && progressed == Applies(c, old(store).db.events[id].content)
    {
      var saved := store;
      if !Eligible(store.db.events, id, c.maxRetry) {
        return true;
      }
      var row := store.db.events[id];
      var ok := ApplyEventInTx(row.content);
      if !ok {
        store := saved;
        RecordRetry(id);
        return false;
      }
      store := store.(db := store.db.(events := store.db.events[id := row.(processedAt := Some(now))]));
      var p := Decode(row.content).score;
      ApplyScoreDeltas([Delta(p.user, p.points)], [Delta(p.guild, p.points)]);
      OneDelta(saved.userZ, Delta(p.user, p.points));
      OneDelta(saved.guildZ, Delta(p.guild, p.points));
      return true;
    }

    /** The fallback: the same window, event by event. */
    method ApplyPerEvent(now: nat) returns (listed: nat, applied: nat)
      modifies this
      ensures store == AfterEach(c, old(store), Window(c, old(store)), now)
      ensures listed == |Window(c, old(store))| && applied == CountFine(c, old(store).db.events, Window(c, old(store)))
    {
      hide AfterEach, AfterOne, ListPending, CountFine, Applies, Distinct;
      var candidates := ListPendingEvents();
      ghost var start, ids := store, Window(c, store);
      applied := 0;
      assert ids[..0] == [];
      NoEvents(c, start, now);
      NoneFine(c, start.db.events, []);
      for n := 0 to |candidates|
        invariant forall i :: i in ids[..n] ==> i in ids && i in start.db.events
        invariant store == AfterEach(c, start, ids[..n], now)
        invariant applied == CountFine(c, start.db.events, ids[..n])
      {
        assert ids[n] in ids && candidates[n].id == ids[n];
        assert ids[..n + 1] == ids[..n] + [ids[n]];
        NotYet(ids, n);
        AfterEachSnoc(c, start, ids[..n], ids[n], now);
        CountFineSnoc(c, start.db.events, ids[..n], ids[n]);
        var ok := ProcessOne(candidates[n].id, now);
        if ok {
          applied := applied + 1;
        }
      }
      assert ids[..|ids|] == ids;
      listed := |candidates|;
    }

    /**
     * Windows until one is short or none of a full one moves.  `deadline` stands for the tick's context:
     * it may run out after any window that made progress.
     */
    method RunOnce(now: nat) returns (drained: bool, stalled: bool)
      requires Valid(store)
      modifies this
      ensures Valid(store) && Worked(c, old(store), store)
      ensures drained && !stalled ==> c.batchSize == 0 || CaughtUpSince(c, old(store), store)
      ensures stalled ==> drained && PoisonFills(c, store)
      ensures Left(c, store) <= Left(c, old(store))
      ensures !drained || (c.batchSize > 0 && Left(c, old(store)) > 0) ==> Left(c, store) < Left(c, old(store))
      ensures Stuck(c, old(store)) ==> drained && stalled && FailedOnce(c, old(store), store)
      ensures Frugal(c, old(store), store, if drained then 1 else 0)
    {
      hide Worked, Left, AfterEach, Valid, Stuck, Frugal;
      WorkedNothing(c, store);
      FrugalNothing(c, store);
      while true
        invariant Valid(store) && Worked(c, old(store), store)
        invariant Left(c, store) <= Left(c, old(store))
        invariant Stuck(c, old(store)) ==> store == old(store)
        invariant Frugal(c, old(store), store, 0)
        decreases Left(c, store)
      {
        ghost var before, w := store, Window(c, store);
        var listed, applied, ok := ApplyBatch(now);
        if !ok {
          listed, applied := ApplyPerEvent(now);
        }
        assert forall i :: i in w ==> i in before.db.events;
        PotentialFalls(c, before, w, now);
        WorkedEach(c, before, w, now);
        WorkedTwice(c, old(store), before, store);
        FrugalWindow(c, old(store), before, now);
        EmptyWindow(c, before);
        StuckWindow(c, before, now);
        if listed == 0 || listed < c.batchSize {
          if c.batchSize > 0 {
            CaughtUp(c, old(store), before, now);
          }
          return true, false;
        }
        if applied == 0 {
          NoneFine(c, before.db.events, w);
          StalledWindow(c, before, now);
          return true, true;
        }
        var deadline: bool := *;
        if deadline {
          return false, false;
        }
      }
    }

    /** Ticks until the outbox is drained: it ends because every unfinished tick lowers the potential. */
    method DrainNow(now: nat) returns (stalled: bool)
      requires Valid(store)
      modifies this
      ensures Valid(store) && Drained(c, old(store), store, stalled)
    {
      hide Worked, Left, Valid, CaughtUpSince, Stuck, Frugal, FailedOnce;
      WorkedNothing(c, store);
      FrugalNothing(c, store);
      while true
        invariant Valid(store) && Worked(c, old(store), store)
        invariant store == old(store) || (Left(c, store) < Left(c, old(store)) && !Stuck(c, old(store)))
        invariant Frugal(c, old(store), store, 0)
        decreases Left(c, store)
      {
        ghost var before := store;
        var drained, st := RunOnce(now);
        WorkedTwice(c, old(store), before, store);
        FrugalTwice(c, old(store), before, store, if drained then 1 else 0);
        if drained {
          if !st && c.batchSize != 0 {
            CaughtUpLater(c, old(store), before, store);
          }
          return st;
        }
      }
    }

    /**
     * Run's loop over a finite history of its channels.  It drains before it waits; a tick always drains; a
     * notification does unless the last drain stalled; a closed channel is never read again.  `stores` and
     * `stalls` record how each drain left the store, the first entry before any trigger.
     */
    method Run(triggers: seq<Trigger>, now: nat) returns (ghost stores: seq<Store>, ghost stalls: seq<bool>)
      requires Valid(store)
      modifies this
      ensures Valid(store) && Worked(c, old(store), store)
      ensures c.batchSize > 0 && Ticks(triggers) >= Left(c, old(store)) ==> Settled(c, old(store), store)
      ensures |stores| == |stalls| == |triggers| + 1 && stores[|triggers|] == store
      ensures Drained(c, old(store), stores[0], stalls[0])
      ensures forall n :: 0 <= n < |triggers| ==>
                Answered(c, triggers, n, stores[n], stalls[n], stores[n + 1], stalls[n + 1])
    {
      hide Worked, Left, Valid, Settled, CaughtUpSince, PoisonFills, Stuck, Frugal, FailedOnce;
      var stalled := DrainNow(now);
      var open := true;
      stores, stalls := [store], [stalled];
      assert triggers[..0] == [];
      for n := 0 to |triggers|
        invariant Valid(store) && Worked(c, old(store), store)
        invariant c.batchSize > 0 ==>
                    Left(c, store) == 0 || Left(c, store) + Ticks(triggers[..n]) <= Left(c, old(store))
        invariant open <==> Closed !in triggers[..n]
        invariant |stores| == |stalls| == n + 1 && stores[n] == store && stalls[n] == stalled
        invariant Drained(c, old(store), stores[0], stalls[0])
        invariant forall m :: 0 <= m < n ==>
                    Answered(c, triggers, m, stores[m], stalls[m], stores[m + 1], stalls[m + 1])
      {
        ghost var before := store;
        assert triggers[..n + 1] == triggers[..n] + [triggers[n]];
        assert triggers[..n + 1][..n] == triggers[..n];
        match triggers[n] {
          case Tick =>
            stalled := DrainNow(now);
            WorkedTwice(c, old(store), before, store);
          case Notify =>
            if open && !stalled {
              stalled := DrainNow(now);
              WorkedTwice(c, old(store), before, store);
            }
          case Closed =>
            open := false;
        }
        stores, stalls := stores + [store], stalls + [stalled];
      }
      assert triggers[..|triggers|] == triggers;
      if c.batchSize > 0 && Left(c, store) == 0 {
        NothingEligibleSettles(c, old(store), store);
      }
    }
  }

  datatype Trigger = Tick | Notify | Closed

  function Ticks(triggers: seq<Trigger>): nat {
    if triggers == [] then 0
    else Ticks(triggers[..|triggers| - 1]) + if triggers[|triggers| - 1].Tick? then 1 else 0
  }

  /** The window is full, and nothing in it applies. */
  ghost predicate Stuck(c: Setup, st: Store) {
    && c.batchSize > 0 && |Window(c, st)| == c.batchSize
    && forall i :: i in Window(c, st) ==> !Applies(c, st.db.events[i].content)
  }

  /** Each row of the window has one failure more, and no other row has moved. */
  ghost predicate FailedOnce(c: Setup, a: Store, b: Store) {
    && b.db.events.Keys == a.db.events.Keys
    && forall i :: i in a.db.events ==>
         b.db.events[i]
         == if i in Window(c, a) then a.db.events[i].(retry := a.db.events[i].retry + 1) else a.db.events[i]
  }

  /** No more failures were recorded than one window full per processed event, and `spare` windows. */
  ghost predicate Frugal(c: Setup, a: Store, b: Store, spare: nat) {
    Failures(a.db.events, b.db.events, a.db.nextId) <= c.batchSize * (|Newly(a.db.events, b.db.events)| + spare)
  }

  /** What a drain does and what it answers. */
  ghost predicate Drained(c: Setup, a: Store, b: Store, stalled: bool) {
    && Worked(c, a, b)
    && (!stalled ==> c.batchSize == 0 || CaughtUpSince(c, a, b))
    && (stalled ==> PoisonFills(c, b))
    && Left(c, b) <= Left(c, a)
    && (c.batchSize > 0 && Left(c, a) > 0 ==> Left(c, b) < Left(c, a))
    && (Stuck(c, a) ==> stalled && FailedOnce(c, a, b))
    && Frugal(c, a, b, 1)
  }

  /** What becomes of the n-th trigger. */
  ghost predicate Answered(c: Setup, triggers: seq<Trigger>, n: nat, a: Store, stalled: bool, b: Store, stalled': bool)
    requires n < |triggers|
  {
    match triggers[n]
    case Tick => Drained(c, a, b, stalled')
    case Notify =>
      if Closed in triggers[..n] || stalled then b == a && stalled' == stalled else Drained(c, a, b, stalled')
    case Closed => b == a && stalled' == stalled
  }

  lemma FrugalNothing(c: Setup, st: Store)
    ensures Frugal(c, st, st, 0)
  {
    SpentNothing(st);
  }

  lemma FrugalTwice(c: Setup, a: Store, b: Store, d: Store, spare: nat)
    requires Worked(c, a, b) && Worked(c, b, d) && Frugal(c, a, b, 0) && Frugal(c, b, d, spare)
    ensures Frugal(c, a, d, spare)
  {
    hide TotalsWorked, ReportsWorked, Newly;
    RowsTwice(c, a.db.events, b.db.events, d.db.events);
    FailuresAdd(a.db.events, b.db.events, d.db.events, a.db.nextId);
    var p, q := |Newly(a.db.events, b.db.events)|, |Newly(b.db.events, d.db.events)|;
    assert c.batchSize * p + c.batchSize * (q + spare) == c.batchSize * (p + q + spare);
  }

  /** One more window: it may spend itself on failures, but a window with progress has paid for that. */
  lemma FrugalWindow(c: Setup, a: Store, b: Store, now: nat)
    requires Valid(b) && Worked(c, a, b) && Frugal(c, a, b, 0)
    ensures var w := Window(c, b); var d := AfterEach(c, b, w, now);
            && Frugal(c, a, d, 1)
            && (CountFine(c, b.db.events, w) > 0 ==> Frugal(c, a, d, 0))
  {
    hide Worked, AfterEach, CountFine, Frugal, Spent, Valid;
    var w := Window(c, b);
    assert forall i :: i in w ==> i in b.db.events;
    var d, fine := AfterEach(c, b, w, now), CountFine(c, b.db.events, w);
    WindowCosts(c, b, w, now);
    WorkedEach(c, b, w, now);
    WindowFrugal(c, b, d, |w| - fine, fine);
    FrugalTwice(c, a, b, d, 1);
    if fine > 0 {
      FrugalTwice(c, a, b, d, 0);
    }
  }

  lemma WindowFrugal(c: Setup, b: Store, d: Store, failures: nat, fine: nat)
    requires Spent(b, d, failures, fine) && failures <= c.batchSize
    ensures Frugal(c, b, d, 1) && (fine > 0 ==> Frugal(c, b, d, 0))
  {
    assert c.batchSize * (fine + 1) == c.batchSize * fine + c.batchSize;
    if fine > 0 {
      assert c.batchSize * fine == c.batchSize * (fine - 1) + c.batchSize;
    }
  }

  lemma StuckWindow(c: Setup, st: Store, now: nat)
    ensures Stuck(c, st) ==>
              && CountFine(c, st.db.events, Window(c, st)) == 0 && |Window(c, st)| == c.batchSize > 0
              && FailedOnce(c, st, AfterEach(c, st, Window(c, st), now))
  {
    if Stuck(c, st) {
      var w := Window(c, st);
      NoneFine(c, st.db.events, w);
      WorkedEach(c, st, w, now);
      EachFailsOnce(c, st, w, now);
      var d := AfterEach(c, st, w, now);
      forall i | i in st.db.events
        ensures d.db.events[i] ==
                  if i in w then st.db.events[i].(retry := st.db.events[i].retry + 1) else st.db.events[i]
      {
        assert RowWorked(c, st.db.events[i], d.db.events[i]);
      }
    }
  }

  /** Every event that was eligible and applies is processed. */
  ghost predicate CaughtUpSince(c: Setup, a: Store, b: Store) {
    forall i :: Eligible(a.db.events, i, c.maxRetry) && Applies(c, a.db.events[i].content)
                ==> i in b.db.events && b.db.events[i].processedAt.Some?
  }

  /** A whole window of rows that do not apply is still unprocessed. */
  ghost predicate PoisonFills(c: Setup, st: Store) {
    && c.batchSize > 0
    && exists w: seq<nat> :: |w| == c.batchSize && Distinct(w)
         && forall i :: i in w ==>
              i in st.db.events && st.db.events[i].processedAt.None? && !Applies(c, st.db.events[i].content)
  }

  lemma StalledWindow(c: Setup, st: Store, now: nat)
    requires c.batchSize > 0 && |Window(c, st)| >= c.batchSize
    requires forall i :: i in Window(c, st) ==> i in st.db.events && !Applies(c, st.db.events[i].content)
    ensures PoisonFills(c, AfterEach(c, st, Window(c, st), now))
  {
    var w, st' := Window(c, st), AfterEach(c, st, Window(c, st), now);
    WorkedEach(c, st, w, now);
    forall i | i in w ensures st'.db.events[i].processedAt.None? && !Applies(c, st'.db.events[i].content) {
      assert RowWorked(c, st.db.events[i], st'.db.events[i]);
    }
    assert |w| == c.batchSize;
  }

  lemma EmptyWindow(c: Setup, st: Store)
    requires Valid(st)
    ensures Window(c, st) == [] && c.batchSize > 0 ==> Left(c, st) == 0
  {
    if Window(c, st) == [] && c.batchSize > 0 {
      SomethingLeft(st.db.events, c.maxRetry, st.db.nextId);
    }
  }

  lemma CaughtUpLater(c: Setup, a: Store, b: Store, d: Store)
    requires Worked(c, a, b) && Worked(c, b, d) && CaughtUpSince(c, b, d)
    ensures CaughtUpSince(c, a, d)
  {
    hide TotalsWorked, ReportsWorked;
    forall i | Eligible(a.db.events, i, c.maxRetry) && Applies(c, a.db.events[i].content)
      ensures i in d.db.events && d.db.events[i].processedAt.Some?
    {
      assert RowWorked(c, a.db.events[i], b.db.events[i]) && RowWorked(c, b.db.events[i], d.db.events[i]);
    }
  }

  lemma OneDelta(table: map<int, int>, x: Delta)
    ensures AddDeltas(table, [x]) == AddOne(table, x.key, x.points)
  {
    assert [x][..0] == [];
  }

  lemma NotYet(ids: seq<nat>, n: nat)
    requires n < |ids| && Distinct(ids)
    ensures ids[n] !in ids[..n]
  {
  }

  lemma RetryIsOne(c: Setup, st: Store, id: nat, now: nat)
    requires id in st.db.events && !Applies(c, st.db.events[id].content)
    ensures AfterOne(c, st, id, now) == AfterRetry(c, st, id)
  {
  }

  /** The foreign keys accept the batch. */
  ghost predicate BatchSucceeds(c: Setup, st: Store) {
    forall i :: i in Window(c, st) && Decodable(st.db.events[i].content) ==> Applies(c, st.db.events[i].content)
  }

  lemma {:induction false} ScoresKnown(c: Setup, events: seq<Event>)
    ensures (forall p :: p in Scores(events) ==> KnownScore(c, p)) <==>
            (forall n :: 0 <= n < |events| && Decodable(events[n].content) ==> Applies(c, events[n].content))
    ensures |Good(events)| == |Scores(events)|
  {
    if events != [] {
      var front, last := events[..|events| - 1], events[|events| - 1];
      ScoresKnown(c, front);
      assert events == front + [last];
      if Decodable(last.content) {
        OneMoreGood(front, last);
        assert forall p :: p in Scores(events) <==> p in Scores(front) || p == Decode(last.content).score;
      } else {
        OneMoreBad(front, last);
      }
    }
  }

  /** What BuildBatchWork promises about a window. */
  ghost predicate IsWork(c: Setup, st: Store, events: seq<Event>, work: Work) {
    && events == EventsAt(st.db.events, Window(c, st))
    && work.ids == Ids(Good(events)) && work.histories == Entries(Scores(events))
    && AreTotals(work.guildDeltas, Scores(events), ByGuild) && AreTotals(work.userDeltas, Scores(events), ByUser)
  }

  /** The store after the batch transaction and its Redis pipeline. */
  function Written(st: Store, work: Work, now: nat): Store {
    st.(db := st.db.(guildScores := AddDeltas(st.db.guildScores, SortByKey(work.guildDeltas)),
                     guildRows := st.db.guildRows + work.histories,
                     events := Mark(st.db.events, Elems(work.ids), now)),
        userZ := AddDeltas(st.userZ, work.userDeltas),
        guildZ := AddDeltas(st.guildZ, work.guildDeltas))
  }

  lemma WindowEvents(c: Setup, st: Store, events: seq<Event>)
    requires events == EventsAt(st.db.events, Window(c, st))
    ensures Ids(events) == Window(c, st) && Listed(st.db.events, events)
    ensures BatchSucceeds(c, st) <==>
              forall n :: 0 <= n < |events| && Decodable(events[n].content) ==> Applies(c, events[n].content)
  {
    var w := Window(c, st);
    forall n | 0 <= n < |events| ensures events[n].id in w && events[n].content == st.db.events[w[n]].content {
      assert w[n] in w;
    }
  }

  lemma {:induction false} ScoresListed(scores: seq<Score>)
    ensures forall e :: e in Entries(scores) ==> e.GuildEntry?
    ensures forall p :: p in scores ==> EntryOf(p, ByGuild) in Entries(scores)
    ensures forall e :: e in Entries(scores) ==> exists p :: p in scores && e == EntryOf(p, ByGuild)
  {
    forall p | p in scores ensures EntryOf(p, ByGuild) in Entries(scores) {
      var n :| 0 <= n < |scores| && scores[n] == p;
      assert Entries(scores)[n] == EntryOf(p, ByGuild);
    }
    forall e | e in Entries(scores) ensures exists p :: p in scores && e == EntryOf(p, ByGuild) {
      var n :| 0 <= n < |scores| && Entries(scores)[n] == e;
      assert scores[n] in scores;
    }
  }

  /** The statements go through exactly if every decodable event applies. */
  lemma StatementsSucceed(c: Setup, st: Store, events: seq<Event>, work: Work)
    requires IsWork(c, st, events, work)
    ensures forall e :: e in work.histories ==> e.GuildEntry?
    ensures BatchSucceeds(c, st) <==>
            (forall x :: x in SortByKey(work.guildDeltas) ==> x.key in c.guilds)
            && (forall e :: e in work.histories ==> e.guild in c.guilds && e.user in c.users)
  {
    WindowEvents(c, st, events);
    ScoresKnown(c, events);
    var scores := Scores(events);
    ScoresListed(scores);
    SortedTotals(work.guildDeltas, scores, ByGuild);
    hide BatchSucceeds, Scores, Entries, SortByKey, Window;
    forall x | x in SortByKey(work.guildDeltas) ensures exists p :: p in scores && p.guild == x.key {
      assert x.key in KeysOf(scores, ByGuild);
    }
    if forall e :: e in work.histories ==> e.guild in c.guilds && e.user in c.users {
      forall p | p in scores ensures KnownScore(c, p) {
        assert EntryOf(p, ByGuild) in work.histories;
      }
    }
  }

  lemma WrittenIsEach(c: Setup, st: Store, events: seq<Event>, work: Work, now: nat)
    requires IsWork(c, st, events, work) && BatchSucceeds(c, st)
    ensures forall i :: i in work.ids ==> i in st.db.events
    ensures Written(st, work, now) == AfterEach(c, st, work.ids, now)
    ensures work.ids == [] ==>
              Written(st, work, now) ==
                  st.(userZ := AddDeltas(st.userZ, work.userDeltas), guildZ := AddDeltas(st.guildZ, work.guildDeltas))
  {
    hide AddDeltas, AddEach;
    var scores := Scores(events);
    WindowEvents(c, st, events);
    SortedTotals(work.guildDeltas, scores, ByGuild);
    BatchIsOneByOne(st.db.guildScores, SortByKey(work.guildDeltas), scores, scores, ByGuild);
    BatchIsOneByOne(st.guildZ, work.guildDeltas, scores, scores, ByGuild);
    BatchIsOneByOne(st.userZ, work.userDeltas, scores, scores, ByUser);
    IdsIn(events);
    GoodListed(c, st, events);
    EachIsBatch(c, st, Good(events), now);
    GoodScores(events);
    if work.ids == [] {
      ScoresKnown(c, events);
      assert scores == [] && work.histories == [];
      assert Mark(st.db.events, Elems(work.ids), now) == st.db.events;
      NoDeltas(st.db.guildScores, work.guildDeltas, scores);
    }
  }

  lemma NoDeltas(table: map<int, int>, deltas: seq<Delta>, scores: seq<Score>)
    requires scores == [] && AreTotals(deltas, scores, ByGuild)
    ensures AddDeltas(table, SortByKey(deltas)) == table
  {
    assert forall i :: 0 <= i < |deltas| ==> deltas[i].key in KeysIn(deltas);
  }

  lemma {:induction false} GoodScores(events: seq<Event>)
    ensures Scores(Good(events)) == Scores(events)
  {
    if events != [] {
      var front, last := events[..|events| - 1], events[|events| - 1];
      GoodScores(front);
      assert front + [last] == events;
      if Decodable(last.content) {
        OneMoreGood(front, last);
        OneMoreGood(Good(front), last);
        assert Good(events) == Good(front) + [last];
      } else {
        OneMoreBad(front, last);
      }
    }
  }

  lemma {:induction false} GoodListed(c: Setup, st: Store, events: seq<Event>)
    requires Listed(st.db.events, events)
    requires forall n :: 0 <= n < |events| && Decodable(events[n].content) ==> Applies(c, events[n].content)
    ensures Listed(st.db.events, Good(events))
    ensures forall n :: 0 <= n < |Good(events)| ==> Applies(c, Good(events)[n].content)
  {
    if events != [] {
      GoodListed(c, st, events[..|events| - 1]);
    }
  }

  lemma {:induction false} GoodCount(c: Setup, rows: map<nat, Row>, events: seq<Event>)
    requires Listed(rows, events)
    requires forall n :: 0 <= n < |events| && Decodable(events[n].content) ==> Applies(c, events[n].content)
    ensures forall i :: i in Ids(events) ==> i in rows
    ensures |Good(events)| == CountFine(c, rows, Ids(events))
  {
    if events != [] {
      var front, last := events[..|events| - 1], events[|events| - 1];
      GoodCount(c, rows, front);
      assert Ids(events) == Ids(front) + [last.id] && front + [last] == events;
      assert Ids(events)[..|events| - 1] == Ids(front);
      if Decodable(last.content) {
        OneMoreGood(front, last);
      } else {
        OneMoreBad(front, last);
      }
    }
  }

  lemma BatchOutcome(c: Setup, st: Store, events: seq<Event>, work: Work, now: nat)
    requires IsWork(c, st, events, work)
    ensures forall e :: e in work.histories ==> e.GuildEntry?
    ensures BatchSucceeds(c, st) <==>
            (forall x :: x in SortByKey(work.guildDeltas) ==> x.key in c.guilds)
            && (forall e :: e in work.histories ==> e.guild in c.guilds && e.user in c.users)
    ensures work.ids == [] ==> BatchSucceeds(c, st)
    ensures |events| == |Window(c, st)|
    ensures BatchSucceeds(c, st) ==> |work.ids| == CountFine(c, st.db.events, Window(c, st))
    ensures forall i :: i in work.ids || i in Ids(Bad(events)) ==> i in st.db.events
    ensures forall i :: i in Ids(Bad(events)) ==> !Decodable(st.db.events[i].content)
    ensures BatchSucceeds(c, st) ==>
              && Written(st, work, now) == AfterEach(c, st, work.ids, now)
              && (work.ids == [] ==>
                    Written(st, work, now) ==
                      st.(userZ := AddDeltas(st.userZ, work.userDeltas),
                          guildZ := AddDeltas(st.guildZ, work.guildDeltas)))
              && AfterEach(c, AfterEach(c, st, work.ids, now), Ids(Bad(events)), now) ==
                   AfterEach(c, st, Window(c, st), now)
  {
    StatementsSucceed(c, st, events, work);
    WindowEvents(c, st, events);
    IdsIn(events);
    BadDoNotApply(c, st, events);
    ScoresKnown(c, events);
    hide AfterEach, Written, Good, Bad, Entries, Scores, SortByKey;
    if BatchSucceeds(c, st) {
      WrittenIsEach(c, st, events, work, now);
      GoodThenBad(c, st, events, now);
      GoodCount(c, st.db.events, events);
    }
  }
}
