/**
 * What every step keeps about Redis: each ZSet is what rebuilds SET plus each reflected event once, what
 * they SET is what MySQL counted at their snapshot, and no event is reflected before its commit or sent
 * twice.  Rebuilds may run at any time and in any number.
 */
module PipelineRedis {
  import opened Domain
  import opened Tally
  import opened Tables
  import opened Pipeline
  import opened PipelineTables

  /** Committed works are disjoint: an event waits for Redis in one goroutine at most. */
  ghost predicate WorksApart(agents: map<Aid, Agent>) {
    forall a, b, i ::
      (a in agents && b in agents && agents[a].Reflecting? && agents[b].Reflecting?
       && i in agents[a].work && i in agents[b].work) ==> a == b
  }

  ghost predicate Summed(l: Ledger, log: Log, d: Dim) {
    forall k :: Get(l.z, k) == Get(l.base, k) + Sum(log, l.reflected, Points(d, k))
  }

  /** The part of MySQL's starting value that a base holds. */
  function Ground(l: Ledger, base0: map<int, int>, k: int): int {
    if k in l.grounded then Get(base0, k) else 0
  }

  ghost predicate Based(l: Ledger, base0: map<int, int>, log: Log, d: Dim) {
    forall k :: Get(l.base, k) == Ground(l, base0, k) + Sum(log, l.settled, Points(d, k))
  }

  /** A snapshot is what its table held when it counted the snapshot's events. */
  ghost predicate SnapOk(snap: Snap, base0: map<int, int>, log: Log, counted: set<nat>, d: Dim) {
    Balanced(snap.table, base0, log, snap.events, d) && snap.events <= counted && snap.todo <= snap.table.Keys
  }

  /** What a rebuild has behind it is in Redis, unless a SET failed or Redis was emptied meanwhile. */
  ghost predicate SyncOk(y: Sync, l: Ledger, base0: map<int, int>, log: Log, counted: set<nat>, d: Dim) {
    && SnapOk(SnapOf(y, d), base0, log, counted, d)
    && (!y.torn && !y.failed ==> SnapOf(y, d).table.Keys - SnapOf(y, d).todo <= l.grounded)
  }

  ghost predicate SyncsOk(syncs: map<nat, Sync>, l: Ledger, base0: map<int, int>, log: Log, counted: set<nat>, d: Dim) {
    forall y :: y in syncs ==> SyncOk(syncs[y], l, base0, log, counted, d)
  }

  ghost predicate LedgerOk(c: Config, s: State, d: Dim) {
    var l := LedgerOf(s, d);
    && l.settled <= Counted(s, d) && l.reflected <= s.done && l.reflected !! InFlight(s.agents)
    && Summed(l, s.log, d) && Based(l, Base0(c, d), s.log, d)
    && SyncsOk(s.syncs, l, Base0(c, d), s.log, Counted(s, d), d)
    && (s.sentinel && !s.hollow ==> Base0(c, d).Keys <= l.grounded)
  }

  ghost predicate RedisOk(c: Config, s: State) {
    WorksApart(s.agents) && LedgerOk(c, s, ByUser) && LedgerOk(c, s, ByGuild)
  }

  // ----- what is in flight

  lemma ParkedFlight(agents: map<Aid, Agent>, a: Aid, bad: set<nat>)
    requires WorksApart(agents)
    ensures WorksApart(Park(agents, a, bad))
    ensures (a in agents && agents[a].Reflecting?) ==>
              InFlight(Park(agents, a, bad)) == InFlight(agents) - agents[a].work.Keys
    ensures (a in agents && !agents[a].Reflecting?) ==> InFlight(Park(agents, a, bad)) == InFlight(agents)
  {
    var agents' := Park(agents, a, bad);
    forall b | b in agents && b != a ensures b in agents' && agents'[b] == agents[b] {
    }
  }

  /** An agent that is not reflecting can be put in place of one that was not. */
  lemma PutFlight(agents: map<Aid, Agent>, a: Aid, g: Agent)
    requires WorksApart(agents) && !g.Reflecting? && (a in agents ==> !agents[a].Reflecting?)
    ensures WorksApart(agents[a := g]) && InFlight(agents[a := g]) == InFlight(agents)
  {
    var agents' := agents[a := g];
    forall b | b in agents && b != a ensures b in agents' && agents'[b] == agents[b] {
    }
  }

  lemma TakeOff(agents: map<Aid, Agent>, a: Aid, work: Log, bad: set<nat>)
    requires WorksApart(agents) && a in agents && !agents[a].Reflecting? && work.Keys !! InFlight(agents)
    ensures WorksApart(agents[a := Reflecting(work, bad)])
    ensures InFlight(agents[a := Reflecting(work, bad)]) == InFlight(agents) + work.Keys
  {
    var agents' := agents[a := Reflecting(work, bad)];
    forall b, i | b in agents && b != a && agents[b].Reflecting? && i in agents[b].work
      ensures i in InFlight(agents) && i in InFlight(agents')
    {
      assert agents'[b] == agents[b];
    }
    forall i | i in work ensures i in InFlight(agents') {
      assert agents'[a].Reflecting?;
    }
  }

  lemma FewerFlight(agents: map<Aid, Agent>, agents': map<Aid, Agent>)
    requires WorksApart(agents) && forall a :: a in agents' ==> a in agents && agents'[a] == agents[a]
    ensures WorksApart(agents') && InFlight(agents') <= InFlight(agents)
  {
    forall i | i in InFlight(agents') ensures i in InFlight(agents) {
      var a :| a in agents' && agents'[a].Reflecting? && i in agents'[a].work;
      assert a in agents && agents[a] == agents'[a];
    }
  }

  /** The events a step's commit applies. */
  ghost function Applied(s: State, step: Step): set<nat> {
    if step.Commit? && step.a in s.agents && s.agents[step.a].Open? then Elems(s.agents[step.a].ids) else {}
  }

  /** The events a step sends to Redis. */
  ghost function Sent(s: State, step: Step): set<nat> {
    if step.Reflect? && step.a in s.agents && s.agents[step.a].Reflecting? then s.agents[step.a].work.Keys else {}
  }

  /** What a transaction applies is unprocessed, readable, and not on its way to Redis. */
  lemma HeldAtRest(c: Config, s: State, a: Aid)
    requires Base(c, s) && a in s.agents && s.agents[a].Open?
    ensures var ids := Elems(s.agents[a].ids);
            ids !! s.done && ids !! InFlight(s.agents) && ids == s.agents[a].work.Keys && ids <= ReadableIds(s.log)
    ensures InFlight(s.agents) <= s.done
  {
    hide AllOk, Exclusive, RequestsOk;
    FlownDone(c, s);
    AgentIsOk(c, s, a);
    hide InFlight;
    HeldUncounted(c, s, a);
    assert forall i :: i in s.agents[a].ids ==> i in Held(s.agents[a]) && i in s.agents[a].work;
  }

  lemma FlownDone(c: Config, s: State)
    requires Base(c, s)
    ensures InFlight(s.agents) <= s.done
  {
    hide AllOk, Exclusive, RequestsOk, RowsOk;
    forall a | a in s.agents && s.agents[a].Reflecting? ensures s.agents[a].work.Keys <= s.done {
      AgentIsOk(c, s, a);
    }
  }

  lemma CommittedFlight(c: Config, s: State, a: Aid, ack: bool, now: nat)
    requires Base(c, s) && WorksApart(s.agents) && CanCommit(s, a)
    ensures var agents' := Committed(s, a, ack, now).agents;
            && WorksApart(agents')
            && InFlight(agents') == InFlight(s.agents) + if ack then Elems(s.agents[a].ids) else {}
  {
    HeldAtRest(c, s, a);
    hide Base, InFlight, WorksApart, CommittedDb;
    TakeOff(s.agents, a, s.agents[a].work, s.agents[a].bad);
    ParkedFlight(s.agents, a, {});
  }

  /** Steps that only move one agent on, without COMMIT and without Redis. */
  predicate MovesAgent(step: Step) {
    || step.BatchList? || step.Claim? || step.AddScores? || step.Rollback? || step.RetryUpdate? || step.RetryCommit?
    || step.RetryAbort? || step.RetryGiveUp?
  }

  lemma MoveKeepsFlight(c: Config, s: State, step: Step)
    requires WorksApart(s.agents) && Enabled(c, s, step) && MovesAgent(step)
    ensures WorksApart(Next(c, s, step).agents) && InFlight(Next(c, s, step).agents) == InFlight(s.agents)
  {
    hide Park, WorksApart, InFlight, NewScores, Locked, ListPending;
    match step
    case BatchList(p) => PutFlight(s.agents, Aid(p, 0),
        OpenOn(s.db.events, false, ListPending(s.db, Locked(s), c.batchSize, c.maxRetry)));
    case Claim(a, id) => PutFlight(s.agents, a, OpenOn(s.db.events, true, [id]));
    case AddScores(a) => PutFlight(s.agents, a,
        s.agents[a].(writes := Some(NewScores(s.db.guildScores, s.agents[a].work))));
    case Rollback(a, failed) =>
      ParkedFlight(s.agents, a, if failed then Held(s.agents[a]) else {}); ParkEmpty(s.agents, a);
    case RetryUpdate(a, id) => PutFlight(s.agents, a, Counting(id, s.db.events[id].retry + 1, s.agents[a].bad - {id}));
    case RetryCommit(a, ack) => ParkedFlight(s.agents, a, s.agents[a].rest);
    case RetryAbort(a) => ParkedFlight(s.agents, a, s.agents[a].rest);
    case RetryGiveUp(a, id) => ParkedFlight(s.agents, a, s.agents[a].bad - {id});
  }

  lemma FlownOrCrashed(c: Config, s: State, step: Step)
    requires Base(c, s) && WorksApart(s.agents) && Enabled(c, s, step) && (step.Commit? || step.Reflect? || step.Crash?)
    ensures WorksApart(Next(c, s, step).agents)
    ensures InFlight(Next(c, s, step).agents) <= InFlight(s.agents) - Sent(s, step) + Applied(s, step)
    ensures Applied(s, step) !! s.done && (step.Commit? || Applied(s, step) == {})
  {
    hide Base, Park, WorksApart, InFlight, NewScores, Bump, CommittedDb;
    match step
    case Commit(a, ack, now) => CommittedFlight(c, s, a, ack, now); HeldAtRest(c, s, a);
    case Reflect(a, userHits, guildHits) => ParkedFlight(s.agents, a, s.agents[a].bad);
    case Crash(p) => FewerFlight(s.agents, Crashed(s, p).agents);
  }

  /** What is in flight comes from a commit, and is sent once. */
  lemma StepKeepsFlight(c: Config, s: State, step: Step)
    requires Base(c, s) && WorksApart(s.agents) && Enabled(c, s, step)
    ensures WorksApart(Next(c, s, step).agents)
    ensures InFlight(Next(c, s, step).agents) <= InFlight(s.agents) - Sent(s, step) + Applied(s, step)
    ensures Applied(s, step) !! s.done
  {
    if MovesAgent(step) {
      hide Base, Enabled, Next, InFlight, WorksApart;
      MoveKeepsFlight(c, s, step);
    } else if step.Commit? || step.Reflect? || step.Crash? {
      hide Base, Enabled, Next, InFlight, WorksApart;
      FlownOrCrashed(c, s, step);
    } else {
      hide Base, InFlight, WorksApart, Locked, ListPending, Get, Overwrite;
    }
  }

  // ----- one ledger, one step

  lemma GrownLedger(l: Ledger, base0: map<int, int>, log: Log, d: Dim, id: nat, content: Content)
    requires id !in log && l.reflected + l.settled <= log.Keys
    ensures Summed(l, log, d) ==> Summed(l, log[id := content], d)
    ensures Based(l, base0, log, d) ==> Based(l, base0, log[id := content], d)
  {
    var log' := log[id := content];
    forall k ensures Sum(log', l.reflected, Points(d, k)) == Sum(log, l.reflected, Points(d, k))
             ensures Sum(log', l.settled, Points(d, k)) == Sum(log, l.settled, Points(d, k))
    {
      SumLogGrows(log, id, content, l.reflected, Points(d, k));
      SumLogGrows(log, id, content, l.settled, Points(d, k));
    }
  }

  lemma GrownSyncs(syncs: map<nat, Sync>, l: Ledger, base0: map<int, int>, log: Log, counted: set<nat>,
                   counted': set<nat>,
                   d: Dim, id: nat, content: Content)
    requires SyncsOk(syncs, l, base0, log, counted, d) && id !in log && counted <= counted'
    ensures SyncsOk(syncs, l, base0, log[id := content], counted', d)
  {
    forall y | y in syncs ensures SyncOk(syncs[y], l, base0, log[id := content], counted', d) {
      assert SyncOk(syncs[y], l, base0, log, counted, d);
      var snap := SnapOf(syncs[y], d);
      BalancedLogGrows(snap.table, base0, log, snap.events, d, id, content);
    }
  }

  /** The increment a member received is the sum over the reached events of that member. */
  lemma HitSum(work: Log, log: Log, hits: set<int>, d: Dim, k: int)
    requires CopyOf(work, log)
    ensures Sum(log, There(work, hits, d), Points(d, k)) ==
            if k in hits * Keys(work, work.Keys, d) then Sum(work, work.Keys, Points(d, k)) else 0
  {
    CopySums(work, log, Points(d, k));
    CopyKeys(work, log, d);
    if k in hits {
      forall i | Worth(log, i, Points(d, k)) != 0 ensures i in There(work, hits, d) <==> i in work.Keys {
      }
      SumAgree(log, There(work, hits, d), work.Keys, Points(d, k));
      if k !in Keys(log, work.Keys, d) {
        SumOutside(log, work.Keys, d, k);
      }
    } else {
      SumZero(log, There(work, hits, d), Points(d, k));
    }
  }

  lemma ArrivedLedger(l: Ledger, work: Log, log: Log, hits: set<int>, d: Dim)
    requires Summed(l, log, d) && CopyOf(work, log) && work.Keys !! l.reflected
    ensures Summed(Arrive(l, work, hits, d), log, d)
  {
    var l' := Arrive(l, work, hits, d);
    forall k ensures Get(l'.z, k) == Get(l'.base, k) + Sum(log, l'.reflected, Points(d, k)) {
      HitSum(work, log, hits, d, k);
      if k !in Keys(work, work.Keys, d) {
        SumOutside(work, work.Keys, d, k);
      }
      assert There(work, hits, d) <= work.Keys;
      SumUnion(log, l.reflected, There(work, hits, d), Points(d, k));
    }
  }

  /** A ledger that differs in its score and in what was reflected only. */
  lemma SameBase(syncs: map<nat, Sync>, l: Ledger, l': Ledger, base0: map<int, int>, log: Log, counted: set<nat>,
                 counted': set<nat>, d: Dim)
    requires l'.base == l.base && l'.settled == l.settled && l'.grounded == l.grounded && counted <= counted'
    ensures Based(l, base0, log, d) ==> Based(l', base0, log, d)
    ensures SyncsOk(syncs, l, base0, log, counted, d) ==> SyncsOk(syncs, l', base0, log, counted', d)
  {
    if Based(l, base0, log, d) {
      forall k ensures Get(l'.base, k) == Ground(l', base0, k) + Sum(log, l'.settled, Points(d, k)) {
        assert Ground(l', base0, k) == Ground(l, base0, k);
      }
    }
    if SyncsOk(syncs, l, base0, log, counted, d) {
      forall y | y in syncs ensures SyncOk(syncs[y], l', base0, log, counted', d) {
        assert SyncOk(syncs[y], l, base0, log, counted, d);
      }
    }
  }

  // ----- the rebuild's ZADD

  /** Only the member's own events count for it. */
  lemma OwnWorth(log: Log, d: Dim, k: int, j: int)
    ensures forall i :: Worth(log, i, Points(d, j)) != 0 ==> (i in EventsFor(log, d, k) <==> j == k)
  {
  }

  lemma OverwrittenSummed(l: Ledger, log: Log, d: Dim, k: int, v: int, seen: set<nat>)
    requires Summed(l, log, d)
    ensures Summed(Overwrite(l, log, d, k, v, seen), log, d)
  {
    var l' := Overwrite(l, log, d, k, v, seen);
    forall j ensures Get(l'.z, j) == Get(l'.base, j) + Sum(log, l'.reflected, Points(d, j)) {
      OwnWorth(log, d, k, j);
      hide EventsFor;
      SumAgree(log, l'.reflected, if j == k then {} else l.reflected, Points(d, j));
    }
  }

  lemma OverwrittenBased(l: Ledger, base0: map<int, int>, log: Log, d: Dim, k: int, table: map<int, int>,
                         seen: set<nat>)
    requires Based(l, base0, log, d) && Balanced(table, base0, log, seen, d)
    ensures Based(Overwrite(l, log, d, k, Get(table, k), seen), base0, log, d)
  {
    var l' := Overwrite(l, log, d, k, Get(table, k), seen);
    forall j ensures Get(l'.base, j) == Ground(l', base0, j) + Sum(log, l'.settled, Points(d, j)) {
      OwnWorth(log, d, k, j);
      hide EventsFor;
      SumAgree(log, l'.settled, if j == k then seen else l.settled, Points(d, j));
    }
  }

  lemma OverwrittenSyncs(s: State, y: nat, d: Dim, k: int, lands: bool, acked: bool, base0: map<int, int>, e: Dim)
    requires CanSet(s, y, d, k) && (acked ==> lands)
    requires SyncsOk(s.syncs, LedgerOf(s, e), base0, s.log, Counted(s, e), e)
    ensures var s' := SetRow(s, y, d, k, lands, acked);
            SyncsOk(s'.syncs, LedgerOf(s', e), base0, s'.log, Counted(s', e), e)
  {
    hide Balanced;
    var s' := SetRow(s, y, d, k, lands, acked);
    forall x | x in s'.syncs ensures SyncOk(s'.syncs[x], LedgerOf(s', e), base0, s'.log, Counted(s', e), e) {
      assert SyncOk(s.syncs[x], LedgerOf(s, e), base0, s.log, Counted(s, e), e);
    }
  }

  lemma SetRowRedis(c: Config, s: State, y: nat, d: Dim, k: int, lands: bool, acked: bool, e: Dim)
    requires CanSet(s, y, d, k) && (acked ==> lands) && LedgerOk(c, s, e)
    ensures LedgerOk(c, SetRow(s, y, d, k, lands, acked), e)
  {
    OverwrittenSyncs(s, y, d, k, lands, acked, Base0(c, e), e);
    var snap := SnapOf(s.syncs[y], d);
    SnapInOrder(s, y, LedgerOf(s, d), Base0(c, d), d);
    hide SyncsOk, Summed, Based, Balanced, Overwrite, InFlight, Get;
    if lands && d == e {
      OverwrittenSummed(LedgerOf(s, d), s.log, d, k, Get(snap.table, k), snap.events);
      OverwrittenBased(LedgerOf(s, d), Base0(c, d), s.log, d, k, snap.table, snap.events);
      OverwrittenSets(LedgerOf(s, d), s.log, d, k, Get(snap.table, k), snap.events);
    }
  }

  lemma SnapInOrder(s: State, y: nat, l: Ledger, base0: map<int, int>, d: Dim)
    requires y in s.syncs
    ensures SyncsOk(s.syncs, l, base0, s.log, Counted(s, d), d) ==>
              SnapOk(SnapOf(s.syncs[y], d), base0, s.log, Counted(s, d), d)
  {
  }

  lemma OverwrittenSets(l: Ledger, log: Log, d: Dim, k: int, v: int, seen: set<nat>)
    ensures var l' := Overwrite(l, log, d, k, v, seen);
            l'.settled <= l.settled + seen && l'.reflected <= l.reflected && l.grounded <= l'.grounded
  {
  }

  lemma StartedRedis(c: Config, s: State, y: nat, d: Dim)
    requires TablesOk(c, s) && LedgerOk(c, s, d)
    ensures LedgerOk(c, Started(s, y), d)
  {
    hide Summed, Based, Balanced, InFlight;
    var s', l := Started(s, y), LedgerOf(s, d);
    forall x | x in s'.syncs ensures SyncOk(s'.syncs[x], l, Base0(c, d), s.log, Counted(s, d), d) {
      assert x != y ==> SyncOk(s.syncs[x], l, Base0(c, d), s.log, Counted(s, d), d);
      assert (s'.syncs[y].users.table.Keys - s'.syncs[y].users.todo)
          + (s'.syncs[y].guilds.table.Keys - s'.syncs[y].guilds.todo) == {};
    }
  }

  /** A rebuild that is through, and was not disturbed, has put every starting value into Redis. */
  lemma EndedRedis(c: Config, s: State, y: nat, lands: bool, d: Dim)
    requires CanEnd(s, y) && LedgerOk(c, s, d)
    ensures LedgerOk(c, Ended(s, y, lands), d)
  {
    hide Summed, Based, InFlight;
    var s', snap := Ended(s, y, lands), SnapOf(s.syncs[y], d);
    assert SyncOk(s.syncs[y], LedgerOf(s, d), Base0(c, d), s.log, Counted(s, d), d);
    assert Base0(c, d).Keys <= snap.table.Keys && snap.todo == {};
    assert snap.table.Keys - snap.todo == snap.table.Keys;
  }

  lemma StoppedRedis(c: Config, s: State, y: nat, d: Dim)
    requires LedgerOk(c, s, d)
    ensures LedgerOk(c, s.(syncs := s.syncs - {y}), d)
  {
    hide Summed, Based, InFlight, SyncOk;
  }

  lemma FlushedRedis(c: Config, s: State, d: Dim)
    requires LedgerOk(c, s, d)
    ensures LedgerOk(c, Flushed(s), d)
  {
    hide InFlight, Balanced;
    var s' := Flushed(s);
    forall y | y in s'.syncs ensures SyncOk(s'.syncs[y], LedgerOf(s', d), Base0(c, d), s.log, Counted(s, d), d) {
      assert SyncOk(s.syncs[y], LedgerOf(s, d), Base0(c, d), s.log, Counted(s, d), d);
    }
    forall k ensures Ground(LedgerOf(s', d), Base0(c, d), k) + Sum(s.log, LedgerOf(s', d).settled, Points(d, k)) == 0 {
    }
  }

  // ----- every step

  /** A new event row changes neither ZSet. */
  lemma GrownRedis(c: Config, s: State, d: Dim, id: nat, content: Content, s': State)
    requires Base(c, s) && LedgerOk(c, s, d) && id !in s.log
    requires s'.users == s.users && s'.guilds == s.guilds && s'.sentinel == s.sentinel && s'.hollow == s.hollow
    requires s'.agents == s.agents && s'.done == s.done && s'.log == s.log[id := content] && s'.syncs == s.syncs
    ensures LedgerOk(c, s', d)
  {
    hide AllOk, Exclusive, RequestsOk, InFlight, SyncsOk, Summed, Based;
    var l := LedgerOf(s, d);
    assert Counted(s, d) <= Counted(s', d) && l.reflected + l.settled <= s.log.Keys by {
      assert Counted(s, d) <= ReadableIds(s.log) <= s.log.Keys;
    }
    GrownLedger(l, Base0(c, d), s.log, d, id, content);
    GrownSyncs(s.syncs, l, Base0(c, d), s.log, Counted(s, d), Counted(s', d), d, id, content);
  }

  lemma RequestedRedis(c: Config, s: State, r: nat)
    requires Base(c, s) && r in s.requests && RedisOk(c, s)
    ensures RedisOk(c, Requested(s, r))
  {
    hide LedgerOk, AllOk, Exclusive;
    var q := s.requests[r];
    GrownRedis(c, s, ByUser, q.id, Content(RANKING_SCORE_ADDED, Marshal(q.score)), Requested(s, r));
    GrownRedis(c, s, ByGuild, q.id, Content(RANKING_SCORE_ADDED, Marshal(q.score)), Requested(s, r));
  }

  lemma PoisonedRedis(c: Config, s: State, content: Content)
    requires Base(c, s) && RedisOk(c, s)
    ensures RedisOk(c, Poisoned(s, content))
  {
    hide LedgerOk, AllOk, Exclusive, RequestsOk;
    GrownRedis(c, s, ByUser, s.db.nextId, content, Poisoned(s, content));
    GrownRedis(c, s, ByGuild, s.db.nextId, content, Poisoned(s, content));
  }

  lemma CommittedRedis(c: Config, s: State, a: Aid, ack: bool, now: nat, d: Dim)
    requires Base(c, s) && CanCommit(s, a) && WorksApart(s.agents) && LedgerOk(c, s, d)
    ensures LedgerOk(c, Committed(s, a, ack, now), d)
  {
    hide InFlight, WorksApart, Summed, Based, SyncsOk, CommittedDb;
    var s' := Committed(s, a, ack, now);
    HeldAtRest(c, s, a);
    CommittedFlight(c, s, a, ack, now);
    hide Base;
    SameBase(s.syncs, LedgerOf(s, d), LedgerOf(s', d), Base0(c, d), s.log, Counted(s, d), Counted(s', d), d);
  }

  lemma ReflectedRedis(c: Config, s: State, a: Aid, userHits: set<int>, guildHits: set<int>, d: Dim)
    requires Base(c, s) && CanReflect(s, a) && WorksApart(s.agents) && LedgerOk(c, s, d)
    ensures LedgerOk(c, Reflected(s, a, userHits, guildHits), d)
  {
    hide AllOk, Exclusive, RequestsOk, RowsOk, WorksApart, Summed, Based, SyncsOk;
    var g, l := s.agents[a], LedgerOf(s, d);
    var hits := if d.ByUser? then userHits else guildHits;
    AgentIsOk(c, s, a);
    assert g.work.Keys <= InFlight(s.agents);
    hide InFlight, Bump;
    ParkedFlight(s.agents, a, g.bad);
    ArrivedLedger(l, g.work, s.log, hits, d);
    SameBase(s.syncs, l, Arrive(l, g.work, hits, d), Base0(c, d), s.log, Counted(s, d), Counted(s, d), d);
  }

  /** A step that leaves the log, the marks and Redis alone. */
  lemma UntouchedRedis(c: Config, s: State, s': State)
    requires RedisOk(c, s) && WorksApart(s'.agents) && InFlight(s'.agents) <= InFlight(s.agents)
    requires s'.users == s.users && s'.guilds == s.guilds && s'.log == s.log && s'.done == s.done
    requires s'.syncs == s.syncs && s'.sentinel == s.sentinel && s'.hollow == s.hollow
    ensures RedisOk(c, s')
  {
    hide WorksApart, InFlight, Summed, Based, SyncsOk;
  }

  predicate Rebuilds(step: Step) {
    step.SyncStart? || step.SyncSet? || step.SyncEnd? || step.SyncStop? || step.Flush?
  }

  predicate TouchesRedis(step: Step) {
    step.ReqCommit? || step.PoisonInsert? || step.Commit? || step.Reflect? || Rebuilds(step)
  }

  lemma OthersLeaveRedis(c: Config, s: State, step: Step)
    requires Enabled(c, s, step) && !TouchesRedis(step)
    ensures var s' := Next(c, s, step);
            && s'.users == s.users && s'.guilds == s.guilds && s'.log == s.log && s'.done == s.done
            && s'.syncs == s.syncs && s'.sentinel == s.sentinel && s'.hollow == s.hollow
    ensures Sent(s, step) == Applied(s, step) == {}
  {
    hide OpenOn, ListPending, Park, NewScores, Get, Mark, Locked;
  }

  lemma EventKeepsRedis(c: Config, s: State, step: Step)
    requires Base(c, s) && RedisOk(c, s) && Enabled(c, s, step) && TouchesRedis(step) && !Rebuilds(step)
    requires WorksApart(Next(c, s, step).agents)
    ensures RedisOk(c, Next(c, s, step))
  {
    hide Base, WorksApart, InFlight, Park, Summed, Based, SyncsOk, Get, Bump, CommittedDb;
    match step
    case ReqCommit(r) => RequestedRedis(c, s, r);
    case PoisonInsert(content) => PoisonedRedis(c, s, content);
    case Commit(a, ack, now) => CommittedRedis(c, s, a, ack, now, ByUser); CommittedRedis(c, s, a, ack, now, ByGuild);
    case Reflect(a, userHits, guildHits) =>
      ReflectedRedis(c, s, a, userHits, guildHits, ByUser); ReflectedRedis(c, s, a, userHits, guildHits, ByGuild);
  }

  lemma RebuildKeepsAgents(c: Config, s: State, step: Step)
    requires Enabled(c, s, step) && Rebuilds(step)
    ensures Next(c, s, step).agents == s.agents
  {
  }

  lemma RebuildKeepsRedis(c: Config, s: State, step: Step)
    requires TablesOk(c, s) && RedisOk(c, s) && Enabled(c, s, step) && Rebuilds(step)
    ensures RedisOk(c, Next(c, s, step))
  {
    RebuildKeepsAgents(c, s, step);
    hide TablesOk, WorksApart, LedgerOk, CanSet, CanEnd, SetRow, Started, Ended;
    match step
    case SyncStart(y) => StartedRedis(c, s, y, ByUser); StartedRedis(c, s, y, ByGuild);
    case SyncSet(y, d, k, lands, acked) =>
      SetRowRedis(c, s, y, d, k, lands, acked, ByUser); SetRowRedis(c, s, y, d, k, lands, acked, ByGuild);
    case SyncEnd(y, lands) => EndedRedis(c, s, y, lands, ByUser); EndedRedis(c, s, y, lands, ByGuild);
    case SyncStop(y) => StoppedRedis(c, s, y, ByUser); StoppedRedis(c, s, y, ByGuild);
    case Flush => FlushedRedis(c, s, ByUser); FlushedRedis(c, s, ByGuild);
  }

  lemma StepKeepsRedis(c: Config, s: State, step: Step)
    requires Base(c, s) && TablesOk(c, s) && RedisOk(c, s) && Enabled(c, s, step)
    ensures RedisOk(c, Next(c, s, step))
  {
    assert WorksApart(s.agents);
    hide Base, TablesOk, RedisOk, Enabled, Next, InFlight, WorksApart;
    StepKeepsFlight(c, s, step);
    if Rebuilds(step) {
      RebuildKeepsRedis(c, s, step);
    } else if TouchesRedis(step) {
      EventKeepsRedis(c, s, step);
    } else {
      OthersLeaveRedis(c, s, step);
      UntouchedRedis(c, s, Next(c, s, step));
    }
  }

  lemma InitialRedis(c: Config, s: State)
    requires Initial(c, s)
    ensures RedisOk(c, s)
  {
  }
}
