/** A SyncAll that nothing interrupts, in whatever state it starts, and what can go wrong after or during it. */
module PipelineSyncAll {
  import opened Domain
  import opened Tally
  import opened Tables
  import opened Pipeline
  import opened PipelineTables
  import opened PipelineRedis
  import opened PipelineSafety
  import opened PipelinePaths
  import opened PipelineExcess
  import opened PipelineCatchUp
  import opened PipelineRebuild
  import PipelineReports

  // ----- its steps, one row after the other

  function News(table: map<int, int>, sets: set<int>): map<int, int> {
    map k | k in sets :: Get(table, k)
  }

  function EventsIn(log: Log, d: Dim, sets: set<int>): set<nat> {
    set i | i in log && Decodable(log[i]) && Key(Decode(log[i]).score, d) in sets
  }

  /** A ledger after the rows `sets` were SET from one snapshot. */
  function Reset(l: Ledger, log: Log, d: Dim, sets: set<int>, table: map<int, int>, seen: set<nat>): Ledger {
    var own, news := EventsIn(log, d, sets), News(table, sets);
    Ledger(l.z + news, l.base + news, l.settled - own + seen * own, l.reflected - own, l.grounded + sets)
  }

  lemma ResetNone(l: Ledger, log: Log, d: Dim, table: map<int, int>, seen: set<nat>)
    ensures Reset(l, log, d, {}, table, seen) == l
  {
    assert EventsIn(log, d, {}) == {} && News(table, {}) == map[];
  }

  lemma ResetMore(l: Ledger, log: Log, d: Dim, sets: set<int>, table: map<int, int>, seen: set<nat>, k: int)
    ensures Overwrite(Reset(l, log, d, sets, table, seen), log, d, k, Get(table, k), seen)
            == Reset(l, log, d, sets + {k}, table, seen)
  {
    assert EventsIn(log, d, sets + {k}) == EventsIn(log, d, sets) + EventsFor(log, d, k);
    hide EventsIn, EventsFor;
    assert News(table, sets + {k}) == News(table, sets)[k := Get(table, k)];
    hide News, Get;
    OneMore(l.z, News(table, sets), k, Get(table, k));
    OneMore(l.base, News(table, sets), k, Get(table, k));
    TwoOwn(l.settled, l.reflected, seen, EventsIn(log, d, sets), EventsFor(log, d, k));
  }

  lemma OneMore(z: map<int, int>, news: map<int, int>, k: int, v: int)
    ensures (z + news)[k := v] == z + news[k := v]
  {
  }

  lemma TwoOwn(settled: set<nat>, reflected: set<nat>, seen: set<nat>, a: set<nat>, b: set<nat>)
    ensures (settled - a + seen * a) - b + seen * b == settled - (a + b) + seen * (a + b)
    ensures reflected - a - b == reflected - (a + b)
  {
  }

  /** SyncAll y after its snapshot in s, with some rows tried, and of those `guildSets` and `userSets` SET. */
  function Midway(s: State, y: nat, guildTodo: set<int>, userTodo: set<int>, guildSets: set<int>, userSets: set<int>,
                  failed: bool): State
  {
    s.(users := Reset(s.users, s.log, ByUser, userSets, s.db.userPoints, ReadableIds(s.log)),
       guilds := Reset(s.guilds, s.log, ByGuild, guildSets, s.db.guildScores, s.done),
       syncs := s.syncs[y := Sync(Snap(s.db.userPoints, ReadableIds(s.log), userTodo),
                                  Snap(s.db.guildScores, s.done, guildTodo), failed, false)])
  }

  predicate CanRebuild(s: State, userSets: set<int>, guildSets: set<int>, marked: bool) {
    && userSets <= s.db.userPoints.Keys && guildSets <= s.db.guildScores.Keys
    && (marked ==> userSets == s.db.userPoints.Keys && guildSets == s.db.guildScores.Keys)
  }

  /** The SETs that succeeded, and the sentinel if all of them and its own SET did. */
  function Rebuilt(s: State, userSets: set<int>, guildSets: set<int>, marked: bool): State {
    s.(users := Reset(s.users, s.log, ByUser, userSets, s.db.userPoints, ReadableIds(s.log)),
       guilds := Reset(s.guilds, s.log, ByGuild, guildSets, s.db.guildScores, s.done),
       sentinel := s.sentinel || marked, hollow := s.hollow && !marked)
  }

  lemma StartIsMidway(c: Config, s: State, y: nat)
    requires y !in s.syncs
    ensures Enabled(c, s, SyncStart(y))
    ensures Next(c, s, SyncStart(y)) == Midway(s, y, s.db.guildScores.Keys, s.db.userPoints.Keys, {}, {}, false)
  {
    ResetNone(s.users, s.log, ByUser, s.db.userPoints, ReadableIds(s.log));
    ResetNone(s.guilds, s.log, ByGuild, s.db.guildScores, s.done);
    hide Reset;
  }

  lemma TryGuild(c: Config, s: State, y: nat, guildTodo: set<int>, guildSets: set<int>, failed: bool, k: int, ok: bool)
    requires k in guildTodo
    ensures var t := Midway(s, y, guildTodo, s.db.userPoints.Keys, guildSets, {}, failed);
            var step := SyncSet(y, ByGuild, k, ok, ok);
            && Enabled(c, t, step)
            && Next(c, t, step) == Midway(s, y, guildTodo - {k}, s.db.userPoints.Keys,
                                          if ok then guildSets + {k} else guildSets, {}, failed || !ok)
  {
    ResetMore(s.guilds, s.log, ByGuild, guildSets, s.db.guildScores, s.done, k);
    hide Reset, Overwrite;
  }

  lemma TryUser(c: Config, s: State, y: nat, userTodo: set<int>, guildSets: set<int>, userSets: set<int>,
                failed: bool, k: int, ok: bool)
    requires k in userTodo
    ensures var t, step := Midway(s, y, {}, userTodo, guildSets, userSets, failed), SyncSet(y, ByUser, k, ok, ok);
            && Enabled(c, t, step)
            && Next(c, t, step) == Midway(s, y, {}, userTodo - {k}, guildSets,
                                          if ok then userSets + {k} else userSets, failed || !ok)
  {
    ResetMore(s.users, s.log, ByUser, userSets, s.db.userPoints, ReadableIds(s.log), k);
    hide Reset, Overwrite;
  }

  lemma NoneTried(all: set<int>, todo: set<int>)
    requires todo <= all && all - todo == {}
    ensures todo == all
  {
    forall k | k in all ensures k in todo {
      assert k !in all - todo;
    }
  }

  lemma {:induction false} GuildsTried(c: Config, s: State, y: nat, todo: set<int>, sets: set<int>)
    requires y !in s.syncs && todo <= s.db.guildScores.Keys && sets <= s.db.guildScores.Keys
    ensures var tried := s.db.guildScores.Keys - todo;
            Leads(c, s, Midway(s, y, todo, s.db.userPoints.Keys, tried * sets, {}, !(tried <= sets)), {})
    decreases s.db.guildScores.Keys - todo
  {
    hide Leads, Enabled, Next, Midway;
    var tried := s.db.guildScores.Keys - todo;
    if tried == {} {
      LeadsNowhere(c, s, {});
      StartIsMidway(c, s, y);
      LeadsOn(c, s, s, {}, SyncStart(y));
      NoneTried(s.db.guildScores.Keys, todo);
      assert tried * sets == {};
    } else {
      SomeMember(tried);
      var k :| k in tried;
      var todo', tried' := todo + {k}, tried - {k};
      assert tried' == s.db.guildScores.Keys - todo';
      GuildsTried(c, s, y, todo', sets);
      var t := Midway(s, y, todo', s.db.userPoints.Keys, tried' * sets, {}, !(tried' <= sets));
      TryGuild(c, s, y, todo', tried' * sets, !(tried' <= sets), k, k in sets);
      LeadsOn(c, s, t, {}, SyncSet(y, ByGuild, k, k in sets, k in sets));
      assert tried == tried' + {k} && todo' - {k} == todo;
      assert tried * sets == if k in sets then tried' * sets + {k} else tried' * sets;
    }
  }

  lemma {:induction false} UsersTried(c: Config, s: State, y: nat, todo: set<int>, guildSets: set<int>, sets: set<int>)
    requires y !in s.syncs && todo <= s.db.userPoints.Keys && sets <= s.db.userPoints.Keys
             && guildSets <= s.db.guildScores.Keys
    ensures var tried := s.db.userPoints.Keys - todo;
            var failed := !(s.db.guildScores.Keys <= guildSets && tried <= sets);
            Leads(c, s, Midway(s, y, {}, todo, guildSets, tried * sets, failed), {})
    decreases s.db.userPoints.Keys - todo
  {
    hide Leads, Enabled, Next, Midway;
    var tried := s.db.userPoints.Keys - todo;
    if tried == {} {
      GuildsTried(c, s, y, {}, guildSets);
      NoneTried(s.db.userPoints.Keys, todo);
      assert tried * sets == {};
      assert s.db.guildScores.Keys - {} == s.db.guildScores.Keys && s.db.guildScores.Keys * guildSets == guildSets;
    } else {
      SomeMember(tried);
      var k :| k in tried;
      var todo', tried' := todo + {k}, tried - {k};
      var failed := !(s.db.guildScores.Keys <= guildSets && tried' <= sets);
      assert tried' == s.db.userPoints.Keys - todo';
      UsersTried(c, s, y, todo', guildSets, sets);
      var t := Midway(s, y, {}, todo', guildSets, tried' * sets, failed);
      TryUser(c, s, y, todo', guildSets, tried' * sets, failed, k, k in sets);
      LeadsOn(c, s, t, {}, SyncSet(y, ByUser, k, k in sets, k in sets));
      assert tried == tried' + {k} && todo' - {k} == todo;
      assert tried * sets == if k in sets then tried' * sets + {k} else tried' * sets;
    }
  }

  lemma EndOfSync(c: Config, s: State, y: nat, userSets: set<int>, guildSets: set<int>, marked: bool, failed: bool)
    requires y !in s.syncs && (marked ==> !failed)
    ensures var t := Midway(s, y, {}, {}, guildSets, userSets, failed);
            var step := if marked then SyncEnd(y, true) else SyncStop(y);
            Enabled(c, t, step) && Next(c, t, step) == Rebuilt(s, userSets, guildSets, marked)
  {
    hide Reset;
    var t := Midway(s, y, {}, {}, guildSets, userSets, failed);
    assert t.syncs - {y} == s.syncs;
  }

  /** The steps of one SyncAll, taken one after the other, are the rebuild. */
  lemma SyncAllSteps(c: Config, s: State, y: nat, userSets: set<int>, guildSets: set<int>, marked: bool)
    requires y !in s.syncs && CanRebuild(s, userSets, guildSets, marked)
    ensures Leads(c, s, Rebuilt(s, userSets, guildSets, marked), {})
  {
    hide Leads, Enabled, Next, Midway, Rebuilt;
    var failed := !(s.db.guildScores.Keys <= guildSets && s.db.userPoints.Keys <= userSets);
    UsersTried(c, s, y, {}, guildSets, userSets);
    assert s.db.userPoints.Keys - {} == s.db.userPoints.Keys && s.db.userPoints.Keys * userSets == userSets;
    EndOfSync(c, s, y, userSets, guildSets, marked, failed);
    var step := if marked then SyncEnd(y, true) else SyncStop(y);
    LeadsOn(c, s, Midway(s, y, {}, {}, guildSets, userSets, failed), {}, step);
  }

  lemma FreeSync(s: State) returns (y: nat)
    ensures y !in s.syncs
  {
    y := FreeId(s.syncs.Keys);
  }

  lemma {:induction false} FreeId(taken: set<nat>) returns (y: nat)
    ensures forall x: nat :: x in taken ==> x < y
    decreases taken
  {
    if taken == {} {
      return 0;
    }
    var x :| x in taken;
    var z := FreeId(taken - {x});
    assert forall i :: i in taken ==> i == x || i in taken - {x};
    y := if z <= x then x + 1 else z;
  }

  lemma RebuiltReachable(c: Config, s: State, userSets: set<int>, guildSets: set<int>, marked: bool)
    requires Reachable(c, s) && CanRebuild(s, userSets, guildSets, marked)
    ensures Reachable(c, Rebuilt(s, userSets, guildSets, marked))
  {
    hide Reachable, Leads, Rebuilt;
    var y := FreeSync(s);
    SyncAllSteps(c, s, y, userSets, guildSets, marked);
    LeadsReaches(c, s, Rebuilt(s, userSets, guildSets, marked), {});
  }

  // ----- what it leaves

  /** A rebuild that returns nil, in any state: both rankings are MySQL's, and no event is lost to either. */
  lemma FullRebuild(c: Config, s: State, userSets: set<int>, guildSets: set<int>, d: Dim)
    requires Reachable(c, s) && CanRebuild(s, userSets, guildSets, true)
    ensures var t := Rebuilt(s, userSets, guildSets, true);
            && Reachable(c, t) && t.sentinel && !t.hollow && t.db == s.db && Lost(t, d) == {}
            && forall k :: Get(LedgerOf(t, d).z, k) == Get(TableOf(s, d), k)
  {
    RebuiltReachable(c, s, userSets, guildSets, true);
    ReachableSound(c, s);
    SoundGives(c, s, d);
    hide Reachable, Sound, Base, InFlight, SyncsOk, WorksApart, Summed, Based, Balanced, Coming, Awaiting, Reset;
    ResetAll(LedgerOf(s, d), TableOf(s, d), Base0(c, d), s.log, Counted(s, d), d);
  }

  lemma ResetAll(l: Ledger, table: map<int, int>, base0: map<int, int>, log: Log, counted: set<nat>, d: Dim)
    requires Summed(l, log, d) && Based(l, base0, log, d) && Balanced(table, base0, log, counted, d)
    requires l.reflected <= counted && l.settled <= counted
    ensures var l' := Reset(l, log, d, table.Keys, table, counted);
            l'.settled == counted && forall k :: Get(l'.z, k) == Get(table, k)
  {
    var l' := Reset(l, log, d, table.Keys, table, counted);
    forall i | i in counted ensures i in EventsIn(log, d, table.Keys) {
      assert Readable(log, i);
    }
    hide EventsIn;
    forall k ensures Get(l'.z, k) == Get(table, k) {
      if k !in table {
        SumZero(log, l.reflected, Points(d, k));
        SumZero(log, l.settled, Points(d, k));
      }
    }
  }

  /** A rebuild that fails part-way raises no sentinel, and what it did SET is right. */
  lemma PartialRebuild(c: Config, s: State, userSets: set<int>, guildSets: set<int>, d: Dim, k: int)
    requires Reachable(c, s) && CanRebuild(s, userSets, guildSets, false)
    ensures var t := Rebuilt(s, userSets, guildSets, false);
            && Reachable(c, t) && t.sentinel == s.sentinel && t.db == s.db
            && (if k in (if d.ByUser? then userSets else guildSets)
                then Get(LedgerOf(t, d).z, k) == Get(TableOf(s, d), k)
                else Get(LedgerOf(t, d).z, k) == Get(LedgerOf(s, d).z, k))
  {
    RebuiltReachable(c, s, userSets, guildSets, false);
  }

  // ----- what may come of it later

  lemma RebuiltParts(c: Config, s: State, userSets: set<int>, guildSets: set<int>, marked: bool, d: Dim, k: int)
    ensures var t := Rebuilt(s, userSets, guildSets, marked);
            && t.log == s.log && Counted(t, d) == Counted(s, d) && Coming(c, t) == Coming(c, s)
            && TableOf(t, d) == TableOf(s, d)
            && (k in (if d.ByUser? then userSets else guildSets) ==> Get(LedgerOf(t, d).z, k) == Get(TableOf(s, d), k))
  {
    hide InFlight, EventsIn;
  }

  /**
   * After an uninterrupted rebuild Redis can come to show more than MySQL for a row it SET exactly if an
   * event of that row with points was counted and could still reach Redis when it ran.  (A row that is
   * negative in MySQL is exceeded as soon as Redis is emptied.)
   */
  lemma WhenRebuiltExceeds(c: Config, s: State, userSets: set<int>, guildSets: set<int>, marked: bool, d: Dim, k: int)
    requires Reachable(c, s) && CanRebuild(s, userSets, guildSets, marked)
    requires k in if d.ByUser? then userSets else guildSets
    ensures CanShowMore(c, Rebuilt(s, userSets, guildSets, marked), d, k)
            <==> CountedAndComing(c, s, d, k) || Get(TableOf(s, d), k) < 0
  {
    RebuiltReachable(c, s, userSets, guildSets, marked);
    RebuiltParts(c, s, userSets, guildSets, marked, d, k);
    ReachableSound(c, s);
    SoundGives(c, s, d);
    WorthNonNegative(c, s, d, k);
    hide Reachable, Sound, Base, CanShowMore, Coming, Rebuilt, LedgerOk, Balanced;
    WhenRedisExceeds(c, Rebuilt(s, userSets, guildSets, marked), d, k);
    SumPositive(s.log, Counted(s, d) * Coming(c, s), Points(d, k));
  }

  /** Run in a quiet state, as it is meant to be, a rebuild is never exceeded. */
  lemma QuietRebuildHolds(c: Config, s: State, userSets: set<int>, guildSets: set<int>, marked: bool, d: Dim, k: int)
    requires Reachable(c, s) && CanRebuild(s, userSets, guildSets, marked) && Quiescent(c, s)
    requires k in if d.ByUser? then userSets else guildSets
    ensures CanShowMore(c, Rebuilt(s, userSets, guildSets, marked), d, k) <==> Get(TableOf(s, d), k) < 0
  {
    assert Coming(c, s) == {};
    WhenRebuiltExceeds(c, s, userSets, guildSets, marked, d, k);
  }

  /** How far it can go: the sentinel stands, and every counted event that was still to come is there twice. */
  lemma BusyRebuildExceeds(c: Config, s: State, d: Dim, k: int) returns (t: State)
    requires Reachable(c, s)
    ensures Reachable(c, t) && t.sentinel && !t.hollow
    ensures k in TableOf(s, d) ==>
              Get(LedgerOf(t, d).z, k) - Get(TableOf(t, d), k) == Sum(s.log, Counted(s, d) * Coming(c, s), Points(d, k))
  {
    hide Reachable, Sound, Rebuilt, Leads, Coming;
    var users, guilds := s.db.userPoints.Keys, s.db.guildScores.Keys;
    RebuiltReachable(c, s, users, guilds, true);
    RebuiltParts(c, s, users, guilds, true, d, k);
    var r := Rebuilt(s, users, guilds, true);
    ReachableSound(c, r);
    t := ReachPeak(c, r, {}, d, k);
    LeadsReaches(c, r, t, {});
    RebuiltSentinel(s, users, guilds);
  }

  lemma RebuiltSentinel(s: State, userSets: set<int>, guildSets: set<int>)
    ensures Rebuilt(s, userSets, guildSets, true).sentinel && !Rebuilt(s, userSets, guildSets, true).hollow
  {
  }

  /** So one request that commits before a rebuild and is processed after it leaves its user with too much. */
  lemma OneRequestCountsTwice(c: Config, points: int) returns (t: State)
    requires 1 <= c.maxRetry && 1 <= c.batchSize && 1 <= c.procs && IsValidScore(points)
    ensures Reachable(c, t) && t.sentinel && !t.hollow && Get(t.users.z, 0) == Get(t.db.userPoints, 0) + points
  {
    hide Reachable;
    var score := Score(0, 0, points);
    var s0 := PipelineReports.Blank(c, 0, map[]);
    StartReaches(c, s0);
    StepReaches(c, s0, ReqPrepare(0, score));
    var s1 := PipelineReports.Blank(c, 1, map[0 := Request(score, 0, Get(c.users0, 0) + points)]);
    assert Next(c, s0, ReqPrepare(0, score)) == s1;
    StepReaches(c, s1, ReqCommit(0));
    var s2 := Requested(s1, 0);
    assert Next(c, s1, ReqCommit(0)) == s2;
    OneEventComing(c, s2, points);
    hide Next, Enabled, Requested, Coming;
    t := BusyRebuildExceeds(c, s2, ByUser, 0);
  }

  lemma OneEventComing(c: Config, s: State, points: int)
    requires 1 <= c.maxRetry && 1 <= c.batchSize && 1 <= c.procs && s.agents == map[]
    requires var content := Content(RANKING_SCORE_ADDED, Marshal(Score(0, 0, points)));
             s.log == map[0 := content] && s.db.events == map[0 := Row(content, 0, None)]
    ensures Sum(s.log, Counted(s, ByUser) * Coming(c, s), Points(ByUser, 0)) == points
  {
    assert Counted(s, ByUser) * Coming(c, s) == {0} by {
      assert 0 in Awaiting(c, s) && ReadableIds(s.log) == {0};
    }
    SingleEvent(s.log, 0);
  }

  // ----- Redis emptied while a rebuild runs

  /**
   * A flush after the SETs and before MarkInitialized: the rebuild succeeds, the sentinel stands, and Redis
   * is empty whatever MySQL holds.
   */
  lemma FlushDuringRebuild(c: Config, s: State) returns (t: State)
    requires Reachable(c, s)
    ensures Reachable(c, t) && t.sentinel && t.users.z == t.guilds.z == map[] && t.db == s.db
    ensures t.hollow <==> s.db.userPoints.Keys + s.db.guildScores.Keys != {}
  {
    hide Reachable, Leads, Midway, Reset;
    var users, guilds := s.db.userPoints.Keys, s.db.guildScores.Keys;
    var y := FreeSync(s);
    UsersTried(c, s, y, {}, guilds, users);
    assert users - {} == users && users * users == users;
    var m := Midway(s, y, {}, {}, guilds, users, false);
    LeadsReaches(c, s, m, {});
    MidwayEnds(c, s, y, m);
    hide Enabled, Next;
    StepReaches(c, m, Flush);
    StepReaches(c, Next(c, m, Flush), SyncEnd(y, true));
    t := Next(c, Next(c, m, Flush), SyncEnd(y, true));
  }

  lemma MidwayEnds(c: Config, s: State, y: nat, m: State)
    requires m == Midway(s, y, {}, {}, s.db.guildScores.Keys, s.db.userPoints.Keys, false)
    ensures Enabled(c, m, Flush) && Enabled(c, Next(c, m, Flush), SyncEnd(y, true))
    ensures var t := Next(c, Next(c, m, Flush), SyncEnd(y, true));
            && t.sentinel && t.users.z == t.guilds.z == map[] && t.db == s.db
            && (t.hollow <==> s.db.userPoints.Keys + s.db.guildScores.Keys != {})
  {
    hide Reset, Midway;
    NextFlush(c, m);
    MidwayIs(s, y, m);
    hide Next;
    var f := Flushed(m);
    EndIs(c, f, y);
    assert f.syncs[y] == m.syncs[y].(torn := HasTried(m.syncs[y]));
  }

  lemma EndIs(c: Config, s: State, y: nat)
    requires CanEnd(s, y)
    ensures Enabled(c, s, SyncEnd(y, true)) && Next(c, s, SyncEnd(y, true)) == Ended(s, y, true)
  {
  }

  lemma MidwayIs(s: State, y: nat, m: State)
    requires m == Midway(s, y, {}, {}, s.db.guildScores.Keys, s.db.userPoints.Keys, false)
    ensures y in m.syncs && m.db == s.db && m.syncs[y].users.todo == m.syncs[y].guilds.todo == {}
    ensures m.syncs[y].users.table == s.db.userPoints && m.syncs[y].guilds.table == s.db.guildScores
    ensures !m.syncs[y].failed && !m.syncs[y].torn
  {
    hide Reset;
  }

  /** Row k was SET, and Redis has not been emptied since. */
  ghost predicate SetSinceFlush(steps: seq<Step>, n: nat, d: Dim, k: int)
    requires n <= |steps|
  {
    exists m :: 0 <= m < n && IsSet(steps[m], d, k) && forall j :: m < j < n ==> !steps[j].Flush?
  }

  predicate IsSet(step: Step, d: Dim, k: int) {
    step.SyncSet? && step.lands && step.d == d && step.k == k
  }

  /** How one step changes which rows are grounded. */
  lemma GroundStep(c: Config, s: State, step: Step, d: Dim, k: int)
    requires Enabled(c, s, step)
    ensures k in LedgerOf(Next(c, s, step), d).grounded <==>
              IsSet(step, d, k) || (k in LedgerOf(s, d).grounded && !step.Flush?)
  {
    hide Bump, Get, Park, InFlight, EventsFor;
    if step.SyncSet? || step.Flush? {
    } else if step.Reflect? {
      assert Next(c, s, step) == Reflected(s, step.a, step.userHits, step.guildHits);
    } else {
      hide Enabled, Next;
      LedgersStay(c, s, step);
    }
  }

  /**
   * Exactly when Redis has MySQL's starting value of a row, so that the sentinel promises no more than it
   * should: when the row was SET after the last flush.
   */
  lemma {:induction false} GroundedIffSet(c: Config, states: seq<State>, steps: seq<Step>, n: nat, d: Dim, k: int)
    requires IsRun(c, states, steps) && n <= |steps|
    ensures k in LedgerOf(states[n], d).grounded <==> SetSinceFlush(steps, n, d, k)
  {
    hide Enabled, Next;
    if n > 0 {
      GroundedIffSet(c, states, steps, n - 1, d, k);
      GroundStep(c, states[n - 1], steps[n - 1], d, k);
      var step := steps[n - 1];
      if IsSet(step, d, k) {
        assert 0 <= n - 1 < n && IsSet(steps[n - 1], d, k);
      } else if SetSinceFlush(steps, n - 1, d, k) && !step.Flush? {
        var m :| 0 <= m < n - 1 && IsSet(steps[m], d, k) && forall j :: m < j < n - 1 ==> !steps[j].Flush?;
        assert IsSet(steps[m], d, k) && forall j :: m < j < n ==> !steps[j].Flush?;
      }
      if SetSinceFlush(steps, n, d, k) && !IsSet(step, d, k) {
        var m :| 0 <= m < n && IsSet(steps[m], d, k) && forall j :: m < j < n ==> !steps[j].Flush?;
        assert m != n - 1;
        assert SetSinceFlush(steps, n - 1, d, k);
      }
    }
  }
}
