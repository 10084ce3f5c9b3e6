/** From every reachable state the workers can get every increment that may still come to Redis. */
module PipelineCatchUp {
  import opened Domain
  import opened Tally
  import opened Tables
  import opened Pipeline
  import opened PipelineTables
  import opened PipelineRedis
  import opened PipelineRetry
  import opened PipelineSafety
  import opened PipelinePaths
  import opened PipelineBarren
  import opened PipelineExcess

  const WORKER := Aid(0, 0)

  /** For ranking d nothing was gained or lost from s to t. */
  ghost predicate Alike(c: Config, s: State, t: State, d: Dim) {
    && t.log == s.log && t.sentinel == s.sentinel && t.hollow == s.hollow
    && LedgerOf(t, d).settled == LedgerOf(s, d).settled && LedgerOf(t, d).grounded == LedgerOf(s, d).grounded
    && Gone(c, t, d) == Gone(c, s, d)
  }

  ghost predicate AllAlike(c: Config, s: State, t: State) {
    Alike(c, s, t, ByUser) && Alike(c, s, t, ByGuild)
  }

  /** The workers can take s to t without losing an event. */
  ghost predicate Works(c: Config, s: State, t: State, spared: set<(Dim, int)>) {
    Leads(c, s, t, spared) && Sound(c, t) && AllAlike(c, s, t)
  }

  lemma AlikePeak(c: Config, s: State, t: State, d: Dim, k: int)
    requires Sound(c, s) && Sound(c, t) && Alike(c, s, t, d)
    ensures Peak(c, t, d, k) == Peak(c, s, d, k)
  {
    hide Sound, Peak, Gone;
    PeakIs(c, s, d, k);
    PeakIs(c, t, d, k);
  }

  lemma WorksOn(c: Config, s: State, t: State, spared: set<(Dim, int)>, step: Step)
    requires Works(c, s, t, spared) && Enabled(c, t, step) && !step.SyncSet? && AllAlike(c, t, Next(c, t, step))
    ensures Works(c, s, Next(c, t, step), spared)
  {
    hide Enabled, Next, Sound, Leads, Gone;
    LeadsOn(c, s, t, spared, step);
    StepKeepsSound(c, t, step);
  }

  /** A step that touches neither Redis nor what may still come. */
  lemma SameAlike(c: Config, s: State, t: State)
    requires t.log == s.log && t.done == s.done && t.users == s.users && t.guilds == s.guilds
    requires t.sentinel == s.sentinel && t.hollow == s.hollow
    requires InFlight(t.agents) == InFlight(s.agents) && Awaiting(c, t) == Awaiting(c, s)
    ensures AllAlike(c, s, t)
  {
    hide InFlight, Awaiting;
  }

  // ----- what is in flight arrives

  lemma AllThere(l: Ledger, work: Log, log: Log, d: Dim)
    requires CopyOf(work, log)
    ensures var l' := Arrive(l, work, Keys(work, work.Keys, d), d);
            l'.reflected == l.reflected + work.Keys && l'.settled == l.settled && l'.grounded == l.grounded
  {
    forall i | i in work ensures Decodable(work[i]) {
      assert Readable(log, i);
    }
  }

  /** The Redis pipeline of a runs in full. */
  function InFull(s: State, a: Aid): Step
    requires CanReflect(s, a)
  {
    var work := s.agents[a].work;
    Reflect(a, Keys(work, work.Keys, ByUser), Keys(work, work.Keys, ByGuild))
  }

  /** Events move from in flight to reflected. */
  lemma MovedOn(c: Config, s: State, t: State, d: Dim, work: set<nat>)
    requires t.log == s.log && t.sentinel == s.sentinel && t.hollow == s.hollow && Counted(t, d) == Counted(s, d)
    requires LedgerOf(t, d).settled == LedgerOf(s, d).settled && LedgerOf(t, d).grounded == LedgerOf(s, d).grounded
    requires LedgerOf(t, d).reflected == LedgerOf(s, d).reflected + work && work <= InFlight(s.agents)
    requires InFlight(t.agents) == InFlight(s.agents) - work && t.db == s.db
    ensures Alike(c, s, t, d)
  {
    assert Awaiting(c, t) == Awaiting(c, s);
    hide InFlight, Awaiting;
  }

  lemma WorkFlies(c: Config, s: State, a: Aid)
    requires Sound(c, s) && CanReflect(s, a)
    ensures s.agents[a].work.Keys <= InFlight(s.agents) && CopyOf(s.agents[a].work, s.log) && WorksApart(s.agents)
  {
    AgentIsOk(c, s, a);
  }

  lemma NextInFull(c: Config, s: State, a: Aid)
    requires CanReflect(s, a)
    ensures Enabled(c, s, InFull(s, a))
    ensures Next(c, s, InFull(s, a)) == Reflected(s, a, InFull(s, a).userHits, InFull(s, a).guildHits)
  {
  }

  lemma Arrives(c: Config, s: State, a: Aid)
    requires Sound(c, s) && CanReflect(s, a)
    ensures Enabled(c, s, InFull(s, a))
    ensures var t := Next(c, s, InFull(s, a)); AllAlike(c, s, t) && t.agents == Park(s.agents, a, s.agents[a].bad)
  {
    NextInFull(c, s, a);
    WorkFlies(c, s, a);
    hide Sound, InFlight, Keys, WorksApart, Arrive, Park, CopyOf, Enabled, Next, Alike, Gone;
    var work, t := s.agents[a].work, Next(c, s, InFull(s, a));
    ParkedFlight(s.agents, a, s.agents[a].bad);
    AllThere(s.users, work, s.log, ByUser);
    AllThere(s.guilds, work, s.log, ByGuild);
    MovedOn(c, s, t, ByUser, work.Keys);
    MovedOn(c, s, t, ByGuild, work.Keys);
  }

  function Reflecters(agents: map<Aid, Agent>): set<Aid> {
    set a | a in agents && agents[a].Reflecting?
  }

  lemma ParkedReflecters(agents: map<Aid, Agent>, a: Aid, bad: set<nat>)
    ensures Reflecters(Park(agents, a, bad)) == Reflecters(agents) - {a}
  {
  }

  lemma {:induction false} AllArrive(c: Config, s: State, t: State, spared: set<(Dim, int)>) returns (u: State)
    requires Works(c, s, t, spared)
    ensures Works(c, s, u, spared) && Reflecters(u.agents) == {}
    decreases Reflecters(t.agents)
  {
    if Reflecters(t.agents) == {} {
      return t;
    }
    var a :| a in Reflecters(t.agents);
    WorksGives(c, s, t, spared);
    ParkedReflecters(t.agents, a, t.agents[a].bad);
    hide Works, Sound, AllAlike, Enabled, Next, Park;
    Arrives(c, t, a);
    WorksOn(c, s, t, spared, InFull(t, a));
    u := AllArrive(c, s, Next(c, t, InFull(t, a)), spared);
  }

  lemma WorksGives(c: Config, s: State, t: State, spared: set<(Dim, int)>)
    requires Works(c, s, t, spared)
    ensures Sound(c, t)
  {
  }

  // ----- whoever is left goes down, and what it held is free

  lemma NoneFly(agents: map<Aid, Agent>)
    requires Reflecters(agents) == {}
    ensures InFlight(agents) == {}
  {
    forall a | a in agents ensures !agents[a].Reflecting? {
      assert a !in Reflecters(agents);
    }
  }

  lemma NextCrash(c: Config, s: State, p: nat)
    ensures Enabled(c, s, Crash(p)) && Next(c, s, Crash(p)) == Crashed(s, p)
  {
  }

  lemma Crashes(c: Config, s: State, p: nat)
    requires Reflecters(s.agents) == {}
    ensures AllAlike(c, s, Crashed(s, p)) && Reflecters(Crashed(s, p).agents) == {}
  {
    var t := Crashed(s, p);
    assert Reflecters(t.agents) <= Reflecters(s.agents);
    NoneFly(s.agents);
    NoneFly(t.agents);
    assert Awaiting(c, t) == Awaiting(c, s);
    SameAlike(c, s, t);
  }

  lemma {:induction false} AllCrash(c: Config, s: State, t: State, spared: set<(Dim, int)>) returns (u: State)
    requires Works(c, s, t, spared) && Reflecters(t.agents) == {}
    ensures Works(c, s, u, spared) && u.agents == map[]
    decreases t.agents.Keys
  {
    if t.agents == map[] {
      return t;
    }
    var a :| a in t.agents;
    hide Works, AllAlike, Enabled, Next, Reflecters;
    NextCrash(c, t, a.proc);
    Crashes(c, t, a.proc);
    WorksOn(c, s, t, spared, Crash(a.proc));
    u := AllCrash(c, s, Crashed(t, a.proc), spared);
  }

  // ----- one round: the first process takes the lowest eligible event

  lemma NextPick(c: Config, s: State, id: nat)
    requires CanList(c, s, 0) && s.agents == map[] && id in ListPending(s.db, Locked(s), c.batchSize, c.maxRetry)
    ensures Enabled(c, s, PerEventList(0)) && Next(c, s, PerEventList(0)) == Candidates(c, s, 0)
    ensures Enabled(c, Candidates(c, s, 0), Claim(WORKER, id))
    ensures Next(c, Candidates(c, s, 0), Claim(WORKER, id)) == Claimed(Candidates(c, s, 0), WORKER, id)
  {
    hide ListPending, OpenOn;
  }

  lemma SomeListed(c: Config, s: State) returns (id: nat)
    requires Base(c, s) && s.agents == map[] && Awaiting(c, s) != {}
    ensures id in ListPending(s.db, Locked(s), c.batchSize, c.maxRetry) && Eligible(s.db.events, id, c.maxRetry)
    ensures 1 <= c.procs && 1 <= c.batchSize
  {
    var i :| i in Awaiting(c, s);
    assert Locked(s) == {} && i < s.db.nextId;
    hide Scan;
    var ids := ListPending(s.db, Locked(s), c.batchSize, c.maxRetry);
    assert ids != [];
    id := ids[0];
  }

  /** One goroutine is in a transaction on event id, and nobody else does anything. */
  ghost predicate Alone(c: Config, s: State, id: nat) {
    && id in s.db.events && Eligible(s.db.events, id, c.maxRetry)
    && s.agents == map[WORKER := OpenOn(s.db.events, true, [id])]
  }

  lemma CrashReady(c: Config, s: State)
    requires s.agents == map[] && 1 <= c.procs
    ensures var t := Crashed(s, 0);
            t.agents == map[] && t.db == s.db && CanList(c, t, 0) && Awaiting(c, t) == Awaiting(c, s)
  {
  }

  lemma OpenNotFlying(s: State, g: Agent)
    requires s.agents == map[WORKER := g] && !g.Reflecting?
    ensures InFlight(s.agents) == {}
  {
  }

  lemma PickedAlike(c: Config, s: State, id: nat)
    requires CanList(c, s, 0) && s.agents == map[] && id in ListPending(s.db, Locked(s), c.batchSize, c.maxRetry)
    ensures var t := Candidates(c, s, 0);
            && AllAlike(c, s, t) && CanPop(t, WORKER, id) && AllAlike(c, t, Claimed(t, WORKER, id))
            && Alone(c, Claimed(t, WORKER, id), id) && Claimed(t, WORKER, id).db == s.db
  {
    hide ListPending, OpenOn, Locked;
    var t := Candidates(c, s, 0);
    var u := Claimed(t, WORKER, id);
    assert InFlight(s.agents) == {};
    OpenIsOpen(s.db.events, id);
    OpenNotFlying(u, u.agents[WORKER]);
    assert Awaiting(c, t) == Awaiting(c, s) && Awaiting(c, u) == Awaiting(c, s);
    SameAlike(c, s, t);
    SameAlike(c, t, u);
  }

  lemma OpenIsOpen(events: map<nat, Row>, id: nat)
    requires id in events
    ensures OpenOn(events, true, [id]).Open?
  {
  }

  lemma Picks(c: Config, s: State, t: State, spared: set<(Dim, int)>) returns (u: State, id: nat)
    requires Works(c, s, t, spared) && t.agents == map[] && Awaiting(c, t) != {}
    ensures Works(c, s, u, spared) && Alone(c, u, id) && u.db == t.db
  {
    WorksGives(c, s, t, spared);
    assert 1 <= c.procs;
    CrashReady(c, t);
    assert Reflecters(t.agents) == {};
    Crashes(c, t, 0);
    var t1 := Crashed(t, 0);
    hide Works, AllAlike, Enabled, Next, Sound, Base, CanList, Awaiting, OpenOn, ListPending, Locked;
    NextCrash(c, t, 0);
    WorksOn(c, s, t, spared, Crash(0));
    WorksGives(c, s, t1, spared);
    assert Base(c, t1) by { SoundGives(c, t1, ByUser); }
    id := SomeListed(c, t1);
    NextPick(c, t1, id);
    PickedAlike(c, t1, id);
    WorksOn(c, s, t1, spared, PerEventList(0));
    WorksOn(c, s, Candidates(c, t1, 0), spared, Claim(WORKER, id));
    u := Claimed(Candidates(c, t1, 0), WORKER, id);
  }

  /** s with one goroutine at work. */
  function Doing(s: State, g: Agent): (t: State)
    ensures t.agents == map[WORKER := g] && t.db == s.db && t.log == s.log && t.done == s.done
  {
    s.(agents := map[WORKER := g])
  }

  // ----- a decodable event is applied and reflected

  lemma OpenedOn(events: map<nat, Row>, id: nat)
    requires id in events
    ensures OpenOn(events, true, [id]) ==
            if Decodable(events[id].content) then Open(true, [id], {}, map[id := events[id].content], None)
            else Open(true, [], {id}, map[], None)
  {
    assert [id][1..] == [];
    assert Good(events, [id]) == if Decodable(events[id].content) then [id] else [];
    assert Contents(events, [id]) == map[id := events[id].content];
    assert Contents(events, []) == map[];
  }

  ghost function Adder(s: State, id: nat): Agent
    requires id in s.db.events
  {
    var work := map[id := s.db.events[id].content];
    Open(true, [id], {}, work, Some(NewScores(s.db.guildScores, work)))
  }

  lemma NextAdd(c: Config, s: State, id: nat)
    requires Alone(c, s, id) && Decodable(s.db.events[id].content)
    ensures Enabled(c, s, AddScores(WORKER))
    ensures Next(c, s, AddScores(WORKER)) == Doing(s, Adder(s, id))
    ensures AllAlike(c, s, Next(c, s, AddScores(WORKER)))
  {
    OpenedOn(s.db.events, id);
    hide OpenOn, NewScores;
    var t := Doing(s, Adder(s, id));
    assert Next(c, s, AddScores(WORKER)).agents == t.agents;
    OpenNotFlying(s, s.agents[WORKER]);
    OpenNotFlying(t, Adder(s, id));
    assert Awaiting(c, t) == Awaiting(c, s);
    SameAlike(c, s, t);
  }

  lemma NextCommit(c: Config, s: State, g: Agent, id: nat)
    requires s.agents == map[WORKER := g] && g.Open? && g.single && g.bad == {} && g.ids == [id] && g.writes.Some?
    requires AllReadable(g.work, Elems(g.ids))
    ensures var t := Next(c, s, Commit(WORKER, true, 0));
            && Enabled(c, s, Commit(WORKER, true, 0))
            && t == Committed(s, WORKER, true, 0) && t.agents == map[WORKER := Reflecting(g.work, {})]
            && t.done == s.done + {id} && t.db.events == Mark(s.db.events, {id}, 0)
  {
    hide RowsOf, Mark;
    assert Elems([id]) == {id} by {
      assert id in [id];
    }
  }

  /** A processed event moves from awaited to in flight. */
  lemma CommitAlike(c: Config, s: State, t: State, id: nat)
    requires InFlight(s.agents) == {} && InFlight(t.agents) == {id} && id in Awaiting(c, s)
    requires t.done == s.done + {id} && t.db.events == Mark(s.db.events, {id}, 0) && t.log == s.log
    requires t.users == s.users && t.guilds == s.guilds && t.sentinel == s.sentinel && t.hollow == s.hollow
    ensures AllAlike(c, s, t)
  {
    assert Awaiting(c, t) == Awaiting(c, s) - {id};
    hide InFlight, Awaiting, Mark;
    forall d: Dim ensures Gone(c, t, d) == Gone(c, s, d) {
      assert Counted(t, d) + {id} == Counted(s, d) + {id};
    }
  }

  lemma OneFlies(agents: map<Aid, Agent>, id: nat, content: Content)
    requires agents == map[WORKER := Reflecting(map[id := content], {})]
    ensures InFlight(agents) == {id} && Park(agents, WORKER, {}) == map[]
  {
    assert agents[WORKER].Reflecting? && id in agents[WORKER].work;
  }

  lemma AloneGives(c: Config, s: State, id: nat)
    requires Alone(c, s, id) && Decodable(s.db.events[id].content) && 1 <= c.procs && 1 <= c.batchSize
    ensures id in Awaiting(c, s) && AllReadable(map[id := s.db.events[id].content], Elems([id]))
  {
  }

  lemma Finishes(c: Config, s: State, t: State, spared: set<(Dim, int)>, id: nat) returns (u: State)
    requires Works(c, s, t, spared) && Alone(c, t, id) && Decodable(t.db.events[id].content)
    requires 1 <= c.procs && 1 <= c.batchSize
    ensures Works(c, s, u, spared) && u.agents == map[] && u.db.events == Mark(t.db.events, {id}, 0)
  {
    hide Works, AllAlike, Enabled, Next, Sound, Awaiting, Doing, Mark, OpenOn, AllReadable, NewScores;
    assert id in t.db.events;
    hide Alone, Eligible;
    AloneGives(c, t, id);
    NextAdd(c, t, id);
    var g, content := Adder(t, id), t.db.events[id].content;
    assert g == Open(true, [id], {}, map[id := content], g.writes) && g.writes.Some?;
    hide Adder;
    WorksOn(c, s, t, spared, AddScores(WORKER));
    var t2 := Commits(c, s, t, spared, g, id);
    WorksGives(c, s, t2, spared);
    OneFlies(t2.agents, id, content);
    Arrives(c, t2, WORKER);
    WorksOn(c, s, t2, spared, InFull(t2, WORKER));
    u := Next(c, t2, InFull(t2, WORKER));
    NextInFull(c, t2, WORKER);
  }

  lemma Commits(c: Config, s: State, t: State, spared: set<(Dim, int)>, g: Agent, id: nat) returns (u: State)
    requires Works(c, s, Doing(t, g), spared) && id in Awaiting(c, t)
    requires g.Open? && g.single && g.bad == {} && g.ids == [id] && g.writes.Some?
    requires AllReadable(g.work, Elems(g.ids)) && g.work.Keys == {id}
    ensures Works(c, s, u, spared) && u.agents == map[WORKER := Reflecting(g.work, {})]
    ensures u.db.events == Mark(t.db.events, {id}, 0)
  {
    hide Works, AllAlike, Enabled, Next, Doing, Mark, InFlight, CommittedDb, AllReadable, Park;
    var t1 := Doing(t, g);
    assert id in Awaiting(c, t1);
    hide Awaiting, Eligible;
    OpenNotFlying(t1, g);
    NextCommit(c, t1, g, id);
    u := Next(c, t1, Commit(WORKER, true, 0));
    assert g.work == map[id := g.work[id]];
    OneFlies(u.agents, id, g.work[id]);
    CommitAlike(c, t1, u, id);
    WorksOn(c, s, t1, spared, Commit(WORKER, true, 0));
  }

  // ----- an event that does not decode is retried once more

  lemma NextRollback(c: Config, s: State, id: nat)
    requires Alone(c, s, id) && !Decodable(s.db.events[id].content)
    ensures Enabled(c, s, Rollback(WORKER, true))
    ensures Next(c, s, Rollback(WORKER, true)) == Doing(s, Retrying({id}))
    ensures AllAlike(c, s, Next(c, s, Rollback(WORKER, true)))
  {
    OpenedOn(s.db.events, id);
    hide OpenOn;
    var t := Doing(s, Retrying({id}));
    assert Held(s.agents[WORKER]) == {id};
    assert Next(c, s, Rollback(WORKER, true)).agents == t.agents;
    OpenNotFlying(s, s.agents[WORKER]);
    OpenNotFlying(t, Retrying({id}));
    assert Awaiting(c, t) == Awaiting(c, s);
    SameAlike(c, s, t);
  }

  lemma NextUpdate(c: Config, s: State, id: nat)
    requires s.agents == map[WORKER := Retrying({id})] && id in s.db.events
    ensures var t := Doing(s, Counting(id, s.db.events[id].retry + 1, {}));
            && Enabled(c, s, RetryUpdate(WORKER, id)) && Next(c, s, RetryUpdate(WORKER, id)) == t && AllAlike(c, s, t)
  {
    var t := Doing(s, Counting(id, s.db.events[id].retry + 1, {}));
    assert Locked(s) == {} && {id} - {id} == {};
    assert Next(c, s, RetryUpdate(WORKER, id)).agents == t.agents;
    OpenNotFlying(s, s.agents[WORKER]);
    OpenNotFlying(t, t.agents[WORKER]);
    assert Awaiting(c, t) == Awaiting(c, s);
    SameAlike(c, s, t);
  }

  lemma NextCount(c: Config, s: State, id: nat)
    requires id in s.db.events && s.agents == map[WORKER := Counting(id, s.db.events[id].retry + 1, {})]
    requires !Decodable(s.db.events[id].content)
    ensures var t := RetryCommitted(c, s, WORKER, true);
            && Enabled(c, s, RetryCommit(WORKER, true)) && Next(c, s, RetryCommit(WORKER, true)) == t
            && AllAlike(c, s, t) && t.agents == map[]
            && t.db.events == s.db.events[id := s.db.events[id].(retry := s.db.events[id].retry + 1)]
  {
    var t := RetryCommitted(c, s, WORKER, true);
    OpenNotFlying(s, s.agents[WORKER]);
    assert InFlight(t.agents) == {};
    assert Awaiting(c, t) == Awaiting(c, s);
    SameAlike(c, s, t);
  }

  lemma FailsOnce(c: Config, s: State, t: State, spared: set<(Dim, int)>, id: nat) returns (u: State)
    requires Works(c, s, t, spared) && Alone(c, t, id) && !Decodable(t.db.events[id].content)
    ensures Works(c, s, u, spared) && u.agents == map[]
    ensures u.db.events == t.db.events[id := t.db.events[id].(retry := t.db.events[id].retry + 1)]
  {
    hide Works, AllAlike, Enabled, Next, RetryCommitted, Doing, Decode, OpenOn;
    assert id in t.db.events;
    hide Alone, Eligible;
    NextRollback(c, t, id);
    var r := t.db.events[id].retry + 1;
    WorksOn(c, s, t, spared, Rollback(WORKER, true));
    var t1 := Doing(t, Retrying({id}));
    NextUpdate(c, t1, id);
    WorksOn(c, s, t1, spared, RetryUpdate(WORKER, id));
    var t2 := Doing(t1, Counting(id, r, {}));
    NextCount(c, t2, id);
    WorksOn(c, s, t2, spared, RetryCommit(WORKER, true));
    u := RetryCommitted(c, t2, WORKER, true);
  }

  // ----- round after round

  /** The attempts that eligible events have left. */
  function Attempts(c: Config, events: map<nat, Row>): set<(nat, nat)> {
    set i, r: nat | i in events && Eligible(events, i, c.maxRetry) && events[i].retry <= r < c.maxRetry :: (i, r)
  }

  lemma AttemptsFall(c: Config, events: map<nat, Row>, events': map<nat, Row>, id: nat)
    requires Eligible(events, id, c.maxRetry)
    requires events' == Mark(events, {id}, 0) || events' == events[id := events[id].(retry := events[id].retry + 1)]
    ensures Attempts(c, events') < Attempts(c, events)
  {
    assert (id, events[id].retry) in Attempts(c, events) && (id, events[id].retry) !in Attempts(c, events');
  }

  lemma {:induction false} AllApplied(c: Config, s: State, t: State, spared: set<(Dim, int)>) returns (u: State)
    requires Works(c, s, t, spared) && t.agents == map[]
    ensures Works(c, s, u, spared) && Coming(c, u) == {}
    decreases Attempts(c, t.db.events)
  {
    hide Works, Attempts;
    if Awaiting(c, t) == {} {
      NoneFly(t.agents);
      return t;
    }
    var t1, id := Picks(c, s, t, spared);
    assert id in t1.db.events;
    var t2;
    if Decodable(t1.db.events[id].content) {
      t2 := Finishes(c, s, t1, spared, id);
    } else {
      t2 := FailsOnce(c, s, t1, spared, id);
    }
    AttemptsFall(c, t1.db.events, t2.db.events, id);
    u := AllApplied(c, s, t2, spared);
  }

  /** Everything that may still come has come, and nothing was lost on the way. */
  lemma CatchUp(c: Config, s: State, spared: set<(Dim, int)>) returns (u: State)
    requires Sound(c, s)
    ensures Leads(c, s, u, spared) && Sound(c, u) && AllAlike(c, s, u) && Coming(c, u) == {}
  {
    hide Sound, Leads, Coming;
    LeadsNowhere(c, s, spared);
    assert Works(c, s, s, spared);
    u := AllArrive(c, s, s, spared);
    u := AllCrash(c, s, u, spared);
    u := AllApplied(c, s, u, spared);
  }

  /** The peak is reached, by workers alone. */
  lemma ReachPeak(c: Config, s: State, spared: set<(Dim, int)>, d: Dim, k: int) returns (t: State)
    requires Sound(c, s)
    ensures Leads(c, s, t, spared) && t.sentinel == s.sentinel && t.hollow == s.hollow
    ensures Get(LedgerOf(t, d).z, k) - Get(TableOf(t, d), k) == Peak(c, s, d, k)
  {
    hide Sound, Leads, Gone, Coming, Peak;
    t := CatchUp(c, s, spared);
    AlikePeak(c, s, t, d, k);
    AtPeak(c, t, d, k);
  }

  lemma AtPeak(c: Config, t: State, d: Dim, k: int)
    requires Coming(c, t) == {}
    ensures Peak(c, t, d, k) == Get(LedgerOf(t, d).z, k) - Get(TableOf(t, d), k)
  {
    hide Coming;
  }
}
