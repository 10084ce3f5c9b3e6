/** What every step keeps about retries: the count is bounded and its last step is reported once. */
module PipelineRetry {
  import opened Domain
  import opened Tally
  import opened Tables
  import opened Pipeline
  import opened PipelineTables

  /** Within a process an event is the business of one goroutine, or waits to be handed out. */
  ghost predicate OnePerProc(procs: nat, agents: map<Aid, Agent>, todo: map<nat, set<nat>>) {
    && (forall a :: a in agents ==> a.proc < procs)
    && (forall p :: p in todo ==> p < procs)
    && (forall a, b, i ::
          (a in agents && b in agents && a.proc == b.proc && i in Touched(agents[a]) && i in Touched(agents[b]))
          ==> a == b)
    && (forall a, i :: (a in agents && a.proc in todo && i in Touched(agents[a])) ==> i !in todo[a.proc])
    && (forall a :: a in agents && agents[a].Counting? ==> agents[a].id !in agents[a].rest)
  }

  /** The goroutines that will still add one to the retry count of event i. */
  function Owers(agents: map<Aid, Agent>, i: nat): set<Aid> {
    set a | a in agents && i in Owed(agents[a])
  }

  ghost predicate Bounded(c: Config, events: map<nat, Row>, agents: map<Aid, Agent>) {
    forall i :: i in events ==> events[i].retry + |Owers(agents, i)| <= c.maxRetry - 1 + c.procs
  }

  /** An event has crossed maxRetry exactly if the crossing was reported, once, or its report was lost. */
  ghost predicate ReportsOk(maxRetry: nat, events: map<nat, Row>, log: Log, reports: multiset<nat>, unheard: set<nat>) {
    && (forall i :: reports[i] <= 1)
    && (forall i :: i in reports ==> i !in unheard)
    && (forall i :: i in reports || i in unheard ==> i in log)
    && (forall i :: i in events ==> (events[i].retry >= maxRetry <==> i in reports || i in unheard))
  }

  ghost predicate RetryOk(c: Config, s: State) {
    && 1 <= c.maxRetry
    && OnePerProc(c.procs, s.agents, s.todo)
    && Bounded(c, s.db.events, s.agents)
    && ReportsOk(c.maxRetry, s.db.events, s.log, s.reports, s.unheard)
  }

  /** Goroutines of different processes: there are no more of them than processes. */
  lemma {:induction false} AtMostProcs(s: set<Aid>, procs: nat)
    requires forall a :: a in s ==> a.proc < procs
    requires forall a, b :: a in s && b in s && a.proc == b.proc ==> a == b
    ensures |s| <= procs
    decreases procs
  {
    if a :| a in s && a.proc == procs - 1 {
      AtMostProcs(s - {a}, procs - 1);
    } else if s != {} {
      var a :| a in s;
      AtMostProcs(s, procs - 1);
    }
  }

  lemma OwersAtMost(procs: nat, agents: map<Aid, Agent>, todo: map<nat, set<nat>>, i: nat)
    requires OnePerProc(procs, agents, todo)
    ensures |Owers(agents, i)| <= procs
  {
    assert forall a :: a in Owers(agents, i) ==> i in Touched(agents[a]);
    AtMostProcs(Owers(agents, i), procs);
  }

  /** New debts are allowed only for events below maxRetry. */
  lemma StillBounded(c: Config, events: map<nat, Row>, agents: map<Aid, Agent>, agents': map<Aid, Agent>,
                     todo': map<nat, set<nat>>)
    requires Bounded(c, events, agents) && OnePerProc(c.procs, agents', todo')
    requires forall i :: i in events ==> Owers(agents', i) <= Owers(agents, i) || events[i].retry < c.maxRetry
    ensures Bounded(c, events, agents')
  {
    forall i | i in events ensures events[i].retry + |Owers(agents', i)| <= c.maxRetry - 1 + c.procs {
      if Owers(agents', i) <= Owers(agents, i) {
        SubsetSize(Owers(agents', i), Owers(agents, i));
      } else {
        OwersAtMost(c.procs, agents', todo', i);
      }
    }
  }

  /** An agent whose business shrinks leaves the rest in order. */
  lemma ShrunkAgent(procs: nat, agents: map<Aid, Agent>, todo: map<nat, set<nat>>, a: Aid, g: Agent)
    requires OnePerProc(procs, agents, todo) && a in agents && Touched(g) <= Touched(agents[a])
    requires g.Counting? ==> g.id !in g.rest
    ensures OnePerProc(procs, agents[a := g], todo)
  {
  }

  lemma NewAgent(procs: nat, agents: map<Aid, Agent>, todo: map<nat, set<nat>>, a: Aid, g: Agent,
                 todo': map<nat, set<nat>>)
    requires OnePerProc(procs, agents, todo) && a !in agents && a.proc < procs && !g.Counting?
    requires forall b, i :: b in agents && b.proc == a.proc && i in Touched(g) ==> i !in Touched(agents[b])
    requires todo'.Keys == todo.Keys && (forall p :: p in todo ==> todo'[p] <= todo[p])
    requires a.proc in todo' ==> todo'[a.proc] !! Touched(g)
    ensures OnePerProc(procs, agents[a := g], todo')
  {
    hide Touched;
  }

  /** An agent takes on only debts it had, or debts of events below maxRetry. */
  lemma SwappedBound(c: Config, events: map<nat, Row>, agents: map<Aid, Agent>, todo: map<nat, set<nat>>, a: Aid,
                     g: Agent)
    requires Bounded(c, events, agents) && OnePerProc(c.procs, agents[a := g], todo)
    requires forall i :: i in Owed(g) && i in events ==>
               (a in agents && i in Owed(agents[a])) || events[i].retry < c.maxRetry
    ensures Bounded(c, events, agents[a := g])
  {
    hide OnePerProc, Owed;
    StillBounded(c, events, agents, agents[a := g], todo);
  }

  lemma ParkedProcs(procs: nat, agents: map<Aid, Agent>, todo: map<nat, set<nat>>, a: Aid, bad: set<nat>)
    requires OnePerProc(procs, agents, todo) && a in agents && bad <= Touched(agents[a])
    ensures OnePerProc(procs, Park(agents, a, bad), todo)
  {
    if bad != {} {
      ShrunkAgent(procs, agents, todo, a, Retrying(bad));
    }
  }

  lemma ParkedRetry(c: Config, s: State, a: Aid, bad: set<nat>)
    requires RetryOk(c, s) && a in s.agents && bad <= Touched(s.agents[a])
    requires bad <= Owed(s.agents[a]) || forall i :: i in bad ==> i in s.db.events && s.db.events[i].retry < c.maxRetry
    ensures OnePerProc(c.procs, Park(s.agents, a, bad), s.todo)
    ensures Bounded(c, s.db.events, Park(s.agents, a, bad))
  {
    ParkedProcs(c.procs, s.agents, s.todo, a, bad);
    StillBounded(c, s.db.events, s.agents, Park(s.agents, a, bad), s.todo);
  }

  lemma OpenedRetry(c: Config, s: State, a: Aid, single: bool, ids: seq<nat>, todo': map<nat, set<nat>>)
    requires RetryOk(c, s) && a !in s.agents && a.proc < c.procs && (forall i :: i in ids ==> i in s.db.events)
    requires forall b, i :: b in s.agents && b.proc == a.proc && i in ids ==> i !in Touched(s.agents[b])
    requires todo'.Keys == s.todo.Keys && (forall p :: p in s.todo ==> todo'[p] <= s.todo[p])
    requires a.proc in todo' ==> todo'[a.proc] !! Elems(ids)
    ensures OnePerProc(c.procs, s.agents[a := OpenOn(s.db.events, single, ids)], todo')
    ensures Bounded(c, s.db.events, s.agents[a := OpenOn(s.db.events, single, ids)])
  {
    hide OnePerProc, Bounded, ReportsOk;
    var g := OpenOn(s.db.events, single, ids);
    assert Touched(g) <= Elems(ids);
    assert Owed(g) == {};
    NewAgent(c.procs, s.agents, s.todo, a, g, todo');
    SwappedBound(c, s.db.events, s.agents, todo', a, g);
  }

  lemma CommittedRetry(c: Config, s: State, a: Aid, ack: bool, now: nat)
    requires Base(c, s) && RetryOk(c, s) && CanCommit(s, a)
    ensures RetryOk(c, Committed(s, a, ack, now))
  {
    hide AllOk, Exclusive, RowsOk, RequestsOk, RowsOf, NewScores, OnePerProc, Bounded;
    var g := s.agents[a];
    var s' := Committed(s, a, ack, now);
    AgentIsOk(c, s, a);
    if ack {
      ShrunkAgent(c.procs, s.agents, s.todo, a, Reflecting(g.work, g.bad));
      SwappedBound(c, s.db.events, s.agents, s.todo, a, Reflecting(g.work, g.bad));
    } else {
      ParkedRetry(c, s, a, {});
    }
    SameRetries(c, s.db.events, s'.db.events, s'.agents);
  }

  lemma SameRetries(c: Config, events: map<nat, Row>, events': map<nat, Row>, agents: map<Aid, Agent>)
    requires Bounded(c, events, agents)
    requires forall i :: i in events' ==> i in events && events'[i].retry == events[i].retry
    ensures Bounded(c, events', agents)
  {
  }

  lemma RetryUpdatedRetry(c: Config, s: State, a: Aid, id: nat)
    requires RetryOk(c, s) && CanUpdateRetry(s, a, id)
    ensures RetryOk(c, RetryUpdated(s, a, id))
  {
    hide OnePerProc, Bounded, ReportsOk, Locked;
    var g := Counting(id, s.db.events[id].retry + 1, s.agents[a].bad - {id});
    ShrunkAgent(c.procs, s.agents, s.todo, a, g);
    SwappedBound(c, s.db.events, s.agents, s.todo, a, g);
  }

  lemma RetryCommittedRetry(c: Config, s: State, a: Aid, ack: bool)
    requires Base(c, s) && RetryOk(c, s) && IsCounting(s, a)
    ensures RetryOk(c, RetryCommitted(c, s, a, ack))
  {
    hide AllOk, Exclusive, RequestsOk, OnePerProc, Bounded;
    var g := s.agents[a];
    AgentIsOk(c, s, a);
    ParkedRetry(c, s, a, g.rest);
    PaidDebt(c, s.db.events, s.agents, s.todo, a, RetryCommitted(c, s, a, ack).db.events);
  }

  /** Adding one to a count is paid for by the debt it settles. */
  lemma PaidDebt(c: Config, events: map<nat, Row>, agents: map<Aid, Agent>, todo: map<nat, set<nat>>, a: Aid,
                 events': map<nat, Row>)
    requires a in agents && agents[a].Counting? && AgentOk(View(c.maxRetry, events, map[], map[], {}), agents[a])
    requires Bounded(c, events, agents) && OnePerProc(c.procs, agents, todo)
    requires Bounded(c, events, Park(agents, a, agents[a].rest))
    requires events' == events[agents[a].id := events[agents[a].id].(retry := agents[a].count)]
    ensures Bounded(c, events', Park(agents, a, agents[a].rest))
  {
    var id, agents' := agents[a].id, Park(agents, a, agents[a].rest);
    assert Owers(agents', id) == Owers(agents, id) - {a};
    assert a in Owers(agents, id);
  }

  lemma CrashedRetry(c: Config, s: State, p: nat)
    requires RetryOk(c, s)
    ensures RetryOk(c, Crashed(s, p))
  {
    var s' := Crashed(s, p);
    assert OnePerProc(c.procs, s'.agents, s'.todo);
    StillBounded(c, s.db.events, s.agents, s'.agents, s'.todo);
  }

  lemma WorkKeepsRetry(c: Config, s: State, step: Step)
    requires Base(c, s) && RetryOk(c, s) && Enabled(c, s, step) && OnlyAgents(step)
    ensures RetryOk(c, Next(c, s, step))
  {
    hide Base, Park, Bounded, OpenOn, ReportsOk, OnePerProc, ListPending, NewScores, Arrive, Locked;
    match step
    case BatchList(p) => BatchOpenedRetry(c, s, p);
    case Claim(a, id) => ClaimedRetry(c, s, a, id);
    case AddScores(a) => AddedRetry(c, s, a);
    case Rollback(a, failed) => RolledBackRetry(c, s, a, failed);
    case Reflect(a, userHits, guildHits) => ParkedRetry(c, s, a, s.agents[a].bad);
    case RetryUpdate(a, id) => RetryUpdatedRetry(c, s, a, id);
    case RetryCommit(a, ack) => RetryCommittedRetry(c, s, a, ack);
    case RetryAbort(a) => ParkedRetry(c, s, a, s.agents[a].rest);
    case RetryGiveUp(a, id) => ParkedRetry(c, s, a, s.agents[a].bad - {id});
    case Crash(p) => CrashedRetry(c, s, p);
  }

  lemma OtherKeepsRetry(c: Config, s: State, step: Step)
    requires Base(c, s) && RetryOk(c, s) && Enabled(c, s, step) && !OnlyAgents(step)
    ensures RetryOk(c, Next(c, s, step))
  {
    hide RowsOk, RequestsOk, AllOk, Exclusive, Bounded, ReportsOk, OnePerProc, ListPending, Locked, Overwrite;
    match step
    case ReqCommit(r) => InsertedRetry(c, s, s.requests[r].id,
        Content(RANKING_SCORE_ADDED, Marshal(s.requests[r].score)));
    case PoisonInsert(content) => InsertedRetry(c, s, s.db.nextId, content);
    case PerEventList(p) => CandidatesRetry(c, s, p);
    case ClaimMiss(a, id) => PoppedRetry(c, s, a, id);
    case Commit(a, ack, now) => CommittedRetry(c, s, a, ack, now);
    case Abandon(p) => AbandonedRetry(c, s, p);
    case Collect(cutoff, limit, victims) => CollectedRetry(c, s, cutoff, limit, victims);
    case _ =>
  }

  lemma StepKeepsRetry(c: Config, s: State, step: Step)
    requires Base(c, s) && RetryOk(c, s) && Enabled(c, s, step)
    ensures RetryOk(c, Next(c, s, step))
  {
    hide Base, RetryOk, Enabled, Next;
    if OnlyAgents(step) {
      WorkKeepsRetry(c, s, step);
    } else {
      OtherKeepsRetry(c, s, step);
    }
  }

  lemma BatchOpenedRetry(c: Config, s: State, p: nat)
    requires RetryOk(c, s) && CanList(c, s, p)
    ensures RetryOk(c, BatchOpened(c, s, p))
  {
    hide Bounded, ReportsOk, Touched, Locked;
    OpenedRetry(c, s, Aid(p, 0), false, ListPending(s.db, Locked(s), c.batchSize, c.maxRetry), s.todo);
  }

  lemma CandidatesRetry(c: Config, s: State, p: nat)
    requires RetryOk(c, s) && CanList(c, s, p)
    ensures RetryOk(c, Candidates(c, s, p))
  {
    hide Bounded, ReportsOk, Touched, Locked;
  }

  lemma ClaimedRetry(c: Config, s: State, a: Aid, id: nat)
    requires RetryOk(c, s) && CanPop(s, a, id) && Claimable(c, s, id)
    ensures RetryOk(c, Claimed(s, a, id))
  {
    hide Bounded, ReportsOk, Touched, Locked;
    OpenedRetry(c, s, a, true, [id], Popped(s, a, id).todo);
  }

  lemma PoppedRetry(c: Config, s: State, a: Aid, id: nat)
    requires RetryOk(c, s) && CanPop(s, a, id)
    ensures RetryOk(c, Popped(s, a, id))
  {
    hide Bounded, ReportsOk, Touched, Locked;
  }

  lemma AbandonedRetry(c: Config, s: State, p: nat)
    requires RetryOk(c, s) && p in s.todo
    ensures RetryOk(c, s.(todo := s.todo[p := {}]))
  {
    hide Bounded, ReportsOk, Touched;
  }

  /** A fresh event owes nothing and is owed nothing. */
  lemma InsertedRetry(c: Config, s: State, id: nat, content: Content)
    requires Base(c, s) && RetryOk(c, s)
    requires id == s.db.nextId || exists r :: r in s.requests && s.requests[r].id == id
    ensures Bounded(c, s.db.events[id := Row(content, 0, None)], s.agents)
    ensures ReportsOk(c.maxRetry, s.db.events[id := Row(content, 0, None)], s.log[id := content], s.reports, s.unheard)
  {
    hide AllOk, Exclusive;
    OwersAtMost(c.procs, s.agents, s.todo, id);
  }

  lemma AddedRetry(c: Config, s: State, a: Aid)
    requires RetryOk(c, s) && CanAdd(s, a)
    ensures RetryOk(c, Added(s, a))
  {
    hide NewScores;
    var g := s.agents[a].(writes := Some(NewScores(s.db.guildScores, s.agents[a].work)));
    ShrunkAgent(c.procs, s.agents, s.todo, a, g);
    SwappedBound(c, s.db.events, s.agents, s.todo, a, g);
  }

  lemma RolledBackRetry(c: Config, s: State, a: Aid, failed: bool)
    requires Base(c, s) && RetryOk(c, s) && CanRollback(s, a, failed)
    ensures RetryOk(c, RolledBack(s, a, failed))
  {
    hide AllOk, Exclusive, RequestsOk, RowsOk;
    AgentIsOk(c, s, a);
    ParkEmpty(s.agents, a);
    ParkedRetry(c, s, a, if failed then Held(s.agents[a]) else {});
  }

  lemma CollectedRetry(c: Config, s: State, cutoff: int, limit: nat, victims: set<nat>)
    requires RetryOk(c, s) && CanCollect(s, cutoff, limit, victims)
    ensures RetryOk(c, Collected(s, victims))
  {
  }
}
