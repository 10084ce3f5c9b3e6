/**
 * When a dead-letter report names an event that is really unprocessed, and how far retry counts run past
 * the limit: both depend on how many processes work.
 */
module PipelineReports {
  import opened Domain
  import opened Tally
  import opened Tables
  import opened Pipeline
  import opened PipelineTables
  import opened PipelineRetry
  import opened PipelineSafety
  import opened PipelinePaths
  import opened PipelineBarren

  // ----- one process: reports tell the truth

  /** No goroutine will count a retry on a processed event, and no report names one. */
  ghost predicate Lone(agents: map<Aid, Agent>, done: set<nat>, reports: multiset<nat>) {
    && (forall a, i :: a in agents && i in Owed(agents[a]) ==> i !in done)
    && (forall i :: i in reports ==> i !in done)
  }

  lemma ParkedLone(agents: map<Aid, Agent>, a: Aid, bad: set<nat>, done: set<nat>, reports: multiset<nat>)
    requires Lone(agents, done, reports) && bad !! done
    ensures Lone(Park(agents, a, bad), done, reports)
  {
  }

  lemma HeldUnprocessed(c: Config, s: State, a: Aid)
    requires Base(c, s) && a in s.agents && s.agents[a].Open?
    ensures Held(s.agents[a]) !! s.done && s.agents[a].bad !! s.done
    ensures RetryOk(c, s) ==> forall i :: i in s.reports ==> i !in Held(s.agents[a])
  {
    AgentIsOk(c, s, a);
    hide AllOk, Exclusive, RequestsOk;
  }

  lemma CommittedLone(c: Config, s: State, a: Aid, ack: bool, now: nat)
    requires Base(c, s) && RetryOk(c, s) && c.procs <= 1 && Lone(s.agents, s.done, s.reports) && CanCommit(s, a)
    ensures var s' := Committed(s, a, ack, now); Lone(s'.agents, s'.done, s'.reports)
  {
    var g, s' := s.agents[a], Committed(s, a, ack, now);
    HeldUnprocessed(c, s, a);
    AgentIsOk(c, s, a);
    hide AllOk, Exclusive, RequestsOk, RowsOk, CommittedDb, NewScores, Bounded, ReportsOk;
    forall b, i | b in s'.agents && i in Owed(s'.agents[b]) ensures i !in s'.done {
      if b == a {
        BadUndone(c, s, a, i);
      } else {
        assert b.proc == a.proc && i in Touched(s.agents[b]) && i !in Touched(g);
      }
    }
  }

  lemma BadUndone(c: Config, s: State, a: Aid, i: nat)
    requires Base(c, s) && a in s.agents && s.agents[a].Open? && i in s.agents[a].bad
    ensures i !in s.done && i !in s.agents[a].ids
  {
    AgentIsOk(c, s, a);
    hide AllOk, Exclusive, RequestsOk;
  }

  lemma RetryCommittedLone(c: Config, s: State, a: Aid, ack: bool)
    requires Lone(s.agents, s.done, s.reports) && IsCounting(s, a)
    ensures var s' := RetryCommitted(c, s, a, ack); Lone(s'.agents, s'.done, s'.reports)
  {
    ParkedLone(s.agents, a, s.agents[a].rest, s.done, s.reports);
  }

  predicate Bystanding(step: Step) {
    || step.ReqPrepare? || step.ReqCommit? || step.ReqAbort? || step.PoisonInsert? || step.PerEventList?
       || step.ClaimMiss?
    || step.Abandon? || step.Collect? || step.SyncStart? || step.SyncSet? || step.SyncEnd? || step.SyncStop?
       || step.Flush?
  }

  lemma BystandersKeep(c: Config, s: State, step: Step)
    requires Enabled(c, s, step) && Bystanding(step)
    ensures var s' := Next(c, s, step); s'.agents == s.agents && s'.done == s.done && s'.reports == s.reports
  {
    hide ListPending, Locked, Get, Overwrite, Forget;
  }

  lemma StepKeepsLone(c: Config, s: State, step: Step)
    requires Base(c, s) && RetryOk(c, s) && c.procs <= 1 && Lone(s.agents, s.done, s.reports) && Enabled(c, s, step)
    ensures var s' := Next(c, s, step); Lone(s'.agents, s'.done, s'.reports)
  {
    hide Base, RetryOk, Park, Good, Contents, ListPending, Lone, NewScores, Locked;
    if Bystanding(step) {
      BystandersKeep(c, s, step);
      return;
    }
    var s' := Next(c, s, step);
    match step
    case BatchList(p) => OpenedLone(s.agents, Aid(p, 0), s'.agents[Aid(p, 0)], s.done, s.reports);
    case Claim(a, id) => OpenedLone(s.agents, a, s'.agents[a], s.done, s.reports);
    case AddScores(a) => OpenedLone(s.agents, a, s'.agents[a], s.done, s.reports);
    case Commit(a, ack, now) => CommittedLone(c, s, a, ack, now);
    case Rollback(a, failed) =>
      HeldUnprocessed(c, s, a);
      ParkedLone(s.agents, a, if failed then Held(s.agents[a]) else {}, s.done, s.reports);
      ParkEmpty(s.agents, a);
    case Reflect(a, userHits, guildHits) => OwedLone(s, a, s.agents[a].bad);
    case RetryUpdate(a, id) => SwappedLone(s.agents, a, s'.agents[a], s.done, s.reports);
    case RetryCommit(a, ack) => RetryCommittedLone(c, s, a, ack);
    case RetryAbort(a) => OwedLone(s, a, s.agents[a].rest);
    case RetryGiveUp(a, id) => OwedLone(s, a, s.agents[a].bad - {id});
    case Crash(p) => FewerLone(s.agents, s'.agents, s.done, s.reports);
  }

  lemma OpenedLone(agents: map<Aid, Agent>, a: Aid, g: Agent, done: set<nat>, reports: multiset<nat>)
    requires Lone(agents, done, reports) && g.Open?
    ensures Lone(agents[a := g], done, reports)
  {
  }

  lemma SwappedLone(agents: map<Aid, Agent>, a: Aid, g: Agent, done: set<nat>, reports: multiset<nat>)
    requires Lone(agents, done, reports) && a in agents && Owed(g) <= Owed(agents[a])
    ensures Lone(agents[a := g], done, reports)
  {
    hide Owed;
  }

  lemma FewerLone(agents: map<Aid, Agent>, agents': map<Aid, Agent>, done: set<nat>, reports: multiset<nat>)
    requires Lone(agents, done, reports) && forall a :: a in agents' ==> a in agents && agents'[a] == agents[a]
    ensures Lone(agents', done, reports)
  {
    hide Owed;
  }

  lemma OwedLone(s: State, a: Aid, bad: set<nat>)
    requires Lone(s.agents, s.done, s.reports) && a in s.agents && bad <= Owed(s.agents[a])
    ensures Lone(Park(s.agents, a, bad), s.done, s.reports)
  {
    ParkedLone(s.agents, a, bad, s.done, s.reports);
  }

  lemma {:induction false} RunKeepsLone(c: Config, states: seq<State>, steps: seq<Step>, n: nat)
    requires IsRun(c, states, steps) && n <= |steps| && c.procs <= 1
    ensures Lone(states[n].agents, states[n].done, states[n].reports)
  {
    hide Enabled, Next, Lone, Inv;
    if n == 0 {
      NothingLone();
    } else {
      RunKeepsLone(c, states, steps, n - 1);
      RunKeepsInv(c, states, steps, n - 1);
      InvGivesRetry(c, states[n - 1]);
      StepKeepsLone(c, states[n - 1], steps[n - 1]);
    }
  }

  lemma NothingLone()
    ensures Lone(map[], {}, multiset{})
  {
  }

  lemma InvGivesRetry(c: Config, s: State)
    requires Inv(c, s)
    ensures Base(c, s) && RetryOk(c, s)
  {
  }

  /** With one worker process, a reported event is there and unprocessed. */
  lemma OneProcessReportsTruly(c: Config, s: State, i: nat)
    requires Reachable(c, s) && c.procs <= 1 && i in s.reports
    ensures i in s.db.events && s.db.events[i].processedAt.None?
  {
    hide Enabled, Next, Initial;
    var states, steps :| IsRun(c, states, steps) && states[|steps|] == s;
    RunKeepsLone(c, states, steps, |steps|);
    RunKeepsInv(c, states, steps, |steps|);
  }

  // ----- two processes: a report can come too late

  const POINTLESS := Score(0, 0, 0)
  const SCORED := Content(RANKING_SCORE_ADDED, Encoded(POINTLESS))
  const NOTHING := Ledger(map[], map[], {}, {}, {})
  const A0 := Aid(0, 0)
  const A1 := Aid(1, 0)

  /** One event that has failed k times, and what the goroutines are doing. */
  function With(c: Config, k: nat, agents: map<Aid, Agent>, todo: map<nat, set<nat>>): State {
    State(Db(1, map[0 := Row(SCORED, k, None)], c.guilds0, [], c.users0[0 := Get(c.users0, 0)], [UserEntry(0, 0)]),
          agents, todo, map[], NOTHING, NOTHING, false, map[], false, map[0 := SCORED], {},
          if k < c.maxRetry then multiset{} else multiset{0}, {})
  }

  /** Nothing has happened, or one request is in its transaction. */
  function Blank(c: Config, nextId: nat, requests: map<nat, Request>): State {
    State(Db(nextId, map[], c.guilds0, [], c.users0, []), map[], map[], requests, NOTHING, NOTHING, false, map[], false,
          map[], {}, multiset{}, {})
  }

  lemma RequestReachable(c: Config)
    requires 1 <= c.maxRetry
    ensures Reachable(c, Blank(c, 1, map[0 := Request(POINTLESS, 0, Get(c.users0, 0))]))
  {
    hide Reachable;
    var s0 := Blank(c, 0, map[]);
    StartReaches(c, s0);
    StepReaches(c, s0, ReqPrepare(0, POINTLESS));
    assert Next(c, s0, ReqPrepare(0, POINTLESS)) == Prepared(s0, 0, POINTLESS);
  }

  lemma OneEventReachable(c: Config)
    requires 1 <= c.maxRetry
    ensures Reachable(c, With(c, 0, map[], map[]))
  {
    hide Reachable;
    RequestReachable(c);
    var s1 := Blank(c, 1, map[0 := Request(POINTLESS, 0, Get(c.users0, 0))]);
    StepReaches(c, s1, ReqCommit(0));
    assert Next(c, s1, ReqCommit(0)) == Requested(s1, 0);
    assert Requested(s1, 0).db == With(c, 0, map[], map[]).db;
    assert Requested(s1, 0) == With(c, 0, map[], map[]);
  }

  lemma Listed(c: Config, k: nat, agents: map<Aid, Agent>, todo: map<nat, set<nat>>, p: nat)
    requires Reachable(c, With(c, k, agents, todo)) && CanList(c, With(c, k, agents, todo), p)
    requires k < c.maxRetry && 1 <= c.batchSize && 0 !in Locked(With(c, k, agents, todo))
    ensures Reachable(c, With(c, k, agents, todo[p := {0}]))
  {
    hide Reachable, Scan, Locked;
    var s := With(c, k, agents, todo);
    StepReaches(c, s, PerEventList(p));
    var ids := ListPending(s.db, Locked(s), c.batchSize, c.maxRetry);
    assert Eligible(s.db.events, 0, c.maxRetry);
    assert ids != [] && ids[0] in ids;
    assert Elems(ids) == {0};
  }

  /** A goroutine that claimed the event and has read it. */
  function Claimer(writes: Option<map<int, int>>): Agent {
    Open(true, [0], {}, map[0 := SCORED], writes)
  }

  lemma ClaimerIs(c: Config, k: nat)
    ensures OpenOn(map[0 := Row(SCORED, k, None)], true, [0]) == Claimer(None)
  {
    var events := map[0 := Row(SCORED, k, None)];
    assert Good(events, [0]) == [0] by {
      assert [0][1..] == [];
    }
    assert Contents(events, [0]) == map[0 := SCORED];
  }

  lemma ClaimReaches(c: Config, k: nat, agents: map<Aid, Agent>, todo: map<nat, set<nat>>, a: Aid)
    requires Reachable(c, With(c, k, agents, todo)) && k < c.maxRetry
    requires a !in agents && a.proc in todo && todo[a.proc] == {0} && 0 !in Locked(With(c, k, agents, todo))
    ensures Reachable(c, With(c, k, agents[a := Claimer(None)], todo[a.proc := {}]))
  {
    hide Reachable, OpenOn, Locked;
    var s := With(c, k, agents, todo);
    StepReaches(c, s, Claim(a, 0));
    ClaimerIs(c, k);
    assert todo[a.proc] - {0} == {};
    assert Next(c, s, Claim(a, 0)) == Claimed(s, a, 0);
  }

  /** The handling failed: the row is free again and a retry is owed. */
  lemma FailReaches(c: Config, k: nat, agents: map<Aid, Agent>, todo: map<nat, set<nat>>, a: Aid)
    requires Reachable(c, With(c, k, agents, todo)) && a in agents && agents[a] == Claimer(None)
    ensures Reachable(c, With(c, k, agents[a := Retrying({0})], todo))
  {
    hide Reachable;
    assert Held(Claimer(None)) == {0};
    var s := With(c, k, agents, todo);
    StepReaches(c, s, Rollback(a, true));
    assert Next(c, s, Rollback(a, true)) == With(c, k, agents[a := Retrying({0})], todo);
  }

  /** The retry is recorded. */
  lemma PayReaches(c: Config, k: nat, agents: map<Aid, Agent>, todo: map<nat, set<nat>>, a: Aid)
    requires Reachable(c, With(c, k, agents, todo)) && a in agents && agents[a] == Retrying({0})
    requires 0 !in Locked(With(c, k, agents, todo))
    ensures Reachable(c, With(c, k + 1, agents - {a}, todo))
  {
    hide Reachable, Locked;
    var s := With(c, k, agents, todo);
    StepReaches(c, s, RetryUpdate(a, 0));
    var s1 := s.(agents := agents[a := Counting(0, k + 1, {})]);
    assert {0} - {0} == {};
    assert Next(c, s, RetryUpdate(a, 0)) == s1;
    StepReaches(c, s1, RetryCommit(a, true));
    CommitPays(c, k, agents, todo, a, s1);
  }

  lemma CommitPays(c: Config, k: nat, agents: map<Aid, Agent>, todo: map<nat, set<nat>>, a: Aid, s1: State)
    requires s1 == With(c, k, agents, todo).(agents := agents[a := Counting(0, k + 1, {})])
    ensures Next(c, s1, RetryCommit(a, true)) == With(c, k + 1, agents - {a}, todo)
  {
    var t, t' := RetryCommitted(c, s1, a, true), With(c, k + 1, agents - {a}, todo);
    assert t.agents == t'.agents;
    assert t.db.events == t'.db.events;
    assert t.reports == t'.reports;
  }

  lemma FailedReachable(c: Config, k: nat)
    requires Reachable(c, With(c, k, map[], map[0 := {}])) && k < c.maxRetry && 1 <= c.batchSize && 1 <= c.procs
    ensures Reachable(c, With(c, k, map[A0 := Retrying({0})], map[0 := {}]))
  {
    hide Reachable;
    Listed(c, k, map[], map[0 := {}], 0);
    assert map[0 := {}][0 := {0}] == map[0 := {0}];
    ClaimReaches(c, k, map[], map[0 := {0}], A0);
    assert map[0 := {0}][0 := {}] == map[0 := {}] && map[][A0 := Claimer(None)] == map[A0 := Claimer(None)];
    FailReaches(c, k, map[A0 := Claimer(None)], map[0 := {}], A0);
    assert map[A0 := Claimer(None)][A0 := Retrying({0})] == map[A0 := Retrying({0})];
  }

  lemma {:induction false} FailuresReachable(c: Config, k: nat)
    requires k < c.maxRetry && 1 <= c.batchSize && 1 <= c.procs
    ensures Reachable(c, With(c, k, map[], map[0 := {}]))
  {
    hide Reachable;
    if k == 0 {
      OneEventReachable(c);
      Listed(c, 0, map[], map[], 0);
      assert map[][0 := {0}] == map[0 := {0}];
      var s := With(c, 0, map[], map[0 := {0}]);
      StepReaches(c, s, Abandon(0));
      assert map[0 := {0}][0 := {}] == map[0 := {}];
    } else {
      FailuresReachable(c, k - 1);
      FailedReachable(c, k - 1);
      var agents := map[A0 := Retrying({0})];
      NoneLocked(With(c, k - 1, agents, map[0 := {}]));
      PayReaches(c, k - 1, agents, map[0 := {}], A0);
      assert agents - {A0} == map[];
    }
  }

  /** While the first process still owes the last retry, the second one claims the event. */
  lemma SecondClaims(c: Config, k: nat)
    requires k < c.maxRetry && 1 <= c.batchSize && 2 <= c.procs
    ensures Reachable(c, With(c, k, map[A0 := Retrying({0}), A1 := Claimer(None)], map[0 := {}, 1 := {}]))
  {
    hide Reachable;
    FailuresReachable(c, k);
    FailedReachable(c, k);
    var agents := map[A0 := Retrying({0})];
    Listed(c, k, agents, map[0 := {}], 1);
    assert map[0 := {}][1 := {0}] == map[0 := {}, 1 := {0}];
    ClaimReaches(c, k, agents, map[0 := {}, 1 := {0}], A1);
    assert map[0 := {}, 1 := {0}][1 := {}] == map[0 := {}, 1 := {}];
    assert agents[A1 := Claimer(None)] == map[A0 := Retrying({0}), A1 := Claimer(None)];
  }

  lemma SecondAdds(c: Config, k: nat) returns (writes: map<int, int>)
    requires k < c.maxRetry && 1 <= c.batchSize && 2 <= c.procs
    ensures Reachable(c, With(c, k, map[A0 := Retrying({0}), A1 := Claimer(Some(writes))], map[0 := {}, 1 := {}]))
  {
    hide Reachable;
    SecondClaims(c, k);
    var s0 := With(c, k, map[A0 := Retrying({0}), A1 := Claimer(None)], map[0 := {}, 1 := {}]);
    StepReaches(c, s0, AddScores(A1));
    writes := NewScores(c.guilds0, Claimer(None).work);
    assert Next(c, s0, AddScores(A1)) == Added(s0, A1);
    assert Added(s0, A1).agents == map[A0 := Retrying({0}), A1 := Claimer(Some(writes))];
  }

  lemma SecondCommits(c: Config, k: nat) returns (s: State)
    requires k < c.maxRetry && 1 <= c.batchSize && 2 <= c.procs
    ensures Reachable(c, s) && A0 in s.agents && s.agents[A0] == Retrying({0})
    ensures 0 in s.done && 0 in s.db.events && s.db.events[0].retry == k && 0 !in Locked(s)
  {
    hide Reachable, NewScores;
    var writes := SecondAdds(c, k);
    var s1 := With(c, k, map[A0 := Retrying({0}), A1 := Claimer(Some(writes))], map[0 := {}, 1 := {}]);
    assert Elems([0]) == {0} by {
      assert [0][0] == 0;
    }
    assert CanCommit(s1, A1);
    StepReaches(c, s1, Commit(A1, true, 0));
    s := Next(c, s1, Commit(A1, true, 0));
    assert s == Committed(s1, A1, true, 0);
    assert s.agents == map[A0 := Retrying({0}), A1 := Reflecting(map[0 := SCORED], {})];
  }

  /** So with two processes, whatever maxRetry is, a report can name an event that was processed after all. */
  lemma TwoProcessesMayReportLate(c: Config) returns (s: State)
    requires 1 <= c.maxRetry && 1 <= c.batchSize && 2 <= c.procs
    ensures Reachable(c, s) && 0 in s.reports && 0 in s.db.events && s.db.events[0].processedAt.Some?
  {
    hide Reachable;
    var s0 := SecondCommits(c, c.maxRetry - 1);
    StepReaches(c, s0, RetryUpdate(A0, 0));
    var s1 := Next(c, s0, RetryUpdate(A0, 0));
    assert s1 == RetryUpdated(s0, A0, 0);
    StepReaches(c, s1, RetryCommit(A0, true));
    s := Next(c, s1, RetryCommit(A0, true));
    assert s == RetryCommitted(c, s1, A0, true);
    MarkedWhenDone(c, s);
  }

  lemma MarkedWhenDone(c: Config, s: State)
    requires Reachable(c, s) && 0 in s.done && 0 in s.db.events
    ensures s.db.events[0].processedAt.Some?
  {
    hide Reachable;
    ReachableInv(c, s);
  }

  /** Reports tell the truth in every reachable state exactly if at most one process works, or none can list. */
  lemma ReportsAreTrue(c: Config)
    requires 1 <= c.maxRetry
    ensures (forall s, i :: Reachable(c, s) && i in s.reports ==> i in s.db.events && s.db.events[i].processedAt.None?)
            <==> c.procs <= 1 || c.batchSize == 0
  {
    hide Reachable;
    if c.procs <= 1 {
      forall s, i | Reachable(c, s) && i in s.reports ensures i in s.db.events && s.db.events[i].processedAt.None? {
        OneProcessReportsTruly(c, s, i);
      }
    } else if c.batchSize == 0 {
      forall s | Reachable(c, s) ensures s.reports == multiset{} {
        ReachableBarren(c, s);
      }
    } else {
      var s := TwoProcessesMayReportLate(c);
      assert 0 in s.reports;
    }
  }

  // ----- how far past the limit a count can get

  /** Processes lo to hi - 1 still owe the event a retry. */
  function Owing(lo: nat, hi: nat): map<Aid, Agent> {
    map a | a in Lanes(hi) && lo <= a.proc :: Retrying({0})
  }

  function Lanes(hi: nat): set<Aid> {
    set p: nat | 0 <= p < hi :: Aid(p, 0)
  }

  function Emptied(n: nat): map<nat, set<nat>> {
    map p | p in Below(n) :: {}
  }

  function Below(n: nat): (s: set<nat>)
    ensures forall p: nat :: p in s <==> p < n
  {
    if n == 0 then {} else Below(n - 1) + {n - 1}
  }

  lemma NextOwes(n: nat)
    ensures Owing(0, n)[Aid(n, 0) := Retrying({0})] == Owing(0, n + 1) && Aid(n, 0) !in Owing(0, n)
    ensures Emptied(n)[n := {0}][n := {}] == Emptied(n + 1)
    ensures n !in Emptied(n) && OnlyOwe(Owing(0, n)) && forall a :: a in Owing(0, n) ==> a.proc != n
  {
    assert Lanes(n + 1) == Lanes(n) + {Aid(n, 0)};
  }

  /** One more process lists the event, claims it and fails. */
  lemma OneMoreOwes(c: Config, k: nat, n: nat)
    requires Reachable(c, With(c, k, Owing(0, n), Emptied(n)))
    requires k < c.maxRetry && 1 <= c.batchSize && n < c.procs
    ensures Reachable(c, With(c, k, Owing(0, n)[Aid(n, 0) := Claimer(None)], Emptied(n + 1)))
  {
    NextOwes(n);
    hide Reachable, Locked, Owing, Emptied;
    NoneLocked(With(c, k, Owing(0, n), Emptied(n)));
    Listed(c, k, Owing(0, n), Emptied(n), n);
    NoneLocked(With(c, k, Owing(0, n), Emptied(n)[n := {0}]));
    ClaimReaches(c, k, Owing(0, n), Emptied(n)[n := {0}], Aid(n, 0));
  }

  /** All of them failed on the event while its count was k. */
  lemma {:induction false} AllOwe(c: Config, k: nat, n: nat)
    requires k < c.maxRetry && 1 <= c.batchSize && 1 <= n <= c.procs
    ensures Reachable(c, With(c, k, Owing(0, n), Emptied(n)))
  {
    hide Reachable, Locked, With;
    if n == 1 {
      FailuresReachable(c, k);
      FailedReachable(c, k);
      FirstOwes();
    } else {
      hide Owing, Emptied, OnlyOwe;
      var a := Aid(n - 1, 0);
      AllOwe(c, k, n - 1);
      OneMoreOwes(c, k, n - 1);
      NextOwes(n - 1);
      FailReaches(c, k, Owing(0, n - 1)[a := Claimer(None)], Emptied(n), a);
      assert Owing(0, n - 1)[a := Claimer(None)][a := Retrying({0})] == Owing(0, n - 1)[a := Retrying({0})];
    }
  }

  lemma FirstOwes()
    ensures Owing(0, 1) == map[A0 := Retrying({0})] && Emptied(1) == map[0 := {}]
  {
  }

  predicate OnlyOwe(agents: map<Aid, Agent>) {
    forall a :: a in agents ==> agents[a] == Retrying({0})
  }

  lemma NoneLocked(s: State)
    requires OnlyOwe(s.agents)
    ensures Locked(s) == {}
  {
  }

  /** The first m of them have recorded their retry. */
  lemma {:induction false} AllPay(c: Config, n: nat, m: nat)
    requires 1 <= c.maxRetry && 1 <= c.batchSize && m <= n <= c.procs && 1 <= n
    ensures Reachable(c, With(c, c.maxRetry - 1 + m, Owing(m, n), Emptied(n)))
  {
    hide Reachable, Locked;
    if m == 0 {
      AllOwe(c, c.maxRetry - 1, n);
    } else {
      AllPay(c, n, m - 1);
      OneLessOwes(m, n);
      hide Owing, Emptied;
      NoneLocked(With(c, c.maxRetry - 1 + (m - 1), Owing(m - 1, n), Emptied(n)));
      PayReaches(c, c.maxRetry - 1 + (m - 1), Owing(m - 1, n), Emptied(n), Aid(m - 1, 0));
    }
  }

  lemma OneLessOwes(m: nat, n: nat)
    requires 1 <= m <= n
    ensures Owing(m - 1, n) - {Aid(m - 1, 0)} == Owing(m, n)
    ensures Aid(m - 1, 0) in Owing(m - 1, n) && OnlyOwe(Owing(m - 1, n))
  {
  }

  /** The bound on retry counts is met, by every number of processes. */
  lemma RetriesReachBound(c: Config) returns (s: State)
    requires 1 <= c.maxRetry && 1 <= c.batchSize && 1 <= c.procs
    ensures Reachable(c, s) && 0 in s.db.events && s.db.events[0].retry == c.maxRetry - 1 + c.procs
  {
    hide Reachable;
    AllPay(c, c.procs, c.procs);
    s := With(c, c.maxRetry - 1 + c.procs, Owing(c.procs, c.procs), Emptied(c.procs));
  }
}
