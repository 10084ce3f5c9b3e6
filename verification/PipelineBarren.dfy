/** Workers whose batch size is 0 list nothing, so they never do anything. */
module PipelineBarren {
  import opened Domain
  import opened Tally
  import opened Tables
  import opened Pipeline
  import opened PipelineTables
  import opened PipelineSafety

  predicate IdleAgent(g: Agent) {
    match g
    case Open(_, ids, bad, _, _) => ids == [] && bad == {}
    case Reflecting(work, bad) => work == map[] && bad == {}
    case Retrying(bad) => bad == {}
    case Counting(_, _, _) => false
  }

  ghost predicate Barren(s: State) {
    && (forall a :: a in s.agents ==> IdleAgent(s.agents[a]))
    && (forall p :: p in s.todo ==> s.todo[p] == {})
    && s.reports == multiset{}
  }

  lemma SwappedBarren(s: State, s': State, a: Aid, g: Agent)
    requires Barren(s) && IdleAgent(g) && s'.todo == s.todo && s'.reports == s.reports
    requires s'.agents == s.agents[a := g] || s'.agents == s.agents - {a}
    ensures Barren(s')
  {
    hide IdleAgent;
  }

  lemma OpenedIdle(events: map<nat, Row>, single: bool)
    ensures IdleAgent(OpenOn(events, single, []))
  {
  }

  /** Nothing to add up, and nothing to retry. */
  lemma BarrenDisables(c: Config, s: State, step: Step)
    requires Barren(s) && Enabled(c, s, step)
    ensures !step.AddScores? && !step.RetryUpdate? && !step.RetryCommit? && !step.RetryAbort? && !step.RetryGiveUp?
  {
    assert forall a :: a in s.agents ==> IdleAgent(s.agents[a]);
  }

  lemma CommittedBarren(c: Config, s: State, a: Aid, ack: bool, now: nat)
    requires Base(c, s) && CanCommit(s, a) && Barren(s)
    ensures Barren(Committed(s, a, ack, now))
  {
    AgentIsOk(c, s, a);
    hide Base, CommittedDb;
    var g := s.agents[a];
    assert IdleAgent(g);
    assert Elems(g.ids) == {} && g.work == map[];
    SwappedBarren(s, Committed(s, a, ack, now), a, Reflecting(g.work, g.bad));
  }

  lemma LeftBarren(s: State, a: Aid, failed: bool, userHits: set<int>, guildHits: set<int>)
    requires Barren(s)
    ensures CanRollback(s, a, failed) ==> Barren(RolledBack(s, a, failed))
    ensures CanReflect(s, a) ==> Barren(Reflected(s, a, userHits, guildHits))
  {
    hide Bump;
    assert a in s.agents ==> IdleAgent(s.agents[a]);
  }

  lemma StepKeepsBarren(c: Config, s: State, step: Step)
    requires Base(c, s) && Enabled(c, s, step) && Barren(s) && c.batchSize == 0
    ensures Barren(Next(c, s, step))
  {
    BarrenDisables(c, s, step);
    if step.Commit? {
      CommittedBarren(c, s, step.a, step.ack, step.now);
    } else if step.Rollback? {
      LeftBarren(s, step.a, step.failed, {}, {});
    } else if step.Reflect? {
      LeftBarren(s, step.a, false, step.userHits, step.guildHits);
    } else if step.BatchList? {
      OpenedIdle(s.db.events, false);
      assert ListPending(s.db, Locked(s), c.batchSize, c.maxRetry) == [];
      SwappedBarren(s, Next(c, s, step), Aid(step.p, 0), OpenOn(s.db.events, false, []));
    } else {
      hide IdleAgent, Locked, Overwrite, Get, Base;
    }
  }

  lemma {:induction false} RunIsBarren(c: Config, states: seq<State>, steps: seq<Step>, n: nat)
    requires IsRun(c, states, steps) && n <= |steps| && c.batchSize == 0
    ensures Barren(states[n])
  {
    hide Enabled, Next, Barren, Inv;
    if n == 0 {
      NothingBarren(c, states[0]);
    } else {
      RunIsBarren(c, states, steps, n - 1);
      RunKeepsInv(c, states, steps, n - 1);
      InvGives(c, states[n - 1]);
      StepKeepsBarren(c, states[n - 1], steps[n - 1]);
    }
  }

  lemma NothingBarren(c: Config, s: State)
    requires Initial(c, s)
    ensures Barren(s)
  {
  }

  lemma InvGives(c: Config, s: State)
    requires Inv(c, s)
    ensures Base(c, s)
  {
  }

  lemma ReachableBarren(c: Config, s: State)
    requires Reachable(c, s) && c.batchSize == 0
    ensures Barren(s)
  {
    hide Enabled, Next, Barren;
    var states, steps :| IsRun(c, states, steps) && states[|steps|] == s;
    RunIsBarren(c, states, steps, |steps|);
  }
}
