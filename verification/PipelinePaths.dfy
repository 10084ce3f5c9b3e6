/** What one state of the pipeline can lead to. */
module PipelinePaths {
  import opened Domain
  import opened Tally
  import opened Pipeline

  /** The step does not SET a row in `spared`. */
  predicate Spares(step: Step, spared: set<(Dim, int)>) {
    step.SyncSet? && step.lands ==> (step.d, step.k) !in spared
  }

  ghost predicate Joins(c: Config, s: State, t: State, spared: set<(Dim, int)>, states: seq<State>, steps: seq<Step>) {
    && IsPath(c, states, steps) && states[0] == s && states[|steps|] == t
    && forall n :: 0 <= n < |steps| ==> Spares(steps[n], spared)
  }

  /** Some steps from s end in t, none of which SETs a row in `spared`. */
  ghost predicate Leads(c: Config, s: State, t: State, spared: set<(Dim, int)>) {
    exists states, steps :: Joins(c, s, t, spared, states, steps)
  }

  lemma LeadsNowhere(c: Config, s: State, spared: set<(Dim, int)>)
    ensures Leads(c, s, s, spared)
  {
    assert Joins(c, s, s, spared, [s], []);
  }

  lemma PathGrows(c: Config, states: seq<State>, steps: seq<Step>, step: Step)
    requires IsPath(c, states, steps) && Enabled(c, states[|steps|], step)
    ensures IsPath(c, states + [Next(c, states[|steps|], step)], steps + [step])
  {
    hide Enabled, Next;
    var states', steps' := states + [Next(c, states[|steps|], step)], steps + [step];
    forall n | 0 <= n < |steps'|
      ensures Enabled(c, states'[n], steps'[n]) && states'[n + 1] == Next(c, states'[n], steps'[n])
    {
      assert n < |steps| ==> states'[n] == states[n] && states'[n + 1] == states[n + 1] && steps'[n] == steps[n];
    }
  }

  lemma LeadsOn(c: Config, s: State, t: State, spared: set<(Dim, int)>, step: Step)
    requires Leads(c, s, t, spared) && Enabled(c, t, step) && Spares(step, spared)
    ensures Leads(c, s, Next(c, t, step), spared)
  {
    hide Enabled, Next;
    var states, steps :| Joins(c, s, t, spared, states, steps);
    PathGrows(c, states, steps, step);
    var states', steps' := states + [Next(c, t, step)], steps + [step];
    assert forall n :: 0 <= n < |steps'| ==> steps'[n] == if n < |steps| then steps[n] else step;
    assert Joins(c, s, Next(c, t, step), spared, states', steps');
  }

  lemma StartReaches(c: Config, s: State)
    requires Initial(c, s)
    ensures Reachable(c, s)
  {
    assert IsRun(c, [s], []);
  }

  lemma StepReaches(c: Config, s: State, step: Step)
    requires Reachable(c, s) && Enabled(c, s, step)
    ensures Reachable(c, Next(c, s, step))
  {
    hide Enabled, Next, Initial;
    var states, steps :| IsRun(c, states, steps) && states[|steps|] == s;
    PathGrows(c, states, steps, step);
    assert IsRun(c, states + [Next(c, s, step)], steps + [step]);
  }

  /** What a reachable state leads to is reachable. */
  lemma {:induction false} PathReaches(c: Config, states: seq<State>, steps: seq<Step>, n: nat)
    requires IsPath(c, states, steps) && Reachable(c, states[0]) && n <= |steps|
    ensures Reachable(c, states[n])
  {
    hide Enabled, Next, Reachable;
    if n > 0 {
      PathReaches(c, states, steps, n - 1);
      StepReaches(c, states[n - 1], steps[n - 1]);
    }
  }

  lemma LeadsReaches(c: Config, s: State, t: State, spared: set<(Dim, int)>)
    requires Reachable(c, s) && Leads(c, s, t, spared)
    ensures Reachable(c, t)
  {
    hide Enabled, Next, Reachable;
    var states, steps :| Joins(c, s, t, spared, states, steps);
    PathReaches(c, states, steps, |steps|);
  }
}
