/**
 * Rebuilding Redis from MySQL: what an uninterrupted SyncAll leaves, when a value it SET can come to exceed
 * MySQL, and what happens when Redis is emptied while it runs.
 */
module PipelineRebuild {
  import opened Domain
  import opened Tally
  import opened Tables
  import opened Pipeline
  import opened PipelineTables
  import opened PipelineRedis
  import opened PipelineSafety
  import opened PipelinePaths
  import opened PipelineExcess
  import opened PipelineCatchUp

  // ----- when Redis can exceed MySQL

  ghost predicate ShowsMore(s: State, d: Dim, k: int) {
    Get(LedgerOf(s, d).z, k) > Get(TableOf(s, d), k)
  }

  /** Some run from here shows more than MySQL for k without another SET of k. */
  ghost predicate CanShowMore(c: Config, s: State, d: Dim, k: int) {
    exists t :: Leads(c, s, t, {(d, k)}) && ShowsMore(t, d, k)
  }

  lemma LeadsFalls(c: Config, s: State, t: State, d: Dim, k: int)
    requires Sound(c, s) && Leads(c, s, t, {(d, k)})
    ensures Sound(c, t) && (Peak(c, t, d, k) <= Peak(c, s, d, k) || Peak(c, t, d, k) <= EmptyPeak(c, s, d, k))
  {
    hide Sound, Peak, EmptyPeak, Enabled, Next, Spares;
    var states, steps :| Joins(c, s, t, {(d, k)}, states, steps);
    PathFalls(c, states, steps, d, k, |steps|);
  }

  lemma PeakIsReached(c: Config, s: State, d: Dim, k: int)
    requires Sound(c, s) && Peak(c, s, d, k) > 0
    ensures CanShowMore(c, s, d, k)
  {
    hide Sound, Leads, Peak;
    var t := ReachPeak(c, s, {(d, k)}, d, k);
    assert ShowsMore(t, d, k);
  }

  lemma FlushFirst(c: Config, s: State, d: Dim, k: int)
    requires Sound(c, s) && CanShowMore(c, Flushed(s), d, k)
    ensures CanShowMore(c, s, d, k)
  {
    hide Sound, Enabled, Next, ShowsMore, IsPath;
    var t :| Leads(c, Flushed(s), t, {(d, k)}) && ShowsMore(t, d, k);
    NextFlush(c, s);
    LeadsFirst(c, s, t, Flush, {(d, k)});
  }

  lemma LeadsFirst(c: Config, s: State, t: State, step: Step, spared: set<(Dim, int)>)
    requires Enabled(c, s, step) && Spares(step, spared) && Leads(c, Next(c, s, step), t, spared)
    ensures Leads(c, s, t, spared)
  {
    hide Enabled, Next;
    var states, steps :| Joins(c, Next(c, s, step), t, spared, states, steps);
    var states', steps' := [s] + states, [step] + steps;
    assert forall n :: 0 < n < |steps'| ==>
        steps'[n] == steps[n - 1] && states'[n] == states[n - 1] && states'[n + 1] == states[n];
    assert Joins(c, s, t, spared, states', steps');
  }

  /**
   * Short of a new SET of k, Redis can come to show more than MySQL for k exactly if its score, or an
   * emptied one, exceeds MySQL once the increments that may still come for counted events are added.
   */
  lemma WhenRedisExceeds(c: Config, s: State, d: Dim, k: int)
    requires Reachable(c, s)
    ensures var coming := Sum(s.log, Counted(s, d) * Coming(c, s), Points(d, k));
            CanShowMore(c, s, d, k) <==>
              Get(LedgerOf(s, d).z, k) + coming > Get(TableOf(s, d), k) || coming > Get(TableOf(s, d), k)
  {
    ReachableSound(c, s);
    hide Reachable, Sound, Coming, Leads;
    if CanShowMore(c, s, d, k) {
      var t :| Leads(c, s, t, {(d, k)}) && ShowsMore(t, d, k);
      LeadsFalls(c, s, t, d, k);
      AtMostPeak(c, t, d, k);
      hide Peak;
    }
    if Peak(c, s, d, k) > 0 {
      PeakIsReached(c, s, d, k);
    } else if EmptyPeak(c, s, d, k) > 0 {
      FlushPeaks(c, s, d, k);
      NextFlush(c, s);
      StepKeepsSound(c, s, Flush);
      PeakIsReached(c, Flushed(s), d, k);
      FlushFirst(c, s, d, k);
    }
  }

  // ----- right after a SET

  lemma SetSums(l: Ledger, base0: map<int, int>, log: Log, counted: set<nat>, coming: set<nat>, d: Dim, k: int,
                table: map<int, int>, seen: set<nat>)
    requires seen <= counted && l.reflected !! coming
    ensures var l', m := Overwrite(l, log, d, k, Get(table, k), seen), Points(d, k);
            && Sum(log, l'.settled, m) - Sum(log, counted - l'.reflected - coming, m)
               == Sum(log, seen * coming, m) - Sum(log, counted - seen - coming, m)
            && Ground(l', base0, k) == Get(base0, k)
  {
    var l', m := Overwrite(l, log, d, k, Get(table, k), seen), Points(d, k);
    OwnWorth(log, d, k, k);
    hide EventsFor;
    SumAgree(log, l'.settled, seen, m);
    SumAgree(log, counted - l'.reflected - coming, counted - coming, m);
    SumUnion(log, seen * coming, seen - coming, m);
    SumUnion(log, seen - coming, counted - seen - coming, m);
    assert seen == seen * coming + (seen - coming);
    assert counted - coming == (seen - coming) + (counted - seen - coming);
  }

  lemma NextSet(c: Config, s: State, y: nat, d: Dim, k: int, acked: bool)
    requires CanSet(s, y, d, k)
    ensures Enabled(c, s, SyncSet(y, d, k, true, acked))
    ensures Next(c, s, SyncSet(y, d, k, true, acked)) == SetRow(s, y, d, k, true, acked)
  {
  }

  lemma SetParts(c: Config, s: State, y: nat, d: Dim, k: int, acked: bool)
    requires CanSet(s, y, d, k)
    ensures var t := SetRow(s, y, d, k, true, acked); var snap := SnapOf(s.syncs[y], d);
            && t.log == s.log && Counted(t, d) == Counted(s, d) && Coming(c, t) == Coming(c, s)
            && TableOf(t, d) == TableOf(s, d)
            && LedgerOf(t, d) == Overwrite(LedgerOf(s, d), s.log, d, k, Get(snap.table, k), snap.events)
  {
    hide Overwrite, InFlight, Get;
  }

  lemma SetFacts(c: Config, s: State, y: nat, d: Dim, k: int, acked: bool)
    requires Sound(c, s) && CanSet(s, y, d, k)
    ensures Sound(c, SetRow(s, y, d, k, true, acked))
    ensures SnapOk(SnapOf(s.syncs[y], d), Base0(c, d), s.log, Counted(s, d), d)
            && LedgerOf(s, d).reflected !! Coming(c, s)
  {
    SoundGives(c, s, d);
    SnapInOrder(s, y, LedgerOf(s, d), Base0(c, d), d);
    hide Sound, Base, WorksApart, InFlight, SnapOk, Balanced, SetRow, Coming, Next, Enabled;
    NextSet(c, s, y, d, k, acked);
    StepKeepsSound(c, s, SyncSet(y, d, k, true, acked));
  }

  /**
   * A value just SET can be exceeded exactly if, of the events it holds, those still to come are worth more
   * than the later ones that will not: they came before the SET, and it wiped them out.
   */
  lemma AfterSet(c: Config, s: State, y: nat, d: Dim, k: int, acked: bool)
    requires Reachable(c, s) && CanSet(s, y, d, k)
    ensures var t, seen := SetRow(s, y, d, k, true, acked), SnapOf(s.syncs[y], d).events;
            CanShowMore(c, t, d, k) <==>
              || Sum(s.log, seen * Coming(c, s), Points(d, k))
                 > Sum(s.log, Counted(s, d) - seen - Coming(c, s), Points(d, k))
              || Sum(s.log, Counted(s, d) * Coming(c, s), Points(d, k)) > Get(TableOf(s, d), k)
  {
    hide Reachable, Sound, CanShowMore, Coming, Leads, Enabled, Next, SetRow, Overwrite, Balanced;
    ReachableSound(c, s);
    SetFacts(c, s, y, d, k, acked);
    SetParts(c, s, y, d, k, acked);
    var t, snap := SetRow(s, y, d, k, true, acked), SnapOf(s.syncs[y], d);
    SetReaches(c, s, y, d, k, acked);
    WhenRedisExceeds(c, t, d, k);
    PeakIs(c, t, d, k);
    SetSums(LedgerOf(s, d), Base0(c, d), s.log, Counted(s, d), Coming(c, s), d, k, snap.table, snap.events);
  }

  lemma SetReaches(c: Config, s: State, y: nat, d: Dim, k: int, acked: bool)
    requires Reachable(c, s) && CanSet(s, y, d, k)
    ensures Reachable(c, SetRow(s, y, d, k, true, acked))
  {
    hide Reachable, SetRow, Enabled, Next;
    NextSet(c, s, y, d, k, acked);
    StepReaches(c, s, SyncSet(y, d, k, true, acked));
  }

  /** Positive points of k, counted in MySQL and still to come to Redis. */
  ghost predicate CountedAndComing(c: Config, s: State, d: Dim, k: int) {
    exists i :: i in Counted(s, d) * Coming(c, s) && Worth(s.log, i, Points(d, k)) > 0
  }

  lemma {:induction false} SumPositive(log: Log, t: set<nat>, m: Meter)
    requires forall i :: i in t ==> 0 <= Worth(log, i, m)
    ensures 0 <= Sum(log, t, m)
    ensures Sum(log, t, m) > 0 <==> exists i :: i in t && Worth(log, i, m) > 0
    decreases t
  {
    SumNonNegative(log, t, m);
    if i :| i in t && Worth(log, i, m) > 0 {
      SumRemove(log, t, i, m);
      SumNonNegative(log, t - {i}, m);
    } else {
      SumZero(log, t, m);
    }
  }

  /**
   * If the value was up to date when it was SET, it can be exceeded exactly if an event of k with points is
   * counted in MySQL and can still reach Redis (or if MySQL's own value is negative and Redis is emptied).
   */
  lemma AfterFreshSet(c: Config, s: State, y: nat, d: Dim, k: int, acked: bool)
    requires Reachable(c, s) && CanSet(s, y, d, k)
    requires forall i :: i in Counted(s, d) && i in EventsFor(s.log, d, k) ==> i in SnapOf(s.syncs[y], d).events
    ensures CanShowMore(c, SetRow(s, y, d, k, true, acked), d, k) <==>
              CountedAndComing(c, s, d, k) || Get(TableOf(s, d), k) < 0
  {
    ReachableSound(c, s);
    SetFacts(c, s, y, d, k, acked);
    AfterSet(c, s, y, d, k, acked);
    SoundGives(c, s, d);
    WorthNonNegative(c, s, d, k);
    OwnWorth(s.log, d, k, k);
    hide Reachable, Sound, Base, CanShowMore, Coming, EventsFor, SetRow, Overwrite, Balanced, LedgerOk;
    var seen, m := SnapOf(s.syncs[y], d).events, Points(d, k);
    SumZero(s.log, Counted(s, d) - seen - Coming(c, s), m);
    SumAgree(s.log, seen * Coming(c, s), Counted(s, d) * Coming(c, s), m);
    SumPositive(s.log, Counted(s, d) * Coming(c, s), m);
  }
}
