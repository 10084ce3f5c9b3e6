/**
 * When Redis can come to show more than MySQL: exactly if the events that a value already holds and whose
 * increments may still come are worth more than what it lacks.
 */
module PipelineExcess {
  import opened Domain
  import opened Tally
  import opened Tables
  import opened Pipeline
  import opened PipelineTables
  import opened PipelineRedis
  import opened PipelineRetry
  import opened PipelineSafety
  import opened PipelinePaths
  import opened PipelineBarren

  /** Unprocessed events that some worker could still list, or has claimed, and apply. */
  function Awaiting(c: Config, s: State): set<nat> {
    if c.procs == 0 || c.batchSize == 0 then {}
    else set i | i in s.db.events && Eligible(s.db.events, i, c.maxRetry) && Decodable(s.db.events[i].content)
  }

  /** Events whose increments may still arrive. */
  function Coming(c: Config, s: State): set<nat> {
    InFlight(s.agents) + Awaiting(c, s)
  }

  /** Events in MySQL's score whose increment has not arrived since the last SET and never will. */
  function Gone(c: Config, s: State, d: Dim): set<nat> {
    Counted(s, d) - LedgerOf(s, d).reflected - Coming(c, s)
  }

  /** By how much Redis would exceed MySQL if every increment that may come arrived. */
  ghost function Peak(c: Config, s: State, d: Dim, k: int): int {
    Get(LedgerOf(s, d).z, k) - Get(TableOf(s, d), k) + Sum(s.log, Counted(s, d) * Coming(c, s), Points(d, k))
  }

  /** The same after Redis was emptied. */
  ghost function EmptyPeak(c: Config, s: State, d: Dim, k: int): int {
    Sum(s.log, Counted(s, d) * Coming(c, s), Points(d, k)) - Get(TableOf(s, d), k)
  }

  /** What holds of every reachable state. */
  ghost predicate Sound(c: Config, s: State) {
    Inv(c, s) && (c.batchSize == 0 ==> Barren(s))
  }

  lemma ReachableSound(c: Config, s: State)
    requires Reachable(c, s)
    ensures Sound(c, s)
  {
    hide Reachable, Inv, Barren;
    ReachableInv(c, s);
    if c.batchSize == 0 {
      ReachableBarren(c, s);
    }
  }

  lemma SoundGives(c: Config, s: State, d: Dim)
    requires Sound(c, s)
    ensures Base(c, s) && WorksApart(s.agents) && LedgerOk(c, s, d) && s.done <= ReadableIds(s.log)
    ensures Balanced(TableOf(s, d), Base0(c, d), s.log, Counted(s, d), d)
    ensures Counted(s, d) <= ReadableIds(s.log) && s.done <= Counted(s, d)
    ensures InFlight(s.agents) <= s.done && Awaiting(c, s) !! s.done && LedgerOf(s, d).reflected !! Coming(c, s)
  {
    LedgerFacts(c, s, d);
    hide RedisOk, RetryOk, TablesOk, InFlight, AllOk, Exclusive, RequestsOk;
  }

  /** The two peaks in terms of the events they are made of. */
  lemma PeakIs(c: Config, s: State, d: Dim, k: int)
    requires Sound(c, s)
    ensures Peak(c, s, d, k) ==
              Sum(s.log, LedgerOf(s, d).settled, Points(d, k)) - Sum(s.log, Gone(c, s, d), Points(d, k))
                                + Ground(LedgerOf(s, d), Base0(c, d), k) - Get(Base0(c, d), k)
    ensures EmptyPeak(c, s, d, k) == -Sum(s.log, Counted(s, d) - Coming(c, s), Points(d, k)) - Get(Base0(c, d), k)
  {
    SoundGives(c, s, d);
    hide Sound, Base, Coming, SyncsOk, InFlight, Awaiting, WorksApart;
    SplitCounted(s.log, Counted(s, d), Coming(c, s), LedgerOf(s, d).reflected, Points(d, k));
  }

  lemma SplitCounted(log: Log, counted: set<nat>, coming: set<nat>, reflected: set<nat>, m: Meter)
    requires reflected !! coming && reflected <= counted
    ensures Sum(log, counted, m) == Sum(log, counted * coming, m) + Sum(log, counted - coming, m)
    ensures Sum(log, counted - coming, m) == Sum(log, reflected, m) + Sum(log, counted - reflected - coming, m)
  {
    SumUnion(log, counted * coming, counted - coming, m);
    assert counted == counted * coming + (counted - coming);
    SumUnion(log, reflected, counted - reflected - coming, m);
    assert counted - coming == reflected + (counted - reflected - coming);
  }

  lemma SumSubset(log: Log, s: set<nat>, t: set<nat>, m: Meter)
    requires s <= t && forall i :: i in t ==> 0 <= Worth(log, i, m)
    ensures Sum(log, s, m) <= Sum(log, t, m)
  {
    assert t == s + (t - s);
    SumUnion(log, s, t - s, m);
    SumNonNegative(log, t - s, m);
  }

  lemma WorthNonNegative(c: Config, s: State, d: Dim, k: int)
    requires Base(c, s)
    ensures forall i :: 0 <= Worth(s.log, i, Points(d, k))
  {
  }

  // ----- no step but a SET of the row, or a flush, raises the peak

  /** Rows only age: marks stay, counts grow. */
  ghost predicate Aged(log: Log, events: map<nat, Row>, events': map<nat, Row>) {
    forall i :: i in events' && i in log ==>
      && i in events && events'[i].content == events[i].content && events[i].retry <= events'[i].retry
      && (events[i].processedAt.Some? ==> events'[i].processedAt.Some?)
  }

  lemma EventsAge(c: Config, s: State, step: Step)
    requires Base(c, s) && Enabled(c, s, step)
    ensures Aged(s.log, s.db.events, Next(c, s, step).db.events)
  {
    if step.RetryCommit? {
      hide Base;
      CountAges(c, s, step.a, step.ack);
    } else if WritesRows(step) {
      WritesAge(c, s, step);
    } else {
      hide Base, Enabled, Next;
      RowsStay(c, s, step);
    }
  }

  lemma AgedPieces(log: Log, events: map<nat, Row>, id: nat, row: Row, ids: set<nat>, now: nat)
    ensures id !in log ==> Aged(log, events, events[id := row])
    ensures Aged(log, events, Mark(events, ids, now)) && Aged(log, events, events - ids)
  {
  }

  lemma WritesAge(c: Config, s: State, step: Step)
    requires Base(c, s) && Enabled(c, s, step) && WritesRows(step) && !step.RetryCommit?
    ensures Aged(s.log, s.db.events, Next(c, s, step).db.events)
  {
    hide Exclusive, AllOk, RowsOf, Get, Aged, Mark, Eligible;
    var none := Row(Content("", Garbled("")), 0, None);
    match step
    case ReqCommit(r) =>
      var id := s.requests[r].id;
      AgedPieces(s.log, s.db.events, id, Next(c, s, step).db.events[id], {}, 0);
    case PoisonInsert(content) => AgedPieces(s.log, s.db.events, s.db.nextId, Row(content, 0, None), {}, 0);
    case Commit(a, ack, now) => AgedPieces(s.log, s.db.events, 0, none, Elems(s.agents[a].ids), now);
    case Collect(cutoff, limit, victims) => AgedPieces(s.log, s.db.events, 0, none, victims, 0);
  }

  lemma CountAges(c: Config, s: State, a: Aid, ack: bool)
    requires Base(c, s) && IsCounting(s, a)
    ensures Aged(s.log, s.db.events, RetryCommitted(c, s, a, ack).db.events)
  {
    AgentIsOk(c, s, a);
    hide Exclusive, AllOk, Park;
  }

  predicate WritesRows(step: Step) {
    step.ReqCommit? || step.PoisonInsert? || step.Commit? || step.RetryCommit? || step.Collect?
  }

  lemma RowsStay(c: Config, s: State, step: Step)
    requires Enabled(c, s, step) && !WritesRows(step)
    ensures Next(c, s, step).db.events == s.db.events
  {
    hide OpenOn, ListPending, Park, NewScores, Arrive, Overwrite, Forget, Locked, Get;
  }

  /** What is known and counted stays so. */
  ghost predicate Grown(s: State, s': State, d: Dim) {
    && s.log.Keys <= s'.log.Keys && (forall i :: i in s.log ==> s'.log[i] == s.log[i])
    && Counted(s, d) <= Counted(s', d)
  }

  lemma LogGrows(c: Config, s: State, step: Step, d: Dim)
    requires Base(c, s) && Enabled(c, s, step)
    ensures Grown(s, Next(c, s, step), d)
  {
    hide Exclusive, AllOk, Arrive, Overwrite, Forget, Get, CommittedDb, Enabled, Next;
    DoneGrows(c, s, step);
    if !TouchesRedis(step) {
      OthersLeaveRedis(c, s, step);
    } else {
      TouchGrows(c, s, step);
    }
  }

  lemma TouchGrows(c: Config, s: State, step: Step)
    requires Base(c, s) && Enabled(c, s, step) && TouchesRedis(step)
    ensures s.log.Keys <= Next(c, s, step).log.Keys && (forall i :: i in s.log ==> Next(c, s, step).log[i] == s.log[i])
  {
    hide Exclusive, AllOk, Arrive, SetRow, Forget, Get, CommittedDb, Park;
    if step.SyncSet? {
      SetParts(s, step.y, step.d, step.k, step.lands, step.acked);
    }
  }

  lemma SetParts(s: State, y: nat, d: Dim, k: int, lands: bool, acked: bool)
    requires CanSet(s, y, d, k)
    ensures SetRow(s, y, d, k, lands, acked).log == s.log
  {
  }

  /** What a commit applies was open to be processed. */
  lemma OpenAwaited(c: Config, s: State, a: Aid)
    requires Sound(c, s) && a in s.agents && s.agents[a].Open?
    ensures Elems(s.agents[a].ids) <= Awaiting(c, s)
  {
    AgentIsOk(c, s, a);
    assert c.batchSize == 0 ==> IdleAgent(s.agents[a]);
    hide RedisOk, TablesOk, RequestsOk, AllOk, Exclusive, Barren;
    assert forall i :: i in s.agents[a].ids ==> i in Held(s.agents[a]) && i in s.agents[a].work;
  }

  lemma AppliedAwaited(c: Config, s: State, step: Step)
    requires Sound(c, s)
    ensures Applied(s, step) <= Awaiting(c, s)
  {
    hide Sound, Awaiting;
    if Applied(s, step) != {} {
      OpenAwaited(c, s, step.a);
    }
  }

  lemma AwaitingFalls(c: Config, s: State, s': State)
    requires Aged(s.log, s.db.events, s'.db.events)
    ensures Awaiting(c, s') * s.log.Keys <= Awaiting(c, s)
  {
  }

  lemma ComingFalls(c: Config, s: State, step: Step)
    requires Sound(c, s) && Enabled(c, s, step)
    ensures Coming(c, Next(c, s, step)) * s.log.Keys <= Coming(c, s)
    ensures Sent(s, step) <= Coming(c, s)
  {
    SoundGives(c, s, ByUser);
    AppliedAwaited(c, s, step);
    SentFlies(s, step);
    hide Sound, Base, Enabled, Next, InFlight, Sent, Applied, WorksApart, Awaiting, Aged, LedgerOk, Balanced;
    StepKeepsFlight(c, s, step);
    EventsAge(c, s, step);
    AwaitingFalls(c, s, Next(c, s, step));
  }

  /** The account of row k moves only by increments. */
  ghost predicate RowKept(l: Ledger, l': Ledger, sent: set<nat>, own: set<nat>, k: int) {
    && l'.reflected <= l.reflected + sent
    && (forall i :: i in own ==> (i in l'.settled <==> i in l.settled))
    && (k in l'.grounded <==> k in l.grounded)
  }

  lemma OverwriteElsewhere(l: Ledger, log: Log, d: Dim, k: int, v: int, seen: set<nat>, j: int)
    requires j != k
    ensures RowKept(l, Overwrite(l, log, d, k, v, seen), {}, EventsFor(log, d, j), j)
  {
    assert EventsFor(log, d, j) !! EventsFor(log, d, k);
    hide EventsFor;
  }

  lemma SetRowElsewhere(s: State, y: nat, e: Dim, j: int, lands: bool, acked: bool, d: Dim, k: int)
    requires CanSet(s, y, e, j) && (lands ==> (e, j) != (d, k))
    ensures RowKept(LedgerOf(s, d), LedgerOf(SetRow(s, y, e, j, lands, acked), d), {}, EventsFor(s.log, d, k), k)
  {
    hide Overwrite, EventsFor, Get;
    if lands && e == d {
      var snap := SnapOf(s.syncs[y], d);
      OverwriteElsewhere(LedgerOf(s, d), s.log, d, j, Get(snap.table, j), snap.events, k);
    }
  }

  lemma SameKept(l: Ledger, l': Ledger, sent: set<nat>, own: set<nat>, k: int)
    requires l' == l
    ensures RowKept(l, l', sent, own, k)
  {
  }

  lemma FewerSent(l: Ledger, l': Ledger, sent: set<nat>, own: set<nat>, k: int)
    ensures RowKept(l, l', {}, own, k) ==> RowKept(l, l', sent, own, k)
  {
  }

  lemma LedgersStay(c: Config, s: State, step: Step)
    requires Enabled(c, s, step) && !step.Reflect? && !step.SyncSet? && !step.Flush?
    ensures Next(c, s, step).users == s.users && Next(c, s, step).guilds == s.guilds
  {
    if TouchesRedis(step) {
      hide CommittedDb, Get;
    } else {
      hide Enabled, Next;
      OthersLeaveRedis(c, s, step);
    }
  }

  lemma ReflectedKept(s: State, a: Aid, userHits: set<int>, guildHits: set<int>, d: Dim, k: int)
    requires CanReflect(s, a)
    ensures var t := Reflected(s, a, userHits, guildHits);
            RowKept(LedgerOf(s, d), LedgerOf(t, d), Sent(s, Reflect(a, userHits, guildHits)), EventsFor(t.log, d, k), k)
  {
    hide Bump, EventsFor, Park;
  }

  lemma LedgerKept(c: Config, s: State, step: Step, d: Dim, k: int)
    requires Enabled(c, s, step) && Spares(step, {(d, k)}) && !step.Flush?
    ensures var s' := Next(c, s, step);
            RowKept(LedgerOf(s, d), LedgerOf(s', d), Sent(s, step), EventsFor(s'.log, d, k), k)
  {
    hide Bump, Get, EventsFor, Sent, Park, Overwrite, InFlight, RowKept;
    if step.SyncSet? {
      SetRowElsewhere(s, step.y, step.d, step.k, step.lands, step.acked, d, k);
      FewerSent(LedgerOf(s, d), LedgerOf(Next(c, s, step), d), Sent(s, step), EventsFor(s.log, d, k), k);
    } else if step.Reflect? {
      ReflectedKept(s, step.a, step.userHits, step.guildHits, d, k);
    } else {
      hide Enabled, Next;
      LedgersStay(c, s, step);
      var t := Next(c, s, step);
      SameKept(LedgerOf(s, d), LedgerOf(t, d), Sent(s, step), EventsFor(t.log, d, k), k);
    }
  }

  lemma RowSums(c: Config, s: State, s': State, d: Dim, k: int, sent: set<nat>)
    requires Sound(c, s) && Sound(c, s') && Grown(s, s', d)
    requires RowKept(LedgerOf(s, d), LedgerOf(s', d), sent, EventsFor(s'.log, d, k), k)
    ensures Sum(s'.log, LedgerOf(s', d).settled, Points(d, k)) == Sum(s.log, LedgerOf(s, d).settled, Points(d, k))
    ensures Ground(LedgerOf(s', d), Base0(c, d), k) == Ground(LedgerOf(s, d), Base0(c, d), k)
  {
    SoundGives(c, s, d);
    hide Sound, Base, InFlight, SyncsOk, Summed, Based;
    SumSame(s.log, s'.log, LedgerOf(s, d).settled, Points(d, k));
    SumAgree(s'.log, LedgerOf(s', d).settled, LedgerOf(s, d).settled, Points(d, k));
  }

  lemma KnownSum(c: Config, s: State, s': State, d: Dim, k: int, t: set<nat>, t': set<nat>)
    requires Sound(c, s') && Grown(s, s', d) && t <= t' && t <= s.log.Keys
    ensures Sum(s.log, t, Points(d, k)) <= Sum(s'.log, t', Points(d, k))
  {
    SoundGives(c, s', d);
    hide Sound, Base, InFlight, LedgerOk;
    WorthNonNegative(c, s', d, k);
    SumSame(s.log, s'.log, t, Points(d, k));
    SumSubset(s'.log, t, t', Points(d, k));
  }

  lemma GoneGrows(c: Config, s: State, step: Step, d: Dim, k: int)
    requires Sound(c, s) && Enabled(c, s, step)
    requires var s' := Next(c, s, step);
             RowKept(LedgerOf(s, d), LedgerOf(s', d), Sent(s, step), EventsFor(s'.log, d, k), k)
    ensures Gone(c, s, d) <= Gone(c, Next(c, s, step), d) && Gone(c, s, d) <= s.log.Keys
  {
    SoundGives(c, s, d);
    hide Sound, Base, Enabled, Next, Coming, Sent, InFlight, Awaiting, LedgerOk, Balanced;
    ComingFalls(c, s, step);
    LogGrows(c, s, step, d);
  }

  lemma StepKeepsSound(c: Config, s: State, step: Step)
    requires Sound(c, s) && Enabled(c, s, step)
    ensures Sound(c, Next(c, s, step))
  {
    hide Inv, Barren, Enabled, Next, Base;
    StepKeepsInv(c, s, step);
    if c.batchSize == 0 {
      PipelineBarren.InvGives(c, s);
      StepKeepsBarren(c, s, step);
    }
  }

  lemma PeakFalls(c: Config, s: State, step: Step, d: Dim, k: int)
    requires Sound(c, s) && Enabled(c, s, step) && Spares(step, {(d, k)}) && !step.Flush?
    ensures Peak(c, Next(c, s, step), d, k) <= Peak(c, s, d, k)
  {
    hide Sound, Base, Enabled, Next, Peak, EmptyPeak, Coming, Gone, Sent, EventsFor, RowKept, Grown, Spares;
    var s' := Next(c, s, step);
    assert Base(c, s) by {
      SoundGives(c, s, d);
    }
    StepKeepsSound(c, s, step);
    LedgerKept(c, s, step, d, k);
    LogGrows(c, s, step, d);
    GoneGrows(c, s, step, d, k);
    RowSums(c, s, s', d, k, Sent(s, step));
    KnownSum(c, s, s', d, k, Gone(c, s, d), Gone(c, s', d));
    PeakIs(c, s, d, k);
    PeakIs(c, s', d, k);
  }

  lemma EmptyPeakFalls(c: Config, s: State, step: Step, d: Dim, k: int)
    requires Sound(c, s) && Enabled(c, s, step)
    ensures EmptyPeak(c, Next(c, s, step), d, k) <= EmptyPeak(c, s, d, k)
  {
    SoundGives(c, s, d);
    hide Sound, Base, Enabled, Next, Peak, EmptyPeak, Coming, Sent, Awaiting, InFlight, LedgerOk, Balanced;
    var s' := Next(c, s, step);
    StepKeepsSound(c, s, step);
    LogGrows(c, s, step, d);
    ComingFalls(c, s, step);
    PeakIs(c, s, d, k);
    PeakIs(c, s', d, k);
    KnownSum(c, s, s', d, k, Counted(s, d) - Coming(c, s), Counted(s', d) - Coming(c, s'));
  }

  lemma FlushPeaks(c: Config, s: State, d: Dim, k: int)
    ensures Peak(c, Flushed(s), d, k) == EmptyPeak(c, s, d, k)
  {
  }

  /** Neither peak is ever passed. */
  lemma {:induction false} PathFalls(c: Config, states: seq<State>, steps: seq<Step>, d: Dim, k: int, n: nat)
    requires IsPath(c, states, steps) && Sound(c, states[0]) && n <= |steps|
    requires forall m :: 0 <= m < |steps| ==> Spares(steps[m], {(d, k)})
    ensures Sound(c, states[n])
    ensures EmptyPeak(c, states[n], d, k) <= EmptyPeak(c, states[0], d, k)
    ensures Peak(c, states[n], d, k) <= Peak(c, states[0], d, k)
            || Peak(c, states[n], d, k) <= EmptyPeak(c, states[0], d, k)
  {
    hide Sound, Peak, EmptyPeak, Enabled, Next, Spares;
    if n > 0 {
      PathFalls(c, states, steps, d, k, n - 1);
      var s, step := states[n - 1], steps[n - 1];
      StepKeepsSound(c, s, step);
      EmptyPeakFalls(c, s, step, d, k);
      if step.Flush? {
        FlushPeaks(c, s, d, k);
        NextFlush(c, s);
      } else {
        PeakFalls(c, s, step, d, k);
      }
    }
  }

  lemma NextFlush(c: Config, s: State)
    ensures Enabled(c, s, Flush) && Next(c, s, Flush) == Flushed(s)
  {
  }

  /** Redis never exceeds MySQL by more than the peak. */
  lemma AtMostPeak(c: Config, s: State, d: Dim, k: int)
    requires Sound(c, s)
    ensures Get(LedgerOf(s, d).z, k) - Get(TableOf(s, d), k) <= Peak(c, s, d, k)
  {
    SoundGives(c, s, d);
    WorthNonNegative(c, s, d, k);
    hide Sound, Base, Coming, InFlight;
    SumNonNegative(s.log, Counted(s, d) * Coming(c, s), Points(d, k));
  }
}
