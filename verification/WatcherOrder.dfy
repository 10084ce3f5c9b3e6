/**
 * How old the values of a subscriber can be: which one can go back in time, and who can be left behind the
 * broadcast that last changed `last`.
 */
module WatcherOrder {
  import opened Domain
  import opened Rankings
  import opened Watcher
  import opened WatcherRuns

  // ----- what a step does to one subscriber

  /** The read whose ranking is still to be sent to subscriber i, if a broadcast has one. */
  function Underway(hub: Hub, i: nat): Option<nat> {
    match hub
    case Fetched(_, _, _, clock) => Some(clock)
    case Pushing(rest, _, clock) => if i in rest then Some(clock) else None
    case _ => None
  }

  /** What was sent to a subscriber, how far its WatchUserRankings call is, the reads so far, and `Underway`. */
  datatype Line = Line(sent: seq<Sent>, caller: Caller, clock: nat, underway: Option<nat>)

  predicate Known(s: State, i: nat) {
    i in s.subs && i in s.sent && i in s.callers
  }

  function LineOf(s: State, i: nat): Line
    requires Known(s, i)
  {
    Line(s.sent[i], s.callers[i], s.clock, Underway(s.hub, i))
  }

  /** Nothing for it: at most the hub reads, or is done with a broadcast. */
  predicate Waits(a: Line, b: Line) {
    && b.sent == a.sent && b.caller == a.caller && a.clock <= b.clock
    && (b.underway == a.underway || b.underway == None || (b.underway == Some(a.clock) && a.clock < b.clock))
  }

  /** Its own first read. */
  predicate Reads(a: Line, b: Line) {
    b.sent == a.sent && b.underway == a.underway && b.clock == a.clock + 1 && b.caller.Holding?
      && b.caller.clock == a.clock
  }

  /** WatchUserRankings returns; what it read is sent if nothing was before. */
  predicate Returns(a: Line, b: Line) {
    && b.clock == a.clock && b.underway == a.underway && b.caller == Returned
    && (b.sent == a.sent
        || (a.sent == [] && a.caller.Holding? && |b.sent| == 1 && b.sent[0].initial
           && b.sent[0].clock == a.caller.clock))
  }

  /** A broadcast's ranking is sent. */
  predicate IsPushed(a: Line, b: Line) {
    && b.clock == a.clock && b.caller == a.caller && a.underway.Some? && b.underway == None
    && |b.sent| == |a.sent| + 1 && b.sent[..|a.sent|] == a.sent
    && !b.sent[|a.sent|].initial && b.sent[|a.sent|].clock == a.underway.value
  }

  predicate Moves(a: Line, b: Line) {
    Waits(a, b) || Reads(a, b) || Returns(a, b) || IsPushed(a, b)
  }

  lemma PushMoves(s: State, id: nat, i: nat)
    requires CanPush(s, id) && Known(s, i)
    ensures Known(PushedOne(s, id), i) && Moves(LineOf(s, i), LineOf(PushedOne(s, id), i))
  {
    hide Truncate, Pushed;
  }

  lemma SendMoves(s: State, id: nat, i: nat)
    requires IsHolding(s, id) && Known(s, i) && EachFine(s)
    ensures Known(InitiallySent(s, id), i) && Moves(LineOf(s, i), LineOf(InitiallySent(s, id), i))
  {
    hide Truncate, PushedInitial, Underway;
    assert Fine(s.subs[i], s.sent[i], s.lastClock, i in Rest(s.hub));
  }

  lemma StepMoves(s: State, step: Step, i: nat)
    requires EachFine(s) && Enabled(s, step) && Known(s, i)
    requires step.Register? ==> i != s.nextId + 1
    ensures Known(Next(s, step), i) && Moves(LineOf(s, i), LineOf(Next(s, step), i))
  {
    hide EachFine, OpenSubs, IsMaxLimit, NormalizeLimit, Truncate, PushedInitial, Pushed;
    if step.Push? {
      PushMoves(s, step.id, i);
    } else if step.SendInitial? {
      SendMoves(s, step.id, i);
    }
  }

  // ----- after the second value nothing goes back

  /** What was read lies in the past, and only the second value can be older than the first. */
  predicate Ordered(a: Line) {
    && (forall k :: 0 <= k < |a.sent| ==> a.sent[k].clock < a.clock)
    && (a.caller.Holding? ==> a.caller.clock < a.clock)
    && (a.underway.Some? ==> a.underway.value < a.clock && (|a.sent| >= 2 ==> a.sent[0].clock < a.underway.value))
    && (forall k :: 2 <= k < |a.sent| ==> a.sent[0].clock < a.sent[k].clock)
  }

  ghost predicate EachOrdered(s: State) {
    forall i :: Known(s, i) ==> Ordered(LineOf(s, i))
  }

  lemma MovesOrdered(a: Line, b: Line)
    requires Ordered(a) && Moves(a, b)
    ensures Ordered(b)
  {
    if IsPushed(a, b) {
      assert forall k :: 0 <= k < |a.sent| ==> b.sent[k] == b.sent[..|a.sent|][k] == a.sent[k];
    }
  }

  lemma StepKeepsEachOrdered(s: State, step: Step)
    requires Inv(s) && EachOrdered(s) && Enabled(s, step)
    ensures EachOrdered(Next(s, step))
  {
    assert Owned(s) && EachFine(s);
    hide Inv, EachFine, Moves, Ordered;
    var t := Next(s, step);
    forall i | Known(t, i) ensures Ordered(LineOf(t, i)) {
      if step.Register? && i == s.nextId + 1 {
        NewOrdered(s, step);
      } else {
        OldKnown(s, step, i);
        hide Enabled, Next, Known;
        StepMoves(s, step, i);
        MovesOrdered(LineOf(s, i), LineOf(t, i));
      }
    }
  }

  lemma OldKnown(s: State, step: Step, i: nat)
    requires Enabled(s, step) && Known(Next(s, step), i) && (step.Register? ==> i != s.nextId + 1)
    ensures Known(s, i)
  {
    hide OpenSubs, IsMaxLimit, NormalizeLimit, Truncate, PushedInitial, Pushed;
  }

  lemma NewOrdered(s: State, step: Step)
    requires Inv(s) && step.Register? && Enabled(s, step)
    ensures var t := Next(s, step); Known(t, t.nextId) && Ordered(LineOf(t, t.nextId))
  {
    hide EachFine, EachTold, FarEnough, NormalizeLimit, OpenIds;
  }

  lemma {:induction false} RunKeepsOrdered(states: seq<State>, steps: seq<Step>, n: nat)
    requires IsRun(states, steps) && n <= |steps|
    ensures EachOrdered(states[n])
  {
    hide Enabled, Next, Inv;
    if n > 0 {
      RunKeepsOrdered(states, steps, n - 1);
      RunKeepsInv(states, steps, n - 1);
      hide EachOrdered;
      StepKeepsEachOrdered(states[n - 1], steps[n - 1]);
    }
  }

  /** Every value but the second is newer than the first, and the broadcasts arrive in the order they read. */
  lemma OnlySecondCanBeOlder(s: State, i: nat)
    requires Reachable(s) && i in s.subs && i in s.sent
    ensures forall k :: 2 <= k < |s.sent[i]| ==> s.sent[i][0].clock < s.sent[i][k].clock
    ensures forall j, k :: 1 <= j < k < |s.sent[i]| ==> s.sent[i][j].clock < s.sent[i][k].clock
  {
    hide Enabled, Next;
    var states, steps :| IsRun(states, steps) && states[|steps|] == s;
    RunKeepsOrdered(states, steps, |steps|);
    RunKeepsInv(states, steps, |steps|);
    assert Fine(s.subs[i], s.sent[i], s.lastClock, i in Rest(s.hub));
    assert Known(s, i) && Ordered(LineOf(s, i));
  }

  // ----- which read a value came from

  /** Before step n, `step` read the ranking as number `clock`. */
  ghost predicate ReadAt(states: seq<State>, steps: seq<Step>, n: nat, step: Step, clock: nat)
    requires |states| == |steps| + 1 && n <= |steps|
  {
    exists m :: 0 <= m < n && steps[m] == step && states[m].clock == clock
  }

  function ReadStep(i: nat, v: Sent): Step {
    if v.initial then ReadInitial(i) else Fetch(true)
  }

  ghost predicate Traced(states: seq<State>, steps: seq<Step>, n: nat, i: nat, a: Line)
    requires |states| == |steps| + 1 && n <= |steps|
  {
    && (forall k :: 0 <= k < |a.sent| ==> ReadAt(states, steps, n, ReadStep(i, a.sent[k]), a.sent[k].clock))
    && (a.caller.Holding? ==> ReadAt(states, steps, n, ReadInitial(i), a.caller.clock))
  }

  ghost predicate HubTraced(states: seq<State>, steps: seq<Step>, n: nat, s: State)
    requires |states| == |steps| + 1 && n <= |steps|
  {
    && (s.hub.Fetched? ==> ReadAt(states, steps, n, Fetch(true), s.hub.clock))
    && (s.hub.Pushing? ==> ReadAt(states, steps, n, Fetch(true), s.hub.clock))
    && (s.lastClock > 0 ==> ReadAt(states, steps, n, Fetch(true), s.lastClock))
  }

  lemma ReadAtLater(states: seq<State>, steps: seq<Step>, m: nat, n: nat)
    requires |states| == |steps| + 1 && m <= n <= |steps|
    ensures forall step, clock :: ReadAt(states, steps, m, step, clock) ==> ReadAt(states, steps, n, step, clock)
  {
  }

  lemma TracedMoves(states: seq<State>, steps: seq<Step>, n: nat, i: nat, a: Line, b: Line)
    requires |states| == |steps| + 1 && n < |steps| && Traced(states, steps, n, i, a) && Moves(a, b)
    requires b.caller.Holding? && b.caller != a.caller ==> ReadAt(states, steps, n + 1, ReadInitial(i), b.caller.clock)
    requires a.underway.Some? ==> ReadAt(states, steps, n, Fetch(true), a.underway.value)
    ensures Traced(states, steps, n + 1, i, b)
  {
    ReadAtLater(states, steps, n, n + 1);
    hide ReadAt;
    if IsPushed(a, b) {
      assert forall k :: 0 <= k < |a.sent| ==> b.sent[k] == b.sent[..|a.sent|][k] == a.sent[k];
    }
  }

  /** Only its own read brings it a new first value. */
  lemma NewHolding(s: State, step: Step, i: nat)
    requires Enabled(s, step) && Known(s, i) && Known(Next(s, step), i) && (step.Register? ==> i != s.nextId + 1)
    ensures var caller := Next(s, step).callers[i];
            caller.Holding? && caller != s.callers[i] ==> step == ReadInitial(i) && caller.clock == s.clock
  {
    hide OpenSubs, IsMaxLimit, NormalizeLimit, Truncate, PushedInitial, Pushed;
  }

  /** Only Fetch gives the hub another clock. */
  lemma NewHubClock(s: State, step: Step)
    requires Enabled(s, step)
    ensures var t := Next(s, step);
            && (t.hub.Fetched? ==>
                 (s.hub.Fetched? && t.hub.clock == s.hub.clock) || (step == Fetch(true) && t.hub.clock == s.clock))
            && (t.hub.Pushing? ==> (s.hub.Pushing? || s.hub.Fetched?) && t.hub.clock == s.hub.clock)
            && (t.lastClock == s.lastClock || (s.hub.Fetched? && t.lastClock == s.hub.clock))
  {
    hide OpenSubs, IsMaxLimit, NormalizeLimit, Truncate, PushedInitial, Pushed;
  }

  lemma {:induction false} RunTracesHub(states: seq<State>, steps: seq<Step>, n: nat)
    requires IsRun(states, steps) && n <= |steps|
    ensures HubTraced(states, steps, n, states[n])
  {
    hide Enabled, Next;
    if n > 0 {
      RunTracesHub(states, steps, n - 1);
      NewHubClock(states[n - 1], steps[n - 1]);
      ReadAtLater(states, steps, n - 1, n);
      assert steps[n - 1] == Fetch(true) ==> ReadAt(states, steps, n, Fetch(true), states[n - 1].clock);
      hide ReadAt;
    }
  }

  lemma {:induction false} RunIsTraced(states: seq<State>, steps: seq<Step>, n: nat, i: nat)
    requires IsRun(states, steps) && n <= |steps| && Known(states[n], i)
    ensures Traced(states, steps, n, i, LineOf(states[n], i))
  {
    hide Enabled, Next, Moves, EachFine;
    if n > 0 {
      var s, step := states[n - 1], steps[n - 1];
      RunKeepsInv(states, steps, n - 1);
      if step.Register? && i == s.nextId + 1 {
        NewLine(s, step);
      } else {
        OldKnown(s, step, i);
        RunIsTraced(states, steps, n - 1, i);
        RunTracesHub(states, steps, n - 1);
        assert steps[n - 1] == step && states[n - 1].clock == s.clock;
        hide Known, Inv;
        StepMoves(s, step, i);
        NewHolding(s, step, i);
        TracedMoves(states, steps, n - 1, i, LineOf(s, i), LineOf(states[n], i));
      }
    }
  }

  lemma NewLine(s: State, step: Step)
    requires Inv(s) && step.Register? && Enabled(s, step)
    ensures var t, id := Next(s, step), s.nextId + 1; Known(t, id) && t.sent[id] == [] && t.callers[id] == Reading
  {
    hide EachFine, EachTold, FarEnough, NormalizeLimit, OpenIds;
  }

  lemma {:induction false} ClockRuns(states: seq<State>, steps: seq<Step>, m: nat, n: nat)
    requires IsRun(states, steps) && m <= n <= |steps|
    ensures states[m].clock <= states[n].clock
    ensures m < n && (steps[m].ReadInitial? || steps[m] == Fetch(true)) ==> states[m].clock < states[n].clock
    decreases n - m
  {
    if m < n {
      assert Enabled(states[m], steps[m]) && states[m + 1] == Next(states[m], steps[m]);
      ClockRuns(states, steps, m + 1, n);
    }
  }

  /** A step `first` that read the ranking as number `clock` came before a step `second` that read it as `clock'`. */
  ghost predicate Earlier(states: seq<State>, steps: seq<Step>, n: nat, first: Step, clock: nat, second: Step,
                          clock': nat)
    requires |states| == |steps| + 1 && n <= |steps|
  {
    exists m, f :: 0 <= m < f < n && steps[m] == first && states[m].clock == clock && steps[f] == second
      && states[f].clock == clock'
  }

  /** Of two reads, the one with the smaller number came first. */
  lemma ReadsInOrder(states: seq<State>, steps: seq<Step>, n: nat, a: Step, c: nat, b: Step, d: nat)
    requires IsRun(states, steps) && n <= |steps| && ReadAt(states, steps, n, a, c) && ReadAt(states, steps, n, b, d)
    requires (a.ReadInitial? || a == Fetch(true)) && (b.ReadInitial? || b == Fetch(true))
    ensures c < d <==> Earlier(states, steps, n, a, c, b, d)
  {
    hide Enabled, Next;
    var m :| 0 <= m < n && steps[m] == a && states[m].clock == c;
    var f :| 0 <= f < n && steps[f] == b && states[f].clock == d;
    if c < d {
      if f <= m {
        ClockRuns(states, steps, f, m);
      }
    } else if Earlier(states, steps, n, a, c, b, d) {
      var x, y :| 0 <= x < y < n && steps[x] == a && states[x].clock == c && steps[y] == b && states[y].clock == d;
      ClockRuns(states, steps, x, y);
    }
  }

  /** The second value is older than the first exactly if its broadcast read the ranking before the first read did. */
  lemma SecondIsOlder(states: seq<State>, steps: seq<Step>, n: nat, i: nat)
    requires IsRun(states, steps) && n <= |steps| && i in states[n].subs && i in states[n].sent
    requires |states[n].sent[i]| >= 2 && states[n].sent[i][0].initial
    ensures var first, second := states[n].sent[i][0], states[n].sent[i][1];
            second.clock < first.clock <==>
                Earlier(states, steps, n, Fetch(true), second.clock, ReadInitial(i), first.clock)
  {
    hide Enabled, Next;
    var s := states[n];
    RunKeepsInv(states, steps, n);
    assert Known(s, i) && Fine(s.subs[i], s.sent[i], s.lastClock, i in Rest(s.hub));
    RunIsTraced(states, steps, n, i);
    hide ReadAt, Earlier, Inv;
    assert ReadStep(i, s.sent[i][0]) == ReadInitial(i) && ReadStep(i, s.sent[i][1]) == Fetch(true);
    ReadsInOrder(states, steps, n, Fetch(true), s.sent[i][1].clock, ReadInitial(i), s.sent[i][0].clock);
  }

  // ----- who can be left behind

  /** Whatever it read or will be sent first was read after number `clock`. */
  predicate FirstAfter(sent: seq<Sent>, caller: Caller, clock: nat) {
    && (sent != [] ==> clock < sent[0].clock)
    && (caller.Holding? ==> clock < caller.clock)
  }

  /** A registered subscriber was in the broadcast, came too late for it, or reads after it. */
  predicate Placed(sent: seq<Sent>, caller: Caller, clock: nat, ids: set<nat>, late: set<nat>, i: nat) {
    i in ids || i in late || FirstAfter(sent, caller, clock)
  }

  predicate LastIs(sent: seq<Sent>, lastClock: nat) {
    sent != [] && sent[|sent| - 1].clock == lastClock
  }

  ghost predicate Kept(s: State, i: nat)
    requires Known(s, i)
  {
    && Placed(s.sent[i], s.callers[i], s.lastClock, s.audience, s.late, i)
    && (i in s.audience && i !in Rest(s.hub) ==> LastIs(s.sent[i], s.lastClock))
    && (s.hub.Snapped? ==> i in s.hub.ids || i in s.joining)
    && (s.hub.Fetched? ==> Placed(s.sent[i], s.callers[i], s.hub.clock, s.hub.ids, s.joining, i))
  }

  /** Those who come too late for a broadcast are not in it. */
  predicate Apart(s: State) {
    && (s.hub.Snapped? || s.hub.Fetched? ==> s.hub.ids !! s.joining)
    && s.audience !! s.late
  }

  ghost predicate EachKept(s: State) {
    forall i :: Known(s, i) && i in s.registered ==> Kept(s, i)
  }

  lemma StepKeepsApart(s: State, step: Step)
    requires Owned(s) && HubOk(s) && Apart(s) && Enabled(s, step)
    ensures Apart(Next(s, step))
  {
    hide OpenSubs, IsMaxLimit, NormalizeLimit, Truncate, PushedInitial, Pushed, OpenIds, Owners;
  }

  /** What one subscriber's line does leaves its place as it is. */
  lemma MovesPlaced(a: Line, b: Line, clock: nat, ids: set<nat>, late: set<nat>, i: nat)
    requires Moves(a, b) && Placed(a.sent, a.caller, clock, ids, late, i) && Ordered(a) && clock < a.clock
    requires i !in ids ==> !IsPushed(a, b)
    ensures Placed(b.sent, b.caller, clock, ids, late, i)
  {
  }

  lemma MovesLast(a: Line, b: Line, lastClock: nat)
    requires Moves(a, b) && !IsPushed(a, b) && LastIs(a.sent, lastClock)
    ensures LastIs(b.sent, lastClock)
  {
  }

  predicate MovesHub(step: Step) {
    step.Snapshot? || step.Fetch? || step.Commit? || step.Push?
  }

  lemma KeptByHub(s: State, step: Step, i: nat)
    requires Owned(s) && HubOk(s) && EachFine(s) && Apart(s) && Enabled(s, step) && MovesHub(step)
    requires Known(s, i) && i in s.registered && Kept(s, i)
    ensures Known(Next(s, step), i) && Kept(Next(s, step), i)
  {
    hide OpenSubs, IsMaxLimit, Truncate, FirstAfter, EachFine, Fine;
    if step.Push? {
      KeptByPush(s, step.id, i);
    }
  }

  lemma KeptByPush(s: State, id: nat, i: nat)
    requires Owned(s) && HubOk(s) && CanPush(s, id) && Known(s, i) && i in s.registered && Kept(s, i)
    ensures Known(PushedOne(s, id), i) && Kept(PushedOne(s, id), i)
  {
    hide Truncate, Pushed, FirstAfter;
    assert i in Owners(s);
    assert i in OpenIds(s.subs);
  }

  /** The other steps leave the hub alone, and start or end at most its loop. */
  lemma HubStays(s: State, step: Step)
    requires Owned(s) && Enabled(s, step) && !MovesHub(step)
    ensures var t := Next(s, step);
            && t.audience == s.audience && t.late == s.late && t.lastClock == s.lastClock
            && (t.registered != {} ==>
                 Rest(t.hub) == Rest(s.hub)
                   && (t.hub == s.hub || (s.hub == Starting && !t.hub.Snapped? && !t.hub.Fetched?)))
            && s.joining <= t.joining
  {
    hide OpenSubs, IsMaxLimit, NormalizeLimit, Truncate, PushedInitial, OpenIds;
  }

  lemma NotPushed(s: State, step: Step, i: nat)
    requires Known(s, i) && Enabled(s, step) && Known(Next(s, step), i) && !MovesHub(step)
    ensures !IsPushed(LineOf(s, i), LineOf(Next(s, step), i))
  {
    hide OpenSubs, IsMaxLimit, NormalizeLimit, Truncate, PushedInitial;
  }

  lemma KeptByOthers(s: State, step: Step, i: nat)
    requires Inv(s) && EachOrdered(s) && Enabled(s, step) && !MovesHub(step)
    requires Known(s, i) && i in s.registered && Kept(s, i) && i in Next(s, step).registered
    requires step.Register? ==> i != s.nextId + 1
    ensures Known(Next(s, step), i) && Kept(Next(s, step), i)
  {
    assert Owned(s) && HubOk(s) && EachFine(s) && Ordered(LineOf(s, i));
    hide Inv, Owned, EachFine, EachOrdered, Enabled, Next, Moves, Ordered, Placed, LastIs, Known, IsPushed;
    var t := Next(s, step);
    StepMoves(s, step, i);
    NotPushed(s, step, i);
    HubStays(s, step);
    MovesPlaced(LineOf(s, i), LineOf(t, i), s.lastClock, s.audience, s.late, i);
    if i in s.audience && i !in Rest(s.hub) {
      MovesLast(LineOf(s, i), LineOf(t, i), s.lastClock);
    }
    if s.hub.Fetched? {
      MovesPlaced(LineOf(s, i), LineOf(t, i), s.hub.clock, s.hub.ids, s.joining, i);
      MorePlaced(t.sent[i], t.callers[i], s.hub.clock, s.hub.ids, s.joining, t.joining, i);
    }
  }

  lemma MorePlaced(sent: seq<Sent>, caller: Caller, clock: nat, ids: set<nat>, late: set<nat>, late': set<nat>, i: nat)
    requires Placed(sent, caller, clock, ids, late, i) && late <= late'
    ensures Placed(sent, caller, clock, ids, late', i)
  {
  }

  lemma NewKept(s: State, step: Step)
    requires Owned(s) && HubOk(s) && step.Register? && Enabled(s, step)
    ensures var t := Next(s, step); Known(t, s.nextId + 1) && Kept(t, s.nextId + 1)
  {
    hide NormalizeLimit, OpenIds;
  }

  lemma StepKeepsEachKept(s: State, step: Step)
    requires Inv(s) && EachOrdered(s) && Apart(s) && EachKept(s) && Enabled(s, step)
    ensures EachKept(Next(s, step))
  {
    assert Owned(s) && HubOk(s) && EachFine(s);
    hide Inv, Owned, HubOk, EachFine, EachOrdered, Kept, Apart;
    var t := Next(s, step);
    forall i | Known(t, i) && i in t.registered ensures Kept(t, i) {
      if step.Register? && i == s.nextId + 1 {
        NewKept(s, step);
      } else {
        OldKnown(s, step, i);
        OldRegistered(s, step, i);
        hide Enabled, Next, Known;
        if MovesHub(step) {
          KeptByHub(s, step, i);
        } else {
          KeptByOthers(s, step, i);
        }
      }
    }
  }

  lemma OldRegistered(s: State, step: Step, i: nat)
    requires Enabled(s, step) && i in Next(s, step).registered && (step.Register? ==> i != s.nextId + 1)
    ensures i in s.registered
  {
    hide OpenSubs, IsMaxLimit, NormalizeLimit, Truncate, PushedInitial, Pushed;
  }

  lemma {:induction false} RunKeepsKept(states: seq<State>, steps: seq<Step>, n: nat)
    requires IsRun(states, steps) && n <= |steps|
    ensures Apart(states[n]) && EachKept(states[n])
  {
    hide Enabled, Next;
    if n > 0 {
      RunKeepsKept(states, steps, n - 1);
      RunKeepsInv(states, steps, n - 1);
      RunKeepsOrdered(states, steps, n - 1);
      assert Owned(states[n - 1]) && HubOk(states[n - 1]);
      hide EachKept, EachOrdered, Inv, Owned, HubOk, Apart;
      StepKeepsApart(states[n - 1], steps[n - 1]);
      StepKeepsEachKept(states[n - 1], steps[n - 1]);
    }
  }

  /**
   * Who is left behind.  Between broadcasts a registered subscriber that was sent anything was last sent
   * something read before the broadcast that last changed `last` exactly if it registered after that
   * broadcast's snapshot, and its own first read came before the broadcast's.
   */
  lemma OnlyLateAreLeftBehind(states: seq<State>, steps: seq<Step>, n: nat, i: nat)
    requires IsRun(states, steps) && n <= |steps| && states[n].hub == Idle
    requires i in states[n].registered && i in states[n].subs && i in states[n].sent && states[n].sent[i] != []
    ensures var s := states[n];
            s.sent[i][|s.sent[i]| - 1].clock < s.lastClock <==>
              i in s.late && Earlier(states, steps, n, ReadInitial(i), s.sent[i][0].clock, Fetch(true), s.lastClock)
  {
    hide Enabled, Next;
    var s := states[n];
    RunKeepsInv(states, steps, n);
    RunKeepsKept(states, steps, n);
    assert Known(s, i) && Kept(s, i);
    RunIsTraced(states, steps, n, i);
    RunTracesHub(states, steps, n);
    if i in s.late {
      LateIsInitial(s, i);
      hide Earlier, ReadAt, Inv;
      if s.lastClock > 0 {
        ReadsInOrder(states, steps, n, ReadInitial(i), s.sent[i][0].clock, Fetch(true), s.lastClock);
      } else {
        NothingEarlier(states, steps, n, ReadInitial(i), s.sent[i][0].clock);
      }
    } else if i !in s.audience {
      LateIsInitial(s, i);
    }
  }

  /** Outside the audience only the first read was sent. */
  lemma LateIsInitial(s: State, i: nat)
    requires Inv(s) && i in s.registered && i !in s.audience && Known(s, i) && s.sent[i] != []
    ensures |s.sent[i]| == 1 && s.sent[i][0].initial
  {
    assert Told(s.subs[i], s.sent[i], s.last, false, i in Rest(s.hub), true);
    assert Fine(s.subs[i], s.sent[i], s.lastClock, i in Rest(s.hub));
    OnlyInitialIsOne(s.subs[i], s.sent[i], s.lastClock, i in Rest(s.hub));
  }

  lemma NothingEarlier(states: seq<State>, steps: seq<Step>, n: nat, step: Step, clock: nat)
    requires IsRun(states, steps) && n <= |steps| && (step.ReadInitial? || step == Fetch(true))
    ensures !Earlier(states, steps, n, step, clock, Fetch(true), 0)
  {
    hide Enabled, Next;
    if Earlier(states, steps, n, step, clock, Fetch(true), 0) {
      var m, f :| 0 <= m < f < n && steps[m] == step && states[m].clock == clock && steps[f] == Fetch(true)
        && states[f].clock == 0;
      ClockRuns(states, steps, m, f);
    }
  }
}
