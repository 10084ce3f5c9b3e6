/**
 * processBatch: one feeder hands candidate ids over an unbuffered channel to `concurrency` goroutines;
 * the first error cancels.  Each step is one handover, one lock-protected block, or one channel operation.
 */
module Dispatch {

  datatype Lane =
    | Waiting
    | Working(id: nat)
    /** Has stored its error under the lock and is about to cancel. */
    | Failing(id: nat)
    | Returned

  datatype Verdict = Progressed | NotProgressed | Errored

  datatype Outcome = Outcome(id: nat, verdict: Verdict)

  datatype Result = Count(progressed: nat) | FirstErr | ContextErr

  datatype Feeder = Feeding | Closed(aborted: bool) | Joined(result: Result)

  datatype State = State(
    next: nat,
    lanes: seq<Lane>,
    feeder: Feeder,
    cancelled: bool,
    failed: bool,
    progressed: nat,
    /** How often `ids` was closed, and what became of each id that was handed over. */
    closes: nat,
    outcomes: seq<Outcome>)

  datatype Step =
    | Hand(l: nat)
    | Finish(l: nat, ok: bool)
    | Fail(l: nat)
    | Cancel(l: nat)
    | ParentCancel
    | Break
    | CloseAll
    | Leave(l: nat)
    | Join

  predicate InLane(s: State, l: nat) {
    l < |s.lanes|
  }

  predicate Enabled(cands: seq<nat>, s: State, step: Step) {
    match step
    case Hand(l) => InLane(s, l) && s.feeder == Feeding && s.next < |cands| && s.lanes[l] == Waiting
    case Finish(l, ok) => InLane(s, l) && s.lanes[l].Working?
    case Fail(l) => InLane(s, l) && s.lanes[l].Working?
    case Cancel(l) => InLane(s, l) && s.lanes[l].Failing?
    case ParentCancel => !s.cancelled
    case Break => s.feeder == Feeding && s.next < |cands| && s.cancelled
    case CloseAll => s.feeder == Feeding && s.next == |cands|
    case Leave(l) => InLane(s, l) && s.feeder.Closed? && s.lanes[l] == Waiting
    case Join => s.feeder.Closed? && forall l :: 0 <= l < |s.lanes| ==> s.lanes[l] == Returned
  }

  function Next(cands: seq<nat>, s: State, step: Step): State
    requires Enabled(cands, s, step)
  {
    match step
    case Hand(l) => s.(next := s.next + 1, lanes := s.lanes[l := Working(cands[s.next])])
    case Finish(l, ok) =>
      s.(lanes := s.lanes[l := Waiting],
         progressed := if ok then s.progressed + 1 else s.progressed,
         outcomes := s.outcomes + [Outcome(s.lanes[l].id, if ok then Progressed else NotProgressed)])
    case Fail(l) =>
      s.(lanes := s.lanes[l := Failing(s.lanes[l].id)], failed := true,
         outcomes := s.outcomes + [Outcome(s.lanes[l].id, Errored)])
    case Cancel(l) => s.(lanes := s.lanes[l := Returned], cancelled := true)
    case ParentCancel => s.(cancelled := true)
    case Break => s.(feeder := Closed(true), closes := s.closes + 1)
    case CloseAll => s.(feeder := Closed(false), closes := s.closes + 1)
    case Leave(l) => s.(lanes := s.lanes[l := Returned])
    case Join =>
      s.(feeder := Joined(if s.failed then FirstErr else if s.feeder.aborted then ContextErr else Count(s.progressed)))
  }

  function Start(concurrency: nat): State {
    State(0, seq(concurrency, _ => Waiting), Feeding, false, false, 0, 0, [])
  }

  predicate IsRun(cands: seq<nat>, states: seq<State>, steps: seq<Step>) {
    && |states| == |steps| + 1
    && forall n :: 0 <= n < |steps| ==>
         Enabled(cands, states[n], steps[n]) && states[n + 1] == Next(cands, states[n], steps[n])
  }

  // ----- where every candidate is

  function InHand(lanes: seq<Lane>): multiset<nat> {
    if lanes == [] then multiset{} else InHand(lanes[..|lanes| - 1]) + Carried(lanes[|lanes| - 1])
  }

  function Carried(lane: Lane): multiset<nat> {
    if lane.Working? then multiset{lane.id} else multiset{}
  }

  function IdsOf(outcomes: seq<Outcome>): multiset<nat> {
    if outcomes == [] then multiset{}
    else IdsOf(outcomes[..|outcomes| - 1]) + multiset{outcomes[|outcomes| - 1].id}
  }

  function CountOf(outcomes: seq<Outcome>, v: Verdict): nat {
    if outcomes == [] then 0
    else CountOf(outcomes[..|outcomes| - 1], v) + if outcomes[|outcomes| - 1].verdict == v then 1 else 0
  }

  lemma {:induction false} InHandUpdate(lanes: seq<Lane>, l: nat, lane: Lane)
    requires l < |lanes|
    ensures InHand(lanes[l := lane]) + Carried(lanes[l]) == InHand(lanes) + Carried(lane)
  {
    hide Carried;
    var last := |lanes| - 1;
    var front, front' := lanes[..last], lanes[l := lane][..last];
    if l == last {
      assert front' == front;
      Swap(InHand(front), Carried(lane), Carried(lanes[l]));
    } else {
      assert front' == front[l := lane];
      InHandUpdate(front, l, lane);
      Swap(InHand(front'), Carried(lanes[last]), Carried(lanes[l]));
      Swap(InHand(front), Carried(lanes[last]), Carried(lane));
    }
  }

  lemma Swap(a: multiset<nat>, b: multiset<nat>, c: multiset<nat>)
    ensures a + b + c == a + c + b
  {
  }

  lemma OutcomeSnoc(outcomes: seq<Outcome>, o: Outcome)
    ensures IdsOf(outcomes + [o]) == IdsOf(outcomes) + multiset{o.id}
  {
    assert (outcomes + [o])[..|outcomes|] == outcomes;
  }

  lemma CountSnoc(outcomes: seq<Outcome>, o: Outcome, v: Verdict)
    ensures CountOf(outcomes + [o], v) == CountOf(outcomes, v) + if o.verdict == v then 1 else 0
  {
    assert (outcomes + [o])[..|outcomes|] == outcomes;
  }

  /** Every candidate handed over so far is in a goroutine's hands or has exactly one outcome. */
  predicate Tracked(handed: seq<nat>, outcomes: seq<Outcome>, lanes: seq<Lane>) {
    multiset(handed) == IdsOf(outcomes) + InHand(lanes)
  }

  predicate LanesOk(s: State) {
    && (s.feeder == Feeding && !s.cancelled ==> forall l :: 0 <= l < |s.lanes| ==> s.lanes[l] != Returned)
    && (forall l :: 0 <= l < |s.lanes| && s.lanes[l].Failing? ==> s.failed)
  }

  predicate ReturnOk(cands: seq<nat>, s: State) {
    && (s.feeder.Closed? && !s.feeder.aborted ==> s.next == |cands|)
    && (s.feeder.Joined? ==>
          (&& (forall l :: 0 <= l < |s.lanes| ==> s.lanes[l] == Returned)
           && (s.feeder.result == FirstErr <==> s.failed)
           && (s.feeder.result.Count? ==> s.next == |cands| && s.feeder.result.progressed == s.progressed)))
  }

  predicate Inv(cands: seq<nat>, concurrency: nat, s: State) {
    && |s.lanes| == concurrency && s.next <= |cands|
    && s.closes == (if s.feeder == Feeding then 0 else 1)
    && Tracked(cands[..s.next], s.outcomes, s.lanes)
    && Counts(s) && LanesOk(s) && ReturnOk(cands, s)
  }

  lemma StartInv(cands: seq<nat>, concurrency: nat)
    ensures Inv(cands, concurrency, Start(concurrency))
  {
    NothingInHand(concurrency);
    assert cands[..0] == [];
  }

  lemma {:induction false} NothingInHand(concurrency: nat)
    ensures InHand(seq(concurrency, _ => Waiting)) == multiset{}
  {
    if concurrency != 0 {
      var lanes: seq<Lane> := seq(concurrency, _ => Waiting);
      assert lanes[..concurrency - 1] == seq(concurrency - 1, _ => Waiting);
      NothingInHand(concurrency - 1);
    }
  }

  lemma HandTracked(handed: seq<nat>, id: nat, outcomes: seq<Outcome>, lanes: seq<Lane>, l: nat)
    requires l < |lanes| && lanes[l] == Waiting && Tracked(handed, outcomes, lanes)
    ensures Tracked(handed + [id], outcomes, lanes[l := Working(id)])
  {
    hide InHand, IdsOf;
    InHandUpdate(lanes, l, Working(id));
    assert multiset(handed + [id]) == multiset(handed) + multiset{id};
    assert InHand(lanes[l := Working(id)]) == InHand(lanes) + multiset{id};
  }

  lemma OutcomeTracked(handed: seq<nat>, v: Verdict, outcomes: seq<Outcome>, lanes: seq<Lane>, l: nat, lane: Lane)
    requires l < |lanes| && lanes[l].Working? && !lane.Working? && Tracked(handed, outcomes, lanes)
    ensures Tracked(handed, outcomes + [Outcome(lanes[l].id, v)], lanes[l := lane])
  {
    hide InHand, IdsOf;
    InHandUpdate(lanes, l, lane);
    OutcomeSnoc(outcomes, Outcome(lanes[l].id, v));
    assert InHand(lanes[l := lane]) + multiset{lanes[l].id} == InHand(lanes);
  }

  lemma IdleTracked(handed: seq<nat>, outcomes: seq<Outcome>, lanes: seq<Lane>, l: nat, lane: Lane)
    requires l < |lanes| && !lanes[l].Working? && !lane.Working? && Tracked(handed, outcomes, lanes)
    ensures Tracked(handed, outcomes, lanes[l := lane])
  {
    hide InHand, IdsOf;
    InHandUpdate(lanes, l, lane);
    assert InHand(lanes[l := lane]) + multiset{} == InHand(lanes) + multiset{};
    assert InHand(lanes) + multiset{} == InHand(lanes);
  }

  lemma StepTracks(cands: seq<nat>, s: State, step: Step)
    requires s.next <= |cands| && Tracked(cands[..s.next], s.outcomes, s.lanes) && Enabled(cands, s, step)
    ensures var s' := Next(cands, s, step);
            s'.next <= |cands| && Tracked(cands[..s'.next], s'.outcomes, s'.lanes)
  {
    hide Tracked;
    var handed := cands[..s.next];
    match step
    case Hand(l) =>
      assert cands[..s.next + 1] == handed + [cands[s.next]];
      HandTracked(handed, cands[s.next], s.outcomes, s.lanes, l);
    case Finish(l, ok) =>
      OutcomeTracked(handed, if ok then Progressed else NotProgressed, s.outcomes, s.lanes, l, Waiting);
    case Fail(l) => OutcomeTracked(handed, Errored, s.outcomes, s.lanes, l, Failing(s.lanes[l].id));
    case Cancel(l) => IdleTracked(handed, s.outcomes, s.lanes, l, Returned);
    case Leave(l) => IdleTracked(handed, s.outcomes, s.lanes, l, Returned);
    case ParentCancel =>
    case Break =>
    case CloseAll =>
    case Join =>
  }

  lemma StepKeepsLanes(cands: seq<nat>, s: State, step: Step)
    requires LanesOk(s) && ReturnOk(cands, s) && Enabled(cands, s, step)
    ensures LanesOk(Next(cands, s, step)) && ReturnOk(cands, Next(cands, s, step))
  {
  }

  predicate Counts(s: State) {
    s.progressed == CountOf(s.outcomes, Progressed) && (s.failed <==> CountOf(s.outcomes, Errored) > 0)
  }

  lemma StepCounts(cands: seq<nat>, s: State, step: Step)
    requires Counts(s) && Enabled(cands, s, step)
    ensures Counts(Next(cands, s, step))
  {
    hide CountOf;
    if step.Finish? || step.Fail? {
      var verdict := if step.Fail? then Errored else if step.ok then Progressed else NotProgressed;
      CountSnoc(s.outcomes, Outcome(s.lanes[step.l].id, verdict), Progressed);
      CountSnoc(s.outcomes, Outcome(s.lanes[step.l].id, verdict), Errored);
    }
  }

  lemma StepKeepsInv(cands: seq<nat>, concurrency: nat, s: State, step: Step)
    requires Inv(cands, concurrency, s) && Enabled(cands, s, step)
    ensures Inv(cands, concurrency, Next(cands, s, step))
  {
    hide Tracked, Counts, LanesOk, ReturnOk;
    StepTracks(cands, s, step);
    StepCounts(cands, s, step);
    StepKeepsLanes(cands, s, step);
  }

  lemma {:induction false} RunKeepsInv(cands: seq<nat>, concurrency: nat, states: seq<State>, steps: seq<Step>, n: nat)
    requires IsRun(cands, states, steps) && states[0] == Start(concurrency) && n <= |steps|
    ensures Inv(cands, concurrency, states[n])
  {
    if n == 0 {
      StartInv(cands, concurrency);
    } else {
      RunKeepsInv(cands, concurrency, states, steps, n - 1);
      StepKeepsInv(cands, concurrency, states[n - 1], steps[n - 1]);
    }
  }

  // ----- the theorems

  lemma {:induction false} NoneInHand(lanes: seq<Lane>)
    requires forall l :: 0 <= l < |lanes| ==> lanes[l] == Returned
    ensures InHand(lanes) == multiset{}
  {
    if lanes != [] {
      NoneInHand(lanes[..|lanes| - 1]);
    }
  }

  /**
   * Along every run `ids` is closed at most once and nothing is handed over afterwards; and a return
   * without error means each candidate had exactly one outcome, none an error, and the count is right.
   */
  lemma DispatchIsExact(cands: seq<nat>, concurrency: nat, states: seq<State>, steps: seq<Step>)
    requires IsRun(cands, states, steps) && states[0] == Start(concurrency)
    ensures states[|steps|].closes <= 1
    ensures forall n :: 0 <= n < |steps| && steps[n].Hand? ==> states[n].closes == 0
    ensures var s := states[|steps|];
            s.feeder.Joined? && s.feeder.result.Count? ==>
              && IdsOf(s.outcomes) == multiset(cands)
              && CountOf(s.outcomes, Errored) == 0
              && s.feeder.result == Count(CountOf(s.outcomes, Progressed))
    ensures var s := states[|steps|];
            s.feeder.Joined? ==> s.closes == 1 && (s.feeder.result == FirstErr <==> CountOf(s.outcomes, Errored) > 0)
  {
    RunKeepsInv(cands, concurrency, states, steps, |steps|);
    forall n | 0 <= n < |steps| && steps[n].Hand? ensures states[n].closes == 0 {
      RunKeepsInv(cands, concurrency, states, steps, n);
    }
    var s := states[|steps|];
    if s.feeder.Joined? && s.feeder.result.Count? {
      NoneInHand(s.lanes);
      assert cands[..|cands|] == cands;
    }
  }

  /** With at least one goroutine, a run that has not returned can always go on without its parent. */
  lemma NeverStuck(cands: seq<nat>, concurrency: nat, states: seq<State>, steps: seq<Step>) returns (step: Step)
    requires IsRun(cands, states, steps) && states[0] == Start(concurrency) && 1 <= concurrency
    requires !states[|steps|].feeder.Joined?
    ensures Enabled(cands, states[|steps|], step) && step != ParentCancel
  {
    var s := states[|steps|];
    RunKeepsInv(cands, concurrency, states, steps, |steps|);
    if l :| 0 <= l < |s.lanes| && s.lanes[l].Working? {
      return Finish(l, true);
    } else if l :| 0 <= l < |s.lanes| && s.lanes[l].Failing? {
      return Cancel(l);
    } else if s.feeder == Feeding {
      if s.next == |cands| {
        return CloseAll;
      } else if s.cancelled {
        return Break;
      } else {
        assert s.lanes[0] == Waiting;
        return Hand(0);
      }
    } else if l :| 0 <= l < |s.lanes| && s.lanes[l] == Waiting {
      return Leave(l);
    } else {
      return Join;
    }
  }

  function LaneWeight(lane: Lane): nat {
    match lane
    case Waiting => 1
    case Working(_) => 3
    case Failing(_) => 2
    case Returned => 0
  }

  function LanesWeight(lanes: seq<Lane>): nat {
    if lanes == [] then 0 else LanesWeight(lanes[..|lanes| - 1]) + LaneWeight(lanes[|lanes| - 1])
  }

  function Weight(cands: seq<nat>, s: State): int {
    3 * (|cands| - s.next) + LanesWeight(s.lanes) + (if s.cancelled then 0 else 1)
    + if s.feeder == Feeding then 2 else if s.feeder.Closed? then 1 else 0
  }

  lemma {:induction false} WeightUpdate(lanes: seq<Lane>, l: nat, lane: Lane)
    requires l < |lanes|
    ensures LanesWeight(lanes[l := lane]) == LanesWeight(lanes) - LaneWeight(lanes[l]) + LaneWeight(lane)
  {
    var last := |lanes| - 1;
    if l == last {
      assert lanes[l := lane][..last] == lanes[..last];
    } else {
      assert lanes[l := lane][..last] == lanes[..last][l := lane];
      WeightUpdate(lanes[..last], l, lane);
    }
  }

  lemma StepLosesWeight(cands: seq<nat>, s: State, step: Step)
    requires Enabled(cands, s, step)
    ensures Weight(cands, Next(cands, s, step)) < Weight(cands, s)
  {
    if step.Hand? || step.Finish? || step.Fail? || step.Cancel? || step.Leave? {
      WeightUpdate(s.lanes, step.l, Next(cands, s, step).lanes[step.l]);
    }
  }

  /** So processBatch ends: no run is longer than this, whatever the interleaving. */
  lemma {:induction false} RunsAreShort(cands: seq<nat>, concurrency: nat, states: seq<State>, steps: seq<Step>)
    requires IsRun(cands, states, steps) && states[0] == Start(concurrency)
    ensures |steps| <= 3 * |cands| + concurrency + 3
  {
    RunLosesWeight(cands, states, steps, |steps|);
    RunKeepsInv(cands, concurrency, states, steps, |steps|);
    StartWeight(concurrency);
  }

  lemma {:induction false} RunLosesWeight(cands: seq<nat>, states: seq<State>, steps: seq<Step>, n: nat)
    requires IsRun(cands, states, steps) && n <= |steps|
    ensures Weight(cands, states[n]) + n <= Weight(cands, states[0])
  {
    if n != 0 {
      RunLosesWeight(cands, states, steps, n - 1);
      StepLosesWeight(cands, states[n - 1], steps[n - 1]);
    }
  }

  lemma {:induction false} StartWeight(concurrency: nat)
    ensures LanesWeight(seq(concurrency, _ => Waiting)) == concurrency
  {
    if concurrency != 0 {
      var lanes: seq<Lane> := seq(concurrency, _ => Waiting);
      assert lanes[..concurrency - 1] == seq(concurrency - 1, _ => Waiting);
      StartWeight(concurrency - 1);
    }
  }
}
