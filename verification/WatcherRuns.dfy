/**
 * Everything that may interleave around the hub: registrations, first reads, cancellations, broadcasts,
 * receivers and shutdown.  One step is one lock-protected block or one read of the ranking.
 */
module WatcherRuns {
  import opened Domain
  import opened Rankings
  import opened Watcher

  /** A value put into a channel; the clock numbers the reads of the ranking. */
  datatype Sent = Sent(initial: bool, clock: nat, view: View)

  /** How far a WatchUserRankings call is. */
  datatype Caller = Reading | Holding(clock: nat, view: View) | Returned

  /** How far the Run loop is; `ids` is the snapshot of the broadcast in progress. */
  datatype Hub =
    | Starting
    | NotSubscribed
    | Idle
    | Snapped(ids: set<nat>, most: nat)
    | Fetched(ids: set<nat>, most: nat, whole: View, clock: nat)
    | Pushing(rest: set<nat>, view: View, clock: nat)
    | Stopping(rest: set<nat>)
    | Stopped

  datatype State = State(
    /** The ranking itself, and how often it has been read. */
    world: View,
    clock: nat,
    hub: Hub,
    stopped: bool,
    nextId: nat,
    registered: set<nat>,
    /** Every subscriber ever made. */
    subs: map<nat, Sub>,
    last: seq<EntryKey>,
    /** Taken off the map by `remove`, not yet closed. */
    closing: set<nat>,
    callers: map<nat, Caller>,
    sent: map<nat, seq<Sent>>,
    /** Who was in the snapshot of the broadcast that last changed `last`, and when that one read. */
    audience: set<nat>,
    lastClock: nat,
    /** Who registered between the latest snapshot and its read, and the same for the broadcast of `audience`. */
    joining: set<nat>,
    late: set<nat>,
    /** What the latest successful broadcast read, and how far down it looked. */
    seen: View,
    seenMost: nat)

  datatype Step =
    | Subscribe(ok: bool)
    | Register(limit: int)
    | ReadInitial(id: nat)
    | FailInitial(id: nat)
    | SendInitial(id: nat)
    | Cancel(id: nat)
    | Close(id: nat)
    | Snapshot(most: nat)
    | Fetch(ok: bool)
    | Commit
    | Push(id: nat)
    | Receive(id: nat)
    | Change(view: View)
    | Shutdown
    | ShutdownClose(id: nat)

  function Start(world: View): State {
    State(world, 1, Starting, false, 0, {}, map[], [], {}, map[], map[], {}, 0, {}, {}, View([], 0), 0)
  }

  function OpenSubs(s: State): map<nat, Sub> {
    map i | i in s.subs && i in s.registered :: s.subs[i]
  }

  predicate IsReading(s: State, id: nat) {
    id in s.subs && id in s.callers && s.callers[id] == Reading
  }

  predicate IsHolding(s: State, id: nat) {
    id in s.subs && id in s.sent && id in s.callers && s.callers[id].Holding?
  }

  predicate CanPush(s: State, id: nat) {
    s.hub.Pushing? && id in s.hub.rest && id in s.subs && id in s.sent
  }

  predicate Enabled(s: State, step: Step) {
    match step
    case Subscribe(ok) => s.hub == Starting
    case Register(limit) => !s.stopped
    case ReadInitial(id) => IsReading(s, id)
    case FailInitial(id) => IsReading(s, id)
    case SendInitial(id) => IsHolding(s, id)
    case Cancel(id) => id in s.subs
    case Close(id) => id in s.closing && id in s.subs
    case Snapshot(most) => s.hub == Idle && IsMaxLimit(OpenSubs(s), most)
    case Fetch(ok) => s.hub.Snapped?
    case Commit => s.hub.Fetched?
    case Push(id) => CanPush(s, id)
    case Receive(id) => id in s.subs
    case Change(view) => true
    case Shutdown => s.hub == Idle
    case ShutdownClose(id) => s.hub.Stopping? && id in s.hub.rest && id in s.subs
  }

  function Unregistered(s: State, id: nat): State {
    if id in s.registered then s.(registered := s.registered - {id}, closing := s.closing + {id}) else s
  }

  function InitiallySent(s: State, id: nat): State
    requires IsHolding(s, id)
  {
    var sub, c := s.subs[id], s.callers[id];
    var v := Truncate(c.view, sub.limit);
    s.(callers := s.callers[id := Returned], subs := s.subs[id := PushedInitial(sub, v)],
       sent := s.sent[id := if sub.closed || sub.delivered then s.sent[id] else s.sent[id] + [Sent(true, c.clock, v)]])
  }

  function PushedOne(s: State, id: nat): State
    requires CanPush(s, id)
  {
    var sub := s.subs[id];
    var v := Truncate(s.hub.view, sub.limit);
    var rest := s.hub.rest - {id};
    s.(hub := if rest == {} then Idle else s.hub.(rest := rest), subs := s.subs[id := Pushed(sub, v)],
       sent := s.sent[id := if sub.closed then s.sent[id] else s.sent[id] + [Sent(false, s.hub.clock, v)]])
  }

  function Committed(s: State): State
    requires s.hub.Fetched?
  {
    var view := Truncate(s.hub.whole, s.hub.most);
    var keys := Keys(view.rankings);
    var s' := s.(seen := s.hub.whole, seenMost := s.hub.most);
    if s.last == keys then s'.(hub := Idle)
    else s'.(last := keys, hub := Pushing(s.hub.ids, view, s.hub.clock), audience := s.hub.ids,
             lastClock := s.hub.clock, late := s.joining)
  }

  function Leave(rest: set<nat>): Hub {
    if rest == {} then Stopped else Stopping(rest)
  }

  function Next(s: State, step: Step): State
    requires Enabled(s, step)
  {
    match step
    case Subscribe(ok) => s.(hub := if ok then Idle else NotSubscribed)
    case Register(limit) =>
      var id := s.nextId + 1;
      s.(nextId := id, registered := s.registered + {id}, subs := s.subs[id := NewSub(NormalizeLimit(limit))],
         callers := s.callers[id := Reading], sent := s.sent[id := []],
         joining := if s.hub.Snapped? then s.joining + {id} else s.joining)
    case ReadInitial(id) =>
      s.(clock := s.clock + 1, callers := s.callers[id := Holding(s.clock, Truncate(s.world, s.subs[id].limit))])
    case FailInitial(id) => Unregistered(s.(callers := s.callers[id := Returned]), id)
    case SendInitial(id) => InitiallySent(s, id)
    case Cancel(id) => Unregistered(s, id)
    case Close(id) => s.(closing := s.closing - {id}, subs := s.subs[id := Closed(s.subs[id])])
    case Snapshot(most) => if s.registered == {} then s else s.(hub := Snapped(s.registered, most), joining := {})
    case Fetch(ok) =>
      if ok then s.(clock := s.clock + 1, hub := Fetched(s.hub.ids, s.hub.most, s.world, s.clock)) else s.(hub := Idle)
    case Commit => Committed(s)
    case Push(id) => PushedOne(s, id)
    case Receive(id) => s.(subs := s.subs[id := Received(s.subs[id])])
    case Change(view) => s.(world := view)
    case Shutdown => s.(stopped := true, registered := {}, hub := Leave(s.registered))
    case ShutdownClose(id) => s.(hub := Leave(s.hub.rest - {id}), subs := s.subs[id := Closed(s.subs[id])])
  }

  predicate IsPath(states: seq<State>, steps: seq<Step>) {
    && |states| == |steps| + 1
    && forall n :: 0 <= n < |steps| ==> Enabled(states[n], steps[n]) && states[n + 1] == Next(states[n], steps[n])
  }

  predicate IsRun(states: seq<State>, steps: seq<Step>) {
    IsPath(states, steps) && states[0] == Start(states[0].world)
  }

  ghost predicate Reachable(s: State) {
    exists states, steps :: IsRun(states, steps) && states[|steps|] == s
  }

  // ----- one subscriber

  /** Its channel is sound, and what it was sent is one first value and then broadcasts in the order they read. */
  predicate Fine(sub: Sub, sent: seq<Sent>, lastClock: nat, waiting: bool) {
    && SubOk(sub)
    && (sub.delivered <==> sent != [])
    && (sub.ch.buf.Some? ==> sent != [] && sub.ch.buf.value == sent[|sent| - 1].view)
    && (forall k :: 1 <= k < |sent| ==> !sent[k].initial)
    && (forall j, k :: 0 <= j < k < |sent| && !sent[j].initial ==> sent[j].clock < sent[k].clock)
    && (forall k :: 0 <= k < |sent| && !sent[k].initial ==>
         sent[k].clock <= lastClock && (waiting ==> sent[k].clock < lastClock))
  }

  /** Its most recent value shows what `last` says, as far as its limit goes. */
  predicate Converged(sub: Sub, sent: seq<Sent>, last: seq<EntryKey>) {
    sent != [] && Keys(sent[|sent| - 1].view.rankings) == Prefix(last, sub.limit)
  }

  predicate OnlyInitial(sent: seq<Sent>) {
    forall k :: 0 <= k < |sent| ==> sent[k].initial
  }

  function Rest(hub: Hub): set<nat> {
    if hub.Pushing? then hub.rest else {}
  }

  predicate Told(sub: Sub, sent: seq<Sent>, last: seq<EntryKey>, invited: bool, waiting: bool, listed: bool) {
    && (invited && !waiting && !sub.closed ==> Converged(sub, sent, last))
    && (listed && !invited ==> OnlyInitial(sent))
  }

  // ----- the invariant

  function Owners(s: State): set<nat> {
    s.registered + s.closing + if s.hub.Stopping? then s.hub.rest else {}
  }

  function OpenIds(subs: map<nat, Sub>): set<nat> {
    set i | i in subs && !subs[i].closed
  }

  /** Exactly one of the map, a remover and the shutdown is responsible for closing an open subscriber. */
  predicate Owned(s: State) {
    && s.callers.Keys == s.subs.Keys == s.sent.Keys
    && (forall i :: i in s.subs ==> i <= s.nextId)
    && Owners(s) == OpenIds(s.subs)
    && s.registered !! s.closing
    && (s.hub.Stopping? ==> s.hub.rest !! s.closing)
    && (s.stopped <==> s.hub.Stopping? || s.hub == Stopped)
    && (s.stopped ==> s.registered == {})
  }

  function Listed(hub: Hub): set<nat> {
    match hub
    case Snapped(ids, _) => ids
    case Fetched(ids, _, _, _) => ids
    case _ => {}
  }

  predicate HubOk(s: State) {
    && s.audience <= s.subs.Keys && Listed(s.hub) <= s.subs.Keys && Rest(s.hub) <= s.audience
    && (s.hub.Snapped? || s.hub.Fetched? ==> s.audience * s.registered <= s.hub.ids)
    && (s.hub.Pushing? ==> s.hub.clock == s.lastClock && Keys(s.hub.view.rankings) == s.last)
    && (s.hub.Fetched? ==> s.lastClock < s.hub.clock < s.clock)
    && s.lastClock < s.clock
  }

  predicate Within(subs: map<nat, Sub>, ids: set<nat>, most: nat) {
    forall i :: i in ids && i in subs ==> subs[i].limit <= most
  }

  predicate FarEnough(s: State) {
    && s.last == Prefix(Keys(s.seen.rankings), s.seenMost)
    && Within(s.subs, s.audience * s.registered, s.seenMost)
    && (s.hub.Snapped? || s.hub.Fetched? ==> Within(s.subs, s.hub.ids, s.hub.most))
  }

  predicate EachFine(s: State) {
    forall i :: i in s.subs && i in s.sent ==> Fine(s.subs[i], s.sent[i], s.lastClock, i in Rest(s.hub))
  }

  predicate EachTold(s: State) {
    forall i :: i in s.subs && i in s.sent ==>
      Told(s.subs[i], s.sent[i], s.last, i in s.audience, i in Rest(s.hub), i in s.registered)
  }

  predicate Inv(s: State) {
    Owned(s) && HubOk(s) && FarEnough(s) && EachFine(s) && EachTold(s)
  }

  // ----- every step keeps it

  lemma StartInv(world: View)
    ensures Inv(Start(world))
  {
  }

  lemma OpenIdsSet(subs: map<nat, Sub>, id: nat, sub: Sub)
    ensures OpenIds(subs[id := sub]) == if sub.closed then OpenIds(subs) - {id} else OpenIds(subs) + {id}
  {
  }

  lemma OpenIdsIn(subs: map<nat, Sub>)
    ensures OpenIds(subs) <= subs.Keys
  {
  }

  lemma OpenIdsKept(subs: map<nat, Sub>, id: nat, sub: Sub)
    requires id in subs && sub.closed == subs[id].closed
    ensures OpenIds(subs[id := sub]) == OpenIds(subs)
  {
  }

  /** The steps that write one subscriber. */
  predicate Changes(step: Step) {
    step.Register? || step.SendInitial? || step.Push? || step.Receive? || step.Close? || step.ShutdownClose?
  }

  lemma ChangeKeepsOwned(s: State, step: Step)
    requires Owned(s) && Enabled(s, step) && Changes(step)
    ensures Owned(Next(s, step))
  {
    hide OpenIds, OpenSubs, IsMaxLimit, Truncate, NormalizeLimit;
    OpenIdsIn(s.subs);
    var s' := Next(s, step);
    var id := if step.Register? then s'.nextId else step.id;
    if step.SendInitial? || step.Push? || step.Receive? {
      OpenIdsKept(s.subs, id, s'.subs[id]);
    } else {
      OpenIdsSet(s.subs, id, s'.subs[id]);
    }
  }

  lemma StepKeepsOwned(s: State, step: Step)
    requires Owned(s) && Enabled(s, step)
    ensures Owned(Next(s, step))
  {
    hide OpenIds, OpenSubs, IsMaxLimit, Truncate, NormalizeLimit;
    OpenIdsIn(s.subs);
    if Changes(step) {
      ChangeKeepsOwned(s, step);
    }
  }

  lemma StepKeepsHubOk(s: State, step: Step)
    requires Owned(s) && HubOk(s) && Enabled(s, step)
    ensures HubOk(Next(s, step))
  {
    hide IsMaxLimit, OpenSubs, OpenIds, Pushed, PushedInitial, Closed, Received, Truncate;
    OpenIdsIn(s.subs);
  }

  lemma WithinSet(subs: map<nat, Sub>, id: nat, sub: Sub, ids: set<nat>, most: nat)
    requires Within(subs, ids, most)
    requires if id in subs then sub.limit == subs[id].limit else id !in ids
    ensures Within(subs[id := sub], ids, most)
  {
  }

  lemma SnapshotWithin(s: State, most: nat)
    requires IsMaxLimit(OpenSubs(s), most)
    ensures Within(s.subs, s.registered, most)
  {
    assert forall i :: i in s.registered && i in s.subs ==> i in OpenSubs(s);
  }

  lemma StepKeepsFarEnough(s: State, step: Step)
    requires Owned(s) && HubOk(s) && FarEnough(s) && Enabled(s, step)
    ensures FarEnough(Next(s, step))
  {
    var s' := Next(s, step);
    if Changes(step) {
      var id := if step.Register? then s'.nextId else step.id;
      WithinSet(s.subs, id, s'.subs[id], s.audience * s.registered, s.seenMost);
      if s.hub.Snapped? || s.hub.Fetched? {
        WithinSet(s.subs, id, s'.subs[id], s.hub.ids, s.hub.most);
      }
    } else if step.Snapshot? {
      SnapshotWithin(s, step.most);
    } else if step.Commit? {
      KeysOfTruncated(s.hub.whole, s.hub.most);
    }
  }

  lemma FineLater(sub: Sub, sent: seq<Sent>, clock: nat, waiting: bool, clock': nat, waiting': bool)
    requires Fine(sub, sent, clock, waiting) && clock <= clock' && (waiting' ==> waiting || clock < clock')
    ensures Fine(sub, sent, clock', waiting')
  {
  }

  lemma FinePushed(sub: Sub, sent: seq<Sent>, clock: nat, v: View)
    requires Fine(sub, sent, clock, true)
    ensures Fine(Pushed(sub, v), if sub.closed then sent else sent + [Sent(false, clock, v)], clock, false)
  {
  }

  lemma FineInitial(sub: Sub, sent: seq<Sent>, clock: nat, waiting: bool, c: nat, v: View)
    requires Fine(sub, sent, clock, waiting)
    ensures Fine(PushedInitial(sub, v), if sub.closed || sub.delivered then sent else sent + [Sent(true, c, v)],
                 clock, waiting)
  {
  }

  lemma StepKeepsEachFine(s: State, step: Step)
    requires Owned(s) && HubOk(s) && EachFine(s) && Enabled(s, step)
    ensures EachFine(Next(s, step))
  {
    hide Owned, OpenSubs, IsMaxLimit, Fine;
    var s' := Next(s, step);
    forall i | i in s'.subs && i in s'.sent
      ensures Fine(s'.subs[i], s'.sent[i], s'.lastClock, i in Rest(s'.hub))
    {
      FineOne(s, step, i);
    }
  }

  lemma FineOne(s: State, step: Step, i: nat)
    requires Owned(s) && HubOk(s) && EachFine(s) && Enabled(s, step)
    requires i in Next(s, step).subs && i in Next(s, step).sent
    ensures var s' := Next(s, step); Fine(s'.subs[i], s'.sent[i], s'.lastClock, i in Rest(s'.hub))
  {
    hide OpenSubs, IsMaxLimit, Fine, OpenIds;
    var s' := Next(s, step);
    if step.Register? && i == s'.nextId {
      FineNew(s'.subs[i].limit, s'.lastClock);
    } else {
      var sub, sent, w := s.subs[i], s.sent[i], i in Rest(s.hub);
      if step.Push? && step.id == i {
        FinePushed(sub, sent, s.lastClock, Truncate(s.hub.view, sub.limit));
      } else if step.SendInitial? && step.id == i {
        FineInitial(sub, sent, s.lastClock, w, s.callers[i].clock, Truncate(s.callers[i].view, sub.limit));
      } else {
        if step.Receive? || step.Close? || step.ShutdownClose? {
          FineOther(sub, sent, s.lastClock, w);
        }
        FineLater(s'.subs[i], sent, s.lastClock, w, s'.lastClock, i in Rest(s'.hub));
      }
    }
  }

  lemma FineNew(limit: nat, clock: nat)
    ensures Fine(NewSub(limit), [], clock, false)
  {
  }

  lemma FineOther(sub: Sub, sent: seq<Sent>, clock: nat, waiting: bool)
    requires Fine(sub, sent, clock, waiting)
    ensures Fine(Received(sub), sent, clock, waiting) && Fine(Closed(sub), sent, clock, waiting)
  {
  }

  lemma ToldPushed(sub: Sub, sent: seq<Sent>, last: seq<EntryKey>, listed: bool, clock: nat, view: View)
    requires Told(sub, sent, last, true, true, listed) && Keys(view.rankings) == last
    ensures var v := Truncate(view, sub.limit);
            Told(Pushed(sub, v), if sub.closed then sent else sent + [Sent(false, clock, v)], last, true, false, listed)
  {
    KeysOfTruncated(view, sub.limit);
  }

  lemma ToldInitial(sub: Sub, sent: seq<Sent>, last: seq<EntryKey>, invited: bool, waiting: bool, listed: bool,
                    c: nat, v: View)
    requires Told(sub, sent, last, invited, waiting, listed) && (sub.delivered <==> sent != [])
    ensures Told(PushedInitial(sub, v), if sub.closed || sub.delivered then sent else sent + [Sent(true, c, v)],
                 last, invited, waiting, listed)
  {
  }

  lemma ToldOne(s: State, step: Step, i: nat)
    requires Owned(s) && HubOk(s) && EachFine(s) && EachTold(s) && Enabled(s, step)
    requires i in Next(s, step).subs && i in Next(s, step).sent
    ensures var s' := Next(s, step);
            Told(s'.subs[i], s'.sent[i], s'.last, i in s'.audience, i in Rest(s'.hub), i in s'.registered)
  {
    hide OpenSubs, IsMaxLimit, Fine, OpenIds, Prefix, Truncate, Keys;
    var s' := Next(s, step);
    if i in s.subs {
      var sub, sent, w := s.subs[i], s.sent[i], i in Rest(s.hub);
      if step.Push? && step.id == i {
        ToldPushed(sub, sent, s.last, i in s.registered, s.hub.clock, s.hub.view);
      } else if step.SendInitial? && step.id == i {
        DeliveredMeansSent(sub, sent, s.lastClock, w);
        ToldInitial(sub, sent, s.last, i in s.audience, w, i in s.registered, s.callers[i].clock,
            Truncate(s.callers[i].view, sub.limit));
      }
    }
  }

  lemma DeliveredMeansSent(sub: Sub, sent: seq<Sent>, clock: nat, waiting: bool)
    requires Fine(sub, sent, clock, waiting)
    ensures sub.delivered <==> sent != []
  {
  }

  lemma StepKeepsEachTold(s: State, step: Step)
    requires Owned(s) && HubOk(s) && EachFine(s) && EachTold(s) && Enabled(s, step)
    ensures EachTold(Next(s, step))
  {
    var s' := Next(s, step);
    forall i | i in s'.subs && i in s'.sent
      ensures Told(s'.subs[i], s'.sent[i], s'.last, i in s'.audience, i in Rest(s'.hub), i in s'.registered)
    {
      ToldOne(s, step, i);
    }
  }

  lemma {:induction false} RunKeepsInv(states: seq<State>, steps: seq<Step>, n: nat)
    requires IsRun(states, steps) && n <= |steps|
    ensures Inv(states[n])
  {
    if n == 0 {
      StartInv(states[0].world);
    } else {
      RunKeepsInv(states, steps, n - 1);
      hide Owned, HubOk, FarEnough, EachFine, EachTold, Enabled, Next;
      var s, step := states[n - 1], steps[n - 1];
      StepKeepsOwned(s, step);
      StepKeepsHubOk(s, step);
      StepKeepsFarEnough(s, step);
      StepKeepsEachFine(s, step);
      StepKeepsEachTold(s, step);
    }
  }

  lemma ReachableInv(s: State)
    requires Reachable(s)
    ensures Inv(s)
  {
    var states, steps :| IsRun(states, steps) && states[|steps|] == s;
    RunKeepsInv(states, steps, |steps|);
  }

  // ----- the theorems

  /**
   * The channel protocol.  No send ever blocks or meets a closed channel and no channel is closed twice;
   * the first read is only ever the first value, and broadcasts arrive in the order they read the ranking.
   */
  lemma ChannelsAreSafe(s: State, i: nat)
    requires Reachable(s) && i in s.subs
    ensures i in s.sent && s.subs[i].ch.faults == 0
    ensures forall k :: 0 <= k < |s.sent[i]| && s.sent[i][k].initial ==> k == 0
    ensures forall j, k :: 0 <= j < k < |s.sent[i]| && !s.sent[i][j].initial ==> s.sent[i][j].clock < s.sent[i][k].clock
    ensures s.subs[i].ch.buf.Some? ==> s.sent[i] != [] && s.subs[i].ch.buf.value == s.sent[i][|s.sent[i]| - 1].view
  {
    ReachableInv(s);
    assert Fine(s.subs[i], s.sent[i], s.lastClock, i in Rest(s.hub));
  }

  lemma ClosedStep(s: State, step: Step, i: nat)
    requires Owned(s) && Enabled(s, step) && i in s.subs && s.subs[i].closed
    ensures var s' := Next(s, step);
            i in s'.subs && s'.subs[i].closed && i in s'.sent && s'.sent[i] == s.sent[i]
  {
    hide IsMaxLimit, OpenSubs, Truncate, OpenIds, NormalizeLimit;
  }

  /** Nothing is sent to a subscriber after its channel was closed, and it stays closed. */
  lemma {:induction false} ClosedStaysQuiet(states: seq<State>, steps: seq<Step>, m: nat, n: nat, i: nat)
    requires IsRun(states, steps) && m <= n <= |steps| && i in states[m].subs && states[m].subs[i].closed
    ensures i in states[n].subs && states[n].subs[i].closed && i in states[m].sent && i in states[n].sent
    ensures states[n].sent[i] == states[m].sent[i]
    decreases n - m
  {
    RunKeepsInv(states, steps, m);
    if m < n {
      hide EachFine, EachTold, FarEnough, HubOk, Enabled, Next;
      ClosedStep(states[m], steps[m], i);
      ClosedStaysQuiet(states, steps, m + 1, n, i);
    }
  }

  /**
   * Convergence.  Between broadcasts, whatever failed, was suppressed or changed its limit since, an open
   * subscriber that was in the snapshot of the broadcast that last changed `last` was last sent exactly
   * the first `limit` entries of `last`.
   */
  lemma Convergence(s: State, i: nat)
    requires Reachable(s) && s.hub == Idle && i in s.audience
    ensures i in s.subs && i in s.sent && (!s.subs[i].closed ==> Converged(s.subs[i], s.sent[i], s.last))
  {
    ReachableInv(s);
    assert Told(s.subs[i], s.sent[i], s.last, true, i in Rest(s.hub), i in s.registered);
  }

  /** So a registered one shows the ranking as the latest successful broadcast read it, down to its limit. */
  lemma UpToDate(s: State, i: nat)
    requires Reachable(s) && s.hub == Idle && i in s.audience && i in s.registered
    ensures i in s.subs && i in s.sent && s.sent[i] != []
    ensures Keys(s.sent[i][|s.sent[i]| - 1].view.rankings) == Keys(Truncate(s.seen, s.subs[i].limit).rankings)
  {
    ReachableInv(s);
    Convergence(s, i);
    assert i in s.audience * s.registered && i in Owners(s);
    KeysOfTruncated(s.seen, s.subs[i].limit);
  }

  lemma OnlyInitialIsOne(sub: Sub, sent: seq<Sent>, clock: nat, waiting: bool)
    requires Fine(sub, sent, clock, waiting)
    ensures OnlyInitial(sent) ==> |sent| <= 1
  {
    if |sent| > 1 {
      assert !sent[1].initial;
    }
  }

  /** A subscriber outside that snapshot has been sent nothing but its own first read. */
  lemma OutsidersWait(s: State, i: nat)
    requires Reachable(s) && i in s.registered && i !in s.audience
    ensures i in s.subs && i in s.sent && |s.sent[i]| <= 1 && OnlyInitial(s.sent[i])
  {
    ReachableInv(s);
    assert i in Owners(s);
    assert Told(s.subs[i], s.sent[i], s.last, false, i in Rest(s.hub), true);
    OnlyInitialIsOne(s.subs[i], s.sent[i], s.lastClock, i in Rest(s.hub));
  }

  /**
   * Once Run, past Subscribe, has returned: nobody is registered and nobody can register, and every
   * subscriber ever made is closed or has a remover about to close it.
   */
  lemma ShutdownClosesAll(s: State, i: nat)
    requires Reachable(s) && s.hub == Hub.Stopped
    ensures s.stopped && s.registered == {}
    ensures i in s.subs ==> s.subs[i].closed || i in s.closing
  {
    ReachableInv(s);
    assert i in s.subs && !s.subs[i].closed ==> i in OpenIds(s.subs);
  }

  // ----- what does not hold

  lemma StepReaches(s: State, step: Step)
    requires Reachable(s) && Enabled(s, step)
    ensures Reachable(Next(s, step))
  {
    var states, steps :| IsRun(states, steps) && states[|steps|] == s;
    assert IsRun(states + [Next(s, step)], steps + [step]);
  }

  lemma StartReaches(world: View)
    ensures Reachable(Start(world))
  {
    assert IsRun([Start(world)], []);
  }

  const EMPTY := View([], 0)
  const ONE := View([RankEntry(1, 7, "", 5)], 1)

  /** One subscriber is registered, and the hub has taken a snapshot that holds only it. */
  function Begun(): State {
    Start(EMPTY).(hub := Snapped({1}, 10), nextId := 1, registered := {1}, subs := map[1 := NewSub(10)],
                  callers := map[1 := Reading], sent := map[1 := []])
  }

  lemma BegunIsReachable()
    ensures Reachable(Begun())
  {
    hide Reachable;
    var s0 := Start(EMPTY);
    StartReaches(EMPTY);
    StepReaches(s0, Subscribe(true));
    var s1 := Next(s0, Subscribe(true));
    StepReaches(s1, Register(10));
    var s2 := Next(s1, Register(10));
    assert OpenSubs(s2)[1].limit == 10;
    StepReaches(s2, Snapshot(10));
    assert s2 == Begun().(hub := Idle);
  }

  /** A second subscriber registers after that snapshot and reads before the broadcast does. */
  function LateJoiner(): State {
    Begun().(clock := 2, nextId := 2, registered := {1, 2}, joining := {2},
             subs := map[1 := NewSub(10), 2 := PushedInitial(NewSub(10), EMPTY)],
             callers := map[1 := Reading, 2 := Returned], sent := map[1 := [], 2 := [Sent(true, 1, EMPTY)]])
  }

  lemma LateJoinerIsReachable()
    ensures Reachable(LateJoiner())
  {
    hide Reachable;
    BegunIsReachable();
    var s3 := Begun();
    StepReaches(s3, Register(10));
    var s4 := Next(s3, Register(10));
    StepReaches(s4, ReadInitial(2));
    var s5 := Next(s4, ReadInitial(2));
    StepReaches(s5, SendInitial(2));
    var s6 := Next(s5, SendInitial(2));
    assert s6.sent[2] == [Sent(true, 1, EMPTY)];
    assert s6.sent == LateJoiner().sent && s6.callers == LateJoiner().callers && s6.subs == LateJoiner().subs;
    assert s6.registered == LateJoiner().registered && s6.joining == LateJoiner().joining;
  }

  /**
   * Registering and reading between the snapshot and the read of a broadcast can leave a subscriber on the
   * older ranking: the hub is idle and `last` already is the ranking, so the next broadcasts are suppressed.
   */
  lemma OutsiderCanBeStale() returns (s: State)
    ensures Reachable(s) && s.hub == Idle && s.seen == s.world && s.last == Keys(s.world.rankings)
    ensures 2 in s.registered && 2 in s.subs && 2 in s.sent && s.sent[2] != []
    ensures !Converged(s.subs[2], s.sent[2], s.last)
  {
    hide Reachable;
    LateJoinerIsReachable();
    var s6 := LateJoiner();
    StepReaches(s6, Change(ONE));
    var s7 := Next(s6, Change(ONE));
    StepReaches(s7, Fetch(true));
    var s8 := Next(s7, Fetch(true));
    assert Keys(ONE.rankings)[0] == EntryKey(7, 1, 5);
    StepReaches(s8, Commit);
    var s9 := Next(s8, Commit);
    StepReaches(s9, Push(1));
    s := Next(s9, Push(1));
  }

  /** A first read newer than a broadcast in flight is followed by that broadcast's older ranking. */
  lemma FirstValueCanBeNewer() returns (s: State)
    ensures Reachable(s) && 1 in s.sent && |s.sent[1]| == 2
    ensures s.sent[1][0].initial && s.sent[1][1].clock < s.sent[1][0].clock
  {
    hide Reachable;
    BegunIsReachable();
    var s2 := Begun();
    StepReaches(s2, Change(ONE));
    var s3 := Next(s2, Change(ONE));
    StepReaches(s3, Fetch(true));
    var s4 := Next(s3, Fetch(true));
    StepReaches(s4, ReadInitial(1));
    var s5 := Next(s4, ReadInitial(1));
    StepReaches(s5, SendInitial(1));
    var s6 := Next(s5, SendInitial(1));
    assert Keys(ONE.rankings)[0] == EntryKey(7, 1, 5);
    StepReaches(s6, Commit);
    var s7 := Next(s6, Commit);
    StepReaches(s7, Push(1));
    s := Next(s7, Push(1));
  }

  /** A Run that could not subscribe leaves the hub open: subscribers can join and nobody closes them. */
  lemma FailedSubscribeStaysOpen() returns (s: State)
    ensures Reachable(s) && s.hub == NotSubscribed && 1 in s.registered && 1 in s.subs && !s.subs[1].closed
  {
    hide Reachable;
    var s0 := Start(EMPTY);
    StartReaches(EMPTY);
    StepReaches(s0, Subscribe(false));
    var s1 := Next(s0, Subscribe(false));
    StepReaches(s1, Register(10));
    s := Next(s1, Register(10));
  }

  /** `steps` lead from s to t. */
  ghost predicate Leads(s: State, t: State) {
    exists states, steps :: IsPath(states, steps) && states[0] == s && states[|steps|] == t
  }

  /** Once Run has returned, no subscriber can be registered any more exactly if Run had subscribed. */
  lemma OpenAfterRun(s: State)
    requires Reachable(s) && (s.hub == NotSubscribed || s.hub == Hub.Stopped)
    ensures (exists t :: Leads(s, t) && t.registered != {}) <==> s.hub == NotSubscribed
  {
    if s.hub == NotSubscribed {
      ReachableInv(s);
      var t := Next(s, Register(10));
      assert s.nextId + 1 in t.registered;
      assert IsPath([s, t], [Register(10)]);
      assert Leads(s, t);
    } else {
      forall t | Leads(s, t) ensures t.registered == {} {
        ReachableInv(s);
        var states, steps :| IsPath(states, steps) && states[0] == s && states[|steps|] == t;
        StaysStopped(states, steps, |steps|);
      }
    }
  }

  lemma {:induction false} StaysStopped(states: seq<State>, steps: seq<Step>, n: nat)
    requires IsPath(states, steps) && n <= |steps|
    requires states[0].hub == Hub.Stopped && states[0].stopped && states[0].registered == {}
    ensures states[n].hub == Hub.Stopped && states[n].stopped && states[n].registered == {}
  {
    if n > 0 {
      StaysStopped(states, steps, n - 1);
      hide OpenSubs, IsMaxLimit, Truncate, Pushed, PushedInitial, NormalizeLimit;
      assert Enabled(states[n - 1], steps[n - 1]) && states[n] == Next(states[n - 1], steps[n - 1]);
    }
  }
}
