/** What subscribers are sent: the ranking as one read found it, cut at each one's limit. */
module WatcherValues {
  import opened Domain
  import opened Rankings
  import opened Watcher
  import opened WatcherRuns
  import opened WatcherOrder

  /** Before step n, `step` read a ranking as number `clock` that v is the first `limit` entries of. */
  ghost predicate ShownAt(states: seq<State>, steps: seq<Step>, n: nat, step: Step, clock: nat, v: View, limit: nat)
    requires |states| == |steps| + 1 && n <= |steps|
  {
    exists m :: 0 <= m < n && steps[m] == step && states[m].clock == clock && IsCut(v, states[m].world, limit)
  }

  /** Before step n the hub read exactly this ranking as number `clock`. */
  ghost predicate FoundAt(states: seq<State>, steps: seq<Step>, n: nat, clock: nat, whole: View)
    requires |states| == |steps| + 1 && n <= |steps|
  {
    exists m :: 0 <= m < n && steps[m] == Fetch(true) && states[m].clock == clock && states[m].world == whole
  }

  /** What was sent and what the caller holds are cuts of what was read. */
  ghost predicate Faithful(states: seq<State>, steps: seq<Step>, n: nat, i: nat, sent: seq<Sent>, caller: Caller,
                           limit: nat)
    requires |states| == |steps| + 1 && n <= |steps|
  {
    && (forall k :: 0 <= k < |sent| ==>
         ShownAt(states, steps, n, ReadStep(i, sent[k]), sent[k].clock, sent[k].view, limit))
    && (caller.Holding? ==> ShownAt(states, steps, n, ReadInitial(i), caller.clock, caller.view, limit))
  }

  ghost predicate PushFaithful(states: seq<State>, steps: seq<Step>, n: nat, s: State)
    requires |states| == |steps| + 1 && n <= |steps|
  {
    s.hub.Pushing? ==>
      exists most :: Within(s.subs, s.hub.rest, most)
        && ShownAt(states, steps, n, Fetch(true), s.hub.clock, s.hub.view, most)
  }

  ghost predicate HubFaithful(states: seq<State>, steps: seq<Step>, n: nat, s: State)
    requires |states| == |steps| + 1 && n <= |steps|
  {
    && (s.hub.Fetched? ==> FoundAt(states, steps, n, s.hub.clock, s.hub.whole))
    && PushFaithful(states, steps, n, s)
  }

  lemma ShownLater(states: seq<State>, steps: seq<Step>, m: nat, n: nat)
    requires |states| == |steps| + 1 && m <= n <= |steps|
    ensures forall step, clock, v, limit ::
              ShownAt(states, steps, m, step, clock, v, limit) ==> ShownAt(states, steps, n, step, clock, v, limit)
  {
  }

  lemma ShownCut(states: seq<State>, steps: seq<Step>, n: nat, step: Step, clock: nat, v: View, most: nat, limit: nat)
    requires |states| == |steps| + 1 && n <= |steps|
    requires ShownAt(states, steps, n, step, clock, v, most) && limit <= most
    ensures ShownAt(states, steps, n, step, clock, Truncate(v, limit), limit)
  {
    hide Truncate;
    var m :| 0 <= m < n && steps[m] == step && states[m].clock == clock && IsCut(v, states[m].world, most);
    CutTwice(states[m].world, v, Truncate(v, limit), most, limit);
  }

  // ----- one step

  /** What was sent grows by what the caller held, or by what the hub is pushing. */
  lemma NewSent(s: State, step: Step, i: nat)
    requires Enabled(s, step) && Known(s, i) && Known(Next(s, step), i) && (step.Register? ==> i != s.nextId + 1)
    ensures var t, limit := Next(s, step), s.subs[i].limit;
            && t.subs[i].limit == limit
            && (|| t.sent[i] == s.sent[i]
                || (s.callers[i].Holding?
                    && t.sent[i] == s.sent[i] + [Sent(true, s.callers[i].clock, Truncate(s.callers[i].view, limit))])
                || (s.hub.Pushing? && i in s.hub.rest
                    && t.sent[i] == s.sent[i] + [Sent(false, s.hub.clock, Truncate(s.hub.view, limit))]))
            && (t.callers[i].Holding? ==>
                  || t.callers[i] == s.callers[i]
                  || (step == ReadInitial(i) && t.callers[i] == Holding(s.clock, Truncate(s.world, limit))))
  {
    hide OpenSubs, IsMaxLimit, NormalizeLimit, Truncate, Keys;
  }

  lemma NewHub(s: State, step: Step)
    requires Enabled(s, step) && Owned(s) && HubOk(s)
    ensures var t := Next(s, step);
            && (t.hub.Fetched? ==>
                  t.hub == s.hub || (step == Fetch(true) && t.hub.whole == s.world && t.hub.clock == s.clock))
            && (t.hub.Pushing? ==>
                  || (s.hub.Pushing? && t.hub.view == s.hub.view && t.hub.clock == s.hub.clock
                     && t.hub.rest <= s.hub.rest)
                  || (s.hub.Fetched? && t.hub == Pushing(s.hub.ids, Truncate(s.hub.whole, s.hub.most), s.hub.clock)))
            && (forall j :: j in s.subs ==> j in t.subs && t.subs[j].limit == s.subs[j].limit)
            && Rest(s.hub) + Listed(s.hub) <= s.subs.Keys
  {
    hide OpenSubs, IsMaxLimit, NormalizeLimit, Truncate, Keys, OpenIds;
  }

  lemma FaithfulLater(states: seq<State>, steps: seq<Step>, n: nat, i: nat, sent: seq<Sent>, caller: Caller, limit: nat,
                      caller': Caller)
    requires |states| == |steps| + 1 && n < |steps| && Faithful(states, steps, n, i, sent, caller, limit)
    requires caller'.Holding? && caller' != caller ==>
               ShownAt(states, steps, n + 1, ReadInitial(i), caller'.clock, caller'.view, limit)
    ensures Faithful(states, steps, n + 1, i, sent, caller', limit)
  {
    ShownLater(states, steps, n, n + 1);
    hide ShownAt;
  }

  lemma FaithfulMore(states: seq<State>, steps: seq<Step>, n: nat, i: nat, sent: seq<Sent>, caller: Caller, limit: nat,
                     x: Sent)
    requires |states| == |steps| + 1 && n <= |steps| && Faithful(states, steps, n, i, sent, caller, limit)
    requires ShownAt(states, steps, n, ReadStep(i, x), x.clock, x.view, limit)
    ensures Faithful(states, steps, n, i, sent + [x], caller, limit)
  {
    hide ShownAt;
  }

  lemma FaithfulStep(states: seq<State>, steps: seq<Step>, n: nat, i: nat)
    requires IsRun(states, steps) && n < |steps| && Known(states[n], i) && Known(states[n + 1], i)
    requires steps[n].Register? ==> i != states[n].nextId + 1
    requires PushFaithful(states, steps, n, states[n])
    requires Faithful(states, steps, n, i, states[n].sent[i], states[n].callers[i], states[n].subs[i].limit)
    ensures Faithful(states, steps, n + 1, i,
                     states[n + 1].sent[i], states[n + 1].callers[i], states[n + 1].subs[i].limit)
  {
    hide Enabled, Next, Truncate, Faithful;
    var s, t, step := states[n], states[n + 1], steps[n];
    var sent, caller, limit := s.sent[i], s.callers[i], s.subs[i].limit;
    NewSent(s, step, i);
    if t.sent[i] != sent {
      var x := t.sent[i][|sent|];
      if x.initial {
        HeldShown(states, steps, n, i, sent, caller, limit);
      } else {
        PushShown(states, steps, n, s, i);
      }
      hide ShownAt;
      FaithfulMore(states, steps, n, i, sent, caller, limit, x);
    }
    if t.callers[i] != caller && t.callers[i].Holding? {
      JustRead(states, steps, n, i, limit);
    }
    hide ShownAt;
    FaithfulLater(states, steps, n, i, t.sent[i], caller, limit, t.callers[i]);
  }

  lemma JustRead(states: seq<State>, steps: seq<Step>, n: nat, i: nat, limit: nat)
    requires |states| == |steps| + 1 && n < |steps| && steps[n] == ReadInitial(i)
    ensures ShownAt(states, steps, n + 1, ReadInitial(i), states[n].clock, Truncate(states[n].world, limit), limit)
  {
    assert steps[n] == ReadInitial(i) && states[n].clock == states[n].clock;
  }

  lemma HeldShown(states: seq<State>, steps: seq<Step>, n: nat, i: nat, sent: seq<Sent>, caller: Caller, limit: nat)
    requires |states| == |steps| + 1 && n <= |steps| && Faithful(states, steps, n, i, sent, caller, limit)
             && caller.Holding?
    ensures ShownAt(states, steps, n, ReadInitial(i), caller.clock, Truncate(caller.view, limit), limit)
  {
    ShownCut(states, steps, n, ReadInitial(i), caller.clock, caller.view, limit, limit);
  }

  lemma PushShown(states: seq<State>, steps: seq<Step>, n: nat, s: State, i: nat)
    requires |states| == |steps| + 1 && n <= |steps| && PushFaithful(states, steps, n, s)
    requires s.hub.Pushing? && i in s.hub.rest && i in s.subs
    ensures ShownAt(states, steps, n, Fetch(true), s.hub.clock, Truncate(s.hub.view, s.subs[i].limit), s.subs[i].limit)
  {
    var most :| Within(s.subs, s.hub.rest, most)
      && ShownAt(states, steps, n, Fetch(true), s.hub.clock, s.hub.view, most);
    ShownCut(states, steps, n, Fetch(true), s.hub.clock, s.hub.view, most, s.subs[i].limit);
  }

  lemma HubFaithfulStep(states: seq<State>, steps: seq<Step>, n: nat)
    requires IsRun(states, steps) && n < |steps| && Inv(states[n]) && HubFaithful(states, steps, n, states[n])
    ensures HubFaithful(states, steps, n + 1, states[n + 1])
  {
    hide Enabled, Next, Truncate, EachFine, EachTold, OpenIds;
    var s, t, step := states[n], states[n + 1], steps[n];
    NewHub(s, step);
    ShownLater(states, steps, n, n + 1);
    if t.hub.Fetched? && t.hub != s.hub {
      assert FoundAt(states, steps, n + 1, s.clock, s.world);
    }
    if t.hub.Pushing? {
      if s.hub.Pushing? {
        var most :| Within(s.subs, s.hub.rest, most)
          && ShownAt(states, steps, n, Fetch(true), s.hub.clock, s.hub.view, most);
        assert Within(t.subs, t.hub.rest, most);
      } else {
        CommitShows(states, steps, n, s);
        assert Within(t.subs, t.hub.rest, s.hub.most);
      }
    }
  }

  /** What a commit pushes is a cut of what was fetched, at the greatest limit. */
  lemma CommitShows(states: seq<State>, steps: seq<Step>, n: nat, s: State)
    requires |states| == |steps| + 1 && n < |steps| && s.hub.Fetched?
    requires FoundAt(states, steps, n, s.hub.clock, s.hub.whole)
    ensures ShownAt(states, steps, n + 1, Fetch(true), s.hub.clock, Truncate(s.hub.whole, s.hub.most), s.hub.most)
  {
    hide IsCut;
    var m :| 0 <= m < n && steps[m] == Fetch(true) && states[m].clock == s.hub.clock && states[m].world == s.hub.whole;
    assert IsCut(Truncate(s.hub.whole, s.hub.most), states[m].world, s.hub.most);
  }

  lemma {:induction false} RunIsFaithful(states: seq<State>, steps: seq<Step>, n: nat)
    requires IsRun(states, steps) && n <= |steps|
    ensures HubFaithful(states, steps, n, states[n])
    ensures forall i :: Known(states[n], i) ==>
              Faithful(states, steps, n, i, states[n].sent[i], states[n].callers[i], states[n].subs[i].limit)
  {
    hide Enabled, Next, Faithful, HubFaithful, Inv, ShownAt;
    if n == 0 {
      StartFaithful(states, steps);
    } else {
      RunIsFaithful(states, steps, n - 1);
      RunKeepsInv(states, steps, n - 1);
      HubFaithfulStep(states, steps, n - 1);
      var s, step, t := states[n - 1], steps[n - 1], states[n];
      forall i | Known(t, i) ensures Faithful(states, steps, n, i, t.sent[i], t.callers[i], t.subs[i].limit) {
        if step.Register? && i == s.nextId + 1 {
          NewLine(s, step);
          NothingSent(states, steps, n, i, t.subs[i].limit);
        } else {
          OldKnown(s, step, i);
          HubPushes(states, steps, n - 1, s);
          FaithfulStep(states, steps, n - 1, i);
        }
      }
    }
  }

  lemma HubPushes(states: seq<State>, steps: seq<Step>, n: nat, s: State)
    requires |states| == |steps| + 1 && n <= |steps| && HubFaithful(states, steps, n, s)
    ensures PushFaithful(states, steps, n, s)
  {
  }

  lemma NothingSent(states: seq<State>, steps: seq<Step>, n: nat, i: nat, limit: nat)
    requires |states| == |steps| + 1 && n <= |steps|
    ensures Faithful(states, steps, n, i, [], Reading, limit)
  {
  }

  lemma StartFaithful(states: seq<State>, steps: seq<Step>)
    requires IsRun(states, steps)
    ensures HubFaithful(states, steps, 0, states[0]) && forall i :: !Known(states[0], i)
  {
  }

  /**
   * Every value a subscriber was ever sent is the ranking as it stood at one read, with that read's total:
   * the first entries of it as they were, names included, as many as the subscriber's limit or all.
   */
  lemma ValuesAreReads(states: seq<State>, steps: seq<Step>, n: nat, i: nat, k: nat)
    requires IsRun(states, steps) && n <= |steps| && i in states[n].subs && i in states[n].sent
             && k < |states[n].sent[i]|
    ensures exists m :: 0 <= m < n && steps[m] == ReadStep(i, states[n].sent[i][k])
              && states[m].clock == states[n].sent[i][k].clock
              && IsCut(states[n].sent[i][k].view, states[m].world, states[n].subs[i].limit)
  {
    hide Enabled, Next;
    RunIsFaithful(states, steps, n);
    RunKeepsInv(states, steps, n);
    assert Known(states[n], i);
    hide IsCut, Inv;
    assert ShownAt(states, steps, n, ReadStep(i, states[n].sent[i][k]), states[n].sent[i][k].clock,
                   states[n].sent[i][k].view, states[n].subs[i].limit);
  }
}
