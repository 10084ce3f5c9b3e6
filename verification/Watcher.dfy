/** The ranking watcher: one-slot channels overwritten by the newest value, and the hub that fills them. */
module Watcher {
  import opened Domain
  import opened Rankings

  // ----- a channel with room for one value

  /** A fault is a send that would block or hit a closed channel, or a second close. */
  datatype Chan = Chan(buf: Option<View>, closed: bool, faults: nat)

  function Send(ch: Chan, v: View): Chan {
    if ch.closed || ch.buf.Some? then ch.(faults := ch.faults + 1) else ch.(buf := Some(v))
  }

  function Drain(ch: Chan): Chan {
    ch.(buf := None)
  }

  function CloseChan(ch: Chan): Chan {
    if ch.closed then ch.(faults := ch.faults + 1) else ch.(closed := true)
  }

  // ----- a subscriber, as a value

  datatype Sub = Sub(limit: nat, ch: Chan, closed: bool, delivered: bool)

  function NewSub(limit: nat): Sub {
    Sub(limit, Chan(None, false, 0), false, false)
  }

  function Pushed(s: Sub, v: View): Sub {
    if s.closed then s else s.(ch := Send(Drain(s.ch), v), delivered := true)
  }

  function PushedInitial(s: Sub, v: View): Sub {
    if s.closed || s.delivered then s else s.(ch := Send(s.ch, v), delivered := true)
  }

  function Closed(s: Sub): Sub {
    if s.closed then s else s.(closed := true, ch := CloseChan(s.ch))
  }

  /** What the receiver does to the channel. */
  function Received(s: Sub): Sub {
    s.(ch := Drain(s.ch))
  }

  predicate SubOk(s: Sub) {
    s.ch.faults == 0 && s.ch.closed == s.closed && (!s.delivered ==> s.ch.buf.None?)
  }

  /** With the subscriber's lock around each of these, no order of them blocks, panics or closes twice. */
  lemma SubStaysOk(s: Sub, v: View)
    requires SubOk(s)
    ensures SubOk(Pushed(s, v)) && SubOk(PushedInitial(s, v)) && SubOk(Closed(s)) && SubOk(Received(s))
    ensures !s.closed ==> Pushed(s, v).ch.buf == Some(v)
    ensures !s.closed && !s.delivered ==> PushedInitial(s, v).ch.buf == Some(v)
  {
  }

  // ----- the hub, as values

  predicate IsMaxLimit(open: map<nat, Sub>, most: nat) {
    && (forall i :: i in open ==> open[i].limit <= most)
    && (open != map[] ==> exists i :: i in open && open[i].limit == most)
    && (open == map[] ==> most == 0)
  }

  function PushedAll(open: map<nat, Sub>, v: View): map<nat, Sub> {
    map i | i in open :: Pushed(open[i], Truncate(v, open[i].limit))
  }

  /** Everybody registered gets its share of a changed ranking; a failed or unchanged read leaves all as is. */
  function Delivered(open: map<nat, Sub>, last: seq<EntryKey>, fetched: Option<View>): map<nat, Sub> {
    if open != map[] && fetched.Some? && Keys(fetched.value.rankings) != last
    then PushedAll(open, fetched.value)
    else open
  }

  function LastKeys(open: map<nat, Sub>, last: seq<EntryKey>, fetched: Option<View>): seq<EntryKey> {
    if open != map[] && fetched.Some? then Keys(fetched.value.rankings) else last
  }

  /** In an open subscriber's channel is what was fetched, cut at its limit. */
  ghost predicate IsSent(s: Sub, fetched: View) {
    !s.closed ==> s.ch.buf.Some? && IsCut(s.ch.buf.value, fetched, s.limit)
  }

  lemma AllSent(open: map<nat, Sub>, fetched: View)
    requires forall i :: i in open ==> SubOk(open[i])
    ensures forall i :: i in PushedAll(open, fetched) ==> IsSent(PushedAll(open, fetched)[i], fetched)
  {
    forall i | i in open ensures IsSent(PushedAll(open, fetched)[i], fetched) {
      SubStaysOk(open[i], Truncate(fetched, open[i].limit));
    }
  }

  // ----- the subscriber

  class WatchSubscriber {
    const limit: nat
    var ch: Chan
    var closed: bool
    var delivered: bool

    ghost predicate Valid()
      reads this
    {
      SubOk(Look())
    }

    function Look(): Sub
      reads this
    {
      Sub(limit, ch, closed, delivered)
    }

    constructor (limit: nat)
      ensures Valid() && Look() == NewSub(limit)
    {
      this.limit := limit;
      ch := Chan(None, false, 0);
      closed, delivered := false, false;
    }

    method Push(v: View) returns (dropped: bool)
      requires Valid()
      modifies this
      ensures Valid() && Look() == Pushed(old(Look()), v) && closed == old(closed)
      ensures dropped == (!old(closed) && old(ch.buf.Some?))
    {
      if closed {
        return false;
      }
      dropped := false;
      if ch.buf.Some? {
        ch := ch.(buf := None);
        dropped := true;
      }
      ch := Send(ch, v);
      delivered := true;
    }

    method PushInitial(v: View)
      requires Valid()
      modifies this
      ensures Valid() && Look() == PushedInitial(old(Look()), v)
    {
      if closed || delivered {
        return;
      }
      ch := Send(ch, v);
      delivered := true;
    }

    method Close()
      requires Valid()
      modifies this
      ensures Valid() && Look() == Closed(old(Look()))
    {
      if closed {
        return;
      }
      closed := true;
      ch := CloseChan(ch);
    }
  }

  // ----- the hub

  datatype Registered = Rejected | Joined(sub: WatchSubscriber, id: nat)

  /** What the Run loop's select sees. */
  datatype Signal = Updated(fetch: nat -> Option<View>) | SubscriptionLost | Cancelled

  class RankingWatcher {
    var stopped: bool
    var nextId: nat
    var subs: map<nat, WatchSubscriber>
    var last: seq<EntryKey>

    ghost predicate Valid()
      reads this, subs.Values
    {
      && (forall i :: i in subs ==> i <= nextId && subs[i].Valid() && !subs[i].closed)
      && (forall i, j :: i in subs && j in subs && i != j ==> subs[i] != subs[j])
      && (stopped ==> subs == map[])
    }

    /** The registered subscribers as values. */
    ghost function Open(): map<nat, Sub>
      reads this, subs.Values
    {
      map i | i in subs :: subs[i].Look()
    }

    constructor ()
      ensures Valid() && !stopped && subs == map[] && last == []
    {
      stopped, nextId, subs, last := false, 0, map[], [];
    }

    method Register(limit: nat) returns (r: Registered)
      requires Valid()
      modifies this
      ensures Valid() && stopped == old(stopped) && last == old(last)
      ensures stopped ==> r == Rejected && subs == old(subs) && nextId == old(nextId)
      ensures !stopped ==> r.Joined? && fresh(r.sub) && r.id == nextId == old(nextId) + 1 && r.id !in old(subs)
      ensures !stopped ==> subs == old(subs)[r.id := r.sub]
      ensures !stopped ==> r.sub.Look() == NewSub(limit) && Open() == old(Open())[r.id := NewSub(limit)]
    {
      if stopped {
        return Rejected;
      }
      nextId := nextId + 1;
      var s := new WatchSubscriber(limit);
      subs := subs[nextId := s];
      return Joined(s, nextId);
    }

    method Remove(id: nat)
      requires Valid()
      modifies this, if id in subs then {subs[id]} else {}
      ensures Valid() && stopped == old(stopped) && last == old(last) && nextId == old(nextId)
      ensures subs == old(subs) - {id} && Open() == old(Open()) - {id}
      ensures id in old(subs) ==> old(subs[id]).Look() == Closed(old(subs[id].Look()))
    {
      if id !in subs {
        assert subs - {id} == subs;
        return;
      }
      var s := subs[id];
      subs := subs - {id};
      s.Close();
    }

    method Shutdown()
      requires Valid()
      modifies this, subs.Values
      ensures Valid() && stopped && subs == map[] && last == old(last) && nextId == old(nextId)
      ensures forall i :: i in old(subs) ==> old(subs)[i].Look() == Closed(old(Open())[i])
    {
      stopped := true;
      var list := List();
      AllListed(list);
      subs := map[];
      CloseAll(list);
      forall i | i in old(subs) ensures old(subs)[i].Look() == Closed(old(Open())[i]) {
        var n :| 0 <= n < |list| && list[n] == old(subs)[i];
      }
    }

    static method CloseAll(list: seq<WatchSubscriber>)
      requires forall n :: 0 <= n < |list| ==> list[n].Valid()
      requires forall m, n :: 0 <= m < n < |list| ==> list[m] != list[n]
      modifies list
      ensures forall n :: 0 <= n < |list| ==> list[n].Look() == Closed(old(list[n].Look()))
    {
      hide Closed;
      for n := 0 to |list|
        invariant forall m :: 0 <= m < n ==> list[m].Look() == Closed(old(list[m].Look()))
        invariant forall m :: n <= m < |list| ==> list[m].Look() == old(list[m].Look())
      {
        list[n].Close();
      }
    }

    /** `list` holds every registered subscriber once, in whatever order the map gives. */
    ghost predicate Lists(list: seq<WatchSubscriber>)
      reads this
    {
      && (forall s :: s in list ==> s in subs.Values)
      && (forall i :: i in subs ==> subs[i] in list)
      && (forall m, n :: 0 <= m < n < |list| ==> list[m] != list[n])
    }

    lemma AllListed(list: seq<WatchSubscriber>)
      requires Lists(list) && forall i :: i in subs ==> subs[i].Valid()
      ensures forall n :: 0 <= n < |list| ==> list[n].Valid() && exists i :: i in subs && subs[i] == list[n]
    {
      forall n | 0 <= n < |list| ensures list[n].Valid() && exists i :: i in subs && subs[i] == list[n] {
        assert list[n] in subs.Values;
      }
    }

    static ghost function Looks(list: seq<WatchSubscriber>): (looks: seq<Sub>)
      reads list
      ensures |looks| == |list| && forall n :: 0 <= n < |list| ==> looks[n] == list[n].Look()
    {
      if list == [] then [] else Looks(list[..|list| - 1]) + [list[|list| - 1].Look()]
    }

    method List() returns (list: seq<WatchSubscriber>)
      requires forall i, j :: i in subs && j in subs && i != j ==> subs[i] != subs[j]
      ensures Lists(list)
    {
      list := [];
      var rest := subs.Keys;
      while rest != {}
        invariant rest <= subs.Keys
        invariant forall s :: s in list ==> exists i :: i in subs && i !in rest && subs[i] == s
        invariant forall i :: i in subs && i !in rest ==> subs[i] in list
        invariant forall m, n :: 0 <= m < n < |list| ==> list[m] != list[n]
      {
        var id :| id in rest;
        assert subs[id] !in list;
        list := list + [subs[id]];
        rest := rest - {id};
      }
    }

    method Snapshot() returns (list: seq<WatchSubscriber>, most: nat)
      requires Valid()
      ensures Lists(list) && IsMaxLimit(Open(), most) && (list == [] <==> Open() == map[])
    {
      list := List();
      most := 0;
      for n := 0 to |list|
        invariant forall m :: 0 <= m < n ==> list[m].limit <= most
        invariant if n == 0 then most == 0 else exists s :: s in list && s.limit == most
      {
        if list[n].limit > most {
          most := list[n].limit;
        }
        assert list[n] in list;
      }
      if subs != map[] {
        var i :| i in subs;
        var s :| s in list && s.limit == most;
        var j :| j in subs && subs[j] == s;
        assert Open()[j].limit == most;
      }
      if list != [] {
        assert list[0] in subs.Values;
      }
    }

    method CommitIfChanged(entries: seq<RankEntry>) returns (changed: bool)
      modifies this`last
      ensures last == Keys(entries)
      ensures changed == (old(last) != Keys(entries))
      ensures Open() == old(Open())
    {
      var keys := Keys(entries);
      if last == keys {
        return false;
      }
      last := keys;
      return true;
    }

    /** One notification, with nothing else running: see WatcherRuns for what may interleave. */
    method Broadcast(fetch: nat -> Option<View>) returns (ghost asked: nat)
      requires Valid()
      modifies this`last, subs.Values
      ensures Valid() && IsMaxLimit(old(Open()), asked)
      ensures Open() == Delivered(old(Open()), old(last), fetch(asked))
      ensures last == LastKeys(old(Open()), old(last), fetch(asked))
      ensures if old(Open()) != map[] && fetch(asked).Some? && Keys(fetch(asked).value.rankings) != old(last)
              then forall i :: i in Open() ==> IsSent(Open()[i], fetch(asked).value)
              else Open() == old(Open())
    {
      hide PushedAll, SubOk, IsSent, IsMaxLimit, Keys;
      var list, most := Snapshot();
      asked := most;
      if list == [] {
        return;
      }
      match fetch(most)
      case None =>
      case Some(res) =>
        var changed := CommitIfChanged(res.rankings);
        if changed {
          OpenSound();
          ghost var open := Open();
          PushAll(list, res);
          AllSent(open, res);
        }
    }

    method PushAll(list: seq<WatchSubscriber>, res: View)
      requires Valid() && Lists(list)
      modifies subs.Values
      ensures subs == old(subs) && last == old(last)
      ensures Valid() && Open() == PushedAll(old(Open()), res)
    {
      hide Pushed, Truncate, SubOk;
      ghost var looks := Looks(list);
      AllListed(list);
      for n := 0 to |list|
        invariant forall m :: 0 <= m < |list| ==> list[m].Valid() && !list[m].closed
        invariant forall m :: 0 <= m < n ==> list[m].Look() == Pushed(looks[m], Truncate(res, looks[m].limit))
        invariant forall m :: n <= m < |list| ==> list[m].Look() == looks[m]
      {
        var dropped := list[n].Push(Truncate(res, list[n].limit));
      }
      forall i | i in subs
        ensures subs[i].Valid() && subs[i].Look() == Pushed(old(Open())[i], Truncate(res, old(Open())[i].limit))
      {
        var n :| 0 <= n < |list| && list[n] == subs[i];
      }
    }

    lemma OpenSound()
      requires Valid()
      ensures forall i :: i in Open() ==> SubOk(Open()[i])
    {
      forall i | i in subs ensures SubOk(subs[i].Look()) {
        assert subs[i].Valid();
      }
    }

    /** Registers first and reads afterwards; a failed first read takes the registration back. */
    method WatchUserRankings(limit: int, fetch: nat -> Option<View>) returns (r: Registered)
      requires Valid()
      modifies this
      ensures Valid() && stopped == old(stopped) && last == old(last)
      ensures var most := NormalizeLimit(limit);
              if stopped || fetch(most).None? then r == Rejected && subs == old(subs)
              else r.Joined? && fresh(r.sub) && r.id !in old(subs) && subs == old(subs)[r.id := r.sub]
                   && r.sub.Look() == PushedInitial(NewSub(most), Truncate(fetch(most).value, most))
                   && IsSent(r.sub.Look(), fetch(most).value)
    {
      var most := NormalizeLimit(limit);
      r := Register(most);
      if r == Rejected {
        return;
      }
      match fetch(most)
      case None =>
        assert old(subs)[r.id := r.sub] - {r.id} == old(subs);
        Remove(r.id);
        return Rejected;
      case Some(res) =>
        r.sub.PushInitial(Truncate(res, most));
    }

    /** Serves signals until one ends it; leaves through shutdown unless it could not subscribe at all. */
    method Run(subscribed: bool, signals: seq<Signal>) returns (end: RunEnd)
      requires Valid()
      modifies this, subs.Values
      ensures Valid()
      ensures end == RunEnded(subscribed, signals)
      ensures end == EndedByCancel || end == EndedByLoss ==>
                stopped && subs == map[]
                && forall i :: i in old(subs) ==> old(subs)[i].closed && old(subs)[i].ch.faults == 0
      ensures end == NoSubscription || end == Serving ==> stopped == old(stopped) && subs == old(subs)
    {
      if !subscribed {
        return NoSubscription;
      }
      for n := 0 to |signals|
        invariant Valid() && subs == old(subs) && stopped == old(stopped)
        invariant RunEnded(true, signals[..n]) == Serving
      {
        assert signals[..n + 1][..n] == signals[..n];
        if !signals[n].Updated? {
          RunEndedEarly(signals, n);
        }
        match signals[n]
        case Updated(fetch) => var _ := Broadcast(fetch);
        case SubscriptionLost =>
          Shutdown();
          return EndedByLoss;
        case Cancelled =>
          Shutdown();
          return EndedByCancel;
      }
      assert signals[..|signals|] == signals;
      return Serving;
    }
  }

  datatype RunEnd = NoSubscription | Serving | EndedByCancel | EndedByLoss

  /** The first signal that is not an update ends the loop. */
  function RunEnded(subscribed: bool, signals: seq<Signal>): RunEnd {
    if !subscribed then NoSubscription
    else if signals == [] then Serving
    else match RunEnded(true, signals[..|signals| - 1])
      case Serving =>
        (match signals[|signals| - 1]
         case Updated(_) => Serving
         case SubscriptionLost => EndedByLoss
         case Cancelled => EndedByCancel)
      case end => end
  }

  lemma {:induction false} RunEndedEarly(signals: seq<Signal>, n: nat)
    requires n < |signals| && RunEnded(true, signals[..n]) == Serving && !signals[n].Updated?
    ensures RunEnded(true, signals) == if signals[n] == SubscriptionLost then EndedByLoss else EndedByCancel
  {
    var last := |signals| - 1;
    if n == last {
    } else {
      assert signals[..last][..n] == signals[..n];
      RunEndedEarly(signals[..last], n);
    }
  }
}
