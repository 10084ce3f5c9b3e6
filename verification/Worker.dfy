/**
 * One worker process draining the outbox with no failing infrastructure: the batch path, the per-event
 * fallback, and the loops that decide when to stop.  An event can still fail for good: its row does not
 * decode, or the guild or user it names does not exist, which the foreign keys reject.
 */
module Worker {
  import opened Domain
  import opened Tally
  import opened Tables
  import opened BatchWork

  datatype Setup = Setup(batchSize: nat, maxRetry: nat, users: set<int>, guilds: set<int>)

  /** MySQL, the two ZSets, and the dead-letter log. */
  datatype Store = Store(db: Db, userZ: map<int, int>, guildZ: map<int, int>, dead: seq<nat>)

  predicate KnownScore(c: Setup, p: Score) {
    p.guild in c.guilds && p.user in c.users
  }

  /** The event can be applied at all. */
  predicate Applies(c: Setup, content: Content) {
    Decodable(content) && KnownScore(c, Decode(content).score)
  }

  function Window(c: Setup, st: Store): (ids: seq<nat>)
    ensures Distinct(ids) && forall i :: i in ids ==> Eligible(st.db.events, i, c.maxRetry)
  {
    ListPending(st.db, {}, c.batchSize, c.maxRetry)
  }

  function EventAt(events: map<nat, Row>, id: nat): Event
    requires id in events
  {
    Event(id, events[id].content, events[id].retry)
  }

  function EventsAt(events: map<nat, Row>, ids: seq<nat>): (evs: seq<Event>)
    requires forall i :: i in ids ==> i in events
    ensures |evs| == |ids| && forall n :: 0 <= n < |ids| ==> evs[n] == EventAt(events, ids[n])
  {
    seq(|ids|, n requires 0 <= n < |ids| => EventAt(events, ids[n]))
  }

  // ----- what handling a window means, event by event

  function AfterRetry(c: Setup, st: Store, id: nat): Store
    requires id in st.db.events
  {
    var row := st.db.events[id];
    st.(db := st.db.(events := st.db.events[id := row.(retry := row.retry + 1)]),
        dead := if row.retry + 1 == c.maxRetry then st.dead + [id] else st.dead)
  }

  function AfterApply(st: Store, id: nat, now: nat): Store
    requires id in st.db.events && Decodable(st.db.events[id].content)
  {
    var row := st.db.events[id];
    var p := Decode(row.content).score;
    st.(db := st.db.(events := st.db.events[id := row.(processedAt := Some(now))],
                     guildScores := AddOne(st.db.guildScores, p.guild, p.points),
                     guildRows := st.db.guildRows + [GuildEntry(p.guild, p.user, p.points)]),
        userZ := AddOne(st.userZ, p.user, p.points),
        guildZ := AddOne(st.guildZ, p.guild, p.points))
  }

  /** An event that applies is applied; any other has a failure recorded. */
  function AfterOne(c: Setup, st: Store, id: nat, now: nat): (st': Store)
    requires id in st.db.events
    ensures st'.db.events.Keys == st.db.events.Keys
    ensures forall i :: i in st.db.events ==> st'.db.events[i].content == st.db.events[i].content
    ensures forall i :: i in st.db.events && i != id ==> st'.db.events[i] == st.db.events[i]
  {
    if Applies(c, st.db.events[id].content) then AfterApply(st, id, now) else AfterRetry(c, st, id)
  }

  function AfterEach(c: Setup, st: Store, ids: seq<nat>, now: nat): (st': Store)
    requires forall i :: i in ids ==> i in st.db.events
    ensures st'.db.events.Keys == st.db.events.Keys
    ensures forall i :: i in st.db.events ==> st'.db.events[i].content == st.db.events[i].content
    ensures forall i :: i in st.db.events && i !in ids ==> st'.db.events[i] == st.db.events[i]
  {
    if ids == [] then st
    else AfterOne(c, AfterEach(c, st, ids[..|ids| - 1], now), ids[|ids| - 1], now)
  }

  lemma AfterEachSnoc(c: Setup, st: Store, ids: seq<nat>, id: nat, now: nat)
    requires id in st.db.events && forall i :: i in ids ==> i in st.db.events
    ensures AfterEach(c, st, ids + [id], now) == AfterOne(c, AfterEach(c, st, ids, now), id, now)
  {
    assert (ids + [id])[..|ids|] == ids;
  }

  // ----- the batch path does the same

  /** What the batch transaction and its Redis pipeline leave behind. */
  function AfterBatch(st: Store, ids: seq<nat>, scores: seq<Score>, now: nat): Store {
    st.(db := st.db.(events := Mark(st.db.events, Elems(ids), now),
                     guildScores := AddEach(st.db.guildScores, scores, ByGuild),
                     guildRows := st.db.guildRows + Entries(scores)),
        userZ := AddEach(st.userZ, scores, ByUser),
        guildZ := AddEach(st.guildZ, scores, ByGuild))
  }

  /** Handling events the worker can apply, one after the other, is the batch of them. */
  lemma {:induction false} EachIsBatch(c: Setup, st: Store, events: seq<Event>, now: nat)
    requires Listed(st.db.events, events)
    requires forall n :: 0 <= n < |events| ==> Applies(c, events[n].content)
    requires Distinct(Ids(events))
    ensures forall i :: i in Ids(events) ==> i in st.db.events
    ensures AfterEach(c, st, Ids(events), now) == AfterBatch(st, Ids(events), Scores(events), now)
  {
    if events == [] {
      assert Mark(st.db.events, Elems([]), now) == st.db.events;
    } else {
      hide AfterBatch, AfterOne, Scores, Mark;
      var front, last := events[..|events| - 1], events[|events| - 1];
      assert Ids(events) == Ids(front) + [last.id] && front + [last] == events;
      DistinctSnoc(Ids(front), last.id);
      EachIsBatch(c, st, front, now);
      AfterEachSnoc(c, st, Ids(front), last.id, now);
      OneMoreGood(front, last);
      BatchMore(c, st, Ids(front), Scores(front), last.id, Decode(last.content).score, now);
    }
  }

  lemma BatchMore(c: Setup, st: Store, ids: seq<nat>, scores: seq<Score>, id: nat, p: Score, now: nat)
    requires id in st.db.events && id !in ids && Decode(st.db.events[id].content) == Ok(p) && KnownScore(c, p)
    ensures id in AfterBatch(st, ids, scores, now).db.events
    ensures AfterOne(c, AfterBatch(st, ids, scores, now), id, now) == AfterBatch(st, ids + [id], scores + [p], now)
  {
    hide Mark, Entries;
    MarkMore(st.db.events, ids, id, now);
    EntriesMore(scores, p);
    AddEachMore(st.db.guildScores, scores, p, ByGuild);
    AddEachMore(st.guildZ, scores, p, ByGuild);
    AddEachMore(st.userZ, scores, p, ByUser);
  }

  lemma EntriesMore(scores: seq<Score>, p: Score)
    ensures Entries(scores + [p]) == Entries(scores) + [EntryOf(p, ByGuild)]
  {
  }

  lemma MarkMore(events: map<nat, Row>, ids: seq<nat>, id: nat, now: nat)
    requires id in events && id !in ids
    ensures Mark(events, Elems(ids), now).Keys == events.Keys
    ensures Mark(events, Elems(ids + [id]), now) ==
            Mark(events, Elems(ids), now)[id := events[id].(processedAt := Some(now))]
    ensures Mark(events, Elems(ids), now)[id] == events[id]
  {
    assert Elems(ids + [id]) == Elems(ids) + {id};
  }

  lemma AddEachMore(table: map<int, int>, scores: seq<Score>, p: Score, d: Dim)
    ensures AddEach(table, scores + [p], d) == AddOne(AddEach(table, scores, d), Key(p, d), p.points)
  {
    assert (scores + [p])[..|scores|] == scores;
  }

  /** Recording a failure commutes with applying another event. */
  lemma Commute(c: Setup, st: Store, good: nat, bad: nat, now: nat)
    requires good in st.db.events && bad in st.db.events && good != bad
    requires Applies(c, st.db.events[good].content) && !Applies(c, st.db.events[bad].content)
    ensures AfterOne(c, AfterOne(c, st, good, now), bad, now) == AfterOne(c, AfterOne(c, st, bad, now), good, now)
  {
    var r, r' := st.db.events[good].(processedAt := Some(now)),
        st.db.events[bad].(retry := st.db.events[bad].retry + 1);
    assert st.db.events[good := r][bad := r'] == st.db.events[bad := r'][good := r];
  }

  lemma {:induction false} CommuteAll(c: Setup, st: Store, good: nat, bads: seq<nat>, now: nat)
    requires good in st.db.events && good !in bads && Applies(c, st.db.events[good].content)
    requires forall i :: i in bads ==> i in st.db.events && !Applies(c, st.db.events[i].content)
    ensures AfterEach(c, AfterOne(c, st, good, now), bads, now) == AfterOne(c, AfterEach(c, st, bads, now), good, now)
  {
    if bads != [] {
      var front, last := bads[..|bads| - 1], bads[|bads| - 1];
      assert last in bads;
      CommuteAll(c, st, good, front, now);
      Commute(c, AfterEach(c, st, front, now), good, last, now);
    }
  }

  lemma {:induction false} IdsIn(events: seq<Event>)
    ensures forall i :: i in Ids(Good(events)) || i in Ids(Bad(events)) ==> i in Ids(events)
    ensures Distinct(Ids(events)) ==> Distinct(Ids(Good(events))) && Distinct(Ids(Bad(events)))
  {
    if events != [] {
      var front, last := events[..|events| - 1], events[|events| - 1];
      IdsIn(front);
      assert Ids(events) == Ids(front) + [last.id];
      DistinctSnoc(Ids(front), last.id);
      assert front + [last] == events;
      if Decodable(last.content) {
        OneMoreGood(front, last);
        DistinctSnoc(Ids(Good(front)), last.id);
      } else {
        OneMoreBad(front, last);
        assert Ids(Bad(front) + [last]) == Ids(Bad(front)) + [last.id];
        DistinctSnoc(Ids(Bad(front)), last.id);
      }
    }
  }

  /** First all that decode, then all that do not: the same as in listed order. */
  lemma {:induction false} GoodThenBad(c: Setup, st: Store, events: seq<Event>, now: nat)
    requires Listed(st.db.events, events) && Distinct(Ids(events))
    requires forall n :: 0 <= n < |events| && Decodable(events[n].content) ==> Applies(c, events[n].content)
    ensures KnownIds(st.db.events, events)
    ensures AfterEach(c, st, Ids(events), now) ==
              AfterEach(c, AfterEach(c, st, Ids(Good(events)), now), Ids(Bad(events)), now)
  {
    hide AfterOne, AfterEach, Good, Bad;
    IdsIn(events);
    if events == [] {
      NoEvents(c, st, now);
    } else {
      var front, last := events[..|events| - 1], events[|events| - 1];
      assert Ids(events) == Ids(front) + [last.id] && front + [last] == events;
      DistinctSnoc(Ids(front), last.id);
      IdsIn(front);
      GoodThenBad(c, st, front, now);
      AfterEachSnoc(c, st, Ids(front), last.id, now);
      var good, bad := Ids(Good(front)), Ids(Bad(front));
      if Decodable(last.content) {
        OneMoreGood(front, last);
        AfterEachSnoc(c, st, good, last.id, now);
        BadDoNotApply(c, st, front);
        CommuteAll(c, AfterEach(c, st, good, now), last.id, bad, now);
      } else {
        OneMoreBad(front, last);
        IdsMore(Bad(front), last);
        AfterEachSnoc(c, AfterEach(c, st, good, now), bad, last.id, now);
      }
    }
  }

  lemma NoEvents(c: Setup, st: Store, now: nat)
    ensures Good([]) == [] && Bad([]) == [] && Ids([]) == [] && AfterEach(c, st, [], now) == st
  {
  }

  lemma IdsMore(events: seq<Event>, ev: Event)
    ensures Ids(events + [ev]) == Ids(events) + [ev.id]
  {
  }

  /** The events are rows of the table as they stand. */
  ghost predicate Listed(rows: map<nat, Row>, events: seq<Event>) {
    forall n :: 0 <= n < |events| ==> events[n].id in rows && events[n] == EventAt(rows, events[n].id)
  }

  ghost predicate KnownIds(rows: map<nat, Row>, events: seq<Event>) {
    forall i :: i in Ids(events) || i in Ids(Good(events)) || i in Ids(Bad(events)) ==> i in rows
  }

  lemma {:induction false} BadDoNotApply(c: Setup, st: Store, events: seq<Event>)
    requires Listed(st.db.events, events)
    ensures forall i :: i in Ids(Bad(events)) ==> i in st.db.events && !Decodable(st.db.events[i].content)
  {
    if events != [] {
      var front, last := events[..|events| - 1], events[|events| - 1];
      BadDoNotApply(c, st, front);
      assert front + [last] == events;
      if Decodable(last.content) {
        OneMoreGood(front, last);
      } else {
        OneMoreBad(front, last);
        assert Ids(Bad(front) + [last]) == Ids(Bad(front)) + [last.id];
      }
    }
  }
}
