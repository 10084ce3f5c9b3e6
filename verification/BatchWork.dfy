/** Folding a window of events into one batch, and why that equals applying them one by one. */
module BatchWork {
  import opened Domain
  import opened Tally

  /** A row as ListPending returns it. */
  datatype Event = Event(id: nat, content: Content, retry: nat)

  /** An addition to one ranking member: GuildScoreDelta or UserPointDelta. */
  datatype Delta = Delta(key: int, points: int)

  datatype Work = Work(ids: seq<nat>, guildDeltas: seq<Delta>, userDeltas: seq<Delta>, histories: seq<Entry>)

  /** The events that decode, and those that do not, in order. */
  function Good(events: seq<Event>): seq<Event> {
    if events == [] then []
    else
      var last := events[|events| - 1];
      Good(events[..|events| - 1]) + if Decodable(last.content) then [last] else []
  }

  function Bad(events: seq<Event>): seq<Event> {
    if events == [] then []
    else
      var last := events[|events| - 1];
      Bad(events[..|events| - 1]) + if Decodable(last.content) then [] else [last]
  }

  function Scores(events: seq<Event>): (scores: seq<Score>)
    ensures |scores| <= |events|
  {
    if events == [] then []
    else
      var last := events[|events| - 1];
      Scores(events[..|events| - 1]) + if Decodable(last.content) then [Decode(last.content).score] else []
  }

  function Ids(events: seq<Event>): seq<nat> {
    seq(|events|, n requires 0 <= n < |events| => events[n].id)
  }

  function Entries(scores: seq<Score>): seq<Entry> {
    seq(|scores|, n requires 0 <= n < |scores| => EntryOf(scores[n], ByGuild))
  }

  function Refusals(events: seq<Event>): (errs: seq<Decoded>)
    ensures |errs| == |events|
  {
    seq(|events|, n requires 0 <= n < |events| => Decode(events[n].content))
  }

  function Total(scores: seq<Score>, m: Meter): int {
    if scores == [] then 0 else Total(scores[..|scores| - 1], m) + Measure(scores[|scores| - 1], m)
  }

  function KeysOf(scores: seq<Score>, d: Dim): set<int> {
    set p | p in scores :: Key(p, d)
  }

  /** One delta per key, each with the key's total; the order is the map's own. */
  ghost predicate AreTotals(deltas: seq<Delta>, scores: seq<Score>, d: Dim) {
    && (forall i, j :: 0 <= i < j < |deltas| ==> deltas[i].key != deltas[j].key)
    && (forall i :: 0 <= i < |deltas| ==> deltas[i].points == Total(scores, Points(d, deltas[i].key)))
    && KeysIn(deltas) == KeysOf(scores, d)
  }

  function KeysIn(deltas: seq<Delta>): set<int> {
    set x | x in deltas :: x.key
  }

  // ----- buildBatchWork

  lemma TotalSnoc(scores: seq<Score>, p: Score, m: Meter)
    ensures Total(scores + [p], m) == Total(scores, m) + Measure(p, m)
  {
    assert (scores + [p])[..|scores|] == scores;
  }

  ghost predicate SumsOf(sums: map<int, int>, scores: seq<Score>, d: Dim) {
    sums.Keys == KeysOf(scores, d) && forall k :: k in sums ==> sums[k] == Total(scores, Points(d, k))
  }

  lemma SumsGrow(sums: map<int, int>, scores: seq<Score>, p: Score, d: Dim)
    requires SumsOf(sums, scores, d)
    ensures SumsOf(sums[Key(p, d) := Get(sums, Key(p, d)) + p.points], scores + [p], d)
  {
    var k, sums' := Key(p, d), sums[Key(p, d) := Get(sums, Key(p, d)) + p.points];
    assert KeysOf(scores + [p], d) == KeysOf(scores, d) + {k} by {
      assert forall q :: q in scores + [p] <==> q in scores || q == p;
    }
    forall j | j in sums' ensures sums'[j] == Total(scores + [p], Points(d, j)) {
      TotalSnoc(scores, p, Points(d, j));
      if j !in sums {
        NoKeyNoTotal(scores, d, j);
      }
    }
  }

  lemma {:induction false} NoKeyNoTotal(scores: seq<Score>, d: Dim, k: int)
    requires k !in KeysOf(scores, d)
    ensures Total(scores, Points(d, k)) == 0
  {
    if scores != [] {
      var p := scores[|scores| - 1];
      assert p in scores;
      assert forall q :: q in scores[..|scores| - 1] ==> q in scores;
      NoKeyNoTotal(scores[..|scores| - 1], d, k);
    }
  }

  /** for key, points := range sums: every key once, in no particular order. */
  method Spill(sums: map<int, int>, ghost scores: seq<Score>, d: Dim) returns (deltas: seq<Delta>)
    requires SumsOf(sums, scores, d)
    ensures AreTotals(deltas, scores, d)
  {
    deltas := [];
    var rest := sums.Keys;
    while rest != {}
      invariant rest <= sums.Keys
      invariant forall i :: 0 <= i < |deltas| ==> deltas[i].key in sums && deltas[i].points == sums[deltas[i].key]
      invariant forall i, j :: 0 <= i < j < |deltas| ==> deltas[i].key != deltas[j].key
      invariant KeysIn(deltas) == sums.Keys - rest
    {
      var k :| k in rest;
      ghost var before := deltas;
      deltas := deltas + [Delta(k, sums[k])];
      assert forall x :: x in deltas <==> x in before || x == Delta(k, sums[k]);
      assert KeysIn(deltas) == KeysIn(before) + {k};
      assert forall i :: 0 <= i < |before| ==> before[i] in before && before[i].key in KeysIn(before);
      rest := rest - {k};
    }
  }

  /** What one more event adds to each list. */
  lemma OneMoreGood(es: seq<Event>, ev: Event)
    requires Decodable(ev.content)
    ensures Scores(es + [ev]) == Scores(es) + [Decode(ev.content).score] && Bad(es + [ev]) == Bad(es)
    ensures Ids(Good(es + [ev])) == Ids(Good(es)) + [ev.id]
    ensures Entries(Scores(es + [ev])) == Entries(Scores(es)) + [EntryOf(Decode(ev.content).score, ByGuild)]
  {
    assert (es + [ev])[..|es|] == es;
  }

  lemma OneMoreBad(es: seq<Event>, ev: Event)
    requires !Decodable(ev.content)
    ensures Scores(es + [ev]) == Scores(es) && Good(es + [ev]) == Good(es) && Bad(es + [ev]) == Bad(es) + [ev]
    ensures Refusals(Bad(es + [ev])) == Refusals(Bad(es)) + [Decode(ev.content)]
  {
    assert (es + [ev])[..|es|] == es;
  }

  /** The loop's variables after it has seen `events`. */
  ghost predicate Seen(events: seq<Event>, ids: seq<nat>, histories: seq<Entry>, undecoded: seq<Event>,
                       errs: seq<Decoded>,
                       guildSums: map<int, int>, userSums: map<int, int>) {
    && ids == Ids(Good(events)) && histories == Entries(Scores(events))
    && undecoded == Bad(events) && errs == Refusals(Bad(events))
    && SumsOf(guildSums, Scores(events), ByGuild) && SumsOf(userSums, Scores(events), ByUser)
  }

  lemma SeenRefused(es: seq<Event>, ev: Event, ids: seq<nat>, histories: seq<Entry>, undecoded: seq<Event>,
                    errs: seq<Decoded>,
                    guildSums: map<int, int>, userSums: map<int, int>)
    requires Seen(es, ids, histories, undecoded, errs, guildSums, userSums) && !Decodable(ev.content)
    ensures Seen(es + [ev], ids, histories, undecoded + [ev], errs + [Decode(ev.content)], guildSums, userSums)
  {
    OneMoreBad(es, ev);
  }

  lemma SeenOk(es: seq<Event>, ev: Event, ids: seq<nat>, histories: seq<Entry>, undecoded: seq<Event>,
               errs: seq<Decoded>,
               guildSums: map<int, int>, userSums: map<int, int>, p: Score)
    requires Seen(es, ids, histories, undecoded, errs, guildSums, userSums) && Decode(ev.content) == Ok(p)
    ensures Seen(es + [ev], ids + [ev.id], histories + [EntryOf(p, ByGuild)], undecoded, errs,
                 guildSums[p.guild := Get(guildSums, p.guild) + p.points],
                 userSums[p.user := Get(userSums, p.user) + p.points])
  {
    hide Ids, Good, Bad, Entries, Refusals, SumsOf, Scores;
    OneMoreGood(es, ev);
    SumsGrow(guildSums, Scores(es), p, ByGuild);
    SumsGrow(userSums, Scores(es), p, ByUser);
  }

  /** The n-th decodable event carries the n-th score. */
  lemma {:induction false} GoodCarry(events: seq<Event>)
    ensures |Good(events)| == |Scores(events)|
    ensures forall n :: 0 <= n < |Good(events)| ==> Carries(Good(events)[n].content, Scores(events)[n])
    ensures forall ev :: ev in Good(events) <==> ev in events && exists p :: Carries(ev.content, p)
  {
    if events != [] {
      var front, last := events[..|events| - 1], events[|events| - 1];
      assert events == front + [last];
      GoodCarry(front);
      assert Decodable(last.content) ==> Carries(last.content, Decode(last.content).score);
    }
  }

  /** One guild history row per decodable event, in order, with its guild, its user and its points. */
  ghost predicate AreHistories(rows: seq<Entry>, events: seq<Event>) {
    && |rows| == |Good(events)|
    && forall n :: 0 <= n < |rows| ==>
         && rows[n].GuildEntry?
         && Carries(Good(events)[n].content, Score(rows[n].user, rows[n].guild, rows[n].points))
  }

  lemma EntriesAreHistories(events: seq<Event>)
    ensures AreHistories(Entries(Scores(events)), events)
  {
    GoodCarry(events);
    hide Good, Scores;
  }

  method BuildBatchWork(events: seq<Event>) returns (work: Work, undecoded: seq<Event>, errs: seq<Decoded>)
    ensures AreHistories(work.histories, events)
    ensures work.ids == Ids(Good(events)) && work.histories == Entries(Scores(events))
    ensures AreTotals(work.guildDeltas, Scores(events), ByGuild) && AreTotals(work.userDeltas, Scores(events), ByUser)
    ensures undecoded == Bad(events) && errs == Refusals(undecoded)
  {
    var ids: seq<nat>, histories: seq<Entry> := [], [];
    undecoded, errs := [], [];
    var guildSums: map<int, int>, userSums: map<int, int> := map[], map[];
    for i := 0 to |events|
      invariant Seen(events[..i], ids, histories, undecoded, errs, guildSums, userSums)
    {
      var ev := events[i];
      assert events[..i + 1] == events[..i] + [ev];
      match Decode(ev.content)
      case Refused(why) =>
        SeenRefused(events[..i], ev, ids, histories, undecoded, errs, guildSums, userSums);
        undecoded, errs := undecoded + [ev], errs + [Refused(why)];
      case Ok(p) =>
        SeenOk(events[..i], ev, ids, histories, undecoded, errs, guildSums, userSums, p);
        ids, histories := ids + [ev.id], histories + [EntryOf(p, ByGuild)];
        guildSums := guildSums[p.guild := Get(guildSums, p.guild) + p.points];
        userSums := userSums[p.user := Get(userSums, p.user) + p.points];
    }
    assert events[..|events|] == events;
    EntriesAreHistories(events);
    var guildDeltas := Spill(guildSums, Scores(events), ByGuild);
    var userDeltas := Spill(userSums, Scores(events), ByUser);
    work := Work(ids, guildDeltas, userDeltas, histories);
  }

  // ----- batch refines one by one

  /** INSERT ... ON DUPLICATE KEY UPDATE score = score + VALUES(score); ZINCRBY behaves alike. */
  function AddOne(table: map<int, int>, k: int, points: int): map<int, int> {
    table[k := Get(table, k) + points]
  }

  function AddEach(table: map<int, int>, scores: seq<Score>, d: Dim): map<int, int> {
    if scores == [] then table
    else
      var p := scores[|scores| - 1];
      AddOne(AddEach(table, scores[..|scores| - 1], d), Key(p, d), p.points)
  }

  function AddDeltas(table: map<int, int>, deltas: seq<Delta>): map<int, int> {
    if deltas == [] then table
    else
      var x := deltas[|deltas| - 1];
      AddOne(AddDeltas(table, deltas[..|deltas| - 1]), x.key, x.points)
  }

  lemma {:induction false} AddEachTotals(table: map<int, int>, scores: seq<Score>, d: Dim)
    ensures AddEach(table, scores, d).Keys == table.Keys + KeysOf(scores, d)
    ensures forall k :: Get(AddEach(table, scores, d), k) == Get(table, k) + Total(scores, Points(d, k))
  {
    if scores != [] {
      var front, p := scores[..|scores| - 1], scores[|scores| - 1];
      AddEachTotals(table, front, d);
      assert scores == front + [p];
      assert forall q :: q in scores <==> q in front || q == p;
    }
  }

  /** The points a key receives from a list of deltas. */
  function DeltaAt(deltas: seq<Delta>, k: int): int {
    if deltas == [] then 0
    else
      var x := deltas[|deltas| - 1];
      DeltaAt(deltas[..|deltas| - 1], k) + if x.key == k then x.points else 0
  }

  lemma {:induction false} AddDeltasTotals(table: map<int, int>, deltas: seq<Delta>)
    ensures AddDeltas(table, deltas).Keys == table.Keys + KeysIn(deltas)
    ensures forall k :: Get(AddDeltas(table, deltas), k) == Get(table, k) + DeltaAt(deltas, k)
  {
    if deltas != [] {
      var front, x := deltas[..|deltas| - 1], deltas[|deltas| - 1];
      AddDeltasTotals(table, front);
      assert deltas == front + [x];
      assert forall y :: y in deltas <==> y in front || y == x;
    }
  }

  lemma {:induction false} DeltaAtKey(deltas: seq<Delta>, k: int)
    requires forall i, j :: 0 <= i < j < |deltas| ==> deltas[i].key != deltas[j].key
    ensures forall i :: 0 <= i < |deltas| && deltas[i].key == k ==> DeltaAt(deltas, k) == deltas[i].points
    ensures (forall i :: 0 <= i < |deltas| ==> deltas[i].key != k) ==> DeltaAt(deltas, k) == 0
  {
    if deltas != [] {
      DeltaAtKey(deltas[..|deltas| - 1], k);
    }
  }

  lemma {:induction false} TotalRemoved(b: seq<Score>, j: nat, m: Meter)
    requires j < |b|
    ensures Total(b, m) == Total(b[..j] + b[j + 1..], m) + Measure(b[j], m)
    decreases |b|
  {
    var front, last := b[..|b| - 1], b[|b| - 1];
    if j == |b| - 1 {
      assert b[..j] + b[j + 1..] == front;
    } else {
      TotalRemoved(front, j, m);
      assert b[..j] == front[..j] && b[j + 1..] == front[j + 1..] + [last];
      assert b[..j] + b[j + 1..] == front[..j] + front[j + 1..] + [last];
      TotalSnoc(front[..j] + front[j + 1..], last, m);
    }
  }

  lemma WithoutOne(b: seq<Score>, j: nat)
    requires j < |b|
    ensures multiset(b[..j] + b[j + 1..]) == multiset(b) - multiset{b[j]}
  {
    assert b == b[..j] + [b[j]] + b[j + 1..];
  }

  lemma {:induction false} TotalPermutes(a: seq<Score>, b: seq<Score>, m: Meter)
    requires multiset(a) == multiset(b)
    ensures Total(a, m) == Total(b, m)
    decreases |a|
  {
    if a == [] {
      assert |multiset(a)| == |multiset(b)|;
    } else {
      var last := |a| - 1;
      assert a[last] in multiset(b);
      var j :| 0 <= j < |b| && b[j] == a[last];
      WithoutOne(a, last);
      WithoutOne(b, j);
      assert a[..last] + a[last + 1..] == a[..last];
      hide Total;
      TotalSnoc(a[..last], a[last], m);
      assert a == a[..last] + [a[last]];
      TotalPermutes(a[..last], b[..j] + b[j + 1..], m);
      TotalRemoved(b, j, m);
    }
  }

  /**
   * Whatever order the map yields its totals in and whatever order the events are taken in, one batch of
   * totals and one addition per event leave the same table.
   */
  lemma BatchIsOneByOne(table: map<int, int>, deltas: seq<Delta>, scores: seq<Score>, order: seq<Score>, d: Dim)
    requires AreTotals(deltas, scores, d) && multiset(order) == multiset(scores)
    ensures AddDeltas(table, deltas) == AddEach(table, order, d)
  {
    AddDeltasTotals(table, deltas);
    AddEachTotals(table, order, d);
    assert KeysOf(order, d) == KeysOf(scores, d) by {
      assert forall p :: p in order <==> p in multiset(order);
      assert forall p :: p in scores <==> p in multiset(scores);
    }
    var keys := KeysIn(deltas);
    forall k ensures DeltaAt(deltas, k) == Total(order, Points(d, k)) {
      DeltaAtKey(deltas, k);
      TotalPermutes(order, scores, Points(d, k));
      if k in keys {
        var x :| x in deltas && x.key == k;
      } else {
        assert forall i :: 0 <= i < |deltas| ==> deltas[i] in deltas && deltas[i].key in keys;
        NoKeyNoTotal(scores, d, k);
      }
    }
    var t, u := AddDeltas(table, deltas), AddEach(table, order, d);
    forall k | k in t ensures t[k] == u[k] {
      assert Get(t, k) == Get(u, k);
    }
  }

  // ----- the order in which the rows are written

  predicate Ascending(deltas: seq<Delta>) {
    forall i, j :: 0 <= i < j < |deltas| ==> deltas[i].key < deltas[j].key
  }

  function InsertByKey(x: Delta, sorted: seq<Delta>): seq<Delta> {
    if sorted == [] || x.key <= sorted[0].key then [x] + sorted
    else [sorted[0]] + InsertByKey(x, sorted[1..])
  }

  /** slices.SortFunc by key, on a copy. */
  function SortByKey(deltas: seq<Delta>): seq<Delta> {
    if deltas == [] then [] else InsertByKey(deltas[0], SortByKey(deltas[1..]))
  }

  lemma {:induction false} InsertKeeps(x: Delta, sorted: seq<Delta>)
    requires Ascending(sorted) && forall y :: y in sorted ==> y.key != x.key
    ensures Ascending(InsertByKey(x, sorted))
    ensures forall y :: y in InsertByKey(x, sorted) <==> y == x || y in sorted
  {
    if sorted != [] && x.key > sorted[0].key {
      assert forall y :: y in sorted <==> y == sorted[0] || y in sorted[1..];
      InsertKeeps(x, sorted[1..]);
      var rest := InsertByKey(x, sorted[1..]);
      forall j | 0 <= j < |rest| ensures sorted[0].key < rest[j].key {
        assert rest[j] in rest;
      }
    }
  }

  /** Deltas with distinct keys come out strictly ascending and otherwise unchanged. */
  lemma {:induction false} SortAscends(deltas: seq<Delta>)
    requires forall i, j :: 0 <= i < j < |deltas| ==> deltas[i].key != deltas[j].key
    ensures Ascending(SortByKey(deltas)) && forall x :: x in SortByKey(deltas) <==> x in deltas
  {
    if deltas != [] {
      SortAscends(deltas[1..]);
      assert forall x :: x in deltas <==> x == deltas[0] || x in deltas[1..];
      InsertKeeps(deltas[0], SortByKey(deltas[1..]));
    }
  }

  lemma SortedTotals(deltas: seq<Delta>, scores: seq<Score>, d: Dim)
    requires AreTotals(deltas, scores, d)
    ensures AreTotals(SortByKey(deltas), scores, d) && Ascending(SortByKey(deltas))
  {
    SortAscends(deltas);
    var sorted := SortByKey(deltas);
    forall i | 0 <= i < |sorted| ensures sorted[i].points == Total(scores, Points(d, sorted[i].key)) {
      assert sorted[i] in deltas;
    }
    assert KeysIn(sorted) == KeysIn(deltas);
  }

  const INT64_MAX := 0x7fff_ffff_ffff_ffff

  /** No total, and no partial total, leaves the int64 range for windows of valid scores this small. */
  lemma {:induction false} TotalsFit(scores: seq<Score>, batchSize: nat, d: Dim, k: int)
    requires |scores| <= batchSize && batchSize * MAX_SCORE <= INT64_MAX
    requires forall p :: p in scores ==> IsValidScore(p.points)
    ensures 0 <= Total(scores, Points(d, k)) <= |scores| * MAX_SCORE <= INT64_MAX
  {
    if scores != [] {
      assert scores[|scores| - 1] in scores;
      assert forall p :: p in scores[..|scores| - 1] ==> p in scores;
      TotalsFit(scores[..|scores| - 1], batchSize, d, k);
    }
  }
}
