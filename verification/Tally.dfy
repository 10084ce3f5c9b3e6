/** Sums over sets of event ids: points per key, and how many copies of a history row they make. */
module Tally {
  import opened Domain

  /** The two rankings an event counts for. */
  datatype Dim = ByUser | ByGuild

  /** A history row: user_point_histories or guild_score_histories. */
  datatype Entry = UserEntry(user: int, points: int) | GuildEntry(guild: int, user: int, points: int)

  /** What is being added up: the points of one ranking member, or the copies of one history row. */
  datatype Meter = Points(dim: Dim, key: int) | Copies(entry: Entry)

  type Log = map<nat, Content>

  function Key(p: Score, d: Dim): int {
    match d
    case ByUser => p.user
    case ByGuild => p.guild
  }

  function EntryOf(p: Score, d: Dim): Entry {
    match d
    case ByUser => UserEntry(p.user, p.points)
    case ByGuild => GuildEntry(p.guild, p.user, p.points)
  }

  predicate Readable(log: Log, i: nat) {
    i in log && Decodable(log[i])
  }

  function ScoreAt(log: Log, i: nat): Score
    requires Readable(log, i)
  {
    Decode(log[i]).score
  }

  predicate AllReadable(log: Log, s: set<nat>) {
    forall i :: i in s ==> Readable(log, i)
  }

  function ReadableIds(log: Log): set<nat> {
    set i | i in log && Decodable(log[i])
  }

  /** The keys that a set of events counts for. */
  function Keys(log: Log, s: set<nat>, d: Dim): set<int> {
    set i | i in s && Readable(log, i) :: Key(ScoreAt(log, i), d)
  }

  function Measure(p: Score, m: Meter): int {
    match m
    case Points(d, k) => if Key(p, d) == k then p.points else 0
    case Copies(e) => if e == EntryOf(p, if e.UserEntry? then ByUser else ByGuild) then 1 else 0
  }

  function Worth(log: Log, i: nat, m: Meter): int {
    if Readable(log, i) then Measure(ScoreAt(log, i), m) else 0
  }

  ghost function Sum(log: Log, s: set<nat>, m: Meter): int {
    if s == {} then 0
    else var i :| i in s; Worth(log, i, m) + Sum(log, s - {i}, m)
  }

  lemma {:induction false} SumRemove(log: Log, s: set<nat>, i: nat, m: Meter)
    requires i in s
    ensures Sum(log, s, m) == Worth(log, i, m) + Sum(log, s - {i}, m)
    decreases s
  {
    var j :| j in s && Sum(log, s, m) == Worth(log, j, m) + Sum(log, s - {j}, m);
    if i != j {
      SumRemove(log, s - {j}, i, m);
      SumRemove(log, s - {i}, j, m);
      assert s - {j} - {i} == s - {i} - {j};
    }
  }

  lemma {:induction false} SumUnion(log: Log, s: set<nat>, t: set<nat>, m: Meter)
    requires s !! t
    ensures Sum(log, s + t, m) == Sum(log, s, m) + Sum(log, t, m)
    decreases s
  {
    if s == {} {
      assert s + t == t;
    } else {
      var i :| i in s;
      SumRemove(log, s, i, m);
      SumRemove(log, s + t, i, m);
      assert s + t - {i} == (s - {i}) + t;
      SumUnion(log, s - {i}, t, m);
    }
  }

  /** A sum depends only on what the log says about the ids in the set. */
  lemma {:induction false} SumSame(log: Log, log': Log, s: set<nat>, m: Meter)
    requires forall i :: i in s ==> Worth(log, i, m) == Worth(log', i, m)
    ensures Sum(log, s, m) == Sum(log', s, m)
    decreases s
  {
    if s != {} {
      var i :| i in s;
      SumRemove(log, s, i, m);
      SumRemove(log', s, i, m);
      SumSame(log, log', s - {i}, m);
    }
  }

  lemma {:induction false} SumZero(log: Log, s: set<nat>, m: Meter)
    requires forall i :: i in s ==> Worth(log, i, m) == 0
    ensures Sum(log, s, m) == 0
    decreases s
  {
    if s != {} {
      var i :| i in s;
      SumRemove(log, s, i, m);
      SumZero(log, s - {i}, m);
    }
  }

  lemma {:induction false} SumNonNegative(log: Log, s: set<nat>, m: Meter)
    requires forall i :: i in s ==> 0 <= Worth(log, i, m)
    ensures 0 <= Sum(log, s, m)
    decreases s
  {
    if s != {} {
      var i :| i in s;
      SumRemove(log, s, i, m);
      SumNonNegative(log, s - {i}, m);
    }
  }

  /** Only the ids that are worth something matter. */
  lemma SumAgree(log: Log, s: set<nat>, t: set<nat>, m: Meter)
    requires forall i :: Worth(log, i, m) != 0 ==> (i in s <==> i in t)
    ensures Sum(log, s, m) == Sum(log, t, m)
  {
    assert s == (s * t) + (s - t) && t == (s * t) + (t - s);
    SumUnion(log, s * t, s - t, m);
    SumUnion(log, s * t, t - s, m);
    SumZero(log, s - t, m);
    SumZero(log, t - s, m);
  }

  lemma SumOutside(log: Log, s: set<nat>, d: Dim, k: int)
    requires k !in Keys(log, s, d)
    ensures Sum(log, s, Points(d, k)) == 0
  {
    forall i | i in s ensures Worth(log, i, Points(d, k)) == 0 {
      if Readable(log, i) {
        assert Key(ScoreAt(log, i), d) in Keys(log, s, d);
      }
    }
    SumZero(log, s, Points(d, k));
  }

  lemma SomeMember(s: set<int>)
    requires s != {}
    ensures exists x :: x in s
  {
    assert (forall x :: x !in s) ==> s == {};
  }

  lemma SubsetSize<T>(a: set<T>, b: set<T>)
    requires a <= b
    ensures |a| <= |b| && (|a| == |b| ==> a == b)
  {
    assert b == a + (b - a);
  }

  // ----- the same sums along a list of ids

  predicate Distinct<T(==)>(s: seq<T>) {
    forall i, j :: 0 <= i < j < |s| ==> s[i] != s[j]
  }

  lemma DistinctSnoc<T>(s: seq<T>, x: T)
    ensures Distinct(s + [x]) <==> Distinct(s) && x !in s
    ensures forall y :: y in s + [x] <==> y in s || y == x
  {
    if Distinct(s + [x]) {
      forall i, j | 0 <= i < j < |s| ensures s[i] != s[j] {
        assert (s + [x])[i] != (s + [x])[j];
      }
      forall i | 0 <= i < |s| ensures s[i] != x {
        assert (s + [x])[i] != (s + [x])[|s|];
      }
    }
  }

  function Elems<T(==)>(s: seq<T>): set<T> {
    set x | x in s
  }

  /** One history row per event, in list order. */
  function RowsOf(log: Log, ids: seq<nat>, d: Dim): (rows: seq<Entry>)
    requires AllReadable(log, Elems(ids))
    ensures |rows| == |ids|
  {
    seq(|ids|, n requires 0 <= n < |ids| => EntryOf(ScoreAt(log, ids[n]), d))
  }

  /** The rows a list of distinct events makes hold each entry as often as the events do. */
  lemma {:induction false} RowsCount(log: Log, ids: seq<nat>, d: Dim, e: Entry)
    requires AllReadable(log, Elems(ids)) && Distinct(ids)
    ensures multiset(RowsOf(log, ids, d))[e] ==
            if e.UserEntry? == d.ByUser? then Sum(log, Elems(ids), Copies(e)) else 0
  {
    if ids != [] {
      var last := |ids| - 1;
      var front := ids[..last];
      assert Elems(ids) == Elems(front) + {ids[last]};
      assert Elems(ids) - {ids[last]} == Elems(front);
      RowsCount(log, front, d, e);
      assert RowsOf(log, ids, d) == RowsOf(log, front, d) + [EntryOf(ScoreAt(log, ids[last]), d)];
      SumRemove(log, Elems(ids), ids[last], Copies(e));
    }
  }
}
