/** The ranking store on Redis and the reads of the usecase: pages, ranks and how they fit together. */
module RankingReads {
  import opened Domain
  import opened Tally
  import opened Rankings
  import opened Decimal
  import opened ZSet
  import BatchWork

  // ----- commands

  /** ZREVRANGE start stop with 0 <= start: both ends included, cut at the end of the set. */
  function RevRange(z: Set, start: nat, stop: int): (s: seq<string>)
    requires start <= stop + 1
  {
    var all := Ranked(z);
    if |all| <= start then [] else if stop < |all| then all[start..stop + 1] else all[start..]
  }

  /** ZREVRANK: the position from the top, if the member exists. */
  function RevRank(z: Set, m: string): (r: Option<nat>)
    ensures r.None? <==> m !in z
    ensures r.Some? ==> r.value < |z| && Ranked(z)[r.value] == m
  {
    RankedLists(z);
    if m in z then Some(Find(Ranked(z), m)) else None
  }

  function Find(s: seq<string>, m: string): (i: nat)
    requires m in s
    ensures i < |s| && s[i] == m
  {
    if s[0] == m then 0 else 1 + Find(s[1..], m)
  }

  // ----- pages

  /** The entries of a listing's tail: members that are not numbers are skipped, but keep their rank. */
  function EntriesOf(z: Set, members: seq<string>, offset: nat): seq<RankEntry>
    requires forall n :: 0 <= n < |members| ==> members[n] in z
  {
    if members == [] then []
    else
      var last := |members| - 1;
      var front := EntriesOf(z, members[..last], offset);
      match ParseInt(members[last])
      case None => front
      case Some(id) => front + [RankEntry(offset + last + 1, id, "", z[members[last]])]
  }

  function Page(z: Set, offset: nat, limit: nat): seq<RankEntry> {
    RangeIsIn(z, offset, offset + limit - 1);
    EntriesOf(z, RevRange(z, offset, offset + limit - 1), offset)
  }

  lemma RangeIsIn(z: Set, start: nat, stop: int)
    requires start <= stop + 1
    ensures forall n :: 0 <= n < |RevRange(z, start, stop)| ==> RevRange(z, start, stop)[n] in z
  {
    RankedLists(z);
  }

  function EntryAt(z: Set, m: string, rank: int): RankEntry
    requires m in z && IsMember(m)
  {
    RankEntry(rank, ParseInt(m).value, "", z[m])
  }

  /** With canonical members an entry is its position. */
  lemma {:induction false} CanonicalEntries(z: Set, members: seq<string>, offset: nat)
    requires Canonical(z) && forall n :: 0 <= n < |members| ==> members[n] in z
    ensures |EntriesOf(z, members, offset)| == |members|
    ensures forall n :: 0 <= n < |members| ==>
              EntriesOf(z, members, offset)[n] == EntryAt(z, members[n], offset + n + 1)
  {
    hide ParseInt, FormatInt;
    if members != [] {
      var front, last := members[..|members| - 1], members[|members| - 1];
      CanonicalEntries(z, front, offset);
      assert last in z && IsMember(last);
      assert EntriesOf(z, members, offset) == EntriesOf(z, front, offset) + [EntryAt(z, last, offset + |front| + 1)];
    }
  }

  lemma RangeIs(z: Set, offset: nat, limit: nat, r: seq<string>)
    requires r == RevRange(z, offset, offset + limit - 1)
    ensures |r| == if |z| <= offset then 0 else if |z| - offset < limit then |z| - offset else limit
    ensures forall n :: 0 <= n < |r| ==> r[n] == Ranked(z)[offset + n] && r[n] in z
  {
    hide Ranked;
    RankedLists(z);
  }

  /** The n-th entry of a page at `offset` is the listing's member there, with its rank and score. */
  predicate Shows(z: Set, page: seq<RankEntry>, offset: nat, n: nat) {
    && n < |page| && offset + n < |z| && Ranked(z)[offset + n] in z && IsMember(Ranked(z)[offset + n])
    && page[n] == EntryAt(z, Ranked(z)[offset + n], offset + n + 1)
  }

  lemma PageIs(z: Set, offset: nat, limit: nat)
    requires Canonical(z)
    ensures |Page(z, offset, limit)|
            == if |z| <= offset then 0 else if |z| - offset < limit then |z| - offset else limit
    ensures forall n :: 0 <= n < |Page(z, offset, limit)| ==> Shows(z, Page(z, offset, limit), offset, n)
  {
    hide Ranked, RevRange, EntriesOf, EntryAt, IsMember;
    var r := RevRange(z, offset, offset + limit - 1);
    RangeIs(z, offset, limit, r);
    CanonicalEntries(z, r, offset);
    var page := Page(z, offset, limit);
    forall n | 0 <= n < |page| ensures Shows(z, page, offset, n) {
      assert r[n] == Ranked(z)[offset + n] && IsMember(r[n]);
    }
  }

  /** Two pages in a row are one longer page. */
  lemma PagesJoin(z: Set, offset: nat, a: nat, b: nat)
    requires Canonical(z)
    ensures Page(z, offset, a) + Page(z, offset + a, b) == Page(z, offset, a + b)
  {
    hide Page, Ranked, EntryAt, IsMember, Canonical;
    PageIs(z, offset, a);
    PageIs(z, offset + a, b);
    PageIs(z, offset, a + b);
    var p, q, all := Page(z, offset, a), Page(z, offset + a, b), Page(z, offset, a + b);
    assert |p + q| == |all|;
    forall n | 0 <= n < |all| ensures (p + q)[n] == all[n] {
      assert Shows(z, all, offset, n);
      if n < |p| {
        assert Shows(z, p, offset, n);
      } else {
        assert Shows(z, q, offset + a, n - a);
      }
    }
  }

  function Pages(z: Set, limit: nat, count: nat): seq<RankEntry> {
    if count == 0 then [] else Pages(z, limit, count - 1) + Page(z, (count - 1) * limit, limit)
  }

  lemma {:induction false} PagesAreOne(z: Set, limit: nat, count: nat)
    requires Canonical(z)
    ensures Pages(z, limit, count) == Page(z, 0, count * limit)
  {
    hide Page, Canonical;
    if count == 0 {
      NoPage(z);
    } else {
      PagesAreOne(z, limit, count - 1);
      PagesJoin(z, 0, (count - 1) * limit, limit);
      assert (count - 1) * limit + limit == count * limit;
    }
  }

  lemma NoPage(z: Set)
    requires Canonical(z)
    ensures Page(z, 0, 0) == []
  {
    hide Ranked;
    PageIs(z, 0, 0);
  }

  /** Entries that are the whole listing, one after the other. */
  predicate ShowsAll(z: Set, all: seq<RankEntry>) {
    && |all| == |z|
    && (forall n :: 0 <= n < |all| ==>
         all[n].rank == n + 1 && FormatInt(all[n].id) in z && all[n].score == z[FormatInt(all[n].id)])
    && (forall i, j :: 0 <= i < j < |all| ==> all[i].id != all[j].id)
    && (forall m :: m in z ==> exists n :: 0 <= n < |all| && FormatInt(all[n].id) == m)
  }

  lemma ListingShowsAll(z: Set, all: seq<RankEntry>)
    requires |all| == |z| && forall n :: 0 <= n < |all| ==> Shows(z, all, 0, n)
    ensures ShowsAll(z, all)
  {
    hide Ranked, ParseInt, FormatInt;
    RankedLists(z);
    ListingDistinct(z, Ranked(z));
    forall n | 0 <= n < |all|
      ensures FormatInt(all[n].id) == Ranked(z)[n] && all[n].rank == n + 1 && all[n].score == z[Ranked(z)[n]]
    {
      assert Shows(z, all, 0, n);
    }
    forall m | m in z ensures exists n :: 0 <= n < |all| && FormatInt(all[n].id) == m {
      var n :| 0 <= n < |z| && Ranked(z)[n] == m;
      assert FormatInt(all[n].id) == m;
    }
  }

  /** Turning enough pages shows everybody exactly once, with ranks 1 to n. */
  lemma PagesShowEveryone(z: Set, limit: nat, count: nat)
    requires Canonical(z) && |z| <= count * limit
    ensures ShowsAll(z, Pages(z, limit, count))
  {
    hide Ranked, Page, Pages, Shows, ShowsAll, IsMember;
    PagesAreOne(z, limit, count);
    PageIs(z, 0, count * limit);
    ListingShowsAll(z, Pages(z, limit, count));
  }

  /** GetUserRank, GetGuildRank: 1 for the top, 0 for nobody. */
  function RankOf(z: Set, id: int): nat {
    match RevRank(z, FormatInt(id))
    case None => 0
    case Some(r) => r + 1
  }

  /** The rank read alone is the rank shown in the page, and one more than the number of members above. */
  lemma RankAgrees(z: Set, id: int, offset: nat, limit: nat)
    requires Canonical(z) && INT64_MIN <= id <= INT64_MAX
    ensures RankOf(z, id) == 0 <==> FormatInt(id) !in z
    ensures RankOf(z, id) != 0 ==> RankOf(z, id) == 1 + |AllAbove(z, FormatInt(id))|
    ensures offset < RankOf(z, id) <= offset + limit ==>
              && RankOf(z, id) - 1 - offset < |Page(z, offset, limit)|
              && Page(z, offset, limit)[RankOf(z, id) - 1 - offset] ==
                   RankEntry(RankOf(z, id), id, "", z[FormatInt(id)])
  {
    hide Ranked, Page, ParseInt, FormatInt, Find, Canonical, LexLess;
    ParseFormat(id);
    PageIs(z, offset, limit);
    if RankOf(z, id) != 0 {
      PositionCounts(z, RankOf(z, id) - 1);
      if offset < RankOf(z, id) <= offset + limit {
        assert Shows(z, Page(z, offset, limit), offset, RankOf(z, id) - 1 - offset);
      }
    }
  }

  /** Reading the longest page and cutting it down is reading one's own page. */
  lemma LongestPageServesAll(z: Set, most: nat, limit: nat, total: int)
    requires Canonical(z) && limit <= most
    ensures Truncate(View(Page(z, 0, most), total), limit) == View(Page(z, 0, limit), total)
  {
    hide Page, Canonical, IsMember, Ranked, ParseInt;
    PagesJoin(z, 0, limit, most - limit);
    PageIs(z, 0, limit);
    PageIs(z, 0, most);
    assert Page(z, 0, most)[..|Page(z, 0, limit)|] == Page(z, 0, limit);
  }

  // ----- writes

  type Delta = BatchWork.Delta

  predicate IsId(id: int) {
    INT64_MIN <= id <= INT64_MAX
  }

  function ScoreOf(z: Set, id: int): Option<int> {
    if FormatInt(id) in z then Some(z[FormatInt(id)]) else None
  }

  function ScoreOrZero(z: Set, id: int): int {
    match ScoreOf(z, id)
    case Some(s) => s
    case None => 0
  }

  /** ZINCRBY: a member that is not there counts as 0. */
  function Increased(z: Set, id: int, points: int): Set {
    z[FormatInt(id) := ScoreOrZero(z, id) + points]
  }

  /** The members that would be listed before m if its score were s. */
  ghost function Ahead(z: Set, m: string, s: int): set<string> {
    set k | k in z && k != m && (z[k] > s || (z[k] == s && LexLess(m, k)))
  }

  /** z' is z, except that id has score s and the rank that goes with it. */
  ghost predicate WroteScore(z: Set, z': Set, id: int, s: int) {
    && ScoreOf(z', id) == Some(s) && RankOf(z', id) == 1 + |Ahead(z, FormatInt(id), s)|
    && (forall j :: IsId(j) && j != id ==> ScoreOf(z', j) == ScoreOf(z, j))
    && (Canonical(z) ==> Canonical(z'))
  }

  /** Writing the member of an id is writing to that id and to no other. */
  lemma WritesOneId(z: Set, id: int, s: int)
    requires IsId(id)
    ensures WroteScore(z, z[FormatInt(id) := s], id, s)
  {
    hide Ranked, ParseInt, FormatInt, LexLess, RevRank, Find;
    var m, z' := FormatInt(id), z[FormatInt(id) := s];
    ParseFormat(id);
    forall j | IsId(j) && j != id ensures ScoreOf(z', j) == ScoreOf(z, j) {
      ParseFormat(j);
    }
    RankIsAhead(z', id);
    AboveOrders(z', m, m, m);
    assert AllAbove(z', m) == Ahead(z, m, s);
  }

  lemma RankIsAhead(z: Set, id: int)
    requires FormatInt(id) in z
    ensures RankOf(z, id) == 1 + |AllAbove(z, FormatInt(id))|
  {
    hide Ranked, FormatInt, Find;
    PositionCounts(z, RankOf(z, id) - 1);
  }

  /** The points added to id by the deltas that arrived, if any did. */
  function Added(deltas: seq<Delta>, arrives: nat -> bool, id: int): int {
    if deltas == [] then 0
    else
      var last := |deltas| - 1;
      Added(deltas[..last], arrives, id) + if deltas[last].key == id && arrives(last) then deltas[last].points else 0
  }

  predicate Touches(deltas: seq<Delta>, arrives: nat -> bool, id: int) {
    exists n :: 0 <= n < |deltas| && arrives(n) && deltas[n].key == id
  }

  /** Each id has gained what arrived for it; nobody else moved, and no member was made up. */
  ghost predicate Gained(z: Set, z': Set, deltas: seq<Delta>, arrives: nat -> bool) {
    && (forall id :: IsId(id) ==>
          ScoreOf(z', id) == if Touches(deltas, arrives, id)
                             then Some(Added(deltas, arrives, id) + ScoreOrZero(z, id))
                             else ScoreOf(z, id))
    && (Canonical(z) ==> Canonical(z'))
  }

  lemma {:induction false} UntouchedGainsNothing(deltas: seq<Delta>, arrives: nat -> bool, id: int)
    requires !Touches(deltas, arrives, id)
    ensures Added(deltas, arrives, id) == 0
  {
    if deltas != [] {
      var last := |deltas| - 1;
      assert forall n :: 0 <= n < last ==> deltas[..last][n] == deltas[n];
      UntouchedGainsNothing(deltas[..last], arrives, id);
    }
  }

  lemma OneMoreDelta(z: Set, z': Set, deltas: seq<Delta>, arrives: nat -> bool, x: Delta)
    requires Gained(z, z', deltas, arrives) && IsId(x.key)
    ensures Gained(z, if arrives(|deltas|) then Increased(z', x.key, x.points) else z', deltas + [x], arrives)
  {
    hide FormatInt, ParseInt, WroteScore, Touches, Added, Canonical;
    var all, z'' := deltas + [x], if arrives(|deltas|) then Increased(z', x.key, x.points) else z';
    assert all[..|deltas|] == deltas;
    IncreaseWrites(z', x.key, x.points);
    forall id | IsId(id)
      ensures ScoreOf(z'', id) == if Touches(all, arrives, id)
                                  then Some(Added(all, arrives, id) + ScoreOrZero(z, id))
                                  else ScoreOf(z, id)
    {
      TouchesSnoc(deltas, arrives, x, id);
      AddedSnoc(deltas, arrives, x, id);
      if !Touches(deltas, arrives, id) {
        UntouchedGainsNothing(deltas, arrives, id);
      }
    }
  }

  lemma IncreaseWrites(z: Set, id: int, points: int)
    requires IsId(id)
    ensures ScoreOf(Increased(z, id, points), id) == Some(points + ScoreOrZero(z, id))
    ensures forall j :: IsId(j) && j != id ==> ScoreOf(Increased(z, id, points), j) == ScoreOf(z, j)
    ensures Canonical(z) ==> Canonical(Increased(z, id, points))
  {
    hide FormatInt, ParseInt, RankOf;
    WritesOneId(z, id, points + ScoreOrZero(z, id));
  }

  lemma TouchesSnoc(deltas: seq<Delta>, arrives: nat -> bool, x: Delta, id: int)
    ensures Touches(deltas + [x], arrives, id) <==> Touches(deltas, arrives, id) || (x.key == id && arrives(|deltas|))
  {
    var all := deltas + [x];
    assert all[|deltas|] == x;
    if n :| 0 <= n < |deltas| && arrives(n) && deltas[n].key == id {
      assert all[n] == deltas[n];
    }
  }

  lemma AddedSnoc(deltas: seq<Delta>, arrives: nat -> bool, x: Delta, id: int)
    ensures Added(deltas + [x], arrives, id) ==
            Added(deltas, arrives, id) + if x.key == id && arrives(|deltas|) then x.points else 0
  {
    assert (deltas + [x])[..|deltas|] == deltas;
  }

  // ----- the store and the usecase

  /** The reads that a request makes. */
  datatype Read = OfSentinel | OfScores | OfNames | OfPosition | OfCount

  datatype Error = ErrRankingUnavailable | ErrUserNotFound | ErrPointsNotFound | ReadFailed(read: Read)

  datatype RankingsOutcome = Rankings(view: View) | RankingsError(error: Error)

  datatype RankResult = RankResult(userId: int, name: string, points: int, rank: int, total: int)

  datatype RankOutcome = Found(result: RankResult) | RankError(error: Error)

  function Named(entries: seq<RankEntry>, names: map<int, string>): (r: seq<RankEntry>)
    ensures |r| == |entries|
  {
    seq(|entries|, n requires 0 <= n < |entries| =>
      if entries[n].id in names then entries[n].(name := names[entries[n].id]) else entries[n])
  }

  class RankingStore {
    var users: Set
    var guilds: Set
    var initialized: bool

    constructor ()
      ensures users == map[] && guilds == map[] && !initialized
    {
      users, guilds, initialized := map[], map[], false;
    }

    method SetUserPoints(id: int, points: int)
      requires IsId(id)
      modifies this`users
      ensures users == old(users)[FormatInt(id) := points] && WroteScore(old(users), users, id, points)
    {
      WritesOneId(users, id, points);
      users := users[FormatInt(id) := points];
    }

    method SetGuildScore(id: int, score: int)
      requires IsId(id)
      modifies this`guilds
      ensures guilds == old(guilds)[FormatInt(id) := score] && WroteScore(old(guilds), guilds, id, score)
    {
      WritesOneId(guilds, id, score);
      guilds := guilds[FormatInt(id) := score];
    }

    /** The commands of one ZSet in a pipeline: it is not atomic, so `arrives` says which ones are executed. */
    static method Increment(z: Set, deltas: seq<Delta>, arrives: nat -> bool) returns (z': Set)
      requires forall n :: 0 <= n < |deltas| ==> IsId(deltas[n].key)
      ensures Gained(z, z', deltas, arrives)
    {
      hide Gained, Increased;
      z' := z;
      NothingGained(z, arrives);
      assert deltas[..0] == [];
      for n := 0 to |deltas|
        invariant Gained(z, z', deltas[..n], arrives)
      {
        assert deltas[..n + 1] == deltas[..n] + [deltas[n]];
        OneMoreDelta(z, z', deltas[..n], arrives, deltas[n]);
        if arrives(n) {
          z' := Increased(z', deltas[n].key, deltas[n].points);
        }
      }
      assert deltas[..|deltas|] == deltas;
    }

    static lemma NothingGained(z: Set, arrives: nat -> bool)
      ensures Gained(z, z, [], arrives)
    {
    }

    /** One round trip for all increments; an error means that some of them may be missing. */
    method ApplyScoreDeltas(userDeltas: seq<Delta>, guildDeltas: seq<Delta>, arrives: nat -> bool) returns (ok: bool)
      requires forall n :: 0 <= n < |userDeltas| ==> IsId(userDeltas[n].key)
      requires forall n :: 0 <= n < |guildDeltas| ==> IsId(guildDeltas[n].key)
      modifies this`users, this`guilds
      ensures Gained(old(users), users, userDeltas, arrives)
      ensures Gained(old(guilds), guilds, guildDeltas, (n: nat) => arrives(|userDeltas| + n))
      ensures ok <==> forall n :: 0 <= n < |userDeltas| + |guildDeltas| ==> arrives(n)
    {
      if userDeltas == [] && guildDeltas == [] {
        NothingGained(users, arrives);
        NothingGained(guilds, (n: nat) => arrives(|userDeltas| + n));
        return true;
      }
      users := Increment(users, userDeltas, arrives);
      guilds := Increment(guilds, guildDeltas, (n: nat) => arrives(|userDeltas| + n));
      ok := forall n :: 0 <= n < |userDeltas| + |guildDeltas| ==> arrives(n);
    }

    method GetUserRank(id: int) returns (rank: nat)
      ensures rank == RankOf(users, id)
    {
      match RevRank(users, FormatInt(id))
      case None => rank := 0;
      case Some(r) => rank := r + 1;
    }

    method GetUserRankings(offset: nat, limit: nat) returns (entries: seq<RankEntry>)
      requires 1 <= limit
      ensures entries == Page(users, offset, limit)
    {
      var results := RevRange(users, offset, offset + limit - 1);
      RangeIsIn(users, offset, offset + limit - 1);
      entries := [];
      for i := 0 to |results|
        invariant entries == EntriesOf(users, results[..i], offset)
      {
        assert results[..i + 1][..i] == results[..i];
        match ParseInt(results[i])
        case None => continue;
        case Some(id) =>
          entries := entries + [RankEntry(offset + i + 1, id, "", users[results[i]])];
      }
      assert results[..|results|] == results;
    }
  }

  class RankingUsecase {
    const store: RankingStore
    /** users, as the reads see it: a name for every existing user. */
    var names: map<int, string>

    constructor (store: RankingStore, names: map<int, string>)
      ensures this.store == store && this.names == names
    {
      this.store := store;
      this.names := names;
    }

    /** `broken` are the reads that fail. */
    method GetUserRankings(limit: int, offset: int, broken: set<Read>) returns (r: RankingsOutcome)
      ensures var page := Page(store.users, NormalizeOffset(offset), NormalizeLimit(limit));
              r == if OfSentinel in broken then RankingsError(ReadFailed(OfSentinel))
                   else if !store.initialized then RankingsError(ErrRankingUnavailable)
                   else if OfScores in broken then RankingsError(ReadFailed(OfScores))
                   else if page != [] && OfNames in broken then RankingsError(ReadFailed(OfNames))
                   else if OfCount in broken then RankingsError(ReadFailed(OfCount))
                   else Rankings(View(Named(page, names), |store.users|))
    {
      hide Page, NormalizeLimit, NormalizeOffset;
      if OfSentinel in broken {
        return RankingsError(ReadFailed(OfSentinel));
      }
      if !store.initialized {
        return RankingsError(ErrRankingUnavailable);
      }
      if OfScores in broken {
        return RankingsError(ReadFailed(OfScores));
      }
      var entries := store.GetUserRankings(NormalizeOffset(offset), NormalizeLimit(limit));
      ghost var read := entries;
      if |entries| > 0 {
        if OfNames in broken {
          return RankingsError(ReadFailed(OfNames));
        }
        for i := 0 to |entries|
          invariant |entries| == |read|
          invariant forall n :: 0 <= n < i ==> entries[n] == Named(read, names)[n]
          invariant forall n :: i <= n < |entries| ==> entries[n] == read[n]
        {
          if entries[i].id in names {
            entries := entries[i := entries[i].(name := names[entries[i].id])];
          }
        }
      }
      assert entries == Named(read, names);
      if OfCount in broken {
        return RankingsError(ReadFailed(OfCount));
      }
      return Rankings(View(entries, |store.users|));
    }

    method GetUserRank(userId: int, broken: set<Read>) returns (r: RankOutcome)
      ensures var m := FormatInt(userId);
              r == if OfSentinel in broken then RankError(ReadFailed(OfSentinel))
                   else if !store.initialized then RankError(ErrRankingUnavailable)
                   else if OfNames in broken then RankError(ReadFailed(OfNames))
                   else if userId !in names then RankError(ErrUserNotFound)
                   else if OfScores in broken then RankError(ReadFailed(OfScores))
                   else if m !in store.users then RankError(ErrPointsNotFound)
                   else if OfPosition in broken then RankError(ReadFailed(OfPosition))
                   else if OfCount in broken then RankError(ReadFailed(OfCount))
                   else Found(RankResult(userId, names[userId], store.users[m],
                                         1 + |AllAbove(store.users, m)|, |store.users|))
    {
      hide Ranked, FormatInt, AllAbove;
      if OfSentinel in broken {
        return RankError(ReadFailed(OfSentinel));
      }
      if !store.initialized {
        return RankError(ErrRankingUnavailable);
      }
      if OfNames in broken {
        return RankError(ReadFailed(OfNames));
      }
      if userId !in names {
        return RankError(ErrUserNotFound);
      }
      if OfScores in broken {
        return RankError(ReadFailed(OfScores));
      }
      var m := FormatInt(userId);
      if m !in store.users {
        return RankError(ErrPointsNotFound);
      }
      if OfPosition in broken {
        return RankError(ReadFailed(OfPosition));
      }
      var rank := store.GetUserRank(userId);
      PositionCounts(store.users, rank - 1);
      if OfCount in broken {
        return RankError(ReadFailed(OfCount));
      }
      return Found(RankResult(userId, names[userId], store.users[m], rank, |store.users|));
    }
  }

  /** Filling in names changes nothing that a change is judged by. */
  lemma NamesDoNotCount(entries: seq<RankEntry>, names: map<int, string>)
    ensures Rankings.Keys(Named(entries, names)) == Rankings.Keys(entries)
  {
  }
}
