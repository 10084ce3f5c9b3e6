/** What the ranking reads return, and the limits they accept. */
module Rankings {
  datatype RankEntry = RankEntry(rank: int, id: int, name: string, score: int)

  /** RankingsResult: a page and the size of the whole ranking. */
  datatype View = View(rankings: seq<RankEntry>, total: int)

  /** What a change is judged by: neither the name nor the total. */
  datatype EntryKey = EntryKey(id: int, rank: int, score: int)

  const DEFAULT_RANKING_LIMIT := 10
  const MAX_RANKING_LIMIT := 100
  const MIN_RANKING_LIMIT := 1

  function NormalizeLimit(limit: int): (r: int)
    ensures MIN_RANKING_LIMIT <= r <= MAX_RANKING_LIMIT
    ensures MIN_RANKING_LIMIT <= limit <= MAX_RANKING_LIMIT ==> r == limit
    ensures limit <= 0 ==> r == 10
    ensures limit > 100 ==> r == 100
  {
    if limit < MIN_RANKING_LIMIT then DEFAULT_RANKING_LIMIT
    else if limit > MAX_RANKING_LIMIT then MAX_RANKING_LIMIT
    else limit
  }

  function NormalizeOffset(offset: int): (r: int)
    ensures 0 <= offset ==> r == offset
    ensures offset < 0 ==> r == 0
  {
    if offset < 0 then 0 else offset
  }

  function Keys(entries: seq<RankEntry>): (keys: seq<EntryKey>)
    ensures |keys| == |entries|
    ensures forall n :: 0 <= n < |keys| ==>
              keys[n].id == entries[n].id && keys[n].rank == entries[n].rank && keys[n].score == entries[n].score
  {
    seq(|entries|, n requires 0 <= n < |entries| => EntryKey(entries[n].id, entries[n].rank, entries[n].score))
  }

  /** The first n elements, or all of them if there are fewer. */
  function Prefix<T>(s: seq<T>, n: nat): (r: seq<T>)
    ensures r <= s && |r| <= n && (|r| < n ==> r == s)
  {
    if |s| <= n then s else s[..n]
  }

  /** The first `limit` entries as they are, names included, or all if there are fewer; the total of the whole. */
  ghost predicate IsCut(cut: View, whole: View, limit: nat) {
    && cut.total == whole.total
    && |cut.rankings| == (if |whole.rankings| < limit then |whole.rankings| else limit)
    && forall n :: 0 <= n < |cut.rankings| ==> cut.rankings[n] == whole.rankings[n]
  }

  lemma CutTwice(a: View, b: View, d: View, most: nat, limit: nat)
    requires IsCut(b, a, most) && IsCut(d, b, limit) && limit <= most
    ensures IsCut(d, a, limit)
  {
  }

  function Truncate(v: View, limit: nat): (cut: View)
    ensures IsCut(cut, v, limit)
  {
    if |v.rankings| <= limit then v else v.(rankings := v.rankings[..limit])
  }

  /** Reading once for everybody and cutting down gives what each would have read. */
  lemma TruncateTwice(v: View, most: nat, limit: nat)
    requires limit <= most
    ensures Truncate(Truncate(v, most), limit) == Truncate(v, limit)
  {
    if |v.rankings| > limit {
      assert Prefix(v.rankings, most)[..limit] == v.rankings[..limit];
    }
  }

  lemma KeysOfTruncated(v: View, limit: nat)
    ensures Keys(Truncate(v, limit).rankings) == Prefix(Keys(v.rankings), limit)
  {
  }
}
