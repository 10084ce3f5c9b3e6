/** The multi-pull gacha: the weighted draw, the aggregation of what was drawn, and the transaction. */
module Gacha {
  import opened Domain
  import opened Tally

  const MIN_PULL_COUNT := 1
  const MAX_PULL_COUNT := 10
  const GEM_COST_PER_PULL := 100
  const GRANT_QUANTITY := 1

  datatype Item = Item(id: int, name: string, rarity: int, weight: int)

  predicate IsValidPullCount(pullCount: int) {
    MIN_PULL_COUNT <= pullCount <= MAX_PULL_COUNT
  }

  function GemCostFor(pullCount: int): int {
    GEM_COST_PER_PULL * pullCount
  }

  // ----- the draw

  /** The weight that takes part: a row with a weight of zero or less is never drawn. */
  function Usable(weight: int): nat {
    if weight > 0 then weight else 0
  }

  /** Where the share of position k begins; Upto(items, |items|) is the total. */
  function Upto(items: seq<Item>, k: nat): nat
    requires k <= |items|
  {
    if k == 0 then 0 else Upto(items, k - 1) + Usable(items[k - 1].weight)
  }

  function TotalWeight(items: seq<Item>): nat {
    Upto(items, |items|)
  }

  predicate Selects(items: seq<Item>, r: int, k: nat) {
    k < |items| && Upto(items, k) <= r < Upto(items, k + 1)
  }

  lemma {:induction false} UptoAscends(items: seq<Item>, j: nat, k: nat)
    requires j <= k <= |items|
    ensures Upto(items, j) <= Upto(items, k)
  {
    if j < k {
      UptoAscends(items, j, k - 1);
    }
  }

  /** Every roll selects one position, and one with a positive weight. */
  lemma {:induction false} SelectsOne(items: seq<Item>, r: nat, n: nat) returns (k: nat)
    requires n <= |items| && r < Upto(items, n)
    ensures Selects(items, r, k) && k < n && items[k].weight > 0
    ensures forall j: nat :: Selects(items, r, j) ==> j == k
  {
    if r >= Upto(items, n - 1) {
      k := n - 1;
    } else {
      k := SelectsOne(items, r, n - 1);
    }
    forall j: nat | Selects(items, r, j) ensures j == k {
      if j < k {
        UptoAscends(items, j + 1, k);
      } else if k < j {
        UptoAscends(items, k + 1, j);
      }
    }
  }

  function Rolls(items: seq<Item>, k: nat): set<int> {
    set r: int | 0 <= r < TotalWeight(items) && Selects(items, r, k)
  }

  function Interval(lo: int, hi: int): (s: set<int>)
    requires lo <= hi
    decreases hi - lo
    ensures |s| == hi - lo && forall r :: r in s <==> lo <= r < hi
  {
    if lo == hi then {} else Interval(lo, hi - 1) + {hi - 1}
  }

  /** Exact odds: of all rolls in [0, total), as many select position k as its weight says. */
  lemma ExactWeights(items: seq<Item>, k: nat)
    requires k < |items|
    ensures |Rolls(items, k)| == if items[k].weight > 0 then items[k].weight else 0
  {
    UptoAscends(items, k + 1, |items|);
    var share := Interval(Upto(items, k), Upto(items, k + 1));
    forall r: int ensures r in Rolls(items, k) <==> r in share {
      assert r in share <==> Selects(items, r, k);
    }
    assert Rolls(items, k) == share;
  }

  function Ids(items: seq<Item>): (ids: seq<int>)
    ensures |ids| == |items|
  {
    seq(|items|, n requires 0 <= n < |items| => items[n].id)
  }

  /** What a randomizer promises: IntN(n) lies in [0, n), whatever the call. */
  ghost predicate Fair(intN: (nat, nat) -> nat) {
    forall call, n :: 0 < n ==> intN(call, n) < n
  }

  ghost predicate IsDraw(items: seq<Item>, count: nat, intN: (nat, nat) -> nat, drawn: seq<Item>) {
    && |drawn| == count
    && forall n :: 0 <= n < count ==>
         exists k: nat :: Selects(items, intN(n, TotalWeight(items)), k) && drawn[n] == items[k]
  }

  method Draw(items: seq<Item>, count: nat, intN: (nat, nat) -> nat) returns (drawn: Option<seq<Item>>)
    requires Fair(intN)
    ensures drawn.None? <==> TotalWeight(items) == 0
    ensures drawn.Some? ==> IsDraw(items, count, intN, drawn.value)
  {
    var totalWeight := 0;
    for i := 0 to |items|
      invariant totalWeight == Upto(items, i)
    {
      if items[i].weight > 0 {
        totalWeight := totalWeight + items[i].weight;
      }
    }
    if totalWeight <= 0 {
      return None;
    }
    var results: seq<Item> := [];
    for n := 0 to count
      invariant IsDraw(items, n, intN, results)
    {
      var r := intN(n, totalWeight);
      var acc, i := 0, 0;
      var hit := false;
      while i < |items| && !hit
        invariant 0 <= i <= |items|
        invariant !hit ==> acc == Upto(items, i) && acc <= r && |results| == n && IsDraw(items, n, intN, results)
        invariant hit ==> IsDraw(items, n + 1, intN, results)
        decreases |items| - i, !hit
      {
        if items[i].weight <= 0 {
          i := i + 1;
          continue;
        }
        acc := acc + items[i].weight;
        if r < acc {
          assert Selects(items, r, i);
          results := results + [items[i]];
          hit := true;
        } else {
          i := i + 1;
        }
      }
    }
    return Some(results);
  }

  // ----- aggregation

  method AggregateById(drawn: seq<Item>) returns (counts: map<int, int>)
    ensures counts.Keys == Elems(Ids(drawn))
    ensures forall id :: id in counts ==> counts[id] == GRANT_QUANTITY * multiset(Ids(drawn))[id]
  {
    counts := map[];
    for n := 0 to |drawn|
      invariant counts.Keys == Elems(Ids(drawn[..n]))
      invariant forall id :: id in counts ==> counts[id] == GRANT_QUANTITY * multiset(Ids(drawn[..n]))[id]
    {
      var id := drawn[n].id;
      assert Ids(drawn[..n + 1]) == Ids(drawn[..n]) + [id];
      assert id !in counts ==> id !in Ids(drawn[..n]) && id !in multiset(Ids(drawn[..n]));
      counts := counts[id := Get(counts, id) + GRANT_QUANTITY];
    }
    assert drawn[..|drawn|] == drawn;
  }

  predicate StrictlyAscending(ids: seq<int>) {
    forall i, j :: 0 <= i < j < |ids| ==> ids[i] < ids[j]
  }

  function Insert(id: int, ids: seq<int>): (r: seq<int>)
    requires StrictlyAscending(ids) && id !in ids
    ensures StrictlyAscending(r) && forall x :: x in r <==> x == id || x in ids
  {
    if ids == [] || id < ids[0] then [id] + ids
    else
      assert forall x :: x in ids <==> x == ids[0] || x in ids[1..];
      var rest := Insert(id, ids[1..]);
      assert forall j :: 0 <= j < |rest| ==> rest[j] in rest;
      [ids[0]] + rest
  }

  /** slices.Sorted(maps.Keys(m)) */
  method SortedKeys(m: map<int, int>) returns (ids: seq<int>)
    ensures StrictlyAscending(ids) && Elems(ids) == m.Keys
  {
    ids := [];
    var rest: set<int> := m.Keys;
    while rest != {}
      invariant rest <= m.Keys && StrictlyAscending(ids)
      invariant Elems(ids) == m.Keys - rest
    {
      SomeMember(rest);
      var id :| id in rest;
      ghost var before := ids;
      ids := Insert(id, ids);
      rest := rest - {id};
      assert Elems(ids) == Elems(before) + {id};
    }
  }

  // ----- what a pull writes

  datatype Tables = Tables(gems: map<int, int>, userItems: map<(int, int), int>, histories: seq<(int, int)>)

  /** One row of the bulk upsert. */
  datatype UserItemCount = UserItemCount(itemId: int, num: int)

  function Owned(userItems: map<(int, int), int>, user: int, item: int): int {
    if (user, item) in userItems then userItems[(user, item)] else 0
  }

  /** INSERT ... VALUES rows ON DUPLICATE KEY UPDATE num = num + VALUES(num) */
  function Upserted(userItems: map<(int, int), int>, user: int, rows: seq<UserItemCount>): map<(int, int), int> {
    if rows == [] then userItems
    else
      var before, row := Upserted(userItems, user, rows[..|rows| - 1]), rows[|rows| - 1];
      before[(user, row.itemId) := Owned(before, user, row.itemId) + row.num]
  }

  /** The same, one drawn item at a time. */
  function Granted(userItems: map<(int, int), int>, user: int, ids: seq<int>): map<(int, int), int> {
    if ids == [] then userItems
    else
      var before, id := Granted(userItems, user, ids[..|ids| - 1]), ids[|ids| - 1];
      before[(user, id) := Owned(before, user, id) + GRANT_QUANTITY]
  }

  function HistoryRows(user: int, ids: seq<int>): (rows: seq<(int, int)>)
    ensures |rows| == |ids|
  {
    seq(|ids|, n requires 0 <= n < |ids| => (user, ids[n]))
  }

  function Pulled(db: Tables, user: int, newGems: int, ids: seq<int>): Tables {
    Tables(db.gems[user := newGems], Granted(db.userItems, user, ids), db.histories + HistoryRows(user, ids))
  }

  lemma {:induction false} GrantedAt(userItems: map<(int, int), int>, user: int, ids: seq<int>)
    ensures forall u, i :: Owned(Granted(userItems, user, ids), u, i) ==
              Owned(userItems, u, i) + if u == user then GRANT_QUANTITY * multiset(ids)[i] else 0
    ensures forall k :: k in Granted(userItems, user, ids) <==> k in userItems || (k.0 == user && k.1 in ids)
  {
    if ids != [] {
      GrantedAt(userItems, user, ids[..|ids| - 1]);
      assert ids == ids[..|ids| - 1] + [ids[|ids| - 1]];
    }
  }

  predicate CountsOf(rows: seq<UserItemCount>, counts: map<int, int>) {
    && (forall i, j :: 0 <= i < j < |rows| ==> rows[i].itemId < rows[j].itemId)
    && (forall n :: 0 <= n < |rows| ==> rows[n].itemId in counts && rows[n].num == counts[rows[n].itemId])
    && (forall id :: id in counts ==> exists n :: 0 <= n < |rows| && rows[n].itemId == id)
  }

  lemma {:induction false} UpsertedRow(userItems: map<(int, int), int>, user: int, rows: seq<UserItemCount>, n: nat)
    requires n < |rows| && forall i, j :: 0 <= i < j < |rows| ==> rows[i].itemId < rows[j].itemId
    ensures var m, k := Upserted(userItems, user, rows), (user, rows[n].itemId);
            k in m && m[k] == Owned(userItems, user, rows[n].itemId) + rows[n].num
  {
    var front := rows[..|rows| - 1];
    if n == |front| {
      UpsertedElsewhere(userItems, user, front, (user, rows[n].itemId));
    } else {
      UpsertedRow(userItems, user, front, n);
    }
  }

  lemma {:induction false} UpsertedElsewhere(userItems: map<(int, int), int>, user: int, rows: seq<UserItemCount>,
                                             k: (int, int))
    requires forall n :: 0 <= n < |rows| ==> k != (user, rows[n].itemId)
    ensures var m := Upserted(userItems, user, rows);
            (k in m <==> k in userItems) && (k in m ==> m[k] == userItems[k])
  {
    if rows != [] {
      UpsertedElsewhere(userItems, user, rows[..|rows| - 1], k);
    }
  }

  lemma SameAt(userItems: map<(int, int), int>, user: int, ids: seq<int>, rows: seq<UserItemCount>,
               counts: map<int, int>, k: (int, int))
    requires CountsOf(rows, counts) && counts.Keys == Elems(ids)
    requires forall id :: id in counts ==> counts[id] == GRANT_QUANTITY * multiset(ids)[id]
    ensures var a, b := Upserted(userItems, user, rows), Granted(userItems, user, ids);
            (k in a <==> k in b) && (k in a ==> a[k] == b[k])
  {
    hide Upserted, Granted;
    GrantedAt(userItems, user, ids);
    var b := Granted(userItems, user, ids);
    assert Owned(b, k.0, k.1) == if k in b then b[k] else 0;
    if k.0 == user && k.1 in counts {
      var n :| 0 <= n < |rows| && rows[n].itemId == k.1;
      UpsertedRow(userItems, user, rows, n);
    } else {
      UpsertedElsewhere(userItems, user, rows, k);
    }
  }

  /** One upsert per distinct item writes what one grant per draw would have. */
  lemma AggregationIsFaithful(userItems: map<(int, int), int>, user: int, ids: seq<int>, rows: seq<UserItemCount>,
                              counts: map<int, int>)
    requires CountsOf(rows, counts) && counts.Keys == Elems(ids)
    requires forall id :: id in counts ==> counts[id] == GRANT_QUANTITY * multiset(ids)[id]
    ensures Upserted(userItems, user, rows) == Granted(userItems, user, ids)
  {
    hide Upserted, Granted, CountsOf;
    forall k ensures var a, b := Upserted(userItems, user, rows), Granted(userItems, user, ids);
                     (k in a <==> k in b) && (k in a ==> a[k] == b[k]) {
      SameAt(userItems, user, ids, rows, counts, k);
    }
  }
}
