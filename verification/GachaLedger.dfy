/** Multi as a method over the tables, and every interleaving of its transactions. */
module GachaLedger {
  import opened Domain
  import opened Tally
  import opened Gacha

  datatype Error =
    | ErrInvalidPullCount
    | ErrNoItemsAvailable
    | ErrUserNotFound
    | ErrInsufficientGems
    | ErrInvalidItemWeights
    | ErrStorage

  datatype Outcome = Granting(user: int, drawn: seq<Item>, remainingGems: int) | Failing(error: Error)

  /** Which statements the database refuses. */
  datatype Faults = Faults(listItems: bool, getUser: bool, updateGems: bool, upsertItems: bool, insertHistories: bool,
                           commit: CommitFate)

  /** The first check that stops a pull before anything is written. */
  function StoppedBy(db: Tables, user: int, pullCount: int, items: seq<Item>, faults: Faults): Option<Error> {
    if !IsValidPullCount(pullCount) then Some(ErrInvalidPullCount)
    else if faults.listItems then Some(ErrStorage)
    else if items == [] then Some(ErrNoItemsAvailable)
    else if faults.getUser then Some(ErrStorage)
    else if user !in db.gems then Some(ErrUserNotFound)
    else if db.gems[user] < GemCostFor(pullCount) then Some(ErrInsufficientGems)
    else if TotalWeight(items) == 0 then Some(ErrInvalidItemWeights)
    else None
  }

  ghost predicate IsPull(before: Tables, after: Tables, user: int, items: seq<Item>, pullCount: nat,
                         intN: (nat, nat) -> nat, drawn: seq<Item>) {
    && user in before.gems && GemCostFor(pullCount) <= before.gems[user]
    && IsDraw(items, pullCount, intN, drawn)
    && after == Pulled(before, user, before.gems[user] - GemCostFor(pullCount), Ids(drawn))
  }

  /** What a pull does to the tables: 100 gems a draw, one item a draw, one history row a draw. */
  ghost predicate Pays(before: Tables, after: Tables, user: int, pullCount: int, drawn: seq<Item>) {
    && 1 <= pullCount <= 10 && |drawn| == pullCount
    && user in before.gems && 100 * pullCount <= before.gems[user]
    && after.gems == before.gems[user := before.gems[user] - 100 * pullCount]
    && (forall u, i :: Owned(after.userItems, u, i) ==
          Owned(before.userItems, u, i) + if u == user then Drawn(drawn, i) else 0)
    && |after.histories| == |before.histories| + pullCount
    && (forall n :: 0 <= n < |before.histories| ==> after.histories[n] == before.histories[n])
    && (forall n :: 0 <= n < pullCount ==> after.histories[|before.histories| + n] == (user, drawn[n].id))
  }

  /** How often item i was drawn. */
  function Drawn(drawn: seq<Item>, i: int): nat {
    if drawn == [] then 0
    else Drawn(drawn[..|drawn| - 1], i) + if drawn[|drawn| - 1].id == i then 1 else 0
  }

  lemma {:induction false} DrawnIds(drawn: seq<Item>, i: int)
    ensures multiset(Ids(drawn))[i] == Drawn(drawn, i)
  {
    if drawn != [] {
      var front := drawn[..|drawn| - 1];
      DrawnIds(front, i);
      assert Ids(drawn) == Ids(front) + [drawn[|drawn| - 1].id];
    }
  }

  /** So every pull that is committed pays and grants exactly that. */
  lemma PullPays(before: Tables, after: Tables, user: int, items: seq<Item>, pullCount: nat, intN: (nat, nat) -> nat,
                 drawn: seq<Item>)
    requires IsPull(before, after, user, items, pullCount, intN, drawn) && IsValidPullCount(pullCount)
    ensures Pays(before, after, user, pullCount, drawn)
  {
    hide Granted, Drawn, Owned, Selects, TotalWeight;
    GrantedAt(before.userItems, user, Ids(drawn));
    forall i ensures multiset(Ids(drawn))[i] == Drawn(drawn, i) {
      DrawnIds(drawn, i);
    }
    hide IsDraw;
  }

  /** One row per distinct item, in the order the row locks are taken, with all draws accounted for. */
  method UpsertRows(drawn: seq<Item>) returns (rows: seq<UserItemCount>, ghost counts: map<int, int>)
    ensures Quantities(rows) == GRANT_QUANTITY * |drawn|
    ensures forall id :: id in Ids(drawn) <==> exists n :: 0 <= n < |rows| && rows[n].itemId == id
    ensures CountsOf(rows, counts) && counts.Keys == Elems(Ids(drawn))
    ensures forall id :: id in counts ==> counts[id] == GRANT_QUANTITY * multiset(Ids(drawn))[id]
  {
    hide CountsOf, Quantities;
    var totals := AggregateById(drawn);
    var sortedIds := SortedKeys(totals);
    rows := [];
    for n := 0 to |sortedIds|
      invariant |rows| == n
      invariant forall m :: 0 <= m < n ==>
                  sortedIds[m] in totals && rows[m] == UserItemCount(sortedIds[m], totals[sortedIds[m]])
    {
      assert sortedIds[n] in Elems(sortedIds);
      rows := rows + [UserItemCount(sortedIds[n], totals[sortedIds[n]])];
    }
    counts := totals;
    RowsAreCounts(rows, sortedIds, counts);
    CountsAddUp(rows, Ids(drawn), counts);
  }

  lemma CountsAddUp(rows: seq<UserItemCount>, ids: seq<int>, counts: map<int, int>)
    requires CountsOf(rows, counts) && counts.Keys == Elems(ids)
    requires forall id :: id in counts ==> counts[id] == GRANT_QUANTITY * multiset(ids)[id]
    ensures Quantities(rows) == GRANT_QUANTITY * |ids|
    ensures forall id :: id in ids <==> exists n :: 0 <= n < |rows| && rows[n].itemId == id
  {
    forall id ensures id in ids <==> exists n :: 0 <= n < |rows| && rows[n].itemId == id {
      assert id in ids <==> id in counts;
    }
    assert forall id :: id in multiset(ids) ==> id in ids;
    QuantitiesAddUp(rows, multiset(ids));
  }

  function Quantities(rows: seq<UserItemCount>): int {
    if rows == [] then 0 else Quantities(rows[..|rows| - 1]) + rows[|rows| - 1].num
  }

  lemma {:induction false} QuantitiesAddUp(rows: seq<UserItemCount>, ids: multiset<int>)
    requires forall i, j :: 0 <= i < j < |rows| ==> rows[i].itemId < rows[j].itemId
    requires forall n :: 0 <= n < |rows| ==> rows[n].num == GRANT_QUANTITY * ids[rows[n].itemId]
    requires forall id :: id in ids ==> exists n :: 0 <= n < |rows| && rows[n].itemId == id
    ensures Quantities(rows) == GRANT_QUANTITY * |ids|
  {
    if rows == [] {
      assert forall id :: id !in ids;
      assert ids == multiset{};
    } else {
      var front, last := rows[..|rows| - 1], rows[|rows| - 1];
      var others := ids[last.itemId := 0];
      forall id | id in others ensures exists n :: 0 <= n < |front| && front[n].itemId == id {
        var n :| 0 <= n < |rows| && rows[n].itemId == id;
        assert front[n].itemId == id;
      }
      QuantitiesAddUp(front, others);
      assert others[last.itemId := ids[last.itemId]] == ids;
    }
  }

  lemma RowsAreCounts(rows: seq<UserItemCount>, ids: seq<int>, counts: map<int, int>)
    requires StrictlyAscending(ids) && Elems(ids) == counts.Keys && |rows| == |ids|
    requires forall m :: 0 <= m < |ids| ==> ids[m] in counts && rows[m] == UserItemCount(ids[m], counts[ids[m]])
    ensures CountsOf(rows, counts)
  {
    forall id | id in counts ensures exists n :: 0 <= n < |rows| && rows[n].itemId == id {
      assert id in Elems(ids);
      var n :| 0 <= n < |ids| && ids[n] == id;
      assert rows[n].itemId == id;
    }
  }

  class GachaUsecase {
    /** The committed tables. */
    var db: Tables

    constructor (db: Tables)
      ensures this.db == db
    {
      this.db := db;
    }

    /** One pull: all of it is committed or none of it, and success is only reported for all of it. */
    method Multi(user: int, pullCount: int, items: seq<Item>, intN: (nat, nat) -> nat, faults: Faults)
      returns (r: Outcome)
      requires Fair(intN)
      modifies this
      ensures StoppedBy(old(db), user, pullCount, items, faults).Some? ==>
                db == old(db) && r == Failing(StoppedBy(old(db), user, pullCount, items, faults).value)
      ensures r.Granting? ==>
                && r.user == user && 0 <= r.remainingGems && 0 <= pullCount
                && IsPull(old(db), db, user, items, pullCount, intN, r.drawn) && db.gems[user] == r.remainingGems
                && Pays(old(db), db, user, pullCount, r.drawn)
      ensures r == Failing(ErrInvalidPullCount) <==> pullCount < 1 || 10 < pullCount
      ensures r == Failing(ErrNoItemsAvailable) <==> 1 <= pullCount <= 10 && !faults.listItems && items == []
      ensures r == Failing(ErrUserNotFound) <==>
                1 <= pullCount <= 10 && !faults.listItems && items != [] && !faults.getUser && user !in old(db.gems)
      ensures r == Failing(ErrInsufficientGems) <==>
                && 1 <= pullCount <= 10 && !faults.listItems && items != [] && !faults.getUser
                && user in old(db.gems) && old(db.gems)[user] < 100 * pullCount
      ensures r == Failing(ErrInvalidItemWeights) <==>
                && 1 <= pullCount <= 10 && !faults.listItems && items != [] && !faults.getUser
                && user in old(db.gems) && 100 * pullCount <= old(db.gems)[user]
                && forall x :: x in items ==> x.weight <= 0
      ensures r.Failing? && db != old(db) ==>
                && faults.commit == AckLost && 0 <= pullCount
                && exists drawn :: IsPull(old(db), db, user, items, pullCount, intN, drawn)
                                   && Pays(old(db), db, user, pullCount, drawn)
      ensures StoppedBy(old(db), user, pullCount, items, faults).None? ==>
                (r.Granting? <==> (!faults.updateGems && !faults.upsertItems && !faults.insertHistories
                                   && faults.commit == Acked))
    {
      hide IsPull, Pays, TotalWeight;
      NoWeight(items);
      if !IsValidPullCount(pullCount) {
        return Failing(ErrInvalidPullCount);
      }
      if faults.listItems {
        return Failing(ErrStorage);
      }
      if |items| == 0 {
        return Failing(ErrNoItemsAvailable);
      }
      var gemCost := GemCostFor(pullCount);
      var tx, result, error := InTx(user, pullCount, gemCost, items, intN, faults);
      if error.Some? {
        return Failing(error.value);
      }
      PullPays(db, tx, user, items, pullCount, intN, result.drawn);
      if faults.commit != NotApplied {
        db := tx;
      }
      if faults.commit != Acked {
        return Failing(ErrStorage);
      }
      return result;
    }

    /** The total is zero exactly if no item has a positive weight. */
    static lemma NoWeight(items: seq<Item>)
      ensures TotalWeight(items) == 0 <==> forall x :: x in items ==> x.weight <= 0
    {
      ZeroUpto(items, |items|);
      assert items[..|items|] == items;
    }

    static lemma {:induction false} ZeroUpto(items: seq<Item>, k: nat)
      requires k <= |items|
      ensures Upto(items, k) == 0 <==> forall x :: x in items[..k] ==> x.weight <= 0
    {
      if k > 0 {
        ZeroUpto(items, k - 1);
        assert items[..k] == items[..k - 1] + [items[k - 1]];
      }
    }

    /** The transaction's own view of the tables, which a rollback throws away. */
    method InTx(user: int, pullCount: nat, gemCost: int, items: seq<Item>, intN: (nat, nat) -> nat, faults: Faults)
      returns (tx: Tables, result: Outcome, error: Option<Error>)
      requires Fair(intN) && IsValidPullCount(pullCount) && gemCost == GemCostFor(pullCount) && items != []
               && !faults.listItems
      ensures StoppedBy(db, user, pullCount, items, faults).Some? ==>
                error == StoppedBy(db, user, pullCount, items, faults)
      ensures StoppedBy(db, user, pullCount, items, faults).None? ==>
                && (error.None? <==> !faults.updateGems && !faults.upsertItems && !faults.insertHistories)
                && (error.Some? ==> error == Some(ErrStorage))
      ensures error.None? ==>
                && result.Granting? && result.user == user && 0 <= result.remainingGems
                && IsPull(db, tx, user, items, pullCount, intN, result.drawn) && tx.gems[user] == result.remainingGems
    {
      hide IsDraw, Granted, Upserted, CountsOf, TotalWeight;
      tx, result, error := db, Failing(ErrStorage), Some(ErrStorage);
      if faults.getUser {
        return;
      }
      if user !in tx.gems {
        error := Some(ErrUserNotFound);
        return;
      }
      var gems := tx.gems[user];
      if gems < gemCost {
        error := Some(ErrInsufficientGems);
        return;
      }
      var drawn := Draw(items, pullCount, intN);
      if drawn.None? {
        error := Some(ErrInvalidItemWeights);
        return;
      }
      var newGems := gems - gemCost;
      if faults.updateGems {
        return;
      }
      tx := tx.(gems := tx.gems[user := newGems]);

      var rows, counts := UpsertRows(drawn.value);
      if faults.upsertItems {
        return;
      }
      AggregationIsFaithful(tx.userItems, user, Ids(drawn.value), rows, counts);
      tx := tx.(userItems := Upserted(tx.userItems, user, rows));
      if faults.insertHistories {
        return;
      }
      tx := tx.(histories := tx.histories + HistoryRows(user, Ids(drawn.value)));
      result, error := Granting(user, drawn.value, newGems), None;
    }
  }

  // ----- all interleavings

  /** A transaction that has locked its users row and read the gems. */
  datatype Pull = Pull(user: int, gems: int, ids: seq<int>)

  datatype State = State(db: Tables, open: map<nat, Pull>)

  datatype Step = Lock(t: nat, user: int, ids: seq<int>) | Commit(t: nat) | Abort(t: nat)

  predicate Enabled(s: State, step: Step) {
    match step
    case Lock(t, user, ids) =>
      && t !in s.open && user in s.db.gems && (forall o :: o in s.open ==> s.open[o].user != user)
      && IsValidPullCount(|ids|) && GemCostFor(|ids|) <= s.db.gems[user]
    case Commit(t) => t in s.open
    case Abort(t) => t in s.open
  }

  function Next(s: State, step: Step): State
    requires Enabled(s, step)
  {
    match step
    case Lock(t, user, ids) => s.(open := s.open[t := Pull(user, s.db.gems[user], ids)])
    case Commit(t) =>
      var p := s.open[t];
      State(Pulled(s.db, p.user, p.gems - GemCostFor(|p.ids|), p.ids), s.open - {t})
    case Abort(t) => s.(open := s.open - {t})
  }

  predicate IsRun(states: seq<State>, steps: seq<Step>) {
    && |states| == |steps| + 1 && states[0].open == map[]
    && forall n :: 0 <= n < |steps| ==> Enabled(states[n], steps[n]) && states[n + 1] == Next(states[n], steps[n])
  }

  /** The pulls recorded for a user. */
  function PullsOf(histories: seq<(int, int)>, user: int): nat {
    if histories == [] then 0
    else PullsOf(histories[..|histories| - 1], user) + if histories[|histories| - 1].0 == user then 1 else 0
  }

  lemma {:induction false} PullsAppended(histories: seq<(int, int)>, user: int, ids: seq<int>, u: int)
    ensures PullsOf(histories + HistoryRows(user, ids), u) == PullsOf(histories, u) + if u == user then |ids| else 0
  {
    if ids == [] {
      assert histories + HistoryRows(user, ids) == histories;
    } else {
      var front := ids[..|ids| - 1];
      assert histories + HistoryRows(user, ids) == histories + HistoryRows(user, front) + [(user, ids[|ids| - 1])];
      PullsAppended(histories, user, front, u);
    }
  }

  lemma {:induction false} RowsAppended(user: int, ids: seq<int>, u: int, i: int)
    ensures multiset(HistoryRows(user, ids))[(u, i)] == if u == user then multiset(ids)[i] else 0
  {
    if ids != [] {
      var front := ids[..|ids| - 1];
      assert ids == front + [ids[|ids| - 1]];
      assert HistoryRows(user, ids) == HistoryRows(user, front) + [(user, ids[|ids| - 1])];
      RowsAppended(user, front, u, i);
    }
  }

  /** The users row lock: one open pull per user, and what it read is what is there. */
  predicate Locked(s: State) {
    && (forall t :: t in s.open ==>
          var p := s.open[t];
          p.user in s.db.gems && s.db.gems[p.user] == p.gems && GemCostFor(|p.ids|) <= p.gems
            && IsValidPullCount(|p.ids|))
    && (forall t, o :: t in s.open && o in s.open && t != o ==> s.open[t].user != s.open[o].user)
  }

  /** What the two states of the tables have to do with one another, for one user and one item. */
  predicate Balanced(db0: Tables, db: Tables, user: int, item: int) {
    && (user in db.gems <==> user in db0.gems)
    && (user in db0.gems ==>
          && db.gems[user] + 100 * PullsOf(db.histories, user) == db0.gems[user] + 100 * PullsOf(db0.histories, user)
          && (0 <= db0.gems[user] ==> 0 <= db.gems[user]))
    && Owned(db.userItems, user, item) + multiset(db0.histories)[(user, item)]
       == Owned(db0.userItems, user, item) + multiset(db.histories)[(user, item)]
  }

  lemma PulledBalances(db0: Tables, db: Tables, p: Pull, user: int, item: int)
    requires Balanced(db0, db, user, item)
    requires p.user in db.gems && db.gems[p.user] == p.gems && GemCostFor(|p.ids|) <= p.gems
    ensures Balanced(db0, Pulled(db, p.user, p.gems - GemCostFor(|p.ids|), p.ids), user, item)
  {
    PullsAppended(db.histories, p.user, p.ids, user);
    RowsAppended(p.user, p.ids, user, item);
    GrantedAt(db.userItems, p.user, p.ids);
  }

  /**
   * The ledger: in every interleaving, gems + 100 per recorded pull never changes, gems never go
   * negative, and what a user owns grew by exactly what the histories say was drawn.
   */
  lemma {:induction false} LedgerBalances(states: seq<State>, steps: seq<Step>, n: nat, user: int, item: int)
    requires IsRun(states, steps) && n <= |steps|
    ensures Locked(states[n]) && Balanced(states[0].db, states[n].db, user, item)
  {
    if n != 0 {
      LedgerBalances(states, steps, n - 1, user, item);
      var s := states[n - 1];
      if steps[n - 1].Commit? {
        PulledBalances(states[0].db, s.db, s.open[steps[n - 1].t], user, item);
      }
    }
  }
}
