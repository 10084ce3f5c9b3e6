/**
 * The row locks of the transactions of the worker, the score request, the GC and the gacha, in the order
 * their statements take them, and why they never wait for one another in a circle.
 */
module Locks {
  import opened BatchWork
  import opened Gacha

  datatype Row =
    | UserRow(user: int)
    | ItemRow(owner: int, item: int)
    | PointsRow(who: int)
    | OutboxRow(id: nat)
    | GuildRow(guild: int)

  /** What a transaction is about to do; each holds its locks until it commits or rolls back. */
  datatype Plan =
    /** ListPending ... SKIP LOCKED, then the guild rows of BulkIncrementGuildScores. */
    | BatchApply(ids: set<nat>, deltas: seq<Delta>)
    /** ListPending in a transaction of its own. */
    | ListOnly(ids: set<nat>)
    /** ClaimByID ... SKIP LOCKED, then IncrementGuildScore. */
    | ApplyOne(id: nat, guild: int)
    /** The UPDATE of IncrementRetry, which does wait. */
    | RecordRetry(id: nat)
    /** IncrementUserPoints, then the INSERT of an event. */
    | AddPoints(user: int)
    /** DELETE ... ORDER BY processed_at, which waits for row after row. */
    | CollectChunk(rows: seq<nat>)
    /** GetUserForUpdate, then the rows of UpsertUserItems. */
    | MultiPull(user: int, items: seq<int>)

  /** The rows it holds, those it will wait for, and whether an INSERT comes after them. */
  datatype Txn = Txn(held: set<Row>, todo: seq<Row>, inserts: bool)

  type State = map<nat, Txn>

  /** processed_at of each outbox row once it has one: the order in which the GC finds rows. */
  type Stamps = nat -> int

  datatype Step = Begin(t: nat, plan: Plan) | Acquire(t: nat) | InsertRow(t: nat, id: nat) | Commit(t: nat)
    | Rollback(t: nat)

  /** One delta per guild, item ids as sortedKeys returns them, and old rows along the (processed_at, id) index. */
  predicate WellFormed(at: Stamps, plan: Plan) {
    match plan
    case BatchApply(_, deltas) => forall i, j :: 0 <= i < j < |deltas| ==> deltas[i].key != deltas[j].key
    case MultiPull(_, items) => StrictlyAscending(items)
    case CollectChunk(ids) =>
      forall i, j :: 0 <= i < j < |ids| ==> at(ids[i]) < at(ids[j]) || (at(ids[i]) == at(ids[j]) && ids[i] < ids[j])
    case _ => true
  }

  /** Rows taken with SKIP LOCKED: only free ones, without waiting. */
  function Skipping(plan: Plan): set<Row> {
    match plan
    case BatchApply(ids, _) => set i | i in ids :: OutboxRow(i)
    case ListOnly(ids) => set i | i in ids :: OutboxRow(i)
    case ApplyOne(id, _) => {OutboxRow(id)}
    case _ => {}
  }

  /** Rows waited for, in this order. */
  function Waiting(plan: Plan): seq<Row> {
    match plan
    case BatchApply(_, deltas) =>
      var sorted := SortByKey(deltas);
      seq(|sorted|, n requires 0 <= n < |sorted| => GuildRow(sorted[n].key))
    case ListOnly(_) => []
    case ApplyOne(_, guild) => [GuildRow(guild)]
    case RecordRetry(id) => [OutboxRow(id)]
    case AddPoints(user) => [PointsRow(user)]
    case CollectChunk(ids) => seq(|ids|, n requires 0 <= n < |ids| => OutboxRow(ids[n]))
    case MultiPull(user, items) =>
      [UserRow(user)] + seq(|items|, n requires 0 <= n < |items| => ItemRow(user, items[n]))
  }

  function Started(plan: Plan): Txn {
    Txn(Skipping(plan), Waiting(plan), plan.AddPoints?)
  }

  /** Some open transaction holds the row or will ask for it. */
  predicate Known(s: State, r: Row) {
    exists t :: t in s && (r in s[t].held || r in s[t].todo)
  }

  predicate Free(s: State, rows: set<Row>, t: nat) {
    forall u :: u in s && u != t ==> s[u].held !! rows
  }

  /** t wants a row that u holds. */
  predicate WaitsFor(s: State, t: nat, u: nat) {
    t in s && u in s && t != u && s[t].todo != [] && s[t].todo[0] in s[u].held
  }

  predicate Enabled(at: Stamps, s: State, step: Step) {
    match step
    case Begin(t, plan) => t !in s && WellFormed(at, plan) && Free(s, Skipping(plan), t)
    case Acquire(t) => t in s && s[t].todo != [] && Free(s, {s[t].todo[0]}, t)
    case InsertRow(t, id) => t in s && s[t].todo == [] && s[t].inserts && !Known(s, OutboxRow(id))
    case Commit(t) => t in s && s[t].todo == [] && !s[t].inserts
    case Rollback(t) => t in s
  }

  function Next(at: Stamps, s: State, step: Step): State
    requires Enabled(at, s, step)
  {
    match step
    case Begin(t, plan) => s[t := Started(plan)]
    case Acquire(t) => s[t := Txn(s[t].held + {s[t].todo[0]}, s[t].todo[1..], s[t].inserts)]
    case InsertRow(t, id) => s[t := Txn(s[t].held + {OutboxRow(id)}, [], false)]
    case Commit(t) => s - {t}
    case Rollback(t) => s - {t}
  }

  predicate IsRun(at: Stamps, states: seq<State>, steps: seq<Step>) {
    && |states| == |steps| + 1 && states[0] == map[]
    && forall n :: 0 <= n < |steps| ==>
         Enabled(at, states[n], steps[n]) && states[n + 1] == Next(at, states[n], steps[n])
  }

  ghost predicate Reachable(at: Stamps, s: State) {
    exists states, steps :: IsRun(at, states, steps) && states[|steps|] == s
  }

  // ----- one order for all rows: users, user_items, user_points, outbox_events, guild_scores

  function Rank(at: Stamps, r: Row): (int, int, int) {
    match r
    case UserRow(user) => (0, user, 0)
    case ItemRow(owner, item) => (1, owner, item)
    case PointsRow(who) => (2, who, 0)
    case OutboxRow(id) => (3, at(id), id)
    case GuildRow(guild) => (4, guild, 0)
  }

  predicate Before(at: Stamps, a: Row, b: Row) {
    var x, y := Rank(at, a), Rank(at, b);
    x.0 < y.0 || (x.0 == y.0 && (x.1 < y.1 || (x.1 == y.1 && x.2 < y.2)))
  }

  /** Whatever a transaction still waits for comes after all it holds. */
  predicate Climbs(at: Stamps, x: Txn) {
    && (forall r, k :: r in x.held && 0 <= k < |x.todo| ==> Before(at, r, x.todo[k]))
    && (forall j, k :: 0 <= j < k < |x.todo| ==> Before(at, x.todo[j], x.todo[k]))
  }

  predicate Inv(at: Stamps, s: State) {
    && (forall t :: t in s ==> Climbs(at, s[t]))
    && (forall t, u :: t in s && u in s && t != u ==> s[t].held !! s[u].held)
  }

  lemma BatchClimbs(at: Stamps, plan: Plan)
    requires WellFormed(at, plan) && plan.BatchApply?
    ensures Climbs(at, Started(plan))
  {
    SortAscends(plan.deltas);
    hide SortByKey;
    var rows := Waiting(plan);
    assert forall n :: 0 <= n < |rows| ==> rows[n].GuildRow?;
    assert forall r :: r in Skipping(plan) ==> r.OutboxRow?;
  }

  lemma MultiClimbs(at: Stamps, plan: Plan)
    requires WellFormed(at, plan) && plan.MultiPull?
    ensures Climbs(at, Started(plan))
  {
    var rows := Waiting(plan);
    assert forall n :: 1 <= n < |rows| ==> rows[n] == ItemRow(plan.user, plan.items[n - 1]);
  }

  lemma PlanClimbs(at: Stamps, plan: Plan)
    requires WellFormed(at, plan)
    ensures Climbs(at, Started(plan))
  {
    hide SortByKey;
    if plan.BatchApply? {
      BatchClimbs(at, plan);
    } else if plan.MultiPull? {
      MultiClimbs(at, plan);
    }
  }

  /** What each transaction locks: exactly the rows its statements name. */
  lemma PlanAsks(plan: Plan, r: Row)
    ensures r in Skipping(plan) || r in Waiting(plan) <==>
              match plan
              case BatchApply(ids, deltas) =>
                || (r.OutboxRow? && r.id in ids)
                || (r.GuildRow? && exists x :: x in deltas && x.key == r.guild)
              case ListOnly(ids) => r.OutboxRow? && r.id in ids
              case ApplyOne(id, guild) => r == OutboxRow(id) || r == GuildRow(guild)
              case RecordRetry(id) => r == OutboxRow(id)
              case AddPoints(user) => r == PointsRow(user)
              case CollectChunk(rows) => r.OutboxRow? && r.id in rows
              case MultiPull(user, items) => r == UserRow(user) || (r.ItemRow? && r.owner == user && r.item in items)
  {
    match plan
    case BatchApply(ids, deltas) =>
      SortKeeps(deltas);
      hide SortByKey;
      var sorted := SortByKey(deltas);
      var rows := seq(|sorted|, n requires 0 <= n < |sorted| => GuildRow(sorted[n].key));
      assert forall n :: 0 <= n < |rows| ==> rows[n] == GuildRow(sorted[n].key);
      if x :| r.GuildRow? && x in deltas && x.key == r.guild {
        var n :| 0 <= n < |sorted| && sorted[n] == x;
        assert rows[n] == r;
      }
    case CollectChunk(ids) =>
      var rows := seq(|ids|, n requires 0 <= n < |ids| => OutboxRow(ids[n]));
      if r.OutboxRow? && r.id in ids {
        var n :| 0 <= n < |ids| && ids[n] == r.id;
        assert rows[n] == r;
      }
    case MultiPull(user, items) =>
      var rows := Waiting(plan);
      assert rows[0] == UserRow(user) && forall n :: 0 <= n < |items| ==> rows[n + 1] == ItemRow(user, items[n]);
      if r.ItemRow? && r.owner == user && r.item in items {
        var n :| 0 <= n < |items| && items[n] == r.item;
        assert rows[n + 1] == r;
      }
    case _ =>
  }

  lemma SortKeeps(deltas: seq<Delta>)
    ensures forall x :: x in SortByKey(deltas) <==> x in deltas
  {
    assert multiset(SortByKey(deltas)) == multiset(deltas) by {
      SortPermutes(deltas);
    }
    assert forall x :: x in SortByKey(deltas) <==> x in multiset(SortByKey(deltas));
  }

  lemma {:induction false} SortPermutes(deltas: seq<Delta>)
    ensures multiset(SortByKey(deltas)) == multiset(deltas)
  {
    if deltas != [] {
      SortPermutes(deltas[1..]);
      InsertPermutes(deltas[0], SortByKey(deltas[1..]));
      assert deltas == [deltas[0]] + deltas[1..];
    }
  }

  lemma {:induction false} InsertPermutes(x: Delta, sorted: seq<Delta>)
    ensures multiset(InsertByKey(x, sorted)) == multiset([x] + sorted)
  {
    if sorted != [] {
      InsertPermutes(x, sorted[1..]);
      assert sorted == [sorted[0]] + sorted[1..];
    }
  }

  lemma AcquireClimbs(at: Stamps, x: Txn)
    requires Climbs(at, x) && x.todo != []
    ensures Climbs(at, Txn(x.held + {x.todo[0]}, x.todo[1..], x.inserts))
  {
    var todo := x.todo[1..];
    assert forall k :: 0 <= k < |todo| ==> todo[k] == x.todo[k + 1];
  }

  lemma StepKeepsInv(at: Stamps, s: State, step: Step)
    requires Inv(at, s) && Enabled(at, s, step)
    ensures Inv(at, Next(at, s, step))
  {
    hide Climbs, Skipping, Waiting, WellFormed;
    match step
    case Begin(t, plan) => PlanClimbs(at, plan);
    case Acquire(t) => AcquireClimbs(at, s[t]);
    case InsertRow(t, id) => DoneClimbs(at, s[t].held + {OutboxRow(id)});
    case Commit(t) =>
    case Rollback(t) =>
  }

  lemma DoneClimbs(at: Stamps, held: set<Row>)
    ensures Climbs(at, Txn(held, [], false))
  {
  }

  lemma {:induction false} RunKeepsInv(at: Stamps, states: seq<State>, steps: seq<Step>, n: nat)
    requires IsRun(at, states, steps) && n <= |steps|
    ensures Inv(at, states[n])
  {
    if n != 0 {
      RunKeepsInv(at, states, steps, n - 1);
      StepKeepsInv(at, states[n - 1], steps[n - 1]);
    }
  }

  lemma ReachableInv(at: Stamps, s: State)
    requires Reachable(at, s)
    ensures Inv(at, s)
  {
    var states, steps :| IsRun(at, states, steps) && states[|steps|] == s;
    RunKeepsInv(at, states, steps, |steps|);
  }

  // ----- the theorems

  predicate IsChain(s: State, chain: seq<nat>) {
    forall i :: 0 <= i < |chain| - 1 ==> WaitsFor(s, chain[i], chain[i + 1])
  }

  lemma HolderWantsMore(at: Stamps, s: State, t: nat, u: nat)
    requires Inv(at, s) && WaitsFor(s, t, u)
    ensures forall k :: 0 <= k < |s[u].todo| ==> Before(at, s[t].todo[0], s[u].todo[k])
  {
    assert Climbs(at, s[u]);
  }

  /** Along a chain of waiting transactions the wanted rows only go up. */
  lemma {:induction false} ChainClimbs(at: Stamps, s: State, chain: seq<nat>, k: nat)
    requires Inv(at, s) && IsChain(s, chain) && 1 <= k < |chain|
    ensures chain[0] in s && s[chain[0]].todo != [] && chain[k] in s
    ensures forall n :: 0 <= n < |s[chain[k]].todo| ==> Before(at, s[chain[0]].todo[0], s[chain[k]].todo[n])
  {
    assert WaitsFor(s, chain[k - 1], chain[k]);
    HolderWantsMore(at, s, chain[k - 1], chain[k]);
    if k > 1 {
      ChainClimbs(at, s, chain, k - 1);
    }
  }

  /** Deadlock freedom: no chain of transactions waiting for one another comes back to where it began. */
  lemma NoCircle(at: Stamps, s: State, chain: seq<nat>)
    requires Reachable(at, s) && IsChain(s, chain) && 2 <= |chain|
    ensures chain[0] != chain[|chain| - 1]
  {
    ReachableInv(at, s);
    ChainClimbs(at, s, chain, |chain| - 1);
    assert !Before(at, s[chain[0]].todo[0], s[chain[0]].todo[0]);
  }

  predicate Blocked(s: State, t: nat) {
    exists u :: u in s && WaitsFor(s, t, u)
  }

  lemma {:induction false} Highest(at: Stamps, s: State, ts: set<nat>) returns (t: nat)
    requires ts != {} && ts <= s.Keys && forall t :: t in ts ==> s[t].todo != []
    decreases ts
    ensures t in ts && forall u :: u in ts ==> !Before(at, s[t].todo[0], s[u].todo[0])
  {
    t :| t in ts;
    if ts != {t} {
      var u := Highest(at, s, ts - {t});
      if Before(at, s[t].todo[0], s[u].todo[0]) {
        t := u;
      }
    }
  }

  lemma HighestIsFree(at: Stamps, s: State, t: nat)
    requires Inv(at, s) && t in s && forall u :: u in s ==> s[u].todo != []
    requires forall u :: u in s ==> !Before(at, s[t].todo[0], s[u].todo[0])
    ensures !Blocked(s, t) && Free(s, {s[t].todo[0]}, t)
  {
    hide Climbs, Before;
    forall u | u in s ensures !WaitsFor(s, t, u) {
      if WaitsFor(s, t, u) {
        HolderWantsMore(at, s, t, u);
      }
    }
    forall u | u in s && u != t ensures s[u].held !! {s[t].todo[0]} {
      assert !WaitsFor(s, t, u);
    }
  }

  lemma {:induction false} UnusedId(rows: set<Row>) returns (id: nat)
    ensures forall r :: r in rows && r.OutboxRow? ==> r.id < id
    decreases rows
  {
    if rows == {} {
      return 0;
    }
    var r :| r in rows;
    var other := UnusedId(rows - {r});
    id := if r.OutboxRow? && other <= r.id then r.id + 1 else other;
    assert forall x :: x in rows ==> x == r || x in rows - {r};
  }

  lemma UnknownId(s: State) returns (id: nat)
    ensures !Known(s, OutboxRow(id))
  {
    var rows := (set t, r | t in s && r in s[t].held :: r) + (set t, r | t in s && r in s[t].todo :: r);
    id := UnusedId(rows);
    assert Known(s, OutboxRow(id)) ==> OutboxRow(id) in rows;
  }

  /** So as long as transactions are open, one of them can take its next lock, run its INSERT or commit. */
  lemma SomeoneMoves(at: Stamps, s: State) returns (step: Step)
    requires Reachable(at, s) && s != map[]
    ensures !step.Begin? && !step.Rollback? && Enabled(at, s, step) && !Blocked(s, step.t)
  {
    ReachableInv(at, s);
    if t :| t in s && s[t].todo == [] {
      if s[t].inserts {
        var id := UnknownId(s);
        step := InsertRow(t, id);
      } else {
        step := Commit(t);
      }
    } else {
      var t := Highest(at, s, s.Keys);
      HighestIsFree(at, s, t);
      step := Acquire(t);
    }
  }
}
