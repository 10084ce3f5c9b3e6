/** The two batches: the rebuild of Redis from MySQL and the deletion of old processed rows. */
module Maintenance {
  import opened Domain
  import opened Tally
  import opened Tables
  import Pipeline
  import PipelinePaths
  import PipelineSyncAll

  // ----- rebuild

  datatype SyncError =
    | SnapshotFailed
    | Incomplete(failedGuilds: nat, guilds: nat, failedUsers: nat, users: nat, first: int)
    | MarkFailed

  /** A ZSet after the ZADDs of the members in `sets`. */
  function Overwritten(z: map<int, int>, table: map<int, int>, sets: set<int>): map<int, int> {
    z + map k | k in sets && k in table :: table[k]
  }

  /** Every row of the table once, highest score first, ties in any order. */
  ghost predicate RowsOfTable(rows: seq<(int, int)>, table: map<int, int>) {
    && (forall m, n :: 0 <= m < n < |rows| ==> rows[m].1 >= rows[n].1)
    && (forall n :: 0 <= n < |rows| ==> rows[n].0 in table && rows[n].1 == table[rows[n].0])
    && (forall m, n :: 0 <= m < n < |rows| ==> rows[m].0 != rows[n].0)
    && RowKeys(rows) == table.Keys
  }

  function RowKeys(rows: seq<(int, int)>): set<int> {
    set row | row in rows :: row.0
  }

  lemma RowKeysSnoc(rows: seq<(int, int)>, row: (int, int))
    ensures RowKeys(rows + [row]) == RowKeys(rows) + {row.0}
  {
    assert forall r :: r in rows + [row] <==> r in rows || r == row;
  }

  predicate IsTop(table: map<int, int>, rest: set<int>, k: int)
    requires rest <= table.Keys
  {
    k in rest && forall j :: j in rest ==> table[j] <= table[k]
  }

  lemma {:induction false} SomeTop(table: map<int, int>, rest: set<int>)
    requires rest <= table.Keys && rest != {}
    ensures exists k :: IsTop(table, rest, k)
    decreases rest
  {
    SomeMember(rest);
    var x :| x in rest;
    if rest == {x} {
      assert IsTop(table, rest, x);
    } else {
      SomeTop(table, rest - {x});
      var y :| IsTop(table, rest - {x}, y);
      assert forall j :: j in rest ==> j == x || j in rest - {x};
      assert IsTop(table, rest, if table[y] < table[x] then x else y);
    }
  }

  lemma SetOne(z: map<int, int>, table: map<int, int>, sets: set<int>, k: int)
    requires k in table
    ensures Overwritten(z, table, sets)[k := table[k]] == Overwritten(z, table, sets + {k})
  {
  }

  /** After trying the keys in `tried`: what was written, and how many failed. */
  ghost predicate SoFar(z: map<int, int>, z': map<int, int>, table: map<int, int>, broken: set<int>, tried: set<int>,
                        failed: nat) {
    z' == Overwritten(z, table, tried - broken) && failed == |tried * broken|
  }

  /** The key of the first row whose SET fails. */
  ghost predicate IsFirst(first: Option<int>, rows: seq<(int, int)>, broken: set<int>) {
    match first
    case None => forall n :: 0 <= n < |rows| ==> rows[n].0 !in broken
    case Some(k) =>
      exists n :: 0 <= n < |rows| && rows[n].0 == k && k in broken && forall m :: 0 <= m < n ==> rows[m].0 !in broken
  }

  lemma FirstSnoc(first: Option<int>, rows: seq<(int, int)>, broken: set<int>, row: (int, int))
    requires IsFirst(first, rows, broken)
    ensures IsFirst(if first.None? && row.0 in broken then Some(row.0) else first, rows + [row], broken)
  {
    var rows' := rows + [row];
    assert rows'[|rows|] == row;
    if first.Some? {
      var n :| 0 <= n < |rows| && rows[n].0 == first.value && first.value in broken
               && forall m :: 0 <= m < n ==> rows[m].0 !in broken;
      assert rows'[n] == rows[n];
    }
  }

  lemma SoFarNone(z: map<int, int>, rows: seq<(int, int)>, table: map<int, int>, broken: set<int>)
    ensures SoFar(z, z, table, broken, RowKeys(rows[..0]), 0) && IsFirst(None, rows[..0], broken)
  {
    assert RowKeys(rows[..0]) == {};
  }

  lemma SoFarFails(z: map<int, int>, z': map<int, int>, table: map<int, int>, broken: set<int>, tried: set<int>,
                   failed: nat, k: int)
    requires SoFar(z, z', table, broken, tried, failed) && k in broken && k !in tried
    ensures SoFar(z, z', table, broken, tried + {k}, failed + 1)
  {
    assert (tried + {k}) * broken == tried * broken + {k};
    assert tried + {k} - broken == tried - broken;
  }

  lemma SoFarSets(z: map<int, int>, z': map<int, int>, table: map<int, int>, broken: set<int>, tried: set<int>,
                  failed: nat, k: int)
    requires SoFar(z, z', table, broken, tried, failed) && k !in broken && k in table
    ensures SoFar(z, z'[k := table[k]], table, broken, tried + {k}, failed)
  {
    assert (tried + {k}) * broken == tried * broken;
    assert tried + {k} - broken == tried - broken + {k};
    SetOne(z, table, tried - broken, k);
  }

  /**
   * What SyncAll answers after its loops: nil only if everything was written, else what went wrong first and how
   * often.
   */
  ghost predicate IsVerdict(err: Option<SyncError>, db: Db, brokenGuilds: set<int>, brokenUsers: set<int>,
                            markFails: bool,
                            guildRows: seq<(int, int)>, userRows: seq<(int, int)>)
  {
    var guilds, users := db.guildScores.Keys * brokenGuilds, db.userPoints.Keys * brokenUsers;
    match err
    case None => guilds == {} && users == {} && !markFails
    case Some(SnapshotFailed) => false
    case Some(MarkFailed) => guilds == {} && users == {} && markFails
    case Some(Incomplete(failedGuilds, allGuilds, failedUsers, allUsers, first)) =>
      && failedGuilds == |guilds| && allGuilds == |db.guildScores| && failedUsers == |users|
         && allUsers == |db.userPoints|
      && (if guilds != {} then IsFirst(Some(first), guildRows, brokenGuilds)
          else IsFirst(Some(first), userRows, brokenUsers))
  }

  class RankingSyncer {
    var db: Db
    var users: map<int, int>
    var guilds: map<int, int>
    var initialized: bool

    constructor (db: Db, users: map<int, int>, guilds: map<int, int>, initialized: bool)
      ensures this.db == db && this.users == users && this.guilds == guilds && this.initialized == initialized
    {
      this.db, this.users, this.guilds, this.initialized := db, users, guilds, initialized;
    }

    method List(table: map<int, int>) returns (rows: seq<(int, int)>)
      ensures RowsOfTable(rows, table)
    {
      rows := [];
      var rest := table.Keys;
      while rest != {}
        invariant rest <= table.Keys && RowKeys(rows) == table.Keys - rest
        invariant forall n :: 0 <= n < |rows| ==>
                    rows[n].0 in table && rows[n].0 !in rest && rows[n].1 == table[rows[n].0]
        invariant forall m, n :: 0 <= m < n < |rows| ==> rows[m].0 != rows[n].0 && rows[m].1 >= rows[n].1
        invariant forall n, j :: 0 <= n < |rows| && j in rest ==> rows[n].1 >= table[j]
      {
        SomeTop(table, rest);
        var k :| k in rest && IsTop(table, rest, k);
        RowKeysSnoc(rows, (k, table[k]));
        rows := rows + [(k, table[k])];
        rest := rest - {k};
      }
    }

    /** Tries every row whatever fails, counts what failed and remembers the first, if none was before. */
    static method SetAll(z: map<int, int>, rows: seq<(int, int)>, table: map<int, int>, broken: set<int>,
                         first0: Option<int>)
      returns (z': map<int, int>, failed: nat, first: Option<int>)
      requires RowsOfTable(rows, table)
      ensures SoFar(z, z', table, broken, table.Keys, failed)
      ensures if first0.Some? then first == first0 else IsFirst(first, rows, broken)
    {
      hide SoFar, RowKeys, IsFirst;
      z', failed, first := z, 0, first0;
      SoFarNone(z, rows, table, broken);
      for n := 0 to |rows|
        invariant SoFar(z, z', table, broken, RowKeys(rows[..n]), failed)
        invariant if first0.Some? then first == first0 else IsFirst(first, rows[..n], broken)
      {
        var k, v := rows[n].0, rows[n].1;
        assert rows[..n + 1] == rows[..n] + [rows[n]];
        RowKeysSnoc(rows[..n], rows[n]);
        NotYet(rows, n);
        if first0.None? {
          FirstSnoc(first, rows[..n], broken, rows[n]);
        }
        if k in broken {
          SoFarFails(z, z', table, broken, RowKeys(rows[..n]), failed, k);
          failed := failed + 1;
          if first.None? {
            first := Some(k);
          }
        } else {
          SoFarSets(z, z', table, broken, RowKeys(rows[..n]), failed, k);
          z' := z'[k := v];
        }
      }
      assert rows[..|rows|] == rows;
    }

    static lemma NotYet(rows: seq<(int, int)>, n: nat)
      requires n < |rows| && forall i, j :: 0 <= i < j < |rows| ==> rows[i].0 != rows[j].0
      ensures rows[n].0 !in RowKeys(rows[..n])
    {
    }

    /**
     * SyncAll; the arguments say what the database and Redis refuse, `guildRows` and `userRows` how the tables were
     * listed.
     */
    method SyncAll(snapshotFails: bool, brokenGuilds: set<int>, brokenUsers: set<int>, markFails: bool)
      returns (err: Option<SyncError>, ghost guildRows: seq<(int, int)>, ghost userRows: seq<(int, int)>)
      modifies this`users, this`guilds, this`initialized
      ensures err == Some(SnapshotFailed) <==> snapshotFails
      ensures snapshotFails ==> users == old(users) && guilds == old(guilds)
      ensures !snapshotFails ==>
                && users == Overwritten(old(users), db.userPoints, db.userPoints.Keys - brokenUsers)
                && guilds == Overwritten(old(guilds), db.guildScores, db.guildScores.Keys - brokenGuilds)
                && RowsOfTable(guildRows, db.guildScores) && RowsOfTable(userRows, db.userPoints)
                && IsVerdict(err, db, brokenGuilds, brokenUsers, markFails, guildRows, userRows)
      ensures initialized == (old(initialized) || err.None?)
    {
      guildRows, userRows := [], [];
      if snapshotFails {
        return Some(SnapshotFailed), guildRows, userRows;
      }
      hide Overwritten, RowsOfTable, RowKeys, SoFar, IsVerdict, IsFirst;
      ghost var users0, guilds0 := users, guilds;
      var guildScores := List(db.guildScores);
      var userPoints := List(db.userPoints);
      guildRows, userRows := guildScores, userPoints;

      var firstErr: Option<int>, failedGuilds: nat, failedUsers: nat;
      guilds, failedGuilds, firstErr := SetAll(guilds, guildScores, db.guildScores, brokenGuilds, None);
      ghost var firstGuild := firstErr;
      users, failedUsers, firstErr := SetAll(users, userPoints, db.userPoints, brokenUsers, firstErr);
      AllTried(db.guildScores, guildScores, brokenGuilds, firstGuild);
      if firstGuild.None? {
        AllTried(db.userPoints, userPoints, brokenUsers, firstErr);
      }
      BothTried(db, guilds0, guilds, brokenGuilds, failedGuilds, guildRows, firstGuild,
                users0, users, brokenUsers, failedUsers, userRows, firstErr, markFails);
      if firstErr.Some? {
        return Some(Incomplete(failedGuilds, |db.guildScores|, failedUsers, |db.userPoints|, firstErr.value)),
            guildRows, userRows;
      }
      if markFails {
        return Some(MarkFailed), guildRows, userRows;
      }
      initialized := true;
      return None, guildRows, userRows;
    }

    /** No first failure means no failure. */
    static lemma AllTried(table: map<int, int>, rows: seq<(int, int)>, broken: set<int>, first: Option<int>)
      requires RowsOfTable(rows, table) && IsFirst(first, rows, broken)
      ensures first.None? <==> table.Keys * broken == {}
    {
      if table.Keys * broken != {} {
        SomeMember(table.Keys * broken);
        var k :| k in table.Keys * broken;
        assert k in RowKeys(rows);
        var n :| 0 <= n < |rows| && rows[n].0 == k;
      }
      if first.Some? {
        assert first.value in table.Keys * broken;
      }
    }

    static lemma BothTried(db: Db, guilds0: map<int, int>, guilds: map<int, int>, brokenGuilds: set<int>,
                           failedGuilds: nat,
                           guildRows: seq<(int, int)>, firstGuild: Option<int>,
                           users0: map<int, int>, users: map<int, int>, brokenUsers: set<int>, failedUsers: nat,
                           userRows: seq<(int, int)>, first: Option<int>, markFails: bool)
      requires SoFar(guilds0, guilds, db.guildScores, brokenGuilds, db.guildScores.Keys, failedGuilds)
      requires SoFar(users0, users, db.userPoints, brokenUsers, db.userPoints.Keys, failedUsers)
      requires IsFirst(firstGuild, guildRows, brokenGuilds)
      requires firstGuild.None? <==> db.guildScores.Keys * brokenGuilds == {}
      requires if firstGuild.Some? then first == firstGuild else IsFirst(first, userRows, brokenUsers)
      requires firstGuild.None? ==> (first.None? <==> db.userPoints.Keys * brokenUsers == {})
      ensures guilds == Overwritten(guilds0, db.guildScores, db.guildScores.Keys - brokenGuilds)
      ensures users == Overwritten(users0, db.userPoints, db.userPoints.Keys - brokenUsers)
      ensures first.None? ==>
                IsVerdict(if markFails then Some(MarkFailed) else None,
                          db, brokenGuilds, brokenUsers, markFails, guildRows, userRows)
      ensures first.Some? ==>
                IsVerdict(Some(Incomplete(failedGuilds, |db.guildScores|, failedUsers, |db.userPoints|, first.value)),
                          db, brokenGuilds, brokenUsers, markFails, guildRows, userRows)
    {
      hide Overwritten, IsFirst;
    }
  }

  /**
   * What SyncAll writes is what the rebuild's steps do in the pipeline, whatever else is under way there, so
   * the theorems about them speak of this code.
   */
  lemma SyncIsRebuild(c: Pipeline.Config, s: Pipeline.State, brokenGuilds: set<int>, brokenUsers: set<int>,
                      markFails: bool, y: nat)
    requires y !in s.syncs
    ensures var userSets, guildSets := s.db.userPoints.Keys - brokenUsers, s.db.guildScores.Keys - brokenGuilds;
            var marked := !markFails && s.db.userPoints.Keys !! brokenUsers && s.db.guildScores.Keys !! brokenGuilds;
            var t := PipelineSyncAll.Rebuilt(s, userSets, guildSets, marked);
            && PipelinePaths.Leads(c, s, t, {})
            && t.users.z == Overwritten(s.users.z, s.db.userPoints, userSets)
            && t.guilds.z == Overwritten(s.guilds.z, s.db.guildScores, guildSets)
            && t.sentinel == (s.sentinel || marked)
  {
    var userSets, guildSets := s.db.userPoints.Keys - brokenUsers, s.db.guildScores.Keys - brokenGuilds;
    var marked := !markFails && s.db.userPoints.Keys !! brokenUsers && s.db.guildScores.Keys !! brokenGuilds;
    assert s.db.userPoints.Keys !! brokenUsers ==> userSets == s.db.userPoints.Keys;
    assert s.db.guildScores.Keys !! brokenGuilds ==> guildSets == s.db.guildScores.Keys;
    PipelineSyncAll.SyncAllSteps(c, s, y, userSets, guildSets, marked);
    NewsIsTable(s.db.userPoints, userSets);
    NewsIsTable(s.db.guildScores, guildSets);
  }

  lemma NewsIsTable(table: map<int, int>, sets: set<int>)
    requires sets <= table.Keys
    ensures PipelineSyncAll.News(table, sets) == map k | k in sets && k in table :: table[k]
  {
  }

  // ----- GC

  const OUTBOX_GC_CHUNK_SIZE := 1000

  datatype GcError = TxFailed | Interrupted

  /** Row v was processed no later than row w. */
  predicate NoLater(events: map<nat, Row>, v: nat, w: nat) {
    && v in events && w in events && events[v].processedAt.Some? && events[w].processedAt.Some?
    && events[v].processedAt.value <= events[w].processedAt.value
  }

  predicate IsOldest(events: map<nat, Row>, rest: set<nat>, v: nat) {
    v in rest && forall w :: w in rest ==> NoLater(events, v, w)
  }

  lemma {:induction false} Oldest(events: map<nat, Row>, rest: set<nat>)
    requires rest != {} && forall v :: v in rest ==> v in events && events[v].processedAt.Some?
    decreases rest
    ensures exists v :: v in rest && IsOldest(events, rest, v)
  {
    var x :| x in rest;
    if rest == {x} {
      assert IsOldest(events, rest, x);
    } else {
      Oldest(events, rest - {x});
      var y :| y in rest - {x} && IsOldest(events, rest - {x}, y);
      assert forall w :: w in rest ==> w == x || w in rest - {x};
      if NoLater(events, y, x) {
        assert IsOldest(events, rest, y);
      } else {
        assert IsOldest(events, rest, x);
      }
    }
  }

  /** `chosen` and `rest` divide the stale rows, none chosen newer than one left. */
  ghost predicate OldestFirst(events: map<nat, Row>, stale: set<nat>, chosen: set<nat>, rest: set<nat>) {
    && (forall v :: v in stale ==> v in events && events[v].processedAt.Some?)
    && chosen !! rest && chosen + rest == stale && |chosen| + |rest| == |stale|
    && (forall v, w :: v in chosen && w in rest ==> NoLater(events, v, w))
  }

  lemma NoneChosen(events: map<nat, Row>, cutoff: int)
    ensures OldestFirst(events, Stale(events, cutoff), {}, Stale(events, cutoff))
  {
  }

  lemma SomeOldest(events: map<nat, Row>, stale: set<nat>, chosen: set<nat>, rest: set<nat>)
    requires OldestFirst(events, stale, chosen, rest) && rest != {}
    ensures exists v :: v in rest && IsOldest(events, rest, v)
  {
    assert forall w :: w in rest ==> w in stale;
    Oldest(events, rest);
  }

  lemma ChooseOldest(events: map<nat, Row>, stale: set<nat>, chosen: set<nat>, rest: set<nat>, v: nat)
    requires OldestFirst(events, stale, chosen, rest) && IsOldest(events, rest, v)
    ensures OldestFirst(events, stale, chosen + {v}, rest - {v}) && |chosen + {v}| == |chosen| + 1
  {
  }

  lemma ChosenIsChunk(events: map<nat, Row>, cutoff: int, limit: nat, chosen: set<nat>, rest: set<nat>)
    requires OldestFirst(events, Stale(events, cutoff), chosen, rest) && |chosen| <= limit
             && (|chosen| == limit || rest == {})
    ensures IsOldestChunk(events, cutoff, limit, chosen)
  {
    assert rest == Stale(events, cutoff) - chosen;
    assert forall v, w :: v in chosen && w in rest ==> NoLater(events, v, w);
  }

  /** processed_at < cutoff; a row without processed_at is not. */
  predicate ProcessedBefore(row: Row, cutoff: int) {
    match row.processedAt
    case None => false
    case Some(at) => at < cutoff
  }

  lemma StaleIsOld(events: map<nat, Row>, cutoff: int)
    ensures forall i :: i in Stale(events, cutoff) <==> i in events && ProcessedBefore(events[i], cutoff)
  {
  }

  lemma ChunkIsOld(events: map<nat, Row>, cutoff: int, limit: nat, victims: set<nat>)
    requires IsOldestChunk(events, cutoff, limit, victims)
    ensures forall i :: i in victims ==> i in events && ProcessedBefore(events[i], cutoff)
    ensures |victims| < limit ==> forall i :: i in events && ProcessedBefore(events[i], cutoff) ==> i in victims
  {
    StaleIsOld(events, cutoff);
    hide Stale;
    SubsetSize(victims, Stale(events, cutoff));
  }

  class OutboxGC {
    var events: map<nat, Row>

    constructor (events: map<nat, Row>)
      ensures this.events == events
    {
      this.events := events;
    }

    /** The DELETE: the step a GC transaction takes in the pipeline. */
    method DeleteProcessedBefore(cutoff: int, limit: nat) returns (deleted: nat, ghost victims: set<nat>)
      modifies this
      ensures IsOldestChunk(old(events), cutoff, limit, victims)
      ensures events == old(events) - victims && deleted == |victims| <= limit
      ensures forall i :: i in old(events) && i !in events ==> ProcessedBefore(old(events)[i], cutoff)
      ensures forall i :: i in old(events) && !ProcessedBefore(old(events)[i], cutoff) ==>
                i in events && events[i] == old(events)[i]
      ensures deleted < limit ==> forall i :: i in events ==> !ProcessedBefore(events[i], cutoff)
    {
      hide OldestFirst, IsOldest, IsOldestChunk, Stale;
      var chosen: set<nat> := {};
      var rest := Stale(events, cutoff);
      NoneChosen(events, cutoff);
      while |chosen| < limit && rest != {}
        invariant events == old(events)
        invariant OldestFirst(events, Stale(events, cutoff), chosen, rest) && |chosen| <= limit
        decreases |rest|
      {
        SomeOldest(events, Stale(events, cutoff), chosen, rest);
        var v :| v in rest && IsOldest(events, rest, v);
        ChooseOldest(events, Stale(events, cutoff), chosen, rest, v);
        chosen, rest := chosen + {v}, rest - {v};
      }
      ChosenIsChunk(events, cutoff, limit, chosen, rest);
      StaleIsOld(events, cutoff);
      ChunkIsOld(events, cutoff, limit, chosen);
      events := events - chosen;
      deleted, victims := |chosen|, chosen;
    }

    /**
     * Deletes chunk after chunk.  `cutoff(n)` is NOW() minus the retention at the n-th chunk.  Success means
     * nothing older than the last cutoff is left; whatever happens only processed rows go, and all are counted.
     */
    method Run(cutoff: nat -> int, fails: nat -> bool, cancelled: nat -> bool)
      returns (err: Option<GcError>, total: nat, ghost chunks: nat)
      requires forall m, n :: m <= n ==> cutoff(m) <= cutoff(n)
      modifies this
      ensures events.Keys <= old(events.Keys) && forall i :: i in events ==> events[i] == old(events)[i]
      ensures forall i :: i in old(events) && i !in events ==> ProcessedBefore(old(events)[i], cutoff(chunks))
      ensures total == |old(events)| - |events|
      ensures err.None? ==> forall i :: i in events ==> !ProcessedBefore(events[i], cutoff(chunks))
      ensures err == Some(Interrupted) ==> total == 1000 * (chunks + 1)
      ensures err == Some(TxFailed) ==> total == 1000 * chunks
    {
      hide Stale, IsOldestChunk, ProcessedBefore;
      total, chunks := 0, 0;
      var n := 0;
      ghost var start := events;
      while true
        invariant n == chunks && total == OUTBOX_GC_CHUNK_SIZE * chunks
        invariant Cleaned(start, events, cutoff(chunks)) && total == |start| - |events|
        decreases |events|
      {
        if fails(n) {
          return Some(TxFailed), total, chunks;
        }
        ghost var before := events;
        var deleted, victims := DeleteProcessedBefore(cutoff(n), OUTBOX_GC_CHUNK_SIZE);
        ChunkIsOld(before, cutoff(n), OUTBOX_GC_CHUNK_SIZE, victims);
        ChunkCleans(start, before, victims, cutoff(n));
        total := total + deleted;
        if deleted < OUTBOX_GC_CHUNK_SIZE {
          return None, total, chunks;
        }
        if cancelled(n) {
          return Some(Interrupted), total, chunks;
        }
        n := n + 1;
        assert cutoff(n - 1) <= cutoff(n);
        CleanedLater(start, events, cutoff(n - 1), cutoff(n));
        chunks := n;
      }
    }
  }

  /** Some rows processed before the cutoff are gone, and nothing else has changed. */
  ghost predicate Cleaned(start: map<nat, Row>, events: map<nat, Row>, cutoff: int) {
    && events.Keys <= start.Keys
    && (forall i :: i in events ==> events[i] == start[i])
    && (forall i :: i in start && i !in events ==> ProcessedBefore(start[i], cutoff))
  }

  lemma CleanedLater(start: map<nat, Row>, events: map<nat, Row>, cutoff: int, cutoff': int)
    requires Cleaned(start, events, cutoff) && cutoff <= cutoff'
    ensures Cleaned(start, events, cutoff')
  {
  }

  lemma ChunkCleans(start: map<nat, Row>, before: map<nat, Row>, victims: set<nat>, cutoff: int)
    requires Cleaned(start, before, cutoff)
    requires forall i :: i in victims ==> i in before && ProcessedBefore(before[i], cutoff)
    ensures Cleaned(start, before - victims, cutoff)
    ensures |before - victims| == |before| - |victims|
  {
    assert (before - victims).Keys == before.Keys - victims;
  }
}
