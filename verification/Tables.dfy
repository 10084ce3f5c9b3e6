/** The MySQL tables of the ranking pipeline and the meaning of the statements that touch them. */
module Tables {
  import opened Domain
  import opened Tally

  /** A row of outbox_events; processedAt is the NULLable processed_at column. */
  datatype Row = Row(content: Content, retry: nat, processedAt: Option<nat>)

  /** Committed contents: outbox_events, guild_scores, guild_score_histories, user_points, user_point_histories. */
  datatype Db = Db(
    nextId: nat,
    events: map<nat, Row>,
    guildScores: map<int, int>,
    guildRows: seq<Entry>,
    userPoints: map<int, int>,
    userRows: seq<Entry>)

  /** WHERE processed_at IS NULL AND retry_count < maxRetry */
  predicate Eligible(events: map<nat, Row>, id: nat, maxRetry: nat) {
    id in events && events[id].processedAt.None? && events[id].retry < maxRetry
  }

  /** Eligible rows in [lo, hi) that nobody locks, in id order. */
  function Scan(events: map<nat, Row>, locked: set<nat>, maxRetry: nat, lo: nat, hi: nat): (ids: seq<nat>)
    requires lo <= hi
    decreases hi - lo
    ensures forall i :: i in ids <==> lo <= i < hi && i !in locked && Eligible(events, i, maxRetry)
    ensures forall j, k :: 0 <= j < k < |ids| ==> ids[j] < ids[k]
  {
    if lo == hi then []
    else
      var rest := Scan(events, locked, maxRetry, lo + 1, hi);
      assert forall j :: 0 <= j < |rest| ==> rest[j] in rest;
      if lo !in locked && Eligible(events, lo, maxRetry) then [lo] + rest else rest
  }

  /** SELECT ... ORDER BY id ASC LIMIT limit FOR UPDATE SKIP LOCKED */
  function ListPending(db: Db, locked: set<nat>, limit: nat, maxRetry: nat): (ids: seq<nat>)
    ensures |ids| <= limit
    ensures Distinct(ids)
    ensures forall i :: i in ids ==> i !in locked && Eligible(db.events, i, maxRetry)
    ensures forall j, k :: 0 <= j < k < |ids| ==> ids[j] < ids[k]
    ensures forall i: nat :: i < db.nextId && i !in locked && Eligible(db.events, i, maxRetry) ==>
              i in ids || (|ids| == limit && forall j :: j in ids ==> j < i)
  {
    var all := Scan(db.events, locked, maxRetry, 0, db.nextId);
    if |all| <= limit then all else all[..limit]
  }

  /** UPDATE outbox_events SET processed_at = NOW(6) WHERE id IN ids */
  function Mark(events: map<nat, Row>, ids: set<nat>, now: nat): map<nat, Row> {
    map i | i in events :: if i in ids then events[i].(processedAt := Some(now)) else events[i]
  }

  /** The rows DELETE ... WHERE processed_at < cutoff may take. */
  function Stale(events: map<nat, Row>, cutoff: int): set<nat> {
    set i | i in events && events[i].processedAt.Some? && events[i].processedAt.value < cutoff
  }

  /** ORDER BY processed_at LIMIT limit: the victims are the oldest stale rows, ties decided anyhow. */
  ghost predicate IsOldestChunk(events: map<nat, Row>, cutoff: int, limit: nat, victims: set<nat>) {
    && victims <= Stale(events, cutoff)
    && |victims| == (if |Stale(events, cutoff)| < limit then |Stale(events, cutoff)| else limit)
    && forall v, w :: v in victims && w in Stale(events, cutoff) - victims ==>
         events[v].processedAt.value <= events[w].processedAt.value
  }
}
