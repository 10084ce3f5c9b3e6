/**
 * The transactional outbox as a machine over atomic steps.
 *
 * Requests write user_points and an event in one transaction; any number of worker processes apply
 * events in batch or one by one, and reflect them into Redis after COMMIT; a GC removes old processed
 * rows; rebuilds SET Redis again, row by row, whatever else is going on; Redis may lose everything.  A
 * transaction's writes reach `db` only at its commit step, and its row locks are the rows its agent holds.
 */
module Pipeline {
  import opened Domain
  import opened Tally
  import opened Tables

  /** A goroutine of a worker process: lane 0 also runs the batch path. */
  datatype Aid = Aid(proc: nat, lane: nat)

  /** What a goroutine that is not idle is doing. */
  datatype Agent =
    /** In a transaction holding the rows `ids` (decodable) and `bad` (not); work is what it read. */
    | Open(single: bool, ids: seq<nat>, bad: set<nat>, work: Log, writes: Option<map<int, int>>)
    /** Committed; the Redis pipeline for `work` comes next, then the retries of `bad`. */
    | Reflecting(work: Log, bad: set<nat>)
    /** Has yet to record a retry for each of `bad`. */
    | Retrying(bad: set<nat>)
    /** In the transaction of IncrementRetry for `id`, after its UPDATE and re-read. */
    | Counting(id: nat, count: nat, rest: set<nat>)

  /** An AddUserPoints transaction after its statements: it locks the user's row. */
  datatype Request = Request(score: Score, id: nat, total: int)

  /**
   * One ZSet and the account of how it came about: `base` is what rebuilds SET, with the events `settled`
   * in it and, for the keys `grounded`, MySQL's starting value; `reflected` are the events whose
   * increment arrived since.  An event can be both: then it is in the score twice.
   */
  datatype Ledger = Ledger(z: map<int, int>, base: map<int, int>, settled: set<nat>, reflected: set<nat>,
                           grounded: set<int>)

  /** What a rebuild read from one table, the events in those values, and the rows it has yet to SET. */
  datatype Snap = Snap(table: map<int, int>, events: set<nat>, todo: set<int>)

  /** A rebuild after its snapshot: has a SET failed, and has Redis been emptied after the first one? */
  datatype Sync = Sync(users: Snap, guilds: Snap, failed: bool, torn: bool)

  datatype Config = Config(procs: nat, batchSize: nat, maxRetry: nat, users0: map<int, int>, guilds0: map<int, int>)

  datatype State = State(
    db: Db,
    agents: map<Aid, Agent>,
    todo: map<nat, set<nat>>,
    requests: map<nat, Request>,
    users: Ledger,
    guilds: Ledger,
    sentinel: bool,
    syncs: map<nat, Sync>,
    /** The sentinel was put up by a rebuild whose SETs had been wiped out in part. */
    hollow: bool,
    /** Every event ever committed, kept after the GC. */
    log: Log,
    /** Every event whose processed mark was committed. */
    done: set<nat>,
    /** Dead-letter reports, and the transitions whose acknowledgement was lost. */
    reports: multiset<nat>,
    unheard: set<nat>)

  datatype Step =
    | ReqPrepare(r: nat, score: Score)
    | ReqCommit(r: nat)
    | ReqAbort(r: nat)
    | PoisonInsert(content: Content)
    | BatchList(p: nat)
    | PerEventList(p: nat)
    | Claim(a: Aid, id: nat)
    | ClaimMiss(a: Aid, id: nat)
    | AddScores(a: Aid)
    | Commit(a: Aid, ack: bool, now: nat)
    | Rollback(a: Aid, failed: bool)
    | Reflect(a: Aid, userHits: set<int>, guildHits: set<int>)
    | RetryUpdate(a: Aid, id: nat)
    | RetryCommit(a: Aid, ack: bool)
    | RetryAbort(a: Aid)
    | RetryGiveUp(a: Aid, id: nat)
    | Abandon(p: nat)
    | Crash(p: nat)
    | Collect(cutoff: int, limit: nat, victims: set<nat>)
    | SyncStart(y: nat)
    | SyncSet(y: nat, d: Dim, k: int, lands: bool, acked: bool)
    | SyncEnd(y: nat, lands: bool)
    | SyncStop(y: nat)
    | Flush

  // ----- what agents hold

  function Held(g: Agent): set<nat> {
    match g
    case Open(_, ids, bad, _, _) => Elems(ids) + bad
    case Reflecting(_, _) => {}
    case Retrying(_) => {}
    case Counting(id, _, _) => {id}
  }

  function HeldGuilds(g: Agent): set<int> {
    if g.Open? && g.writes.Some? then g.writes.value.Keys else {}
  }

  /** Events whose retry this agent will record. */
  function Owed(g: Agent): set<nat> {
    match g
    case Open(_, _, _, _, _) => {}
    case Reflecting(_, bad) => bad
    case Retrying(bad) => bad
    case Counting(id, _, rest) => {id} + rest
  }

  /** Events this agent holds or will record a retry for. */
  function Touched(g: Agent): set<nat> {
    Held(g) + Owed(g)
  }

  function Locked(s: State): set<nat> {
    set a, i | a in s.agents && i in Held(s.agents[a]) :: i
  }

  /** Events that are committed but whose Redis pipeline has not run. */
  function InFlight(agents: map<Aid, Agent>): set<nat> {
    set a, i | a in agents && agents[a].Reflecting? && i in agents[a].work :: i
  }

  function LedgerOf(s: State, d: Dim): Ledger {
    if d.ByUser? then s.users else s.guilds
  }

  function SnapOf(y: Sync, d: Dim): Snap {
    if d.ByUser? then y.users else y.guilds
  }

  /** The MySQL table a ranking mirrors, and the events that table counts. */
  function TableOf(s: State, d: Dim): map<int, int> {
    if d.ByUser? then s.db.userPoints else s.db.guildScores
  }

  function Counted(s: State, d: Dim): set<nat> {
    if d.ByUser? then ReadableIds(s.log) else s.done
  }

  function Base0(c: Config, d: Dim): map<int, int> {
    if d.ByUser? then c.users0 else c.guilds0
  }

  predicate ProcIdle(s: State, p: nat) {
    && (forall a :: a in s.agents ==> a.proc != p)
    && (p in s.todo ==> s.todo[p] == {})
  }

  /** No transaction, no pending Redis work, nothing left that a worker could pick up. */
  predicate Quiescent(c: Config, s: State) {
    && s.agents == map[] && s.requests == map[]
    && (forall p :: p in s.todo ==> s.todo[p] == {})
    && (forall i :: i in s.db.events ==> !Eligible(s.db.events, i, c.maxRetry))
  }

  // ----- pieces of the steps

  function Contents(events: map<nat, Row>, ids: seq<nat>): Log
    requires forall i :: i in ids ==> i in events
  {
    map i | i in ids :: events[i].content
  }

  /** The listed ids that decode, in list order. */
  function Good(events: map<nat, Row>, ids: seq<nat>): (good: seq<nat>)
    requires forall i :: i in ids ==> i in events
    ensures forall i :: i in good <==> i in ids && Decodable(events[i].content)
    ensures Distinct(ids) ==> Distinct(good)
  {
    if ids == [] then []
    else
      var rest := Good(events, ids[1..]);
      assert forall j :: 0 <= j < |rest| ==> rest[j] in rest;
      if Decodable(events[ids[0]].content) then [ids[0]] + rest else rest
  }

  function OpenOn(events: map<nat, Row>, single: bool, ids: seq<nat>): Agent
    requires forall i :: i in ids ==> i in events
  {
    var good := Good(events, ids);
    var bad := set i | i in ids && !Decodable(events[i].content);
    Open(single, good, bad, Contents(events, good), None)
  }

  /** Goes on to the retries still owed, or becomes idle. */
  function Park(agents: map<Aid, Agent>, a: Aid, bad: set<nat>): map<Aid, Agent> {
    if bad == {} then agents - {a} else agents[a := Retrying(bad)]
  }

  /** ZINCRBY for each member in hits, with that member's total over the work. */
  ghost function Bump(z: map<int, int>, work: Log, hits: set<int>, d: Dim): map<int, int> {
    map k | k in z.Keys + hits * Keys(work, work.Keys, d) ::
      Get(z, k) + if k in hits then Sum(work, work.Keys, Points(d, k)) else 0
  }

  /** The events of a work whose member the pipeline reached. */
  function There(work: Log, hits: set<int>, d: Dim): set<nat> {
    set i | i in work && Decodable(work[i]) && Key(Decode(work[i]).score, d) in hits
  }

  /** The pipeline executed the commands of the members in hits; the rest never arrives. */
  ghost function Arrive(l: Ledger, work: Log, hits: set<int>, d: Dim): Ledger {
    l.(z := Bump(l.z, work, hits, d), reflected := l.reflected + There(work, hits, d))
  }

  /** The events that count for member k. */
  function EventsFor(log: Log, d: Dim, k: int): set<nat> {
    set i | i in log && Decodable(log[i]) && Key(Decode(log[i]).score, d) == k
  }

  /** ZADD of member k with value v, which has the events `seen` of k in it. */
  function Overwrite(l: Ledger, log: Log, d: Dim, k: int, v: int, seen: set<nat>): Ledger {
    var own := EventsFor(log, d, k);
    Ledger(l.z[k := v], l.base[k := v], l.settled - own + seen * own, l.reflected - own, l.grounded + {k})
  }

  /** Redis comes back empty: whatever had been SET or added is gone. */
  function Forget(l: Ledger): Ledger {
    Ledger(map[], map[], {}, {}, {})
  }

  /** The upsert-add of the work's guild totals, as values read and written under the row locks. */
  ghost function NewScores(scores: map<int, int>, work: Log): map<int, int> {
    map g | g in Keys(work, work.Keys, ByGuild) :: Get(scores, g) + Sum(work, work.Keys, Points(ByGuild, g))
  }

  // ----- requests (AddUserPoints)

  predicate CanPrepare(s: State, r: nat, score: Score) {
    && r !in s.requests && IsValidScore(score.points)
    && forall q :: q in s.requests ==> s.requests[q].score.user != score.user
  }

  /** Inserts the history row, adds the points, reads the total back, inserts the event: not yet visible. */
  function Prepared(s: State, r: nat, score: Score): State {
    var total := Get(s.db.userPoints, score.user) + score.points;
    s.(db := s.db.(nextId := s.db.nextId + 1), requests := s.requests[r := Request(score, s.db.nextId, total)])
  }

  function Requested(s: State, r: nat): State
    requires r in s.requests
  {
    var q := s.requests[r];
    var content := Content(RANKING_SCORE_ADDED, Marshal(q.score));
    s.(db := s.db.(userPoints := s.db.userPoints[q.score.user := q.total],
                   userRows := s.db.userRows + [EntryOf(q.score, ByUser)],
                   events := s.db.events[q.id := Row(content, 0, None)]),
       log := s.log[q.id := content],
       requests := s.requests - {r})
  }

  /** Some other writer leaves a row that no worker can decode. */
  function Poisoned(s: State, content: Content): State {
    s.(db := s.db.(nextId := s.db.nextId + 1, events := s.db.events[s.db.nextId := Row(content, 0, None)]),
       log := s.log[s.db.nextId := content])
  }

  // ----- worker transactions

  predicate CanList(c: Config, s: State, p: nat) {
    p < c.procs && ProcIdle(s, p)
  }

  function BatchOpened(c: Config, s: State, p: nat): State {
    var ids := ListPending(s.db, Locked(s), c.batchSize, c.maxRetry);
    s.(agents := s.agents[Aid(p, 0) := OpenOn(s.db.events, false, ids)])
  }

  function Candidates(c: Config, s: State, p: nat): State {
    s.(todo := s.todo[p := Elems(ListPending(s.db, Locked(s), c.batchSize, c.maxRetry))])
  }

  predicate CanPop(s: State, a: Aid, id: nat) {
    a !in s.agents && a.proc in s.todo && id in s.todo[a.proc]
  }

  predicate Claimable(c: Config, s: State, id: nat) {
    id !in Locked(s) && Eligible(s.db.events, id, c.maxRetry)
  }

  function Popped(s: State, a: Aid, id: nat): State
    requires CanPop(s, a, id)
  {
    s.(todo := s.todo[a.proc := s.todo[a.proc] - {id}])
  }

  function Claimed(s: State, a: Aid, id: nat): State
    requires CanPop(s, a, id) && id in s.db.events
  {
    Popped(s, a, id).(agents := s.agents[a := OpenOn(s.db.events, true, [id])])
  }

  predicate CanAdd(s: State, a: Aid) {
    && a in s.agents && s.agents[a].Open? && s.agents[a].writes.None? && s.agents[a].ids != []
    && forall b :: b in s.agents && b != a ==>
         HeldGuilds(s.agents[b]) !! Keys(s.agents[a].work, s.agents[a].work.Keys, ByGuild)
  }

  ghost function Added(s: State, a: Aid): State
    requires CanAdd(s, a)
  {
    s.(agents := s.agents[a := s.agents[a].(writes := Some(NewScores(s.db.guildScores, s.agents[a].work)))])
  }

  predicate CanCommit(s: State, a: Aid) {
    && a in s.agents && s.agents[a].Open? && (s.agents[a].writes.Some? || s.agents[a].ids == [])
    && (s.agents[a].single ==> s.agents[a].bad == {})
    && AllReadable(s.agents[a].work, Elems(s.agents[a].ids))
  }

  function CommittedDb(db: Db, g: Agent, now: nat): Db
    requires g.Open? && AllReadable(g.work, Elems(g.ids))
  {
    db.(events := Mark(db.events, Elems(g.ids), now),
        guildScores := if g.writes.Some? then db.guildScores + g.writes.value else db.guildScores,
        guildRows := db.guildRows + RowsOf(g.work, g.ids, ByGuild))
  }

  /** COMMIT.  Without the acknowledgement the worker sees an error and never reflects the work. */
  function Committed(s: State, a: Aid, ack: bool, now: nat): State
    requires CanCommit(s, a)
  {
    var g := s.agents[a];
    s.(db := CommittedDb(s.db, g, now), done := s.done + Elems(g.ids),
       agents := if ack then s.agents[a := Reflecting(g.work, g.bad)] else s.agents - {a})
  }

  predicate CanRollback(s: State, a: Aid, failed: bool) {
    a in s.agents && s.agents[a].Open? && (failed ==> s.agents[a].single)
  }

  /** ROLLBACK.  A single event whose handling failed is owed a retry; other errors end the tick. */
  function RolledBack(s: State, a: Aid, failed: bool): State
    requires CanRollback(s, a, failed)
  {
    s.(agents := if failed then Park(s.agents, a, Held(s.agents[a])) else s.agents - {a})
  }

  // ----- after COMMIT

  predicate CanReflect(s: State, a: Aid) {
    a in s.agents && s.agents[a].Reflecting?
  }

  ghost function Reflected(s: State, a: Aid, userHits: set<int>, guildHits: set<int>): State
    requires CanReflect(s, a)
  {
    var g := s.agents[a];
    s.(users := Arrive(s.users, g.work, userHits, ByUser),
       guilds := Arrive(s.guilds, g.work, guildHits, ByGuild),
       agents := Park(s.agents, a, g.bad))
  }

  predicate CanUpdateRetry(s: State, a: Aid, id: nat) {
    a in s.agents && s.agents[a].Retrying? && id in s.agents[a].bad && id in s.db.events && id !in Locked(s)
  }

  function RetryUpdated(s: State, a: Aid, id: nat): State
    requires CanUpdateRetry(s, a, id)
  {
    s.(agents := s.agents[a := Counting(id, s.db.events[id].retry + 1, s.agents[a].bad - {id})])
  }

  predicate IsCounting(s: State, a: Aid) {
    a in s.agents && s.agents[a].Counting?
  }

  /** The count becomes visible; the worker that sees exactly maxRetry reports the event dead. */
  function RetryCommitted(c: Config, s: State, a: Aid, ack: bool): State
    requires IsCounting(s, a)
  {
    var g := s.agents[a];
    var last := g.count == c.maxRetry;
    s.(db := if g.id in s.db.events
             then s.db.(events := s.db.events[g.id := s.db.events[g.id].(retry := g.count)])
             else s.db,
       agents := Park(s.agents, a, g.rest),
       reports := if last && ack then s.reports + multiset{g.id} else s.reports,
       unheard := if last && !ack then s.unheard + {g.id} else s.unheard)
  }

  function RetryDropped(s: State, a: Aid): State
    requires IsCounting(s, a)
  {
    s.(agents := Park(s.agents, a, s.agents[a].rest))
  }

  predicate CanGiveUp(s: State, a: Aid, id: nat) {
    a in s.agents && s.agents[a].Retrying? && id in s.agents[a].bad
  }

  /** Recording the retry failed before its UPDATE took effect, or the row is gone. */
  function GaveUp(s: State, a: Aid, id: nat): State
    requires CanGiveUp(s, a, id)
  {
    s.(agents := Park(s.agents, a, s.agents[a].bad - {id}))
  }

  // ----- failures and GC

  function Crashed(s: State, p: nat): State {
    s.(agents := map a | a in s.agents && a.proc != p :: s.agents[a], todo := s.todo - {p})
  }

  ghost predicate CanCollect(s: State, cutoff: int, limit: nat, victims: set<nat>) {
    IsOldestChunk(s.db.events, cutoff, limit, victims) && victims !! Locked(s)
  }

  function Collected(s: State, victims: set<nat>): State {
    s.(db := s.db.(events := s.db.events - victims))
  }

  // ----- rebuild (SyncAll), and Redis losing everything

  /** Reads both tables in one REPEATABLE READ transaction. */
  function Started(s: State, y: nat): State {
    s.(syncs := s.syncs[y := Sync(Snap(s.db.userPoints, ReadableIds(s.log), s.db.userPoints.Keys),
                                  Snap(s.db.guildScores, s.done, s.db.guildScores.Keys), false, false)])
  }

  /** All guilds come before the first user. */
  predicate CanSet(s: State, y: nat, d: Dim, k: int) {
    y in s.syncs && k in SnapOf(s.syncs[y], d).todo && (d.ByUser? ==> s.syncs[y].guilds.todo == {})
  }

  function Ticked(y: Sync, d: Dim, k: int, acked: bool): Sync {
    var y' := y.(failed := y.failed || !acked);
    if d.ByUser? then y'.(users := y.users.(todo := y.users.todo - {k}))
    else y'.(guilds := y.guilds.(todo := y.guilds.todo - {k}))
  }

  /** SetGuildScore or SetUserPoints; an error may or may not mean that the ZADD did not take place. */
  function SetRow(s: State, y: nat, d: Dim, k: int, lands: bool, acked: bool): State
    requires CanSet(s, y, d, k)
  {
    var snap := SnapOf(s.syncs[y], d);
    var l := Overwrite(LedgerOf(s, d), s.log, d, k, Get(snap.table, k), snap.events);
    s.(syncs := s.syncs[y := Ticked(s.syncs[y], d, k, acked)],
       users := if lands && d.ByUser? then l else s.users,
       guilds := if lands && d.ByGuild? then l else s.guilds)
  }

  predicate CanEnd(s: State, y: nat) {
    y in s.syncs && s.syncs[y].users.todo == {} && s.syncs[y].guilds.todo == {} && !s.syncs[y].failed
  }

  /** MarkInitialized, only after every SET succeeded. */
  function Ended(s: State, y: nat, lands: bool): State
    requires CanEnd(s, y)
  {
    s.(syncs := s.syncs - {y}, sentinel := s.sentinel || lands,
       hollow := if lands then s.syncs[y].torn && (s.sentinel ==> s.hollow) else s.hollow)
  }

  predicate HasTried(y: Sync) {
    y.users.todo != y.users.table.Keys || y.guilds.todo != y.guilds.table.Keys
  }

  function Flushed(s: State): State {
    s.(users := Forget(s.users), guilds := Forget(s.guilds), sentinel := false, hollow := false,
       syncs := map y | y in s.syncs :: s.syncs[y].(torn := s.syncs[y].torn || HasTried(s.syncs[y])))
  }

  // ----- the machine

  ghost predicate Enabled(c: Config, s: State, step: Step) {
    match step
    case ReqPrepare(r, score) => CanPrepare(s, r, score)
    case ReqCommit(r) => r in s.requests
    case ReqAbort(r) => r in s.requests
    case PoisonInsert(content) => !Decodable(content)
    case BatchList(p) => CanList(c, s, p)
    case PerEventList(p) => CanList(c, s, p)
    case Claim(a, id) => CanPop(s, a, id) && Claimable(c, s, id)
    case ClaimMiss(a, id) => CanPop(s, a, id) && !Claimable(c, s, id)
    case AddScores(a) => CanAdd(s, a)
    case Commit(a, ack, now) => CanCommit(s, a)
    case Rollback(a, failed) => CanRollback(s, a, failed)
    case Reflect(a, userHits, guildHits) => CanReflect(s, a)
    case RetryUpdate(a, id) => CanUpdateRetry(s, a, id)
    case RetryCommit(a, ack) => IsCounting(s, a)
    case RetryAbort(a) => IsCounting(s, a)
    case RetryGiveUp(a, id) => CanGiveUp(s, a, id)
    case Abandon(p) => p in s.todo
    case Crash(p) => true
    case Collect(cutoff, limit, victims) => CanCollect(s, cutoff, limit, victims)
    case SyncStart(y) => y !in s.syncs
    case SyncSet(y, d, k, lands, acked) => CanSet(s, y, d, k) && (acked ==> lands)
    case SyncEnd(y, lands) => CanEnd(s, y)
    case SyncStop(y) => y in s.syncs
    case Flush => true
  }

  ghost function Next(c: Config, s: State, step: Step): State
    requires Enabled(c, s, step)
  {
    match step
    case ReqPrepare(r, score) => Prepared(s, r, score)
    case ReqCommit(r) => Requested(s, r)
    case ReqAbort(r) => s.(requests := s.requests - {r})
    case PoisonInsert(content) => Poisoned(s, content)
    case BatchList(p) => BatchOpened(c, s, p)
    case PerEventList(p) => Candidates(c, s, p)
    case Claim(a, id) => Claimed(s, a, id)
    case ClaimMiss(a, id) => Popped(s, a, id)
    case AddScores(a) => Added(s, a)
    case Commit(a, ack, now) => Committed(s, a, ack, now)
    case Rollback(a, failed) => RolledBack(s, a, failed)
    case Reflect(a, userHits, guildHits) => Reflected(s, a, userHits, guildHits)
    case RetryUpdate(a, id) => RetryUpdated(s, a, id)
    case RetryCommit(a, ack) => RetryCommitted(c, s, a, ack)
    case RetryAbort(a) => RetryDropped(s, a)
    case RetryGiveUp(a, id) => GaveUp(s, a, id)
    case Abandon(p) => s.(todo := s.todo[p := {}])
    case Crash(p) => Crashed(s, p)
    case Collect(cutoff, limit, victims) => Collected(s, victims)
    case SyncStart(y) => Started(s, y)
    case SyncSet(y, d, k, lands, acked) => SetRow(s, y, d, k, lands, acked)
    case SyncEnd(y, lands) => Ended(s, y, lands)
    case SyncStop(y) => s.(syncs := s.syncs - {y})
    case Flush => Flushed(s)
  }

  /** New rounds MaxRetry up to 1; the outbox starts empty, the score tables and Redis need not agree. */
  ghost predicate Initial(c: Config, s: State) {
    && 1 <= c.maxRetry
    && s.db == Db(s.db.nextId, map[], c.guilds0, [], c.users0, [])
    && s.agents == map[] && s.todo == map[] && s.requests == map[]
    && s.users == Ledger(map[], map[], {}, {}, {}) && s.guilds == Ledger(map[], map[], {}, {}, {})
    && s.syncs == map[] && !s.sentinel && !s.hollow && s.log == map[] && s.done == {} && s.reports == multiset{}
       && s.unheard == {}
  }

  /** `states` takes `steps` one after the other. */
  ghost predicate IsPath(c: Config, states: seq<State>, steps: seq<Step>) {
    && |states| == |steps| + 1
    && forall n :: 0 <= n < |steps| ==>
         Enabled(c, states[n], steps[n]) && states[n + 1] == Next(c, states[n], steps[n])
  }

  ghost predicate IsRun(c: Config, states: seq<State>, steps: seq<Step>) {
    IsPath(c, states, steps) && Initial(c, states[0])
  }

  ghost predicate Reachable(c: Config, s: State) {
    exists states, steps :: IsRun(c, states, steps) && states[|steps|] == s
  }
}
