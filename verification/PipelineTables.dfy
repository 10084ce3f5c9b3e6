/**
 * What every step of the pipeline keeps about MySQL: locks exclude each other, no update is lost,
 * and each table is its starting value plus each counted event once.
 */
module PipelineTables {
  import opened Domain
  import opened Tally
  import opened Tables
  import opened Pipeline

  /** outbox_events against the log: nothing unprocessed ever disappears, marks and `done` agree. */
  ghost predicate RowsOk(events: map<nat, Row>, nextId: nat, log: Log, done: set<nat>) {
    && (forall i :: i in events ==> i in log && events[i].content == log[i])
    && (forall i :: i in log ==> i < nextId)
    && (forall i :: i in done ==> Readable(log, i))
    && (forall i :: i in events ==> (events[i].processedAt.Some? <==> i in done))
    && (forall i :: i in log && i !in events ==> i in done)
    && (forall i :: Readable(log, i) ==> IsValidScore(ScoreAt(log, i).points))
  }

  ghost predicate RequestsOk(requests: map<nat, Request>, nextId: nat, log: Log, userPoints: map<int, int>) {
    && (forall r :: r in requests ==>
          && requests[r].id < nextId && requests[r].id !in log && IsValidScore(requests[r].score.points)
          && requests[r].total == Get(userPoints, requests[r].score.user) + requests[r].score.points)
    && (forall q, r :: q in requests && r in requests && q != r ==>
          requests[q].id != requests[r].id && requests[q].score.user != requests[r].score.user)
  }

  /** `part` is a copy of what the log says about decodable events. */
  ghost predicate CopyOf(part: Log, log: Log) {
    forall i :: i in part ==> Readable(log, i) && part[i] == log[i]
  }

  /** What a transaction's own facts depend on. */
  datatype View = View(maxRetry: nat, events: map<nat, Row>, scores: map<int, int>, log: Log, done: set<nat>)

  function ViewOf(c: Config, s: State): View {
    View(c.maxRetry, s.db.events, s.db.guildScores, s.log, s.done)
  }

  ghost predicate OpenOk(v: View, g: Agent)
    requires g.Open?
  {
    && Distinct(g.ids) && g.work.Keys == Elems(g.ids) && CopyOf(g.work, v.log)
    && (forall i :: i in Held(g) ==> Eligible(v.events, i, v.maxRetry))
    && (forall i :: i in g.bad ==> i in v.log && !Decodable(v.log[i]))
    && (g.single ==> g.bad == {} || g.ids == [])
    && (g.writes.Some? ==> g.writes.value == NewScores(v.scores, g.work))
  }

  ghost predicate AgentOk(v: View, g: Agent) {
    match g
    case Open(_, _, _, _, _) => OpenOk(v, g)
    case Reflecting(work, _) => CopyOf(work, v.log) && work.Keys <= v.done
    case Retrying(_) => true
    case Counting(id, count, _) => id in v.events && count == v.events[id].retry + 1
  }

  ghost predicate AllOk(v: View, agents: map<Aid, Agent>) {
    forall a :: a in agents ==> AgentOk(v, agents[a])
  }

  /** Row locks exclude: an outbox row or a guild row has one holder. */
  ghost predicate Exclusive(agents: map<Aid, Agent>) {
    && (forall a, b, i :: a in agents && b in agents && i in Held(agents[a]) && i in Held(agents[b]) ==> a == b)
    && (forall a, b, g :: a in agents && b in agents && g in HeldGuilds(agents[a]) && g in HeldGuilds(agents[b]) ==>
         a == b)
  }

  ghost predicate Base(c: Config, s: State) {
    && RowsOk(s.db.events, s.db.nextId, s.log, s.done)
    && RequestsOk(s.requests, s.db.nextId, s.log, s.db.userPoints)
    && AllOk(ViewOf(c, s), s.agents) && Exclusive(s.agents)
  }

  lemma AgentIsOk(c: Config, s: State, a: Aid)
    requires Base(c, s) && a in s.agents
    ensures AgentOk(ViewOf(c, s), s.agents[a])
  {
  }

  lemma ExclusiveApart(agents: map<Aid, Agent>, a: Aid, b: Aid)
    requires Exclusive(agents) && a in agents && b in agents && a != b
    ensures Held(agents[a]) !! Held(agents[b]) && HeldGuilds(agents[a]) !! HeldGuilds(agents[b])
  {
    forall k | k in HeldGuilds(agents[a]) ensures k !in HeldGuilds(agents[b]) {
    }
  }

  // ----- replacing one agent

  lemma ReplaceAgent(v: View, agents: map<Aid, Agent>, a: Aid, g: Agent)
    requires AllOk(v, agents) && Exclusive(agents) && AgentOk(v, g)
    requires forall b, i :: b in agents && b != a && i in Held(g) ==> i !in Held(agents[b])
    requires forall b, k :: b in agents && b != a && k in HeldGuilds(g) ==> k !in HeldGuilds(agents[b])
    ensures AllOk(v, agents[a := g]) && Exclusive(agents[a := g])
  {
  }

  lemma ParkedBase(c: Config, s: State, a: Aid, bad: set<nat>)
    requires Base(c, s)
    ensures AllOk(ViewOf(c, s), Park(s.agents, a, bad)) && Exclusive(Park(s.agents, a, bad))
  {
    if bad != {} {
      ReplaceAgent(ViewOf(c, s), s.agents, a, Retrying(bad));
    }
  }

  // ----- requests

  lemma PreparedBase(c: Config, s: State, r: nat, score: Score)
    requires Base(c, s) && CanPrepare(s, r, score)
    ensures Base(c, Prepared(s, r, score))
  {
  }

  lemma InsertedRows(events: map<nat, Row>, nextId: nat, log: Log, done: set<nat>, id: nat, content: Content)
    requires RowsOk(events, nextId, log, done) && id < nextId && id !in log
    requires Decodable(content) ==> IsValidScore(Decode(content).score.points)
    ensures RowsOk(events[id := Row(content, 0, None)], nextId, log[id := content], done)
  {
    var log' := log[id := content];
    forall i | Readable(log', i) ensures IsValidScore(ScoreAt(log', i).points) {
      assert i != id ==> Readable(log, i);
    }
    forall i | i in done ensures Readable(log', i) {
      assert Readable(log, i);
    }
  }

  /** A fresh row disturbs no agent. */
  lemma InsertedAgents(v: View, agents: map<Aid, Agent>, id: nat, content: Content)
    requires AllOk(v, agents) && id !in v.log && id !in v.events
    ensures AllOk(v.(events := v.events[id := Row(content, 0, None)], log := v.log[id := content]), agents)
  {
    var v' := v.(events := v.events[id := Row(content, 0, None)], log := v.log[id := content]);
    forall a | a in agents ensures AgentOk(v', agents[a]) {
      assert AgentOk(v, agents[a]);
      if agents[a].Open? {
        assert CopyOf(agents[a].work, v'.log);
      }
    }
  }

  lemma InsertedRequests(requests: map<nat, Request>, nextId: nat, log: Log, points: map<int, int>, id: nat,
                         content: Content)
    requires RequestsOk(requests, nextId, log, points) && forall r :: r in requests ==> requests[r].id != id
    ensures RequestsOk(requests, nextId, log[id := content], points)
  {
  }

  lemma RequestedBase(c: Config, s: State, r: nat)
    requires Base(c, s) && r in s.requests
    ensures Base(c, Requested(s, r))
  {
    var q := s.requests[r];
    var content := Content(RANKING_SCORE_ADDED, Marshal(q.score));
    InsertedRows(s.db.events, s.db.nextId, s.log, s.done, q.id, content);
    InsertedAgents(ViewOf(c, s), s.agents, q.id, content);
  }

  lemma PoisonedBase(c: Config, s: State, content: Content)
    requires Base(c, s) && !Decodable(content)
    ensures Base(c, Poisoned(s, content))
  {
    hide OpenOk, AgentOk, Exclusive, Decode;
    InsertedRows(s.db.events, s.db.nextId + 1, s.log, s.done, s.db.nextId, content);
    InsertedAgents(ViewOf(c, s), s.agents, s.db.nextId, content);
    InsertedRequests(s.requests, s.db.nextId, s.log, s.db.userPoints, s.db.nextId, content);
  }

  // ----- worker transactions

  lemma OpenOnOk(c: Config, s: State, single: bool, ids: seq<nat>)
    requires Base(c, s) && Distinct(ids) && (single ==> |ids| <= 1)
    requires forall i :: i in ids ==> i in s.db.events && Eligible(s.db.events, i, c.maxRetry)
    ensures AgentOk(ViewOf(c, s), OpenOn(s.db.events, single, ids))
    ensures Held(OpenOn(s.db.events, single, ids)) == Elems(ids)
  {
    var g := OpenOn(s.db.events, single, ids);
    forall i | i in g.work ensures Readable(s.log, i) && g.work[i] == s.log[i] {
      assert i in ids;
    }
    if g.ids != [] {
      assert g.ids[0] in g.ids;
      assert single ==> forall i :: i in ids ==> i == g.ids[0];
    }
  }

  lemma BatchOpenedBase(c: Config, s: State, p: nat)
    requires Base(c, s) && CanList(c, s, p)
    ensures Base(c, BatchOpened(c, s, p))
  {
    var ids := ListPending(s.db, Locked(s), c.batchSize, c.maxRetry);
    OpenOnOk(c, s, false, ids);
    ReplaceAgent(ViewOf(c, s), s.agents, Aid(p, 0), OpenOn(s.db.events, false, ids));
  }

  lemma ClaimedBase(c: Config, s: State, a: Aid, id: nat)
    requires Base(c, s) && CanPop(s, a, id) && Claimable(c, s, id)
    ensures Base(c, Claimed(s, a, id))
  {
    OpenOnOk(c, s, true, [id]);
    ReplaceAgent(ViewOf(c, s), s.agents, a, OpenOn(s.db.events, true, [id]));
  }

  lemma AddedBase(c: Config, s: State, a: Aid)
    requires Base(c, s) && CanAdd(s, a)
    ensures Base(c, Added(s, a))
  {
    var g := s.agents[a].(writes := Some(NewScores(s.db.guildScores, s.agents[a].work)));
    assert AgentOk(ViewOf(c, s), s.agents[a]);
    ReplaceAgent(ViewOf(c, s), s.agents, a, g);
  }

  /** How a commit of g changes what other agents depend on. */
  function Moved(v: View, g: Agent, now: nat): View
    requires g.Open?
  {
    v.(events := Mark(v.events, Elems(g.ids), now),
       scores := if g.writes.Some? then v.scores + g.writes.value else v.scores,
       done := v.done + Elems(g.ids))
  }

  lemma NewScoresKeys(scores: map<int, int>, work: Log)
    ensures NewScores(scores, work).Keys == Keys(work, work.Keys, ByGuild)
  {
  }

  lemma SameNewScores(scores: map<int, int>, scores': map<int, int>, work: Log)
    requires forall k :: k in Keys(work, work.Keys, ByGuild) ==> Get(scores', k) == Get(scores, k)
    ensures NewScores(scores', work) == NewScores(scores, work)
  {
  }

  /** No other transaction sees its rows or its guild totals move under it. */
  lemma MovedOther(v: View, g: Agent, now: nat, h: Agent)
    requires g.Open? && AgentOk(v, h)
    requires Held(g) !! Held(h) && HeldGuilds(g) !! HeldGuilds(h)
    ensures AgentOk(Moved(v, g, now), h)
  {
    hide NewScores;
    var v' := Moved(v, g, now);
    assert forall i :: i in Held(h) && i in v.events ==>
        i !in Elems(g.ids) && i in v'.events && v'.events[i] == v.events[i];
    if h.Open? && h.writes.Some? {
      NewScoresKeys(v.scores, h.work);
      SameNewScores(v.scores, v'.scores, h.work);
    }
  }

  lemma CommittedRows(v: View, nextId: nat, g: Agent, now: nat)
    requires g.Open? && AgentOk(v, g) && RowsOk(v.events, nextId, v.log, v.done)
    ensures RowsOk(Moved(v, g, now).events, nextId, v.log, Moved(v, g, now).done)
  {
  }

  lemma CommittedSelf(v: View, g: Agent, now: nat)
    requires g.Open? && AgentOk(v, g)
    ensures AgentOk(Moved(v, g, now), Reflecting(g.work, g.bad))
  {
  }

  lemma CommittedBase(c: Config, s: State, a: Aid, ack: bool, now: nat)
    requires Base(c, s) && CanCommit(s, a)
    ensures Base(c, Committed(s, a, ack, now))
  {
    hide RowsOk, OpenOk, AgentOk, RequestsOk, Mark, RowsOf;
    var g, v := s.agents[a], ViewOf(c, s);
    var s' := Committed(s, a, ack, now);
    assert AgentOk(v, g);
    CommittedRows(v, s.db.nextId, g, now);
    CommittedSelf(v, g, now);
    assert ViewOf(c, s') == Moved(v, g, now);
    forall b | b in s.agents && b != a ensures AgentOk(Moved(v, g, now), s.agents[b]) {
      assert AgentOk(v, s.agents[b]);
      ExclusiveApart(s.agents, a, b);
      MovedOther(v, g, now, s.agents[b]);
    }
  }

  lemma RetryUpdatedBase(c: Config, s: State, a: Aid, id: nat)
    requires Base(c, s) && CanUpdateRetry(s, a, id)
    ensures Base(c, RetryUpdated(s, a, id))
  {
    ReplaceAgent(ViewOf(c, s), s.agents, a, Counting(id, s.db.events[id].retry + 1, s.agents[a].bad - {id}));
  }

  /** A retry count moves only on a row that nobody else holds. */
  lemma CountedOther(v: View, g: Agent, h: Agent)
    requires g.Counting? && AgentOk(v, g) && AgentOk(v, h) && Held(g) !! Held(h)
    ensures AgentOk(v.(events := v.events[g.id := v.events[g.id].(retry := g.count)]), h)
  {
    assert g.id in Held(g);
    assert forall i :: i in Held(h) ==> i != g.id;
  }

  lemma OthersUncounted(c: Config, s: State, a: Aid, ack: bool, b: Aid)
    requires Base(c, s) && IsCounting(s, a) && b in s.agents && b != a
    ensures AgentOk(ViewOf(c, RetryCommitted(c, s, a, ack)), s.agents[b])
  {
    AgentIsOk(c, s, a);
    AgentIsOk(c, s, b);
    ExclusiveApart(s.agents, a, b);
    hide AllOk, Exclusive, RowsOk, RequestsOk, OpenOk, Park;
    CountedOther(ViewOf(c, s), s.agents[a], s.agents[b]);
  }

  lemma CountedRows(events: map<nat, Row>, nextId: nat, log: Log, done: set<nat>, id: nat, count: nat)
    requires RowsOk(events, nextId, log, done) && id in events
    ensures RowsOk(events[id := events[id].(retry := count)], nextId, log, done)
  {
  }

  lemma RetryCommittedBase(c: Config, s: State, a: Aid, ack: bool)
    requires Base(c, s) && IsCounting(s, a)
    ensures Base(c, RetryCommitted(c, s, a, ack))
  {
    var g, s' := s.agents[a], RetryCommitted(c, s, a, ack);
    AgentIsOk(c, s, a);
    ParkedBase(c, s, a, g.rest);
    CountedRows(s.db.events, s.db.nextId, s.log, s.done, g.id, g.count);
    hide RowsOk, RequestsOk, AgentOk, Exclusive;
    forall b | b in s.agents && b != a ensures AgentOk(ViewOf(c, s'), s.agents[b]) {
      OthersUncounted(c, s, a, ack, b);
    }
    RetryingIsOk(ViewOf(c, s'), g.rest);
  }

  lemma RetryingIsOk(v: View, bad: set<nat>)
    ensures AgentOk(v, Retrying(bad))
  {
  }

  // ----- failures and GC

  lemma CrashedBase(c: Config, s: State, p: nat)
    requires Base(c, s)
    ensures Base(c, Crashed(s, p))
  {
  }

  lemma CollectedBase(c: Config, s: State, cutoff: int, limit: nat, victims: set<nat>)
    requires Base(c, s) && CanCollect(s, cutoff, limit, victims)
    ensures Base(c, Collected(s, victims))
    ensures forall i :: i in victims ==>
              && i in s.db.events && i in s.done
              && s.db.events[i].processedAt.Some? && s.db.events[i].processedAt.value < cutoff
  {
    forall a | a in s.agents ensures AgentOk(ViewOf(c, Collected(s, victims)), s.agents[a]) {
      assert AgentOk(ViewOf(c, s), s.agents[a]);
      assert forall i :: i in Held(s.agents[a]) ==> i in Locked(s);
    }
  }

  // ----- the tables count each event once

  /** A score table is its starting value plus the counted events, and has a row for each of their keys. */
  ghost predicate Balanced(table: map<int, int>, base: map<int, int>, log: Log, counted: set<nat>, d: Dim) {
    && (forall k :: Get(table, k) == Get(base, k) + Sum(log, counted, Points(d, k)))
    && base.Keys <= table.Keys
    && (forall i :: i in counted ==> Readable(log, i) && Key(ScoreAt(log, i), d) in table)
  }

  /** A history table holds exactly one row per counted event, and no other row. */
  ghost predicate Recorded(rows: seq<Entry>, log: Log, counted: set<nat>, d: Dim) {
    forall e :: multiset(rows)[e] == if e.UserEntry? == d.ByUser? then Sum(log, counted, Copies(e)) else 0
  }

  ghost predicate TablesOk(c: Config, s: State) {
    && Balanced(s.db.userPoints, c.users0, s.log, ReadableIds(s.log), ByUser)
    && Balanced(s.db.guildScores, c.guilds0, s.log, s.done, ByGuild)
    && Recorded(s.db.userRows, s.log, ReadableIds(s.log), ByUser)
    && Recorded(s.db.guildRows, s.log, s.done, ByGuild)
  }

  lemma SumLogGrows(log: Log, id: nat, content: Content, t: set<nat>, m: Meter)
    requires id !in log && t <= log.Keys
    ensures Sum(log[id := content], t, m) == Sum(log, t, m)
  {
    SumSame(log, log[id := content], t, m);
  }

  lemma BalancedLogGrows(table: map<int, int>, base: map<int, int>, log: Log, counted: set<nat>, d: Dim, id: nat,
                         content: Content)
    requires Balanced(table, base, log, counted, d) && id !in log
    ensures Balanced(table, base, log[id := content], counted, d)
  {
    assert counted <= log.Keys by {
      forall i | i in counted ensures i in log { assert Readable(log, i); }
    }
    forall k ensures Get(table, k) == Get(base, k) + Sum(log[id := content], counted, Points(d, k)) {
      SumLogGrows(log, id, content, counted, Points(d, k));
    }
    forall i | i in counted
      ensures Readable(log[id := content], i) && Key(ScoreAt(log[id := content], i), d) in table
    {
      assert Readable(log, i);
    }
  }

  lemma RecordedLogGrows(rows: seq<Entry>, log: Log, counted: set<nat>, d: Dim, id: nat, content: Content)
    requires Recorded(rows, log, counted, d) && id !in log && AllReadable(log, counted)
    ensures Recorded(rows, log[id := content], counted, d)
  {
    assert counted <= log.Keys by {
      forall i | i in counted ensures i in log { assert Readable(log, i); }
    }
    forall e
      ensures multiset(rows)[e] == if e.UserEntry? == d.ByUser? then Sum(log[id := content], counted, Copies(e)) else 0
    {
      SumLogGrows(log, id, content, counted, Copies(e));
    }
  }

  /** Counting more events: their totals go to the table, their rows to the history. */
  lemma CountMore(table: map<int, int>, table': map<int, int>, base: map<int, int>, log: Log, counted: set<nat>,
                  more: set<nat>, d: Dim)
    requires Balanced(table, base, log, counted, d) && counted !! more && AllReadable(log, more)
    requires forall k :: Get(table', k) == Get(table, k) + Sum(log, more, Points(d, k))
    requires table'.Keys == table.Keys + Keys(log, more, d)
    ensures Balanced(table', base, log, counted + more, d)
  {
    forall k ensures Get(table', k) == Get(base, k) + Sum(log, counted + more, Points(d, k)) {
      SumUnion(log, counted, more, Points(d, k));
    }
  }

  lemma RecordMore(rows: seq<Entry>, log: Log, counted: set<nat>, ids: seq<nat>, d: Dim)
    requires Recorded(rows, log, counted, d) && Distinct(ids) && counted !! Elems(ids) && AllReadable(log, Elems(ids))
    ensures Recorded(rows + RowsOf(log, ids, d), log, counted + Elems(ids), d)
  {
    forall e
      ensures multiset(rows + RowsOf(log, ids, d))[e] ==
              if e.UserEntry? == d.ByUser? then Sum(log, counted + Elems(ids), Copies(e)) else 0
    {
      RowsCount(log, ids, d, e);
      SumUnion(log, counted, Elems(ids), Copies(e));
    }
  }

  lemma RequestedTables(c: Config, s: State, r: nat)
    requires Base(c, s) && TablesOk(c, s) && r in s.requests
    ensures TablesOk(c, Requested(s, r))
  {
    hide AllOk, Exclusive, RowsOf, Balanced, Recorded;
    var q := s.requests[r];
    var content := Content(RANKING_SCORE_ADDED, Marshal(q.score));
    var s' := Requested(s, r);
    BalancedLogGrows(s.db.userPoints, c.users0, s.log, ReadableIds(s.log), ByUser, q.id, content);
    BalancedLogGrows(s.db.guildScores, c.guilds0, s.log, s.done, ByGuild, q.id, content);
    RecordedLogGrows(s.db.userRows, s.log, ReadableIds(s.log), ByUser, q.id, content);
    RecordedLogGrows(s.db.guildRows, s.log, s.done, ByGuild, q.id, content);
    assert ReadableIds(s'.log) == ReadableIds(s.log) + {q.id};
    SingleEvent(s'.log, q.id);
    CountMore(s.db.userPoints, s'.db.userPoints, c.users0, s'.log, ReadableIds(s.log), {q.id}, ByUser);
    RecordMore(s.db.userRows, s'.log, ReadableIds(s.log), [q.id], ByUser);
    OneRow(s'.log, q.id, ByUser);
  }

  lemma SingleEvent(log: Log, id: nat)
    requires Readable(log, id)
    ensures forall m :: Sum(log, {id}, m) == Worth(log, id, m)
    ensures forall d :: Keys(log, {id}, d) == {Key(ScoreAt(log, id), d)}
  {
    forall m ensures Sum(log, {id}, m) == Worth(log, id, m) {
      SumRemove(log, {id}, id, m);
      assert {id} - {id} == {};
    }
    forall d ensures Keys(log, {id}, d) == {Key(ScoreAt(log, id), d)} {
      assert id in {id};
    }
  }

  lemma OneRow(log: Log, id: nat, d: Dim)
    requires Readable(log, id)
    ensures Elems([id]) == {id} && RowsOf(log, [id], d) == [EntryOf(ScoreAt(log, id), d)]
  {
    assert Elems([id]) == {id};
  }

  lemma PoisonedTables(c: Config, s: State, content: Content)
    requires Base(c, s) && TablesOk(c, s) && !Decodable(content)
    ensures TablesOk(c, Poisoned(s, content))
  {
    hide AllOk, Exclusive;
    var id := s.db.nextId;
    BalancedLogGrows(s.db.userPoints, c.users0, s.log, ReadableIds(s.log), ByUser, id, content);
    BalancedLogGrows(s.db.guildScores, c.guilds0, s.log, s.done, ByGuild, id, content);
    RecordedLogGrows(s.db.userRows, s.log, ReadableIds(s.log), ByUser, id, content);
    RecordedLogGrows(s.db.guildRows, s.log, s.done, ByGuild, id, content);
    assert ReadableIds(s.log[id := content]) == ReadableIds(s.log);
  }

  /** A copy of the log sums and lists like the log itself. */
  lemma CopySums(work: Log, log: Log, m: Meter)
    requires CopyOf(work, log)
    ensures Sum(work, work.Keys, m) == Sum(log, work.Keys, m)
  {
    forall i | i in work.Keys ensures Worth(work, i, m) == Worth(log, i, m) {
      assert Readable(log, i);
    }
    SumSame(work, log, work.Keys, m);
  }

  lemma CopyKeys(work: Log, log: Log, d: Dim)
    requires CopyOf(work, log)
    ensures Keys(work, work.Keys, d) == Keys(log, work.Keys, d)
  {
    forall i | i in work.Keys ensures Readable(work, i) && Readable(log, i) && ScoreAt(work, i) == ScoreAt(log, i) {
      assert Readable(log, i);
    }
  }

  /** What a commit writes: per guild the points of its events, per event one history row. */
  lemma CommitWrites(v: View, g: Agent)
    requires g.Open? && AgentOk(v, g) && (g.writes.Some? || g.ids == [])
    ensures var scores' := if g.writes.Some? then v.scores + g.writes.value else v.scores;
            && (forall k :: Get(scores', k) == Get(v.scores, k) + Sum(v.log, Elems(g.ids), Points(ByGuild, k)))
            && scores'.Keys == v.scores.Keys + Keys(v.log, Elems(g.ids), ByGuild)
    ensures AllReadable(v.log, Elems(g.ids)) && AllReadable(g.work, Elems(g.ids))
    ensures RowsOf(g.work, g.ids, ByGuild) == RowsOf(v.log, g.ids, ByGuild)
  {
    var scores' := if g.writes.Some? then v.scores + g.writes.value else v.scores;
    CopyKeys(g.work, v.log, ByGuild);
    forall k ensures Get(scores', k) == Get(v.scores, k) + Sum(v.log, Elems(g.ids), Points(ByGuild, k)) {
      CopySums(g.work, v.log, Points(ByGuild, k));
      if k !in Keys(v.log, g.work.Keys, ByGuild) {
        SumOutside(v.log, g.work.Keys, ByGuild, k);
      }
    }
  }

  lemma HeldUncounted(c: Config, s: State, a: Aid)
    requires Base(c, s) && a in s.agents && s.agents[a].Open?
    ensures Held(s.agents[a]) !! s.done && Elems(s.agents[a].ids) <= Held(s.agents[a])
  {
    AgentIsOk(c, s, a);
  }

  lemma CommittedTables(c: Config, s: State, a: Aid, ack: bool, now: nat)
    requires Base(c, s) && TablesOk(c, s) && CanCommit(s, a)
    ensures TablesOk(c, Committed(s, a, ack, now))
  {
    hide AllOk, Exclusive, RequestsOk, Mark, Balanced, Recorded, RowsOf, Keys, Readable;
    var g, v := s.agents[a], ViewOf(c, s);
    AgentIsOk(c, s, a);
    CommitWrites(v, g);
    HeldUncounted(c, s, a);
    CountMore(s.db.guildScores, CommittedDb(s.db, g, now).guildScores, c.guilds0, s.log, s.done, Elems(g.ids), ByGuild);
    RecordMore(s.db.guildRows, s.log, s.done, g.ids, ByGuild);
  }

  lemma InitialMySql(c: Config, s: State)
    requires Initial(c, s)
    ensures Base(c, s) && TablesOk(c, s)
  {
    forall k, d ensures Sum(s.log, {}, Points(d, k)) == 0 {
    }
  }

  /** Steps that only move one agent on and leave the tables alone. */
  predicate OnlyAgents(step: Step) {
    || step.BatchList? || step.Claim? || step.AddScores? || step.Rollback? || step.Reflect? || step.RetryUpdate?
    || step.RetryCommit? || step.RetryAbort? || step.RetryGiveUp? || step.Crash?
  }

  lemma AgentKeepsMySql(c: Config, s: State, step: Step)
    requires Base(c, s) && TablesOk(c, s) && Enabled(c, s, step) && OnlyAgents(step)
    ensures Base(c, Next(c, s, step)) && TablesOk(c, Next(c, s, step))
  {
    hide RowsOk, RequestsOk, AllOk, Exclusive, Balanced, Recorded, OpenOn, Park, Locked, ListPending;
    match step
    case BatchList(p) => BatchOpenedBase(c, s, p);
    case Claim(a, id) => ClaimedBase(c, s, a, id);
    case AddScores(a) => AddedBase(c, s, a);
    case Rollback(a, failed) =>
      ParkedBase(c, s, a, if failed then Held(s.agents[a]) else {});
      ParkEmpty(s.agents, a);
    case Reflect(a, userHits, guildHits) => ParkedBase(c, s, a, s.agents[a].bad);
    case RetryUpdate(a, id) => RetryUpdatedBase(c, s, a, id);
    case RetryCommit(a, ack) => RetryCommittedBase(c, s, a, ack);
    case RetryAbort(a) => ParkedBase(c, s, a, s.agents[a].rest);
    case RetryGiveUp(a, id) => ParkedBase(c, s, a, s.agents[a].bad - {id});
    case Crash(p) => CrashedBase(c, s, p);
  }

  lemma OtherKeepsMySql(c: Config, s: State, step: Step)
    requires Base(c, s) && TablesOk(c, s) && Enabled(c, s, step) && !OnlyAgents(step)
    ensures Base(c, Next(c, s, step)) && TablesOk(c, Next(c, s, step))
  {
    hide RowsOk, RequestsOk, AllOk, Exclusive, Balanced, Recorded, OpenOn, Park;
    match step
    case ReqPrepare(r, score) => PreparedBase(c, s, r, score);
    case ReqCommit(r) => RequestedBase(c, s, r); RequestedTables(c, s, r);
    case ReqAbort(r) => AbortedBase(c, s, r);
    case PoisonInsert(content) => PoisonedBase(c, s, content); PoisonedTables(c, s, content);
    case Commit(a, ack, now) => CommittedBase(c, s, a, ack, now); CommittedTables(c, s, a, ack, now);
    case Collect(cutoff, limit, victims) => CollectedBase(c, s, cutoff, limit, victims);
    case _ =>
  }

  /** Base and TablesOk survive every step. */
  lemma StepKeepsMySql(c: Config, s: State, step: Step)
    requires Base(c, s) && TablesOk(c, s) && Enabled(c, s, step)
    ensures Base(c, Next(c, s, step)) && TablesOk(c, Next(c, s, step))
  {
    hide Base, TablesOk, Enabled, Next;
    if OnlyAgents(step) {
      AgentKeepsMySql(c, s, step);
    } else {
      OtherKeepsMySql(c, s, step);
    }
  }

  lemma ParkEmpty(agents: map<Aid, Agent>, a: Aid)
    ensures Park(agents, a, {}) == agents - {a}
  {
  }

  lemma AbortedBase(c: Config, s: State, r: nat)
    requires Base(c, s) && r in s.requests
    ensures Base(c, s.(requests := s.requests - {r}))
  {
  }
}
