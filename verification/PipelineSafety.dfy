/** What holds in every reachable state of the pipeline, and over every run. */
module PipelineSafety {
  import opened Domain
  import opened Tally
  import opened Tables
  import opened Pipeline
  import opened PipelineTables
  import opened PipelineRedis
  import opened PipelineRetry

  ghost predicate Inv(c: Config, s: State) {
    Base(c, s) && TablesOk(c, s) && RedisOk(c, s) && RetryOk(c, s)
  }

  lemma InitialInv(c: Config, s: State)
    requires Initial(c, s)
    ensures Inv(c, s)
  {
    InitialMySql(c, s);
    InitialRedis(c, s);
  }

  lemma StepKeepsInv(c: Config, s: State, step: Step)
    requires Inv(c, s) && Enabled(c, s, step)
    ensures Inv(c, Next(c, s, step))
  {
    hide Base, TablesOk, RedisOk, RetryOk, Enabled, Next;
    StepKeepsMySql(c, s, step);
    StepKeepsRedis(c, s, step);
    StepKeepsRetry(c, s, step);
  }

  lemma {:induction false} RunKeepsInv(c: Config, states: seq<State>, steps: seq<Step>, n: nat)
    requires IsRun(c, states, steps) && n <= |steps|
    ensures Inv(c, states[n])
  {
    hide Inv, Enabled, Next, Initial;
    if n == 0 {
      InitialInv(c, states[0]);
    } else {
      RunKeepsInv(c, states, steps, n - 1);
      StepKeepsInv(c, states[n - 1], steps[n - 1]);
    }
  }

  lemma ReachableInv(c: Config, s: State)
    requires Reachable(c, s)
    ensures Inv(c, s)
  {
    hide Inv, Enabled, Next, Initial;
    var states, steps :| IsRun(c, states, steps) && states[|steps|] == s;
    RunKeepsInv(c, states, steps, |steps|);
  }

  // ----- exactly once in MySQL

  /** guild_scores and its history hold each processed event once, and nothing else. */
  lemma ExactlyOnce(c: Config, s: State)
    requires Reachable(c, s)
    ensures forall g :: Get(s.db.guildScores, g) == Get(c.guilds0, g) + Sum(s.log, s.done, Points(ByGuild, g))
    ensures forall e :: multiset(s.db.guildRows)[e] == if e.GuildEntry? then Sum(s.log, s.done, Copies(e)) else 0
    ensures forall i :: i in s.db.events ==> (s.db.events[i].processedAt.Some? <==> i in s.done)
    ensures forall i :: i in s.log && i !in s.db.events ==> i in s.done
    ensures forall i :: i in s.done ==> Readable(s.log, i)
  {
    hide Sum, Readable;
    ReachableInv(c, s);
  }

  /** Processed events that no goroutine will send to Redis any more. */
  function Landed(s: State): set<nat> {
    s.done - InFlight(s.agents)
  }

  /** A step marks exactly what its commit applies. */
  lemma DoneGrows(c: Config, s: State, step: Step)
    requires Enabled(c, s, step)
    ensures Next(c, s, step).done == s.done + Applied(s, step)
  {
    if TouchesRedis(step) {
      hide CommittedDb, Park, Arrive, Overwrite, Forget, Get;
    } else {
      hide Enabled, Next;
      OthersLeaveRedis(c, s, step);
    }
  }

  lemma FateIsFinal(c: Config, s: State, step: Step)
    requires Inv(c, s) && Enabled(c, s, step)
    ensures s.done + Applied(s, step) <= Next(c, s, step).done
    ensures Landed(s) + Sent(s, step) <= Landed(Next(c, s, step))
  {
    assert Base(c, s) && WorksApart(s.agents);
    SentFlies(s, step);
    hide Inv, Enabled, Next, Base, WorksApart, Applied, Sent, InFlight;
    DoneGrows(c, s, step);
    FlownDone(c, s);
    StepKeepsFlight(c, s, step);
  }

  lemma SentFlies(s: State, step: Step)
    ensures Sent(s, step) <= InFlight(s.agents)
  {
  }

  lemma {:induction false} FateLasts(c: Config, states: seq<State>, steps: seq<Step>, m: nat, n: nat)
    requires IsRun(c, states, steps) && m <= n <= |steps|
    ensures states[m].done <= states[n].done && Landed(states[m]) <= Landed(states[n])
    decreases n - m
  {
    hide Inv, Enabled, Next, Initial, Landed;
    if m < n {
      RunKeepsInv(c, states, steps, n - 1);
      FateIsFinal(c, states[n - 1], steps[n - 1]);
      FateLasts(c, states, steps, m, n - 1);
    }
  }

  /** Over a whole run, one commit applies an event: two commits that do are the same step. */
  lemma AppliedByOneCommit(c: Config, states: seq<State>, steps: seq<Step>, m: nat, n: nat, i: nat)
    requires IsRun(c, states, steps) && m <= n < |steps|
    requires i in Applied(states[m], steps[m]) && i in Applied(states[n], steps[n])
    ensures m == n
  {
    hide Enabled, Next, Initial;
    RunKeepsInv(c, states, steps, n);
    HeldUncounted(c, states[n], steps[n].a);
    if m < n {
      RunKeepsInv(c, states, steps, m);
      hide Inv;
      FateIsFinal(c, states[m], steps[m]);
      FateLasts(c, states, steps, m + 1, n);
    }
  }

  /** Over a whole run, an event is sent to Redis at most once, and not before it is committed. */
  lemma SentOnceAfterCommit(c: Config, states: seq<State>, steps: seq<Step>, m: nat, n: nat, i: nat)
    requires IsRun(c, states, steps) && m <= n < |steps| && i in Sent(states[n], steps[n])
    ensures i in states[n].done
    ensures i in Sent(states[m], steps[m]) ==> m == n
  {
    hide Enabled, Next, Initial;
    RunKeepsInv(c, states, steps, n);
    FlownDone(c, states[n]);
    assert i in InFlight(states[n].agents) && i !in Landed(states[n]);
    if m < n && i in Sent(states[m], steps[m]) {
      RunKeepsInv(c, states, steps, m);
      hide Inv;
      FateIsFinal(c, states[m], steps[m]);
      FateLasts(c, states, steps, m + 1, n);
    }
  }

  // ----- conservation

  /** The rows that still wait for a worker, or wait in vain. */
  function Unprocessed(events: map<nat, Row>): set<nat> {
    set i | i in events && events[i].processedAt.None?
  }

  /** The points of a history row, if it is of that user or guild, and for a guild of that member if one is named. */
  function RowPoints(e: Entry, d: Dim, k: int, member: Option<int>): int {
    match e
    case UserEntry(user, points) =>
      if d.ByUser? && user == k && (member.None? || member.value == user) then points else 0
    case GuildEntry(guild, user, points) =>
      if d.ByGuild? && guild == k && (member.None? || member.value == user) then points else 0
  }

  function RowSum(rows: seq<Entry>, d: Dim, k: int, member: Option<int>): int {
    if rows == [] then 0
    else RowSum(rows[..|rows| - 1], d, k, member) + RowPoints(rows[|rows| - 1], d, k, member)
  }

  /** The events of one user, or all. */
  function EventsBy(log: Log, counted: set<nat>, member: Option<int>): set<nat> {
    set i | i in counted && Readable(log, i) && (member.None? || ScoreAt(log, i).user == member.value)
  }

  lemma EventsByRemove(log: Log, counted: set<nat>, member: Option<int>, i: nat, m: Meter)
    requires i in counted && AllReadable(log, counted)
    ensures Sum(log, EventsBy(log, counted, member), m) == Sum(log, EventsBy(log, counted - {i}, member), m)
            + if member.None? || ScoreAt(log, i).user == member.value then Worth(log, i, m) else 0
  {
    if member.None? || ScoreAt(log, i).user == member.value {
      SumRemove(log, EventsBy(log, counted, member), i, m);
      assert EventsBy(log, counted, member) - {i} == EventsBy(log, counted - {i}, member);
    } else {
      assert EventsBy(log, counted, member) == EventsBy(log, counted - {i}, member);
    }
  }

  /** A history that records each event once adds up to what the events are worth, per member too. */
  lemma {:induction false} HistoryAddsUp(rows: seq<Entry>, log: Log, counted: set<nat>, d: Dim, k: int,
                                         member: Option<int>)
    requires Recorded(rows, log, counted, d) && AllReadable(log, counted)
    ensures RowSum(rows, d, k, member) == Sum(log, EventsBy(log, counted, member), Points(d, k))
    decreases |rows|
  {
    if rows == [] {
      if i :| i in counted {
        var e := EntryOf(ScoreAt(log, i), d);
        assert multiset(rows)[e] == 0;
        SumRemove(log, counted, i, Copies(e));
        SumNonNegative(log, counted - {i}, Copies(e));
      }
    } else {
      var front, e := rows[..|rows| - 1], rows[|rows| - 1];
      assert rows == front + [e];
      var i := SomeEvent(rows, log, counted, d, e);
      forall e': Entry
        ensures multiset(front)[e'] ==
                  if e'.UserEntry? == d.ByUser? then Sum(log, counted - {i}, Copies(e')) else 0
      {
        SumRemove(log, counted, i, Copies(e'));
        assert multiset(rows)[e'] == multiset(front)[e'] + multiset([e])[e'];
      }
      HistoryAddsUp(front, log, counted - {i}, d, k, member);
      EventsByRemove(log, counted, member, i, Points(d, k));
    }
  }

  lemma SomeEvent(rows: seq<Entry>, log: Log, counted: set<nat>, d: Dim, e: Entry) returns (i: nat)
    requires Recorded(rows, log, counted, d) && AllReadable(log, counted) && e in rows
    ensures i in counted && EntryOf(ScoreAt(log, i), d) == e
  {
    assert multiset(rows)[e] > 0;
    if forall j :: j in counted ==> Worth(log, j, Copies(e)) == 0 {
      SumZero(log, counted, Copies(e));
      assert false;
    }
    i :| i in counted && Worth(log, i, Copies(e)) != 0;
  }

  lemma EventsByAll(log: Log, counted: set<nat>)
    requires AllReadable(log, counted)
    ensures EventsBy(log, counted, None) == counted
  {
  }

  /**
   * The guild history accounts for the guild's score: its rows add up to what the score has gained, and
   * the rows of one user to that user's processed events for the guild.
   */
  lemma GuildHistoryAddsUp(c: Config, s: State, guild: int, user: int)
    requires Reachable(c, s)
    ensures Get(s.db.guildScores, guild) == Get(c.guilds0, guild) + RowSum(s.db.guildRows, ByGuild, guild, None)
    ensures RowSum(s.db.guildRows, ByGuild, guild, None) == Sum(s.log, s.done, Points(ByGuild, guild))
    ensures RowSum(s.db.guildRows, ByGuild, guild, Some(user))
            == Sum(s.log, EventsBy(s.log, s.done, Some(user)), Points(ByGuild, guild))
  {
    ReachableInv(c, s);
    hide RedisOk, RetryOk, AllOk, Exclusive, RequestsOk, Sum;
    HistoryAddsUp(s.db.guildRows, s.log, s.done, ByGuild, guild, None);
    HistoryAddsUp(s.db.guildRows, s.log, s.done, ByGuild, guild, Some(user));
    EventsByAll(s.log, s.done);
  }

  /** Points are neither made nor lost between request, worker and GC. */
  lemma Conservation(c: Config, s: State, user: int, guild: int)
    requires Reachable(c, s)
    ensures Get(s.db.userPoints, user) == Get(c.users0, user) + RowSum(s.db.userRows, ByUser, user, None)
    ensures Get(s.db.userPoints, user) == Get(c.users0, user) + Sum(s.log, ReadableIds(s.log), Points(ByUser, user))
    ensures Get(s.db.guildScores, guild) + Sum(s.log, Unprocessed(s.db.events), Points(ByGuild, guild))
            == Get(c.guilds0, guild) + Sum(s.log, ReadableIds(s.log), Points(ByGuild, guild))
  {
    ReachableInv(c, s);
    hide RedisOk, RetryOk, AllOk, Exclusive, RequestsOk;
    HistoryAddsUp(s.db.userRows, s.log, ReadableIds(s.log), ByUser, user, None);
    EventsByAll(s.log, ReadableIds(s.log));
    var waiting := Unprocessed(s.db.events);
    SumUnion(s.log, s.done, waiting, Points(ByGuild, guild));
    SumAgree(s.log, s.done + waiting, ReadableIds(s.log), Points(ByGuild, guild));
  }

  // ----- Redis

  /** Processed events whose increment is in no score and never will be. */
  function Lost(s: State, d: Dim): set<nat> {
    s.done - LedgerOf(s, d).settled - LedgerOf(s, d).reflected - InFlight(s.agents)
  }

  /** A score is what was last SET plus each reflected event once. */
  lemma RedisCountsOnce(c: Config, s: State, d: Dim, k: int)
    requires Reachable(c, s)
    ensures var l := LedgerOf(s, d);
            && Get(l.z, k) == Get(l.base, k) + Sum(s.log, l.reflected, Points(d, k))
            && Get(l.base, k) == Ground(l, Base0(c, d), k) + Sum(s.log, l.settled, Points(d, k))
            && l.reflected <= s.done && l.settled <= Counted(s, d) && l.reflected !! InFlight(s.agents)
  {
    ReachableInv(c, s);
    hide Sum, InFlight;
  }

  lemma PointsNonNegative(c: Config, s: State, t: set<nat>, d: Dim, k: int)
    requires Base(c, s)
    ensures 0 <= Sum(s.log, t, Points(d, k))
  {
    SumNonNegative(s.log, t, Points(d, k));
  }

  /** Two sets, and what is left of a third that holds both. */
  lemma Overlap(log: Log, a: set<nat>, b: set<nat>, all: set<nat>, m: Meter)
    requires a <= all && b <= all
    ensures Sum(log, a, m) + Sum(log, b, m) - Sum(log, all, m) == Sum(log, a * b, m) - Sum(log, all - a - b, m)
  {
    SumUnion(log, a - b, a * b, m);
    SumUnion(log, a - b, b, m);
    SumUnion(log, a + b, all - a - b, m);
    assert a == (a - b) + a * b && a + b == (a - b) + b && all == (a + b) + (all - a - b);
  }

  lemma LedgerFacts(c: Config, s: State, d: Dim)
    requires Inv(c, s)
    ensures Balanced(TableOf(s, d), Base0(c, d), s.log, Counted(s, d), d) && s.done <= Counted(s, d)
    ensures LedgerOk(c, s, d) && InFlight(s.agents) <= s.done && Base(c, s)
  {
    hide Balanced, LedgerOk, InFlight;
    FlownDone(c, s);
  }

  /**
   * By how much Redis and MySQL differ, in every reachable state: the events in a score twice, less those
   * in neither way, less a starting value never SET.  The events in neither way are in flight, not yet
   * processed, or lost; and a sentinel that no flush undermined means that every starting value is there.
   */
  lemma RedisAgainstMySql(c: Config, s: State, d: Dim, k: int)
    requires Reachable(c, s)
    ensures var l := LedgerOf(s, d);
            var twice, missing := l.settled * l.reflected, Counted(s, d) - l.settled - l.reflected;
            && Get(l.z, k) - Get(TableOf(s, d), k)
               == Sum(s.log, twice, Points(d, k)) - Sum(s.log, missing, Points(d, k))
                  - (if k in l.grounded then 0 else Get(Base0(c, d), k))
            && 0 <= Sum(s.log, twice, Points(d, k)) && 0 <= Sum(s.log, missing, Points(d, k))
            && missing == (InFlight(s.agents) - l.settled) + (Counted(s, d) - s.done - l.settled) + Lost(s, d)
    ensures s.sentinel && !s.hollow && k in Base0(c, d) ==> k in LedgerOf(s, d).grounded
  {
    hide Inv, TablesOk, RedisOk, RetryOk, Base, InFlight, Reachable, SyncsOk;
    ReachableInv(c, s);
    LedgerFacts(c, s, d);
    var l := LedgerOf(s, d);
    Overlap(s.log, l.settled, l.reflected, Counted(s, d), Points(d, k));
    PointsNonNegative(c, s, l.settled * l.reflected, d, k);
    PointsNonNegative(c, s, Counted(s, d) - l.settled - l.reflected, d, k);
  }

  // ----- retries

  /** W processes push a count at most W - 1 past the limit; a report is made once, at the limit. */
  lemma RetriesBounded(c: Config, s: State, i: nat)
    requires Reachable(c, s) && i in s.db.events
    ensures s.db.events[i].retry <= c.maxRetry - 1 + c.procs
    ensures c.procs <= 1 ==> s.db.events[i].retry <= c.maxRetry
  {
    hide Base, TablesOk, RedisOk;
    ReachableInv(c, s);
  }

  lemma DeadLetteredOnce(c: Config, s: State, i: nat)
    requires Reachable(c, s)
    ensures s.reports[i] <= 1 && (i in s.reports ==> i !in s.unheard)
    ensures i in s.db.events ==> (s.db.events[i].retry >= c.maxRetry <==> i in s.reports || i in s.unheard)
  {
    hide Base, TablesOk, RedisOk;
    ReachableInv(c, s);
  }

  // ----- requests

  /** The totals AddUserPoints answers are the committed ones, before and after. */
  lemma AnswerIsCommitted(c: Config, s: State, r: nat)
    requires Reachable(c, s) && r in s.requests
    ensures var q, s' := s.requests[r], Requested(s, r);
            && Get(s'.db.userPoints, q.score.user) == q.total
            && Get(s.db.userPoints, q.score.user) == q.total - q.score.points
            && q.id !in s.db.events && Decode(s'.db.events[q.id].content) == Ok(q.score)
  {
    hide TablesOk, RedisOk, RetryOk, AllOk, Exclusive;
    ReachableInv(c, s);
  }
}
