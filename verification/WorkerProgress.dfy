/** How far a drain has come: a potential that every listed event lowers, and what may have changed. */
module WorkerProgress {
  import opened Domain
  import opened Tally
  import opened Tables
  import opened BatchWork
  import opened Worker

  /** Failures the row may still record before it leaves the window. */
  function Weight(row: Row, maxRetry: nat): nat {
    if row.processedAt.None? && row.retry < maxRetry then maxRetry - row.retry else 0
  }

  function Potential(events: map<nat, Row>, maxRetry: nat, hi: nat): nat {
    if hi == 0 then 0
    else Potential(events, maxRetry, hi - 1) + if hi - 1 in events then Weight(events[hi - 1], maxRetry) else 0
  }

  ghost predicate Valid(st: Store) {
    forall i :: i in st.db.events ==> i < st.db.nextId
  }

  function Left(c: Setup, st: Store): nat {
    Potential(st.db.events, c.maxRetry, st.db.nextId)
  }

  lemma {:induction false} PotentialOne(events: map<nat, Row>, id: nat, row: Row, maxRetry: nat, hi: nat)
    requires id in events
    ensures Potential(events[id := row], maxRetry, hi) + (if id < hi then Weight(events[id], maxRetry) else 0)
            == Potential(events, maxRetry, hi) + if id < hi then Weight(row, maxRetry) else 0
  {
    if hi != 0 {
      PotentialOne(events, id, row, maxRetry, hi - 1);
    }
  }

  /** Every listed event lowers the potential, whatever becomes of it. */
  lemma {:induction false} PotentialFalls(c: Setup, st: Store, ids: seq<nat>, now: nat)
    requires Valid(st) && Distinct(ids)
    requires forall i :: i in ids ==> i in st.db.events && Eligible(st.db.events, i, c.maxRetry)
    ensures Valid(AfterEach(c, st, ids, now)) && Left(c, AfterEach(c, st, ids, now)) + |ids| <= Left(c, st)
    ensures AfterEach(c, st, ids, now).db.nextId == st.db.nextId
  {
    if ids != [] {
      var front, last := ids[..|ids| - 1], ids[|ids| - 1];
      assert ids == front + [last];
      DistinctSnoc(front, last);
      PotentialFalls(c, st, front, now);
      var mid := AfterEach(c, st, front, now);
      PotentialOne(mid.db.events, last, AfterOne(c, mid, last, now).db.events[last], c.maxRetry, st.db.nextId);
    }
  }

  lemma {:induction false} NothingLeft(c: Setup, st: Store, hi: nat)
    ensures Potential(st.db.events, c.maxRetry, hi) == 0 ==>
              forall i: nat :: i < hi ==> !Eligible(st.db.events, i, c.maxRetry)
  {
    if hi != 0 {
      NothingLeft(c, st, hi - 1);
    }
  }

  // ----- what a drain may have done

  function LogOf(events: map<nat, Row>): Log {
    map i | i in events :: events[i].content
  }

  /** Events processed between two states. */
  function Newly(a: map<nat, Row>, b: map<nat, Row>): set<nat> {
    set i | i in a && i in b && a[i].processedAt.None? && b[i].processedAt.Some?
  }

  /** A row that applies is untouched or processed without ever failing; any other only fails, up to maxRetry. */
  ghost predicate RowWorked(c: Setup, a: Row, b: Row) {
    && b.content == a.content
    && (a.processedAt.Some? || Applies(c, a.content) ==> b.retry == a.retry)
    && (a.processedAt.Some? ==> b == a)
    && (!Applies(c, a.content) ==> b.processedAt == a.processedAt && a.retry <= b.retry)
    && (a.retry < b.retry ==> b.retry <= c.maxRetry)
  }

  ghost predicate RowsWorked(c: Setup, a: map<nat, Row>, b: map<nat, Row>) {
    a.Keys == b.Keys && forall i :: i in a ==> RowWorked(c, a[i], b[i])
  }

  /** The tables and the ZSets moved by the newly processed events, each once. */
  ghost predicate TotalsWorked(a: Store, b: Store) {
    var log, more := LogOf(a.db.events), Newly(a.db.events, b.db.events);
    && (forall k :: Get(b.db.guildScores, k) == Get(a.db.guildScores, k) + Sum(log, more, Points(ByGuild, k)))
    && (forall k :: Get(b.guildZ, k) == Get(a.guildZ, k) + Sum(log, more, Points(ByGuild, k)))
    && (forall k :: Get(b.userZ, k) == Get(a.userZ, k) + Sum(log, more, Points(ByUser, k)))
    && (forall e :: multiset(b.db.guildRows)[e] == multiset(a.db.guildRows)[e]
                + if e.GuildEntry? then Sum(log, more, Copies(e)) else 0)
  }

  /** An event is reported dead exactly when its count crosses maxRetry. */
  ghost predicate ReportsWorked(c: Setup, a: Store, b: Store) {
    forall i :: i in a.db.events && i in b.db.events ==>
      multiset(b.dead)[i] == multiset(a.dead)[i]
        + if a.db.events[i].retry < c.maxRetry <= b.db.events[i].retry then 1 else 0
  }

  ghost predicate Worked(c: Setup, a: Store, b: Store) {
    && a.db.nextId == b.db.nextId && a.db.userPoints == b.db.userPoints && a.db.userRows == b.db.userRows
    && RowsWorked(c, a.db.events, b.db.events) && TotalsWorked(a, b) && ReportsWorked(c, a, b)
  }

  lemma WorkedNothing(c: Setup, a: Store)
    ensures Worked(c, a, a)
  {
    assert Newly(a.db.events, a.db.events) == {};
  }

  lemma SameLog(c: Setup, a: map<nat, Row>, b: map<nat, Row>)
    requires RowsWorked(c, a, b)
    ensures LogOf(a) == LogOf(b)
  {
    forall i | i in a ensures LogOf(a)[i] == LogOf(b)[i] {
      assert RowWorked(c, a[i], b[i]);
    }
  }

  lemma RowsTwice(c: Setup, a: map<nat, Row>, b: map<nat, Row>, d: map<nat, Row>)
    requires RowsWorked(c, a, b) && RowsWorked(c, b, d)
    ensures RowsWorked(c, a, d)
    ensures Newly(a, d) == Newly(a, b) + Newly(b, d) && Newly(a, b) !! Newly(b, d)
  {
    forall i | i in a ensures RowWorked(c, a[i], d[i]) && (i in Newly(a, d) <==> i in Newly(a, b) || i in Newly(b, d)) {
      assert RowWorked(c, a[i], b[i]) && RowWorked(c, b[i], d[i]);
    }
    forall i | i in Newly(a, b) ensures i !in Newly(b, d) {
    }
  }

  lemma WorkedTwice(c: Setup, a: Store, b: Store, d: Store)
    requires Worked(c, a, b) && Worked(c, b, d)
    ensures Worked(c, a, d)
  {
    RowsTwice(c, a.db.events, b.db.events, d.db.events);
    SameLog(c, a.db.events, b.db.events);
    var log, m, n := LogOf(a.db.events), Newly(a.db.events, b.db.events), Newly(b.db.events, d.db.events);
    TotalsTwice(a, b, d);
    ReportsTwice(c, a, b, d);
  }

  lemma TotalsTwice(a: Store, b: Store, d: Store)
    requires TotalsWorked(a, b) && TotalsWorked(b, d) && LogOf(a.db.events) == LogOf(b.db.events)
    requires Newly(a.db.events, d.db.events) == Newly(a.db.events, b.db.events) + Newly(b.db.events, d.db.events)
    requires Newly(a.db.events, b.db.events) !! Newly(b.db.events, d.db.events)
    ensures TotalsWorked(a, d)
  {
    hide Newly, LogOf;
    var log, m, n := LogOf(a.db.events), Newly(a.db.events, b.db.events), Newly(b.db.events, d.db.events);
    forall meter ensures Sum(log, m + n, meter) == Sum(log, m, meter) + Sum(log, n, meter) {
      SumUnion(log, m, n, meter);
    }
  }

  lemma ReportsTwice(c: Setup, a: Store, b: Store, d: Store)
    requires ReportsWorked(c, a, b) && ReportsWorked(c, b, d)
    requires RowsWorked(c, a.db.events, b.db.events) && RowsWorked(c, b.db.events, d.db.events)
    ensures ReportsWorked(c, a, d)
  {
    forall i | i in a.db.events
      ensures multiset(d.dead)[i] == multiset(a.dead)[i]
              + if a.db.events[i].retry < c.maxRetry <= d.db.events[i].retry then 1 else 0
    {
      assert RowWorked(c, a.db.events[i], b.db.events[i]) && RowWorked(c, b.db.events[i], d.db.events[i]);
    }
  }

  lemma WorkedApply(c: Setup, st: Store, id: nat, now: nat)
    requires Eligible(st.db.events, id, c.maxRetry) && Applies(c, st.db.events[id].content)
    ensures Worked(c, st, AfterApply(st, id, now))
  {
    hide TotalsWorked;
    var st' := AfterApply(st, id, now);
    ApplyTotals(st, id, now);
    assert RowsWorked(c, st.db.events, st'.db.events);
    assert ReportsWorked(c, st, st');
  }

  lemma ApplyTotals(st: Store, id: nat, now: nat)
    requires id in st.db.events && Decodable(st.db.events[id].content) && st.db.events[id].processedAt.None?
    ensures TotalsWorked(st, AfterApply(st, id, now))
  {
    var st', log := AfterApply(st, id, now), LogOf(st.db.events);
    assert Newly(st.db.events, st'.db.events) == {id};
    forall m ensures Sum(log, {id}, m) == Worth(log, id, m) {
      SumRemove(log, {id}, id, m);
      assert {id} - {id} == {};
    }
  }

  lemma WorkedRetry(c: Setup, st: Store, id: nat)
    requires Eligible(st.db.events, id, c.maxRetry) && !Applies(c, st.db.events[id].content)
    ensures Worked(c, st, AfterRetry(c, st, id))
  {
    var st' := AfterRetry(c, st, id);
    assert Newly(st.db.events, st'.db.events) == {};
    assert RowsWorked(c, st.db.events, st'.db.events);
    assert ReportsWorked(c, st, st');
  }

  lemma {:induction false} WorkedEach(c: Setup, st: Store, ids: seq<nat>, now: nat)
    requires Distinct(ids) && forall i :: i in ids ==> i in st.db.events && Eligible(st.db.events, i, c.maxRetry)
    ensures Worked(c, st, AfterEach(c, st, ids, now))
    ensures forall i :: i in ids && Applies(c, st.db.events[i].content) ==>
              AfterEach(c, st, ids, now).db.events[i].processedAt.Some?
  {
    hide Worked, AfterApply, AfterRetry;
    if ids == [] {
      WorkedNothing(c, st);
    } else {
      var front, last := ids[..|ids| - 1], ids[|ids| - 1];
      assert ids == front + [last];
      DistinctSnoc(front, last);
      WorkedEach(c, st, front, now);
      var mid := AfterEach(c, st, front, now);
      if Applies(c, mid.db.events[last].content) {
        WorkedApply(c, mid, last, now);
        ApplyMarks(mid, last, now);
      } else {
        WorkedRetry(c, mid, last);
      }
      WorkedTwice(c, st, mid, AfterEach(c, st, ids, now));
    }
  }

  lemma ApplyMarks(st: Store, id: nat, now: nat)
    requires id in st.db.events && Decodable(st.db.events[id].content)
    ensures AfterApply(st, id, now).db.events[id].processedAt.Some?
  {
  }

  lemma {:induction false} SomethingLeft(events: map<nat, Row>, maxRetry: nat, hi: nat)
    requires forall i: nat :: i < hi ==> !Eligible(events, i, maxRetry)
    ensures Potential(events, maxRetry, hi) == 0
  {
    if hi != 0 {
      SomethingLeft(events, maxRetry, hi - 1);
      assert !Eligible(events, hi - 1, maxRetry);
    }
  }

  /** How many of the listed events apply. */
  function CountFine(c: Setup, events: map<nat, Row>, ids: seq<nat>): nat
    requires forall i :: i in ids ==> i in events
  {
    if ids == [] then 0
    else CountFine(c, events, ids[..|ids| - 1]) + if Applies(c, events[ids[|ids| - 1]].content) then 1 else 0
  }

  lemma CountFineSnoc(c: Setup, events: map<nat, Row>, ids: seq<nat>, id: nat)
    requires id in events && forall i :: i in ids ==> i in events
    ensures CountFine(c, events, ids + [id])
            == CountFine(c, events, ids) + if Applies(c, events[id].content) then 1 else 0
  {
    assert (ids + [id])[..|ids|] == ids;
  }

  lemma {:induction false} NoneFine(c: Setup, events: map<nat, Row>, ids: seq<nat>)
    requires forall i :: i in ids ==> i in events
    ensures CountFine(c, events, ids) == 0 <==> forall i :: i in ids ==> !Applies(c, events[i].content)
  {
    if ids != [] {
      var front, last := ids[..|ids| - 1], ids[|ids| - 1];
      assert ids == front + [last];
      NoneFine(c, events, front);
    }
  }

  /** A window shorter than the limit is everything that is eligible. */
  lemma CaughtUp(c: Setup, a: Store, b: Store, now: nat)
    requires Valid(b) && Worked(c, a, b) && |Window(c, b)| < c.batchSize
    ensures var d := AfterEach(c, b, Window(c, b), now);
            forall i :: Eligible(a.db.events, i, c.maxRetry) && Applies(c, a.db.events[i].content)
                        ==> i in d.db.events && d.db.events[i].processedAt.Some?
  {
    hide TotalsWorked, ReportsWorked, AfterEach;
    var w, d := Window(c, b), AfterEach(c, b, Window(c, b), now);
    WorkedEach(c, b, w, now);
    forall i | Eligible(a.db.events, i, c.maxRetry) && Applies(c, a.db.events[i].content)
      ensures i in d.db.events && d.db.events[i].processedAt.Some?
    {
      assert RowWorked(c, a.db.events[i], b.db.events[i]) && RowWorked(c, b.db.events[i], d.db.events[i]);
      if b.db.events[i].processedAt.None? {
        assert Eligible(b.db.events, i, c.maxRetry);
        assert i in w;
      }
    }
  }

  /** Nothing is left to try: what applies is processed, what does not has used up its retries. */
  ghost predicate Settled(c: Setup, a: Store, b: Store) {
    forall i :: Eligible(a.db.events, i, c.maxRetry) ==>
      && i in b.db.events
      && (if Applies(c, a.db.events[i].content) then b.db.events[i].processedAt.Some?
          else b.db.events[i].processedAt.None? && b.db.events[i].retry == c.maxRetry)
  }

  lemma NothingEligibleSettles(c: Setup, a: Store, b: Store)
    requires Valid(b) && Worked(c, a, b) && Left(c, b) == 0
    ensures Settled(c, a, b)
  {
    NothingLeft(c, b, b.db.nextId);
    hide TotalsWorked, ReportsWorked;
    forall i | Eligible(a.db.events, i, c.maxRetry)
      ensures i in b.db.events && !Eligible(b.db.events, i, c.maxRetry) && RowWorked(c, a.db.events[i], b.db.events[i])
    {
    }
  }

  // ----- what a drain costs

  /** The failures recorded between two states, over the rows below hi. */
  function Failures(a: map<nat, Row>, b: map<nat, Row>, hi: nat): int {
    if hi == 0 then 0
    else Failures(a, b, hi - 1) + if hi - 1 in a && hi - 1 in b then b[hi - 1].retry - a[hi - 1].retry else 0
  }

  lemma {:induction false} FailuresAdd(a: map<nat, Row>, b: map<nat, Row>, d: map<nat, Row>, hi: nat)
    requires a.Keys == b.Keys == d.Keys
    ensures Failures(a, d, hi) == Failures(a, b, hi) + Failures(b, d, hi)
  {
    if hi != 0 {
      FailuresAdd(a, b, d, hi - 1);
    }
  }

  lemma {:induction false} FailuresOfOne(a: map<nat, Row>, id: nat, row: Row, hi: nat)
    requires id in a && id < hi
    ensures Failures(a, a[id := row], hi) == row.retry - a[id].retry
  {
    if hi - 1 == id {
      NoFailures(a, a[id := row], hi - 1);
    } else {
      FailuresOfOne(a, id, row, hi - 1);
    }
  }

  lemma {:induction false} NoFailures(a: map<nat, Row>, b: map<nat, Row>, hi: nat)
    requires forall i :: i in a && i in b && i < hi ==> a[i].retry == b[i].retry
    ensures Failures(a, b, hi) == 0
  {
    if hi != 0 {
      NoFailures(a, b, hi - 1);
    }
  }

  /** What was spent between two states: failures recorded, events processed. */
  ghost predicate Spent(a: Store, b: Store, failures: nat, processed: nat) {
    Failures(a.db.events, b.db.events, a.db.nextId) == failures && |Newly(a.db.events, b.db.events)| == processed
  }

  lemma SpentNothing(st: Store)
    ensures Spent(st, st, 0, 0)
  {
    NoFailures(st.db.events, st.db.events, st.db.nextId);
    assert Newly(st.db.events, st.db.events) == {};
  }

  lemma SpentTwice(c: Setup, a: Store, b: Store, d: Store, f: nat, p: nat, g: nat, q: nat)
    requires Worked(c, a, b) && Worked(c, b, d) && Spent(a, b, f, p) && Spent(b, d, g, q)
    ensures Spent(a, d, f + g, p + q)
  {
    hide TotalsWorked, ReportsWorked, Newly;
    RowsTwice(c, a.db.events, b.db.events, d.db.events);
    FailuresAdd(a.db.events, b.db.events, d.db.events, a.db.nextId);
  }

  lemma SpentOnOne(c: Setup, st: Store, id: nat, now: nat)
    requires Valid(st) && Eligible(st.db.events, id, c.maxRetry)
    ensures var fine := Applies(c, st.db.events[id].content);
            Spent(st, AfterOne(c, st, id, now), if fine then 0 else 1, if fine then 1 else 0)
  {
    hide AddOne;
    var st' := AfterOne(c, st, id, now);
    assert st'.db.events == st.db.events[id := st'.db.events[id]];
    FailuresOfOne(st.db.events, id, st'.db.events[id], st.db.nextId);
    assert Newly(st.db.events, st'.db.events) == if Applies(c, st.db.events[id].content) then {id} else {};
  }

  /** Each listed row was either processed or failed once. */
  ghost predicate Costed(c: Setup, st: Store, ids: seq<nat>, now: nat)
    requires forall i :: i in ids ==> i in st.db.events
  {
    var fine := CountFine(c, st.db.events, ids);
    fine <= |ids| && Spent(st, AfterEach(c, st, ids, now), |ids| - fine, fine)
  }

  lemma {:induction false} WindowCosts(c: Setup, st: Store, ids: seq<nat>, now: nat)
    requires Valid(st) && Distinct(ids)
    requires forall i :: i in ids ==> i in st.db.events && Eligible(st.db.events, i, c.maxRetry)
    ensures Costed(c, st, ids, now)
  {
    if ids == [] {
      SpentNothing(st);
    } else {
      hide Costed, Valid, Eligible, Worked, AfterEach;
      var front, last := ids[..|ids| - 1], ids[|ids| - 1];
      assert ids == front + [last];
      DistinctSnoc(front, last);
      WindowCosts(c, st, front, now);
      WorkedEach(c, st, front, now);
      PotentialFalls(c, st, front, now);
      CostedSnoc(c, st, front, last, now);
    }
  }

  lemma CostedSnoc(c: Setup, st: Store, front: seq<nat>, last: nat, now: nat)
    requires last in st.db.events && last !in front && forall i :: i in front ==> i in st.db.events
    requires Eligible(st.db.events, last, c.maxRetry) && Costed(c, st, front, now)
    requires Worked(c, st, AfterEach(c, st, front, now)) && Valid(AfterEach(c, st, front, now))
    ensures Costed(c, st, front + [last], now)
  {
    hide Worked, Spent, Valid, AfterOne, Eligible, Applies, CountFine, AfterEach;
    var fine := CountFine(c, st.db.events, front);
    OneMoreCosts(c, st, AfterEach(c, st, front, now), last, now, |front| - fine, fine);
    AfterEachSnoc(c, st, front, last, now);
    CountFineSnoc(c, st.db.events, front, last);
  }

  lemma OneMoreCosts(c: Setup, st: Store, mid: Store, id: nat, now: nat, failures: nat, fine: nat)
    requires Valid(mid) && Worked(c, st, mid) && Spent(st, mid, failures, fine)
    requires Eligible(st.db.events, id, c.maxRetry) && id in mid.db.events && mid.db.events[id] == st.db.events[id]
    ensures var one := if Applies(c, st.db.events[id].content) then 1 else 0;
            Spent(st, AfterOne(c, mid, id, now), failures + (1 - one), fine + one)
  {
    StillEligible(c, st, mid, id);
    hide Worked, Spent, AfterOne, Eligible, Valid, Applies;
    SpentOnOne(c, mid, id, now);
    WorkedOne(c, mid, id, now);
    var one := if Applies(c, st.db.events[id].content) then 1 else 0;
    SpentTwice(c, st, mid, AfterOne(c, mid, id, now), failures, fine, 1 - one, one);
  }

  lemma StillEligible(c: Setup, st: Store, mid: Store, id: nat)
    requires Eligible(st.db.events, id, c.maxRetry) && id in mid.db.events && mid.db.events[id] == st.db.events[id]
    ensures Eligible(mid.db.events, id, c.maxRetry)
  {
  }

  lemma WorkedOne(c: Setup, st: Store, id: nat, now: nat)
    requires Eligible(st.db.events, id, c.maxRetry)
    ensures Worked(c, st, AfterOne(c, st, id, now))
  {
    hide Worked, AfterApply, AfterRetry;
    if Applies(c, st.db.events[id].content) {
      WorkedApply(c, st, id, now);
    } else {
      WorkedRetry(c, st, id);
    }
  }

  /** A row of the window that does not apply has exactly one failure more. */
  lemma {:induction false} EachFailsOnce(c: Setup, st: Store, ids: seq<nat>, now: nat)
    requires Distinct(ids) && forall i :: i in ids ==> i in st.db.events
    ensures forall i :: i in ids && !Applies(c, st.db.events[i].content) ==>
              AfterEach(c, st, ids, now).db.events[i].retry == st.db.events[i].retry + 1
  {
    if ids != [] {
      var front, last := ids[..|ids| - 1], ids[|ids| - 1];
      assert ids == front + [last];
      DistinctSnoc(front, last);
      EachFailsOnce(c, st, front, now);
    }
  }

  // ----- what a drain adds to a guild, told without decoding

  /** The points for guild k that the listed rows carry. */
  function Earned(events: map<nat, Row>, ids: seq<nat>, k: int): int
    requires forall i :: i in ids ==> i in events
  {
    if ids == [] then 0
    else
      var content := events[ids[|ids| - 1]].content;
      Earned(events, ids[..|ids| - 1], k)
      + match content.payload
        case Encoded(p) => if content.eventType == "ranking_score_added" && p.guild == k then p.points else 0
        case Garbled(_) => 0
  }

  /** An event of any other type adds nothing, whatever its payload. */
  lemma {:induction false} GuildsEarn(c: Setup, st: Store, ids: seq<nat>, now: nat, k: int)
    requires forall i :: i in ids ==> i in st.db.events
    requires forall i :: i in ids && Decodable(st.db.events[i].content) ==> Applies(c, st.db.events[i].content)
    ensures Get(AfterEach(c, st, ids, now).db.guildScores, k) ==
              Get(st.db.guildScores, k) + Earned(st.db.events, ids, k)
  {
    if ids != [] {
      var front, last := ids[..|ids| - 1], ids[|ids| - 1];
      assert ids == front + [last];
      GuildsEarn(c, st, front, now, k);
      var content := st.db.events[last].content;
      assert AfterEach(c, st, front, now).db.events[last].content == content;
    }
  }
}
