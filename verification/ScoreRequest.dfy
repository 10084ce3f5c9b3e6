/** AddUserPoints: one transaction that counts the points and leaves an event behind. */
module ScoreRequest {
  import opened Domain
  import opened Tally
  import opened Tables
  import Pipeline

  datatype Error = ErrInvalidPoints | ErrUserNotFound | ErrUserNotInGuild | ErrStorage

  datatype Outcome =
    | Added(userId: int, points: int, previousTotal: int, newTotal: int, guildId: int)
    | Rejected(error: Error)

  /** Which statements the database refuses, in the order they are issued. */
  datatype Faults = Faults(getUser: bool, getGuild: bool, insertHistory: bool, addPoints: bool, readBack: bool,
                           insertEvent: bool, commit: CommitFate)

  /** All that a committed request changes. */
  function Scored(db: Db, score: Score): Db {
    db.(nextId := db.nextId + 1,
        userPoints := db.userPoints[score.user := Get(db.userPoints, score.user) + score.points],
        userRows := db.userRows + [EntryOf(score, ByUser)],
        events := db.events[db.nextId := Row(Content(RANKING_SCORE_ADDED, Marshal(score)), 0, None)])
  }

  /** The user's points and history row, and one event of the one type, with the request's three values. */
  ghost predicate Leaves(before: Db, after: Db, user: int, guild: int, points: int) {
    && after.userPoints == before.userPoints[user := Get(before.userPoints, user) + points]
    && after.userRows == before.userRows + [UserEntry(user, points)]
    && after.events == before.events[before.nextId := Row(
         Content("ranking_score_added", Encoded(Score(user, guild, points))), 0, None)]
    && after.guildScores == before.guildScores && after.guildRows == before.guildRows
    && after.nextId == before.nextId + 1
  }

  /** The first check that stops a request before it writes. */
  function StoppedBy(guildOf: map<int, Option<int>>, user: int, points: int, faults: Faults): Option<Error> {
    if !IsValidScore(points) then Some(ErrInvalidPoints)
    else if faults.getUser then Some(ErrStorage)
    else if user !in guildOf then Some(ErrUserNotFound)
    else if faults.getGuild then Some(ErrStorage)
    else if guildOf[user].None? then Some(ErrUserNotInGuild)
    else None
  }

  class RankingUsecase {
    var db: Db
    /** users and guild_members: the guild of every existing user, if any. */
    const guildOf: map<int, Option<int>>

    constructor (db: Db, guildOf: map<int, Option<int>>)
      ensures this.db == db && this.guildOf == guildOf
    {
      this.db, this.guildOf := db, guildOf;
    }

    /**
     * History, points and event are committed together or not at all, and the totals answered are the
     * committed ones.  A rollback may still use up an AUTO_INCREMENT value.
     */
    method AddUserPoints(user: int, points: int, faults: Faults) returns (r: Outcome)
      modifies this
      ensures StoppedBy(guildOf, user, points, faults).Some? ==>
                db == old(db) && r == Rejected(StoppedBy(guildOf, user, points, faults).value)
      ensures r == Rejected(ErrInvalidPoints) <==> points < 0 || 999_999_999_999 < points
      ensures r == Rejected(ErrUserNotFound) <==>
                0 <= points <= 999_999_999_999 && !faults.getUser && user !in guildOf
      ensures r == Rejected(ErrUserNotInGuild) <==>
                && 0 <= points <= 999_999_999_999 && !faults.getUser && user in guildOf && !faults.getGuild
                && guildOf[user].None?
      ensures r.Added? ==> user in guildOf && guildOf[user].Some?
      ensures r.Added? ==> Leaves(old(db), db, user, guildOf[user].value, points)
      ensures r.Added? ==>
                && StoppedBy(guildOf, user, points, faults).None?
                && db == Scored(old(db), Score(user, guildOf[user].value, points))
                && r == Added(user, points, Get(old(db.userPoints), user), Get(db.userPoints, user),
                     guildOf[user].value)
                && r.newTotal == r.previousTotal + points
      ensures r.Rejected? ==>
                || db == old(db) || db == old(db).(nextId := old(db.nextId) + 1)
                || (faults.commit == AckLost && StoppedBy(guildOf, user, points, faults).None?
                    && db == Scored(old(db), Score(user, guildOf[user].value, points)))
      ensures StoppedBy(guildOf, user, points, faults).None? ==>
                (r.Added? <==> (!faults.insertHistory && !faults.addPoints && !faults.readBack
                                && !faults.insertEvent && faults.commit == Acked))
    {
      if !IsValidScore(points) {
        return Rejected(ErrInvalidPoints);
      }
      var tx, result, error := InTx(user, points, faults);
      if error.Some? {
        return Rejected(error.value);
      }
      match faults.commit
      case NotApplied =>
        db := db.(nextId := tx.nextId);
        return Rejected(ErrStorage);
      case AckLost =>
        db := tx;
        return Rejected(ErrStorage);
      case Acked =>
        db := tx;
        return result;
    }

    /** The statements of the transaction, on its own view of the tables. */
    method InTx(user: int, points: int, faults: Faults) returns (tx: Db, result: Outcome, error: Option<Error>)
      requires IsValidScore(points)
      ensures StoppedBy(guildOf, user, points, faults).Some? ==>
                error == StoppedBy(guildOf, user, points, faults) && tx == db
      ensures error.None? ==>
                && StoppedBy(guildOf, user, points, faults).None?
                && tx == Scored(db, Score(user, guildOf[user].value, points))
                && result == Added(user, points, Get(db.userPoints, user), Get(tx.userPoints, user),
                     guildOf[user].value)
      ensures StoppedBy(guildOf, user, points, faults).None? ==>
                && (error.None? <==>
                      !faults.insertHistory && !faults.addPoints && !faults.readBack && !faults.insertEvent)
                && (error.Some? ==> error == Some(ErrStorage))
    {
      tx, result, error := db, Rejected(ErrStorage), Some(ErrStorage);
      if faults.getUser {
        return;
      }
      if user !in guildOf {
        error := Some(ErrUserNotFound);
        return;
      }
      if faults.getGuild {
        return;
      }
      if guildOf[user].None? {
        error := Some(ErrUserNotInGuild);
        return;
      }
      var guildId := guildOf[user].value;
      if faults.insertHistory {
        return;
      }
      tx := tx.(userRows := tx.userRows + [UserEntry(user, points)]);
      if faults.addPoints {
        return;
      }
      tx := tx.(userPoints := tx.userPoints[user := Get(tx.userPoints, user) + points]);
      if faults.readBack || user !in tx.userPoints {
        return;
      }
      var updated := tx.userPoints[user];
      var payload := Marshal(Score(user, guildId, points));
      if faults.insertEvent {
        return;
      }
      tx := tx.(nextId := tx.nextId + 1,
                events := tx.events[tx.nextId := Row(Content(RANKING_SCORE_ADDED, payload), 0, None)]);
      result, error := Added(user, points, updated - points, updated, guildId), None;
    }
  }

  /** The request's two steps in the pipeline, run back to back, are this method. */
  lemma RequestIsPipelineStep(s: Pipeline.State, r: nat, score: Score)
    requires Pipeline.CanPrepare(s, r, score)
    ensures r in Pipeline.Prepared(s, r, score).requests
    ensures Pipeline.Requested(Pipeline.Prepared(s, r, score), r).db == Scored(s.db, score)
    ensures Pipeline.Requested(Pipeline.Prepared(s, r, score), r).log ==
              s.log[s.db.nextId := Content(RANKING_SCORE_ADDED, Marshal(score))]
  {
  }
}
