/** Events, scores and the limits the services agree on. */
module Domain {

  datatype Option<+T> = None | Some(value: T)

  /** What a ranking_score_added payload carries. */
  datatype Score = Score(user: int, guild: int, points: int)

  /** The bytes of a payload column, told apart only by what decoding them gives. */
  datatype Payload = Encoded(score: Score) | Garbled(raw: string)

  /** The two columns of outbox_events that never change after the INSERT. */
  datatype Content = Content(eventType: string, payload: Payload)

  /** Why a worker refuses an event. */
  datatype Refusal = UnknownEventType | MalformedPayload

  datatype Decoded = Ok(score: Score) | Refused(why: Refusal)

  const RANKING_SCORE_ADDED := "ranking_score_added"

  const MIN_SCORE := 0
  const MAX_SCORE := 999_999_999_999

  predicate IsValidScore(score: int) {
    MIN_SCORE <= score <= MAX_SCORE
  }

  function Marshal(score: Score): Payload {
    Encoded(score)
  }

  /** The check every path makes before it applies an event: type first, then payload. */
  function Decode(c: Content): Decoded {
    if c.eventType != RANKING_SCORE_ADDED then Refused(UnknownEventType)
    else match c.payload
      case Encoded(score) => Ok(score)
      case Garbled(_) => Refused(MalformedPayload)
  }

  predicate Decodable(c: Content) {
    Decode(c).Ok?
  }

  /** An event that scores: of the one type there is, with a payload that unmarshals. */
  predicate Carries(c: Content, p: Score) {
    c.eventType == "ranking_score_added" && c.payload == Encoded(p)
  }

  /** Any other type is refused whatever its payload, and so is any other payload. */
  lemma DecodeIs(c: Content, p: Score)
    ensures Decode(c) == Ok(p) <==> Carries(c, p)
    ensures c.eventType != "ranking_score_added" ==> Decode(c) == Refused(UnknownEventType)
    ensures c.eventType == "ranking_score_added" && c.payload.Garbled? ==> Decode(c) == Refused(MalformedPayload)
  {
  }

  /** What becomes of a COMMIT: applied and acknowledged, applied with the answer lost, or not applied. */
  datatype CommitFate = Acked | AckLost | NotApplied

  /** A row that an additive upsert would read: absent counts as zero. */
  function Get(m: map<int, int>, k: int): int {
    if k in m then m[k] else 0
  }
}
