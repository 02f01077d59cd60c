/** The per-user, per-card study statistics record and the update documents
    that the answers apply to it. */
module Stats {
  import opened Wrappers
  import opened Bson

  /** A `flashcardStats` document; `lastSeen` is a time in seconds, `None`
      for a card never answered. */
  datatype FlashcardStats = FlashcardStats(userId: ObjectId, flashcardId: ObjectId, lastSeen: Option<real>,
                                           failCount: int, successCount: int, createdAt: real)

  /** A new record: the two ids as given, never seen, no answers yet; the
      clock reading `now` is its creation time. */
  function CreateFlashcardStats(userId: ObjectId, flashcardId: ObjectId, now: real): (s: FlashcardStats)
    ensures s.userId == userId && s.flashcardId == flashcardId
    ensures s.lastSeen == None && s.failCount == 0 && s.successCount == 0
  {
    FlashcardStats(userId, flashcardId, None, 0, 0, now)
  }

  /** The counter field an update increments. */
  datatype Counter = FailCount | SuccessCount

  /** The update document `{"$inc": {counter: amount}, "$set": {"lastSeen": at}}`. */
  datatype StatsUpdate = StatsUpdate(counter: Counter, amount: int, at: real)

  /** The update document for a wrong answer at time `now`. */
  function MarkFailUpdate(now: real): StatsUpdate {
    StatsUpdate(FailCount, 1, now)
  }

  /** The update document for a right answer at time `now`. */
  function MarkSuccessUpdate(now: real): StatsUpdate {
    StatsUpdate(SuccessCount, 1, now)
  }

  /** What MongoDB does with such an update on a record: `$inc` adds to one
      counter, `$set` overwrites `lastSeen`, nothing else moves. */
  function ApplyUpdate(s: FlashcardStats, u: StatsUpdate): (r: FlashcardStats)
    ensures r.userId == s.userId && r.flashcardId == s.flashcardId && r.createdAt == s.createdAt
    ensures r.lastSeen == Some(u.at)
    ensures r.failCount + r.successCount == s.failCount + s.successCount + u.amount
    ensures u.counter == FailCount ==> r.successCount == s.successCount
    ensures u.counter == SuccessCount ==> r.failCount == s.failCount
  {
    match u.counter
    case FailCount => s.(failCount := s.failCount + u.amount, lastSeen := Some(u.at))
    case SuccessCount => s.(successCount := s.successCount + u.amount, lastSeen := Some(u.at))
  }

  /** A wrong answer adds exactly one to `failCount` and stamps `lastSeen`;
      a right answer does the same for `successCount`. */
  lemma MarkUpdatesCountOne(s: FlashcardStats, now: real)
    ensures ApplyUpdate(s, MarkFailUpdate(now)) == s.(failCount := s.failCount + 1, lastSeen := Some(now))
    ensures ApplyUpdate(s, MarkSuccessUpdate(now)) == s.(successCount := s.successCount + 1, lastSeen := Some(now))
  {
  }
}
