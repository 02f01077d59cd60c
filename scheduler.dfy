/** The backend's card scheduler: the age-and-failures weight of a card, the
    weighted choice of one card of a folder (creating the missing statistics
    records on the way), and the two answer updates.

    The clock is the parameter `now` (seconds), `random.random()` the
    parameter `u` in [0, 1), and the `flashcardStats` collection a map from
    (user, card) to the record, held by a `StatsStore`. */
module Scheduler {
  import opened Wrappers
  import opened Bson
  import opened Cards
  import opened Stats

  /** Hours reported for a card never seen: the highest priority. */
  const NeverSeenHours: real := 999.0

  /** `hours_since(dt)` with the clock reading `now`. */
  function HoursSince(dt: Option<real>, now: real): (h: real)
    ensures dt == None ==> h == NeverSeenHours
    ensures dt.Some? ==> h * 3600.0 == now - dt.value
    ensures dt.Some? && dt.value <= now ==> h >= 0.0
  {
    if dt.None? then NeverSeenHours else (now - dt.value) / 3600.0
  }

  /** `compute_weight(stats)`: hours since last seen, plus 5 per failure, plus 1. */
  function ComputeWeight(s: FlashcardStats, now: real): (r: real)
    ensures s.lastSeen.None? ==> r == (1000 + 5 * s.failCount) as real
    ensures s.lastSeen.Some? ==> (r - (5 * s.failCount + 1) as real) * 3600.0 == now - s.lastSeen.value
  {
    HoursSince(s.lastSeen, now) + (s.failCount * 5) as real + 1.0
  }

  /** A record whose counters are non-negative and whose `lastSeen` is not in
      the future of `now`. */
  ghost predicate SaneRecord(s: FlashcardStats, now: real) {
    s.failCount >= 0 && s.successCount >= 0 && (s.lastSeen.Some? ==> s.lastSeen.value <= now)
  }

  /** With a non-negative age and failure count the weight is at least 1. */
  lemma WeightAtLeastOne(s: FlashcardStats, now: real)
    requires SaneRecord(s, now)
    ensures ComputeWeight(s, now) >= 1.0
  {
  }

  /** For the same last-seen time, more failures mean a strictly larger weight,
      by 5 per failure. */
  lemma MoreFailsMoreWeight(s: FlashcardStats, t: FlashcardStats, now: real)
    requires s.lastSeen == t.lastSeen && s.failCount < t.failCount
    ensures ComputeWeight(s, now) < ComputeWeight(t, now)
    ensures ComputeWeight(t, now) - ComputeWeight(s, now) == ((t.failCount - s.failCount) * 5) as real
  {
  }

  /** A freshly created record weighs exactly 1000 (999 + 0 + 1). */
  lemma FreshRecordWeight(userId: ObjectId, flashcardId: ObjectId, created: real, now: real)
    ensures ComputeWeight(CreateFlashcardStats(userId, flashcardId, created), now) == 1000.0
  {
  }

  /** Right after an answer at `now` the age part is 0, so the card weighs
      5 per failure plus 1: a failure makes it 5 heavier than a success would. */
  lemma AnsweredNowWeight(s: FlashcardStats, now: real)
    ensures ComputeWeight(ApplyUpdate(s, MarkFailUpdate(now)), now) == ((s.failCount + 1) * 5) as real + 1.0
    ensures ComputeWeight(ApplyUpdate(s, MarkSuccessUpdate(now)), now) == (s.failCount * 5) as real + 1.0
  {
  }

  // ---------------------------------------------------------------------
  // random.choices(population, weights, k=1)
  // ---------------------------------------------------------------------

  /** Running sum of the first `n` weights (`itertools.accumulate`). */
  function Cum(ws: seq<real>, n: nat): real
    requires n <= |ws|
  {
    if n == 0 then 0.0 else Cum(ws, n - 1) + ws[n - 1]
  }

  /** Running sum of the weights up to and including position `j`. */
  function CumThrough(ws: seq<real>, j: nat): real
    requires j < |ws|
  {
    Cum(ws, j + 1)
  }

  /** The search for the first running sum above `x`, from position `i`,
      with the last index as the upper bound. */
  function BisectFrom(ws: seq<real>, x: real, i: nat): (k: nat)
    requires i < |ws|
    ensures i <= k < |ws|
    decreases |ws| - i
  {
    if i == |ws| - 1 then i
    else if x < Cum(ws, i + 1) then i
    else BisectFrom(ws, x, i + 1)
  }

  /** The scaled draw `random() * total`. */
  function Scaled(ws: seq<real>, u: real): real {
    u * Cum(ws, |ws|)
  }

  /** The index that `random.choices` draws for `random() == u`: the draw is
      scaled by the total weight and the first running sum above it decides.
      A total that is not positive raises `ValueError`, here `None`. */
  function ChooseIndex(ws: seq<real>, u: real): (k: Option<nat>)
    requires 0 < |ws|
    ensures k.Some? <==> Cum(ws, |ws|) > 0.0
    ensures k.Some? ==> k.value < |ws|
  {
    if Cum(ws, |ws|) <= 0.0 then None else Some(BisectFrom(ws, Scaled(ws, u), 0))
  }

  /** With positive weights the running sums grow strictly. */
  lemma {:induction false} CumMonotone(ws: seq<real>, m: nat, n: nat)
    requires m <= n <= |ws|
    requires forall i :: 0 <= i < |ws| ==> ws[i] > 0.0
    ensures Cum(ws, m) <= Cum(ws, n)
    ensures m < n ==> Cum(ws, m) < Cum(ws, n)
    decreases n
  {
    if m < n {
      CumMonotone(ws, m, n - 1);
    }
  }

  /** From position `i` the search stops at the first running sum above `x`;
      when none below the last index is, it takes the last index. */
  lemma {:induction false} BisectFromFirstAbove(ws: seq<real>, x: real, i: nat)
    requires i < |ws|
    ensures var k := BisectFrom(ws, x, i);
      && (k == |ws| - 1 || x < CumThrough(ws, k))
      && forall j :: i <= j < k ==> CumThrough(ws, j) <= x
    decreases |ws| - i
  {
    if i < |ws| - 1 && Cum(ws, i + 1) <= x {
      BisectFromFirstAbove(ws, x, i + 1);
    }
  }

  /** A draw in [0, 1) scaled by a positive total lies in [0, total). */
  lemma ScaledDrawInRange(ws: seq<real>, u: real)
    requires 0.0 <= u < 1.0 && Cum(ws, |ws|) > 0.0
    ensures 0.0 <= Scaled(ws, u) < Cum(ws, |ws|)
  {
    MulBelow(u, Cum(ws, |ws|));
    assert Scaled(ws, u) == u * Cum(ws, |ws|);
  }

  lemma MulBelow(u: real, t: real)
    requires 0.0 <= u < 1.0 && t > 0.0
    ensures 0.0 <= u * t < t
  {
    assert u * t < 1.0 * t;
  }

  /** With positive weights and `u` in [0, 1) a card is always drawn: the
      first whose running sum is above the scaled draw, which always exists. */
  lemma ChosenIsFirstAbove(ws: seq<real>, u: real)
    requires 0 < |ws| && 0.0 <= u < 1.0
    requires forall i :: 0 <= i < |ws| ==> ws[i] > 0.0
    ensures ChooseIndex(ws, u).Some?
    ensures var c := ChooseIndex(ws, u).value;
      && Scaled(ws, u) < CumThrough(ws, c)
      && forall j :: 0 <= j < c ==> CumThrough(ws, j) <= Scaled(ws, u)
    ensures 0.0 <= Scaled(ws, u)
  {
    CumMonotone(ws, 0, |ws|);
    ScaledDrawInRange(ws, u);
    BisectFromFirstAbove(ws, Scaled(ws, u), 0);
    assert CumThrough(ws, |ws| - 1) == Cum(ws, |ws|);
  }

  /** With positive weights and `u` in [0, 1), index `k` is drawn exactly when
      the scaled draw falls in [running sum before `k`, running sum through
      `k`): an interval as long as the weight of `k`. */
  lemma ChooseInterval(ws: seq<real>, u: real, k: nat)
    requires k < |ws| && 0.0 <= u < 1.0
    requires forall i :: 0 <= i < |ws| ==> ws[i] > 0.0
    ensures ChooseIndex(ws, u).Some?
    ensures ChooseIndex(ws, u) == Some(k) <==> Cum(ws, k) <= Scaled(ws, u) < CumThrough(ws, k)
    ensures CumThrough(ws, k) - Cum(ws, k) == ws[k]
  {
    ChosenIsFirstAbove(ws, u);
    var c := ChooseIndex(ws, u).value;
    var x := Scaled(ws, u);
    if c < k {
      CumMonotone(ws, c + 1, k);
    } else if c > k {
      assert CumThrough(ws, k) <= x;
    } else if k > 0 {
      assert CumThrough(ws, k - 1) <= x;
    }
  }

  // ---------------------------------------------------------------------
  // The statistics store and pick_flashcard
  // ---------------------------------------------------------------------

  /** The lookup key of a statistics record. */
  datatype StatsKey = StatsKey(userId: ObjectId, flashcardId: ObjectId)

  type Store = map<StatsKey, FlashcardStats>

  /** Every record is sane at time `now`. */
  ghost predicate SaneStore(store: Store, now: real) {
    forall k :: k in store ==> SaneRecord(store[k], now)
  }

  /** The keys of the user's records for the given cards. */
  function CardKeys(userId: ObjectId, cards: seq<Flashcard>): set<StatsKey> {
    set i | 0 <= i < |cards| :: StatsKey(userId, cards[i].id)
  }

  /** The record the selection loop uses for `card`: the stored one, or a
      fresh one when the user has none for it. */
  function StatsFor(store: Store, userId: ObjectId, card: Flashcard, now: real): FlashcardStats {
    var key := StatsKey(userId, card.id);
    if key in store then store[key] else CreateFlashcardStats(userId, card.id, now)
  }

  /** The weights of the cards, in order, one per card. */
  function Weights(store: Store, userId: ObjectId, cards: seq<Flashcard>, now: real): (ws: seq<real>)
    ensures |ws| == |cards|
    ensures forall i :: 0 <= i < |cards| ==> ws[i] == ComputeWeight(StatsFor(store, userId, cards[i], now), now)
  {
    seq(|cards|, i requires 0 <= i < |cards| => ComputeWeight(StatsFor(store, userId, cards[i], now), now))
  }

  /** The store once the missing records of the user for `cards` are
      inserted: records already there keep their contents, every card gets
      one, and no other key appears. */
  function WithStats(store: Store, userId: ObjectId, cards: seq<Flashcard>, now: real): (r: Store)
    ensures r.Keys == store.Keys + CardKeys(userId, cards)
    ensures forall k :: k in store ==> r[k] == store[k]
    ensures forall i :: 0 <= i < |cards| ==>
      StatsKey(userId, cards[i].id) in r && r[StatsKey(userId, cards[i].id)] == StatsFor(store, userId, cards[i], now)
  {
    map k | k in store.Keys + CardKeys(userId, cards) ::
      if k in store then store[k] else CreateFlashcardStats(k.userId, k.flashcardId, now)
  }

  /** One more card handled by the loop of `WithStats`. */
  lemma WithStatsStep(store: Store, userId: ObjectId, cards: seq<Flashcard>, i: nat, now: real)
    requires i < |cards|
    ensures var key := StatsKey(userId, cards[i].id);
      WithStats(store, userId, cards[..i + 1], now) ==
        if key in store then WithStats(store, userId, cards[..i], now)
        else WithStats(store, userId, cards[..i], now)[key := CreateFlashcardStats(userId, cards[i].id, now)]
  {
    var key := StatsKey(userId, cards[i].id);
    assert CardKeys(userId, cards[..i + 1]) == CardKeys(userId, cards[..i]) + {key} by {
      forall k | k in CardKeys(userId, cards[..i + 1])
        ensures k in CardKeys(userId, cards[..i]) + {key}
      {
        var j :| 0 <= j < i + 1 && k == StatsKey(userId, cards[..i + 1][j].id);
        if j < i { assert cards[..i + 1][j] == cards[..i][j]; }
      }
      forall k | k in CardKeys(userId, cards[..i])
        ensures k in CardKeys(userId, cards[..i + 1])
      {
        var j :| 0 <= j < i && k == StatsKey(userId, cards[..i][j].id);
        assert cards[..i][j] == cards[..i + 1][j];
      }
      assert cards[..i + 1][i] == cards[i];
    }
  }

  /** Sane records stay sane later, and the fresh records the store gains are
      sane, so every weight the selection computes is at least 1. */
  lemma WithStatsSane(store: Store, userId: ObjectId, cards: seq<Flashcard>, now: real)
    requires SaneStore(store, now)
    ensures SaneStore(WithStats(store, userId, cards, now), now)
    ensures forall i :: 0 <= i < |cards| ==> Weights(store, userId, cards, now)[i] >= 1.0
  {
    var ws := Weights(store, userId, cards, now);
    forall i | 0 <= i < |cards| ensures ws[i] >= 1.0 {
      WeightAtLeastOne(StatsFor(store, userId, cards[i], now), now);
    }
  }

  /** The outcome of `pick_flashcard`: `None` for a folder without cards,
      the chosen card, or the `ValueError` of a weight total that is not
      positive. */
  datatype PickResult = NoCards | Picked(card: Flashcard) | NonPositiveTotal

  /** `update_one` with filter (user, card): an update of the matching record,
      or nothing when there is none. */
  function Updated(store: Store, key: StatsKey, u: StatsUpdate): (r: Store)
    ensures key in store ==> r == store[key := ApplyUpdate(store[key], u)]
    ensures key !in store ==> r == store
  {
    if key in store then store[key := ApplyUpdate(store[key], u)] else store
  }

  /** An answer update keeps a store sane at the time of the answer. */
  lemma UpdatedSane(store: Store, key: StatsKey, u: StatsUpdate, now: real)
    requires SaneStore(store, now) && u.at == now && u.amount >= 0
    ensures SaneStore(Updated(store, key, u), now)
  {
  }

  /** The `flashcardStats` collection. */
  class StatsStore {
    var records: Store

    constructor (records: Store)
      ensures this.records == records
    {
      this.records := records;
    }

    /** The loop of `pick_flashcard` over the folder's cards: a fresh record
        is inserted for each card the user has none for, and the weight of
        each card is computed once, in order, from its stored or fresh record. */
    method InsertMissingAndWeigh(userId: ObjectId, cards: seq<Flashcard>, now: real)
      returns (weights: seq<real>)
      modifies this
      ensures records == WithStats(old(records), userId, cards, now)
      ensures weights == Weights(old(records), userId, cards, now)
    {
      var statsMap := records;
      weights := [];
      var i := 0;
      while i < |cards|
        invariant 0 <= i <= |cards|
        invariant records == WithStats(statsMap, userId, cards[..i], now)
        invariant |weights| == i
        invariant forall j :: 0 <= j < i ==> weights[j] == ComputeWeight(StatsFor(statsMap, userId, cards[j], now), now)
      {
        var card := cards[i];
        var key := StatsKey(userId, card.id);
        var stats: FlashcardStats;
        WithStatsStep(statsMap, userId, cards, i, now);
        if key !in statsMap {
          var newStats := CreateFlashcardStats(userId, card.id, now);
          records := records[key := newStats];
          stats := newStats;
        } else {
          stats := statsMap[key];
        }
        weights := weights + [ComputeWeight(stats, now)];
        i := i + 1;
      }
      assert cards[..|cards|] == cards;
    }

    /** `pick_flashcard(user_id, folder_id)` over the cards in `flashcards`:
        `NoCards` exactly when the folder has none, and then the store is
        untouched; otherwise the store gains a fresh record for every folder
        card the user had none for, keeps every other record, and the card
        drawn is the one `random.choices` takes for the folder's weights in
        folder order. */
    method PickFlashcard(userId: ObjectId, folderId: ObjectId, flashcards: seq<Flashcard>, now: real, u: real)
      returns (r: PickResult)
      modifies this
      ensures var cards := FolderCards(flashcards, folderId);
        && (r == NoCards <==> cards == [])
        && (cards == [] ==> records == old(records))
        && (cards != [] ==> records == WithStats(old(records), userId, cards, now))
        && (cards != [] ==>
              match ChooseIndex(Weights(old(records), userId, cards, now), u)
              case None => r == NonPositiveTotal
              case Some(k) => r == Picked(cards[k]))
    {
      var cards := FolderCards(flashcards, folderId);
      if cards == [] {
        return NoCards;
      }
      var weights := InsertMissingAndWeigh(userId, cards, now);
      var k := ChooseIndex(weights, u);
      if k.None? {
        return NonPositiveTotal;
      }
      r := Picked(cards[k.value]);
    }

    /** `mark_fail(user_id, flashcard_id)`: the matching record, if any, counts
        one more failure and is stamped `now`; the result tells whether a
        record matched. */
    method MarkFail(userId: ObjectId, flashcardId: ObjectId, now: real) returns (matched: bool)
      modifies this
      ensures matched <==> StatsKey(userId, flashcardId) in old(records)
      ensures records == Updated(old(records), StatsKey(userId, flashcardId), MarkFailUpdate(now))
    {
      var key := StatsKey(userId, flashcardId);
      matched := key in records;
      if matched {
        records := records[key := ApplyUpdate(records[key], MarkFailUpdate(now))];
      }
    }

    /** `mark_success(user_id, flashcard_id)`, the same for `successCount`. */
    method MarkSuccess(userId: ObjectId, flashcardId: ObjectId, now: real) returns (matched: bool)
      modifies this
      ensures matched <==> StatsKey(userId, flashcardId) in old(records)
      ensures records == Updated(old(records), StatsKey(userId, flashcardId), MarkSuccessUpdate(now))
    {
      var key := StatsKey(userId, flashcardId);
      matched := key in records;
      if matched {
        records := records[key := ApplyUpdate(records[key], MarkSuccessUpdate(now))];
      }
    }
  }

  /** On a sane store a folder with cards always yields a card, and that card
      belongs to the folder. */
  lemma PickOnSaneStore(store: Store, userId: ObjectId, folderId: ObjectId, flashcards: seq<Flashcard>,
                        now: real, u: real)
    requires SaneStore(store, now) && 0.0 <= u < 1.0
    requires FolderCards(flashcards, folderId) != []
    ensures var cards := FolderCards(flashcards, folderId);
      var k := ChooseIndex(Weights(store, userId, cards, now), u);
      k.Some? && cards[k.value] in flashcards && cards[k.value].folderId == folderId
  {
    var cards := FolderCards(flashcards, folderId);
    var ws := Weights(store, userId, cards, now);
    WithStatsSane(store, userId, cards, now);
    ChooseInterval(ws, u, 0);
    var k := ChooseIndex(ws, u);
    assert cards[k.value] in cards;
  }
}
