/** The client-side study session of the study page: a deck of cards with
    selection weights, weighted random choice of the next card, the "know" /
    "don't know" answers that reshape the weights, the learned set whose
    coverage of the deck ends the session, and a restart.

    Weights are exact reals, and `Math.random()` is the parameter `u`,
    a number in [0, 1). */
module StudySession {
  import opened Wrappers

  /** A card as the API's JSON delivers it: `_id`, `id`, `front`, `back`;
      `None` stands for a missing (undefined) field. */
  datatype ApiCard = ApiCard(oid: Option<string>, id: Option<string>, front: string, back: string)

  /** A deck entry: the card spread with its selection weight. */
  datatype StudyCard = StudyCard(card: ApiCard, weight: real)

  /** What tells two cards apart; `None` is `undefined`. */
  type Key = Option<string>

  /** `card._id ?? card.id`, the identity the pages use for cards. */
  function IdOf(c: ApiCard): (r: Key)
    ensures r.None? <==> c.oid.None? && c.id.None?
    ensures c.oid.Some? ==> r == c.oid
    ensures c.oid.None? ==> r == c.id
  {
    if c.oid.Some? then c.oid else c.id
  }

  /** The identity of a deck entry is that of its card. */
  function CardKey(c: StudyCard): Key {
    IdOf(c.card)
  }

  /** Weight a card starts with, and gets back on restart. */
  const InitialWeight: real := 1.0

  /** Floor that a "know" answer never pushes a weight below. */
  const MinWeight: real := 0.1

  /** Every weight in the deck is at least the floor (hence positive). */
  ghost predicate WeightsAboveFloor(deck: seq<StudyCard>) {
    forall i :: 0 <= i < |deck| ==> deck[i].weight >= MinWeight
  }

  /** The keys occurring in the deck. */
  function KeySet(deck: seq<StudyCard>): set<Key> {
    if deck == [] then {} else {CardKey(deck[0])} + KeySet(deck[1..])
  }

  /** A key is in the deck's key set exactly when some card carries it. */
  lemma {:induction false} InKeySet(deck: seq<StudyCard>, k: Key)
    ensures k in KeySet(deck) <==> exists i :: 0 <= i < |deck| && CardKey(deck[i]) == k
  {
    if deck != [] {
      var rest := deck[1..];
      InKeySet(rest, k);
      if k in KeySet(rest) {
        var i :| 0 <= i < |rest| && CardKey(rest[i]) == k;
        assert CardKey(deck[i + 1]) == k;
      }
      if exists i :: 0 <= i < |deck| && CardKey(deck[i]) == k {
        var i :| 0 <= i < |deck| && CardKey(deck[i]) == k;
        if i > 0 { assert CardKey(rest[i - 1]) == k; }
      }
    }
  }

  /** No two cards of the deck share a key (the server's `_id`s are unique). */
  ghost predicate DistinctKeys(deck: seq<StudyCard>) {
    forall i, j :: 0 <= i < j < |deck| ==> CardKey(deck[i]) != CardKey(deck[j])
  }

  // ---------------------------------------------------------------------
  // Weighted random choice
  // ---------------------------------------------------------------------

  /** Sum of the weights, added left to right as `reduce` does. */
  function TotalWeight(deck: seq<StudyCard>): real {
    if deck == [] then 0.0 else TotalWeight(deck[..|deck| - 1]) + deck[|deck| - 1].weight
  }

  /** Running weight sum of the first `n` cards. */
  function Prefix(deck: seq<StudyCard>, n: nat): real
    requires n <= |deck|
  {
    TotalWeight(deck[..n])
  }

  lemma PrefixStep(deck: seq<StudyCard>, n: nat)
    requires n < |deck|
    ensures Prefix(deck, n + 1) == Prefix(deck, n) + deck[n].weight
  {
    assert deck[..n + 1][..n] == deck[..n];
  }

  /** The loop of the selection from position `i` on, with `r` still to be
      used up: subtract each weight, stop at the first card that takes `r`
      to zero or below, and fall back to the last card when the loop runs out. */
  function PickFrom(deck: seq<StudyCard>, i: nat, r: real): (k: nat)
    requires 0 < |deck| && i <= |deck|
    ensures k < |deck|
    decreases |deck| - i
  {
    if i == |deck| then |deck| - 1
    else if r - deck[i].weight <= 0.0 then i
    else PickFrom(deck, i + 1, r - deck[i].weight)
  }

  /** The scaled draw `r = Math.random() * total`. */
  function Draw(deck: seq<StudyCard>, u: real): real {
    u * TotalWeight(deck)
  }

  /** The index of the card chosen for the draw `u`: the draw is scaled to
      `r = u * total` and the loop starts with all of `r` to use up. */
  function Pick(deck: seq<StudyCard>, u: real): (k: nat)
    requires 0 < |deck|
    ensures k < |deck|
  {
    PickFrom(deck, 0, Draw(deck, u))
  }

  /** The weighted random choice of the study page, returning the index of the
      chosen card: first the total weight, then the draw `r`, then the walk
      that subtracts weights until `r` is used up. */
  method WeightedRandom(items: seq<StudyCard>, u: real) returns (k: nat)
    requires 0 < |items|
    ensures k < |items|
    ensures k == Pick(items, u)
  {
    var total := 0.0;
    var i := 0;
    while i < |items|
      invariant 0 <= i <= |items|
      invariant total == Prefix(items, i)
    {
      PrefixStep(items, i);
      total := total + items[i].weight;
      i := i + 1;
    }
    assert items[..|items|] == items;
    assert total == TotalWeight(items);
    var r := u * total;
    i := 0;
    assert r == Draw(items, u);
    while i < |items|
      invariant 0 <= i <= |items|
      invariant PickFrom(items, i, r) == Pick(items, u)
    {
      r := r - items[i].weight;
      if r <= 0.0 {
        return i;
      }
      i := i + 1;
    }
    k := |items| - 1;
  }

  /** Running weight sum of the cards up to and including position `j`. */
  function SumThrough(deck: seq<StudyCard>, j: nat): real
    requires j < |deck|
  {
    Prefix(deck, j + 1)
  }

  /** Walking from position `i` with `r0` minus the running sum up to `i`
      left, the loop stops at the first card whose running sum reaches `r0`,
      or falls back to the last card when no running sum does. */
  lemma {:induction false} PickFromFirstReaching(deck: seq<StudyCard>, i: nat, r0: real)
    requires 0 < |deck| && i <= |deck|
    ensures var k := PickFrom(deck, i, r0 - Prefix(deck, i));
      || (i <= k && r0 <= SumThrough(deck, k)
          && forall j :: i <= j < k ==> SumThrough(deck, j) < r0)
      || (k == |deck| - 1 && forall j :: i <= j < |deck| ==> SumThrough(deck, j) < r0)
    decreases |deck| - i
  {
    if i < |deck| {
      PrefixStep(deck, i);
      assert r0 - Prefix(deck, i) - deck[i].weight == r0 - Prefix(deck, i + 1);
      if r0 - Prefix(deck, i + 1) > 0.0 {
        PickFromFirstReaching(deck, i + 1, r0);
      }
    }
  }

  /** With positive weights the running sums grow strictly. */
  lemma {:induction false} PrefixMonotone(deck: seq<StudyCard>, m: nat, n: nat)
    requires m <= n <= |deck| && WeightsAboveFloor(deck)
    ensures Prefix(deck, m) <= Prefix(deck, n)
    ensures m < n ==> Prefix(deck, m) < Prefix(deck, n)
    ensures Prefix(deck, m) >= 0.0
    decreases n
  {
    if m == 0 {
      assert Prefix(deck, 0) == 0.0;
    }
    if m < n {
      PrefixStep(deck, n - 1);
      PrefixMonotone(deck, m, n - 1);
    } else if m > 0 {
      PrefixStep(deck, m - 1);
      PrefixMonotone(deck, m - 1, m - 1);
    }
  }

  /** A draw `u` in [0, 1) scales to a value in [0, total), and into
      (0, total) when `u` is positive. */
  lemma DrawInRange(deck: seq<StudyCard>, u: real)
    requires 0 < |deck| && WeightsAboveFloor(deck)
    requires 0.0 <= u < 1.0
    ensures 0.0 <= Draw(deck, u) < TotalWeight(deck)
    ensures 0.0 < u ==> 0.0 < Draw(deck, u)
  {
    PrefixMonotone(deck, 0, |deck|);
    assert deck[..|deck|] == deck;
    var t := TotalWeight(deck);
    assert t > 0.0;
    assert u * t < 1.0 * t;
  }

  /** The chosen card is the first whose running weight sum reaches the draw
      `r = u * total`; for a draw in [0, 1) and positive weights that card
      always exists, so the fallback to the last card never decides. */
  lemma PickIsFirstReaching(deck: seq<StudyCard>, u: real)
    requires 0 < |deck|
    requires 0.0 <= u < 1.0 && WeightsAboveFloor(deck)
    ensures var k := Pick(deck, u);
      && Draw(deck, u) <= SumThrough(deck, k)
      && forall j :: 0 <= j < k ==> SumThrough(deck, j) < Draw(deck, u)
  {
    var r0 := Draw(deck, u);
    DrawInRange(deck, u);
    assert Prefix(deck, 0) == 0.0;
    assert r0 - Prefix(deck, 0) == r0;
    PickFromFirstReaching(deck, 0, r0);
    assert deck[..|deck|] == deck;
    assert SumThrough(deck, |deck| - 1) == TotalWeight(deck);
  }

  /** Card `i` is chosen exactly for the draws whose scaled value
      `r = u * total` lies in (running sum before `i`, running sum through `i`]:
      an interval as long as the card's weight, which is what makes the
      selection proportional to weight. */
  lemma PickInterval(deck: seq<StudyCard>, u: real, i: nat)
    requires i < |deck| && WeightsAboveFloor(deck)
    requires 0.0 < u < 1.0
    ensures Pick(deck, u) == i <==> Prefix(deck, i) < Draw(deck, u) <= SumThrough(deck, i)
    ensures SumThrough(deck, i) - Prefix(deck, i) == deck[i].weight
  {
    var r0 := Draw(deck, u);
    var k := Pick(deck, u);
    PrefixStep(deck, i);
    PickIsFirstReaching(deck, u);
    DrawInRange(deck, u);
    if k < i {
      PrefixMonotone(deck, k + 1, i);
    } else if k > i {
      assert SumThrough(deck, i) < r0;
    } else if i > 0 {
      assert SumThrough(deck, i - 1) < r0;
    } else {
      assert Prefix(deck, 0) == 0.0;
    }
  }

  // ---------------------------------------------------------------------
  // Answers: the weight maps
  // ---------------------------------------------------------------------

  /** "Know": `Math.max(0.1, weight * 0.5)`. */
  function Halve(w: real): (r: real)
    ensures r >= MinWeight && r >= w * 0.5
    ensures r == w * 0.5 || r == MinWeight
    ensures w >= MinWeight ==> r <= w
  {
    if MinWeight > w * 0.5 then MinWeight else w * 0.5
  }

  /** One deck entry after "know" on `key`: halved to the floor if it is the
      answered card, untouched otherwise. */
  function KnowEntry(c: StudyCard, key: Key): StudyCard {
    if CardKey(c) == key then c.(weight := Halve(c.weight)) else c
  }

  /** One deck entry after "don't know" on `key`: doubled if it is the
      answered card, untouched otherwise. */
  function DontKnowEntry(c: StudyCard, key: Key): StudyCard {
    if CardKey(c) == key then c.(weight := c.weight * 2.0) else c
  }

  /** The deck after "know" on the card with key `key` (`deck.map`). */
  function KnowWeights(deck: seq<StudyCard>, key: Key): (r: seq<StudyCard>)
    ensures |r| == |deck| && forall i :: 0 <= i < |deck| ==> r[i] == KnowEntry(deck[i], key)
  {
    seq(|deck|, i requires 0 <= i < |deck| => KnowEntry(deck[i], key))
  }

  /** The deck after "don't know" on the card with key `key` (`deck.map`). */
  function DontKnowWeights(deck: seq<StudyCard>, key: Key): (r: seq<StudyCard>)
    ensures |r| == |deck| && forall i :: 0 <= i < |deck| ==> r[i] == DontKnowEntry(deck[i], key)
  {
    seq(|deck|, i requires 0 <= i < |deck| => DontKnowEntry(deck[i], key))
  }

  /** "Know" keeps every card, in order, keeps every weight at or above the
      floor, and never raises a weight; only the answered card's weight moves. */
  lemma KnowKeepsFloorAndNeverRaises(deck: seq<StudyCard>, key: Key)
    requires WeightsAboveFloor(deck)
    ensures var r := KnowWeights(deck, key);
      && |r| == |deck| && WeightsAboveFloor(r)
      && (forall i :: 0 <= i < |deck| ==> r[i].card == deck[i].card && r[i].weight <= deck[i].weight)
      && (forall i :: 0 <= i < |deck| && CardKey(deck[i]) != key ==> r[i] == deck[i])
  {
  }

  /** "Don't know" keeps every card, in order, keeps every weight at or above
      the floor, strictly raises the answered card's weight and leaves every
      other card alone. */
  lemma DontKnowKeepsFloorAndRaises(deck: seq<StudyCard>, key: Key)
    requires WeightsAboveFloor(deck)
    ensures var r := DontKnowWeights(deck, key);
      && |r| == |deck| && WeightsAboveFloor(r)
      && (forall i :: 0 <= i < |deck| ==> r[i].card == deck[i].card)
      && (forall i :: 0 <= i < |deck| && CardKey(deck[i]) == key ==> r[i].weight > deck[i].weight)
      && (forall i :: 0 <= i < |deck| && CardKey(deck[i]) != key ==> r[i] == deck[i])
  {
  }

  /** The deck after restart: every weight back to 1, cards and order kept. */
  function ResetWeights(deck: seq<StudyCard>): (r: seq<StudyCard>)
    ensures |r| == |deck|
    ensures forall i :: 0 <= i < |deck| ==> r[i] == StudyCard(deck[i].card, InitialWeight)
  {
    seq(|deck|, i requires 0 <= i < |deck| => deck[i].(weight := InitialWeight))
  }

  /** The deck built from the fetched list: each card with weight 1. */
  function InitialDeck(list: seq<ApiCard>): (r: seq<StudyCard>)
    ensures |r| == |list|
    ensures forall i :: 0 <= i < |list| ==> r[i] == StudyCard(list[i], InitialWeight)
  {
    seq(|list|, i requires 0 <= i < |list| => StudyCard(list[i], InitialWeight))
  }

  /** With distinct keys, an answer on the card at `c` changes that card's
      weight and nothing else in the deck. */
  lemma AnswerChangesOnlyCurrent(deck: seq<StudyCard>, c: nat)
    requires c < |deck| && DistinctKeys(deck)
    ensures forall i :: 0 <= i < |deck| && i != c ==>
      KnowWeights(deck, CardKey(deck[c]))[i] == deck[i] &&
      DontKnowWeights(deck, CardKey(deck[c]))[i] == deck[i]
    ensures KnowWeights(deck, CardKey(deck[c]))[c] == StudyCard(deck[c].card, Halve(deck[c].weight))
    ensures DontKnowWeights(deck, CardKey(deck[c]))[c] == StudyCard(deck[c].card, deck[c].weight * 2.0)
  {
    forall i | 0 <= i < |deck| && i != c
      ensures CardKey(deck[i]) != CardKey(deck[c])
    {
      if i < c { assert CardKey(deck[i]) != CardKey(deck[c]); }
      else { assert CardKey(deck[c]) != CardKey(deck[i]); }
    }
  }

  // ---------------------------------------------------------------------
  // The learned set
  // ---------------------------------------------------------------------

  /** A deck has at most as many distinct keys as cards, and exactly as many
      when its keys are distinct. */
  lemma {:induction false} KeySetSize(deck: seq<StudyCard>)
    ensures |KeySet(deck)| <= |deck|
    ensures DistinctKeys(deck) ==> |KeySet(deck)| == |deck|
  {
    if deck != [] {
      var rest := deck[1..];
      KeySetSize(rest);
      if DistinctKeys(deck) {
        assert DistinctKeys(rest) by {
          forall i, j | 0 <= i < j < |rest| ensures CardKey(rest[i]) != CardKey(rest[j]) {
            assert rest[i] == deck[i + 1] && rest[j] == deck[j + 1];
          }
        }
        InKeySet(rest, CardKey(deck[0]));
      }
    }
  }

  /** A subset is no larger than its superset, and a proper subset is smaller. */
  lemma SubsetSize<T>(a: set<T>, b: set<T>)
    requires a <= b
    ensures |a| <= |b|
    ensures a != b ==> |a| < |b|
  {
    assert b == a + (b - a);
    if a != b {
      var x :| x in b && x !in a;
      assert x in b - a;
    }
  }

  /** Two decks with the same cards in the same places have the same keys. */
  lemma {:induction false} SameCardsSameKeys(a: seq<StudyCard>, b: seq<StudyCard>)
    requires |a| == |b| && forall i :: 0 <= i < |a| ==> a[i].card == b[i].card
    ensures KeySet(a) == KeySet(b)
  {
    if a != [] {
      assert a[0].card == b[0].card;
      SameCardsSameKeys(a[1..], b[1..]);
    }
  }

  /** With distinct keys, a learned set drawn from the deck's keys has as many
      elements as the deck exactly when every card of the deck is in it: the
      size test of the study page means "every card was known once". */
  lemma {:induction false} FullIffAllLearned(deck: seq<StudyCard>, learned: set<Key>)
    requires DistinctKeys(deck) && learned <= KeySet(deck)
    ensures |learned| == |deck| <==> forall i :: 0 <= i < |deck| ==> CardKey(deck[i]) in learned
  {
    KeySetSize(deck);
    SubsetSize(learned, KeySet(deck));
    forall i | 0 <= i < |deck| ensures CardKey(deck[i]) in KeySet(deck) {
      InKeySet(deck, CardKey(deck[i]));
    }
    if forall i :: 0 <= i < |deck| ==> CardKey(deck[i]) in learned {
      forall k | k in KeySet(deck) ensures k in learned {
        InKeySet(deck, k);
      }
      assert learned == KeySet(deck);
    }
  }

  /** `a / b * 100` for `0 <= a <= b`, `0 < b`: within [0, 100], and 100
      exactly when `a == b`. */
  function Percent(a: nat, b: nat): (p: real)
    requires a <= b && 0 < b
    ensures 0.0 <= p <= 100.0
    ensures p == 100.0 <==> a == b
  {
    Ratio(a as real, b as real);
    (a as real / b as real) * 100.0
  }

  /** `x / y` for `0 <= x <= y`, `0 < y` lies in [0, 1] and is 1 exactly
      when `x == y`. */
  lemma Ratio(x: real, y: real)
    requires 0.0 <= x <= y && 0.0 < y
    ensures 0.0 <= x / y <= 1.0
    ensures x / y == 1.0 <==> x == y
  {
    var q := x / y;
    assert q * y == x;
    assert (1.0 - q) * y == y - x;
    NonNegFactor(q, y);
    NonNegFactor(1.0 - q, y);
    if q == 1.0 {
      assert x == 1.0 * y;
    }
  }

  /** A product with a positive factor is non-negative only if the other
      factor is. */
  lemma NonNegFactor(a: real, y: real)
    requires 0.0 < y && 0.0 <= a * y
    ensures 0.0 <= a
  {
  }

  /** The session invariant over the page's state variables: weights never go
      below the floor, `known` never exceeds `total`, learned keys belong to
      the deck, the current card is in the deck, and the session is finished
      exactly when the learned set is as large as the (non-empty) deck. */
  ghost predicate SessionInv(deck: seq<StudyCard>, current: nat, known: nat, total: nat,
                             learned: set<Key>, finished: bool, error: Option<string>)
  {
    && WeightsAboveFloor(deck)
    && known <= total
    && learned <= KeySet(deck)
    && (0 < |deck| ==> current < |deck|)
    && (finished <==> 0 < |deck| && |learned| == |deck|)
    && (error.Some? ==> deck == [])
  }

  /** A "know" on the current card keeps the session invariant, whichever
      card `next` is drawn when the session goes on. */
  lemma KnowKeepsInv(deck: seq<StudyCard>, current: nat, known: nat, total: nat,
                     learned: set<Key>, finished: bool, error: Option<string>, next: nat)
    requires SessionInv(deck, current, known, total, learned, finished, error)
    requires 0 < |deck| && next < |deck|
    ensures var key := CardKey(deck[current]);
            var newLearned := learned + {key};
            SessionInv(KnowWeights(deck, key), next, known + 1, total + 1, newLearned,
                       |newLearned| == |deck|, error)
  {
    var key := CardKey(deck[current]);
    var newLearned := learned + {key};
    var updated := KnowWeights(deck, key);
    InKeySet(deck, key);
    KnowKeepsFloorAndNeverRaises(deck, key);
    SameCardsSameKeys(updated, deck);
    KeySetSize(deck);
    SubsetSize(newLearned, KeySet(deck));
    SubsetSize(learned, newLearned);
  }

  /** Text of the error shown for a folder without cards. */
  const NoCardsMessage: string := "Nessuna flashcard in questa cartella."

  /** The study page's session state and its handlers. */
  class Session {
    var deck: seq<StudyCard>
    var current: nat          // index in `deck` of the card on screen
    var flipped: bool         // the back of the card is showing
    var known: nat            // answers "know"
    var total: nat            // answers of either kind
    var learned: set<Key>     // keys of the cards answered "know" at least once
    var finished: bool
    var error: Option<string>

    /** The session invariant: weights never go below the floor, `known`
        never exceeds `total`, learned keys belong to the deck, the current
        card is in the deck, and the session is finished exactly when the
        learned set is as large as the (non-empty) deck. */
    ghost predicate Valid()
      reads this
    {
      SessionInv(deck, current, known, total, learned, finished, error)
    }

    /** Loading the folder's cards when the page opens: a failed request
        shows its message and leaves the deck empty; an empty list is an
        error and no deck; otherwise every card gets weight 1 and a first
        card is drawn. */
    constructor Load(fetched: Result<seq<ApiCard>, string>, u: real)
      ensures Valid()
      ensures fetched.Err? ==> error == Some(fetched.error) && deck == []
      ensures fetched == Ok([]) ==> error == Some(NoCardsMessage) && deck == []
      ensures fetched.Ok? && fetched.value != [] ==>
        error == None && deck == InitialDeck(fetched.value) && current == Pick(deck, u)
      ensures !flipped && known == 0 && total == 0 && learned == {} && !finished
    {
      var first := 0;
      var list := if fetched.Ok? then fetched.value else [];
      if list != [] {
        first := WeightedRandom(InitialDeck(list), u);
      }
      deck := InitialDeck(list);
      current := first;
      flipped := false;
      known := 0;
      total := 0;
      learned := {};
      finished := false;
      error := if fetched.Err? then Some(fetched.error)
               else if list == [] then Some(NoCardsMessage) else None;
    }

    /** A click on the card turns it over. */
    method Flip()
      requires Valid()
      modifies this
      ensures Valid()
      ensures flipped == !old(flipped)
      ensures deck == old(deck) && current == old(current) && known == old(known) && total == old(total)
      ensures learned == old(learned) && finished == old(finished) && error == old(error)
    {
      flipped := !flipped;
    }

    /** "Know": ignored unless the card is flipped; otherwise both counters
        go up, the card's key joins the learned set, its weight is halved down
        to the floor, and either the session finishes (the learned set is as
        large as the deck) or the card turns back and a next card is drawn. */
    method Know(u: real)
      requires Valid() && 0 < |deck|
      modifies this
      ensures Valid()
      ensures error == old(error) && |deck| == |old(deck)|
      ensures !old(flipped) ==>
        deck == old(deck) && current == old(current) && !flipped && known == old(known)
        && total == old(total) && learned == old(learned) && finished == old(finished)
      ensures old(flipped) ==>
        && known == old(known) + 1 && total == old(total) + 1
        && learned == old(learned) + {CardKey(old(deck)[old(current)])}
        && deck == KnowWeights(old(deck), CardKey(old(deck)[old(current)]))
        && finished == (|learned| == |deck|)
        && (finished ==> flipped && current == old(current))
        && (!finished ==> !flipped && current == Pick(deck, u))
    {
      if flipped {
        var key := CardKey(deck[current]);
        var newLearned := learned + {key};
        var updated := KnowWeights(deck, key);
        var done := |newLearned| == |deck|;
        var next := current;
        if !done {
          next := WeightedRandom(updated, u);
        }
        KnowKeepsInv(deck, current, known, total, learned, finished, error, next);
        known, total, learned, deck, finished, current, flipped :=
          known + 1, total + 1, newLearned, updated, done, next, done;
      }
    }

    /** "Don't know": ignored unless the card is flipped; otherwise only
        `total` goes up, the card's weight doubles, the card turns back and a
        next card is drawn. The learned set and `finished` stay. */
    method DontKnow(u: real)
      requires Valid() && 0 < |deck|
      modifies this
      ensures Valid()
      ensures error == old(error) && learned == old(learned) && finished == old(finished)
      ensures known == old(known)
      ensures !old(flipped) ==>
        deck == old(deck) && current == old(current) && !flipped && total == old(total)
      ensures old(flipped) ==>
        && total == old(total) + 1
        && deck == DontKnowWeights(old(deck), CardKey(old(deck)[old(current)]))
        && !flipped && current == Pick(deck, u)
    {
      if !flipped {
        return;
      }
      total := total + 1;
      var updated := DontKnowWeights(deck, CardKey(deck[current]));
      DontKnowKeepsFloorAndRaises(deck, CardKey(deck[current]));
      SameCardsSameKeys(updated, deck);
      deck := updated;
      flipped := false;
      current := WeightedRandom(updated, u);
    }

    /** Restart: every weight back to 1, counters to 0, learned set emptied,
        `finished` and `flipped` cleared, and a first card drawn again. */
    method Restart(u: real)
      requires Valid() && 0 < |deck|
      modifies this
      ensures Valid()
      ensures deck == ResetWeights(old(deck)) && current == Pick(deck, u)
      ensures known == 0 && total == 0 && learned == {} && !finished && !flipped
      ensures error == old(error)
    {
      var reset := ResetWeights(deck);
      SameCardsSameKeys(reset, deck);
      deck := reset;
      known := 0;
      total := 0;
      learned := {};
      finished := false;
      flipped := false;
      current := WeightedRandom(reset, u);
    }

    /** The progress bar: learned cards as a percentage of the deck, 0 for an
        empty deck; it reaches 100 exactly when the session is finished. */
    function Progress(): (p: real)
      reads this
      requires Valid()
      ensures 0.0 <= p <= 100.0
      ensures 0 < |deck| ==> (p == 100.0 <==> finished)
      ensures deck == [] ==> p == 0.0
    {
      KeySetSize(deck);
      SubsetSize(learned, KeySet(deck));
      if 0 < |deck| then Percent(|learned|, |deck|) else 0.0
    }
  }

  // ---------------------------------------------------------------------
  // The card identity as the page writes it
  // ---------------------------------------------------------------------

  /** The page's own comparison `c.id === current.id`: it reads the `id`
      field, which the API's cards do not carry, so two missing ids compare
      equal. */
  function KnowWeightsAsWritten(deck: seq<StudyCard>, current: StudyCard): (r: seq<StudyCard>)
    ensures |r| == |deck|
    ensures forall i :: 0 <= i < |deck| ==>
      r[i] == if deck[i].card.id == current.card.id then deck[i].(weight := Halve(deck[i].weight)) else deck[i]
  {
    seq(|deck|, i requires 0 <= i < |deck| =>
      if deck[i].card.id == current.card.id then deck[i].(weight := Halve(deck[i].weight)) else deck[i])
  }

  /** Two cards as the API returns them (an `_id`, no `id`): answering "know"
      on the first halves the second as well, and knowing both leaves a learned
      set `{current.id}` of size 1, never the deck's size 2, so the session
      cannot finish. With the key `_id ?? id` only the first card changes and
      the learned set reaches size 2. */
  lemma KnowAsWrittenTouchesOtherCards()
    ensures var a := StudyCard(ApiCard(Some("a"), None, "q1", "r1"), 1.0);
            var b := StudyCard(ApiCard(Some("b"), None, "q2", "r2"), 1.0);
            var deck := [a, b];
            && KnowWeightsAsWritten(deck, a)[1].weight == 0.5
            && |{a.card.id} + {b.card.id}| != |deck|
            && KnowWeights(deck, CardKey(a))[1] == b
            && |{CardKey(a)} + {CardKey(b)}| == |deck|
  {
    var a := StudyCard(ApiCard(Some("a"), None, "q1", "r1"), 1.0);
    var b := StudyCard(ApiCard(Some("b"), None, "q2", "r2"), 1.0);
    assert {a.card.id} + {b.card.id} == {None};
    assert CardKey(a) != CardKey(b);
    assert |{CardKey(a)} + {CardKey(b)}| == 2;
  }
}
