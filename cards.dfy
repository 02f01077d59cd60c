/** A flashcard document of the `flashcards` collection. */
module Cards {
  import opened Bson
  import opened Seqs

  /** `_id`, `folderId`, `front`, `back`, `createdAt`, and `aiGenerated`
      (present and true only on generated cards; absent reads as false). */
  datatype Flashcard = Flashcard(id: ObjectId, folderId: ObjectId, front: string, back: string,
                                 createdAt: real, aiGenerated: bool)

  /** `db.flashcards.find({"folderId": folderId})`: the folder's cards, in
      collection order. */
  function FolderCards(cards: seq<Flashcard>, folderId: ObjectId): (r: seq<Flashcard>)
    ensures forall c :: c in r <==> c in cards && c.folderId == folderId
    ensures |r| <= |cards|
  {
    if cards == [] then []
    else if cards[0].folderId == folderId then [cards[0]] + FolderCards(cards[1..], folderId)
    else FolderCards(cards[1..], folderId)
  }

  /** The folder's cards keep their collection order. */
  lemma {:induction false} FolderCardsSubsequence(cards: seq<Flashcard>, folderId: ObjectId)
    ensures IsSubsequence(FolderCards(cards, folderId), cards)
  {
    if cards != [] {
      FolderCardsSubsequence(cards[1..], folderId);
      var rest := FolderCards(cards[1..], folderId);
      if cards[0].folderId == folderId {
        assert ([cards[0]] + rest)[1..] == rest;
      }
    }
  }

  /** Every card of the folder is found as often as the collection holds
      it, and no other card is found. */
  lemma {:induction false} FolderCardsCounts(cards: seq<Flashcard>, folderId: ObjectId)
    ensures forall c :: multiset(FolderCards(cards, folderId))[c] ==
                          if c.folderId == folderId then multiset(cards)[c] else 0
  {
    if cards != [] {
      FolderCardsCounts(cards[1..], folderId);
      assert cards == [cards[0]] + cards[1..];
    }
  }
}
