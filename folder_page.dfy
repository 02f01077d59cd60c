/** The folder page: the folder's cards as the API lists them, which backs
    are shown, the two-press delete of a card and the guard in front of
    adding one. Each request's outcome is a parameter: `None` for success,
    `Some(message)` for the error it raised. */
module FolderPage {
  import opened Wrappers
  import opened Text
  import opened Seqs
  import opened Confirmation
  import opened StudySession

  /** Showing or hiding the back of card `k`: `k` changes side, no other
      identity does. */
  function Toggle(shown: set<Key>, k: Key): (r: set<Key>)
    ensures k in r <==> k !in shown
    ensures forall j :: j != k ==> (j in r <==> j in shown)
  {
    if k in shown then shown - {k} else shown + {k}
  }

  /** Toggling twice restores the set. */
  lemma ToggleTwice(shown: set<Key>, k: Key)
    ensures Toggle(Toggle(shown, k), k) == shown
  {
    var once := Toggle(shown, k);
    var twice := Toggle(once, k);
    forall j
      ensures j in twice <==> j in shown
    {
      if j == k {
        assert j in once <==> j !in shown;
      }
    }
  }

  /** The cards whose identity `_id ?? id` differs from `k`, in their order. */
  function WithoutCard(cards: seq<ApiCard>, k: Key): (r: seq<ApiCard>)
    ensures |r| <= |cards|
    ensures forall c :: c in r <==> c in cards && IdOf(c) != k
  {
    if cards == [] then []
    else if IdOf(cards[0]) != k then [cards[0]] + WithoutCard(cards[1..], k)
    else WithoutCard(cards[1..], k)
  }

  /** Removing a card keeps the others in their order. */
  lemma {:induction false} WithoutCardSubsequence(cards: seq<ApiCard>, k: Key)
    ensures IsSubsequence(WithoutCard(cards, k), cards)
  {
    if cards != [] {
      WithoutCardSubsequence(cards[1..], k);
      var rest := WithoutCard(cards[1..], k);
      if IdOf(cards[0]) != k {
        assert WithoutCard(cards, k) == [cards[0]] + rest;
        assert ([cards[0]] + rest)[1..] == rest;
      }
    }
  }

  /** Every card with another identity remains as often as it was listed,
      and none with the removed identity does. */
  lemma {:induction false} WithoutCardCounts(cards: seq<ApiCard>, k: Key)
    ensures forall c :: multiset(WithoutCard(cards, k))[c] == if IdOf(c) != k then multiset(cards)[c] else 0
  {
    if cards != [] {
      WithoutCardCounts(cards[1..], k);
      assert cards == [cards[0]] + cards[1..];
    }
  }

  /** Removing an identity no card carries changes nothing. */
  lemma {:induction false} WithoutAbsentCard(cards: seq<ApiCard>, k: Key)
    requires forall i :: 0 <= i < |cards| ==> IdOf(cards[i]) != k
    ensures WithoutCard(cards, k) == cards
  {
    if cards != [] {
      WithoutAbsentCard(cards[1..], k);
      assert [cards[0]] + cards[1..] == cards;
    }
  }

  /** The request `handleAdd` sends: the trimmed sides, or nothing when a
      side is blank. */
  function AddRequest(front: string, back: string): (r: Option<(string, string)>)
    ensures r.None? <==> AllSpace(JavaScript, front) || AllSpace(JavaScript, back)
    ensures r.Some? ==> r.value.0 == Strip(JavaScript, front) && r.value.1 == Strip(JavaScript, back)
    ensures r.Some? ==> r.value.0 != [] && r.value.1 != []
  {
    BlankIffAllSpace(JavaScript, front);
    BlankIffAllSpace(JavaScript, back);
    if IsBlank(JavaScript, front) || IsBlank(JavaScript, back) then None else Some((Strip(JavaScript, front), Strip(JavaScript, back)))
  }

  /** The page's state: the listed cards, the identities whose back is
      shown, the armed delete button, the error line and the two inputs. */
  class FolderView {
    var cards: seq<ApiCard>
    var revealed: set<Key>
    var confirm: Confirm
    var error: string
    var front: string
    var back: string

    constructor()
      ensures cards == [] && revealed == {} && confirm == Idle
      ensures error == "" && front == "" && back == ""
    {
      cards := [];
      revealed := {};
      confirm := Idle;
      error := "";
      front := "";
      back := "";
    }

    /** `loadCards`: every back is hidden again; the list is replaced when
        the request succeeds, the error shown when it fails. */
    method Load(fetched: Result<seq<ApiCard>, string>)
      modifies this
      ensures revealed == {}
      ensures fetched.Ok? ==> cards == fetched.value && error == ""
      ensures fetched.Err? ==> cards == old(cards) && error == fetched.error
      ensures confirm == old(confirm) && front == old(front) && back == old(back)
    {
      error := "";
      revealed := {};
      match fetched
      case Ok(list) => cards := list;
      case Err(msg) => error := msg;
    }

    /** `toggleReveal(k)`. */
    method ToggleReveal(k: Key)
      modifies this
      ensures revealed == Toggle(old(revealed), k)
      ensures cards == old(cards) && confirm == old(confirm) && error == old(error)
      ensures front == old(front) && back == old(back)
    {
      revealed := Toggle(revealed, k);
    }

    /** `handleDelete(k)`: a press on a card the button is not armed for
        arms it; a press on the armed card sends the request (`sent`), after
        which the button is disarmed and, on success, every card with that
        identity leaves the list. */
    method HandleDelete(k: Key, outcome: Option<string>) returns (sent: bool)
      modifies this
      ensures sent <==> Confirms(old(confirm), k)
      ensures !sent ==> confirm == Armed(k) && cards == old(cards) && error == old(error)
      ensures sent ==> confirm == Idle
      ensures sent && outcome.None? ==> cards == WithoutCard(old(cards), k) && error == old(error)
      ensures sent && outcome.Some? ==> cards == old(cards) && error == outcome.value
      ensures revealed == old(revealed) && front == old(front) && back == old(back)
    {
      if confirm != Armed(k) {
        confirm := Armed(k);
        return false;
      }
      sent := true;
      match outcome
      case None =>
        confirm := Idle;
        cards := WithoutCard(cards, k);
      case Some(msg) =>
        error := msg;
        confirm := Idle;
    }

    /** The pointer leaving card `k`. */
    method MouseLeave(k: Key)
      modifies this
      ensures confirm == Leave(old(confirm), k)
      ensures cards == old(cards) && revealed == old(revealed) && error == old(error)
      ensures front == old(front) && back == old(back)
    {
      if confirm == Armed(k) {
        confirm := Idle;
      }
    }

    /** `handleAdd`: nothing happens while a side is blank; otherwise the
        trimmed sides are sent (`request`); on success both inputs are
        cleared and the list is reloaded (`loadCards`, whose request ends
        with `reload`), on failure the error is shown. */
    method HandleAdd(outcome: Option<string>, reload: Result<seq<ApiCard>, string>)
      returns (request: Option<(string, string)>)
      modifies this
      ensures request == AddRequest(old(front), old(back))
      ensures request.None? ==>
                front == old(front) && back == old(back) && error == old(error)
                && cards == old(cards) && revealed == old(revealed)
      ensures request.Some? && outcome.None? ==>
                && front == "" && back == "" && revealed == {}
                && (reload.Ok? ==> cards == reload.value && error == "")
                && (reload.Err? ==> cards == old(cards) && error == reload.error)
      ensures request.Some? && outcome.Some? ==>
                front == old(front) && back == old(back) && error == outcome.value
                && cards == old(cards) && revealed == old(revealed)
      ensures confirm == old(confirm)
    {
      request := AddRequest(front, back);
      if request.None? {
        return;
      }
      error := "";
      match outcome
      case None =>
        front := "";
        back := "";
        Load(reload);
      case Some(msg) =>
        error := msg;
    }
  }
}
