/** The two-press delete button both pages use: the first press on an item
    arms the button for that item, the second press deletes it, and leaving
    the item disarms the button. */
module Confirmation {
  import opened Wrappers

  /** `confirmDelete`: `null` is `Idle`. The armed identity is itself
      optional, since an item without `_id` and `id` has the identity
      `undefined`, which differs from `null`. */
  datatype Confirm = Idle | Armed(target: Option<string>)

  /** Pressing delete on `k`: `Some(k)` tells that the request is sent. */
  predicate Confirms(c: Confirm, k: Option<string>) {
    c == Armed(k)
  }

  /** Leaving item `k`: the button is disarmed only if it is armed for `k`. */
  function Leave(c: Confirm, k: Option<string>): (r: Confirm)
    ensures Confirms(c, k) ==> r == Idle
    ensures !Confirms(c, k) ==> r == c
    ensures forall j :: j != k ==> (Confirms(r, j) <==> Confirms(c, j))
  {
    if c == Armed(k) then Idle else c
  }
}
