/** The folder document and its construction: a name, an owner, a join code
    that nobody else's folder carries, and the list of members with their
    roles, the owner first. */
module FolderModel {
  import opened Wrappers
  import opened Bson

  /** An entry of `members`: a user and the role, `"owner"` or `"member"`. */
  datatype Member = Member(userId: ObjectId, role: string)

  /** A `folders` document; `id` is `None` until the document is inserted,
      and `members` is `None` when the document has no such key. */
  datatype Folder = Folder(id: Option<ObjectId>, name: string, ownerId: ObjectId, joinCode: string,
                           members: Option<seq<Member>>, createdAt: real)

  /** `string.ascii_uppercase + string.digits`. */
  const CodeAlphabet: string := "ABCDEFGHIJKLMNOPQRSTUVWXYZ0123456789"

  /** Length of a join code unless the caller asks for another. */
  const DefaultCodeLength: nat := 7

  predicate IsCodeChar(c: char) {
    'A' <= c <= 'Z' || '0' <= c <= '9'
  }

  /** A members entry as stored: `{"userId": ObjectId, "role": str}`. */
  function MemberDoc(m: Member): Value {
    Dict([Entry("userId", Oid(m.userId)), Entry("role", String(m.role))])
  }

  /** A folder as the `folders` collection returns it: `_id` first once it
      is inserted, then the keys of `create_folder`'s dictionary in their
      order, `members` only when the document has the key. */
  function FolderDoc(f: Folder): Value {
    Dict((if f.id.Some? then [Entry("_id", Oid(f.id.value))] else [])
         + [Entry("name", String(f.name)), Entry("ownerId", Oid(f.ownerId)),
            Entry("joinCode", String(f.joinCode))]
         + (if f.members.Some?
            then [Entry("members", List(seq(|f.members.value|, i requires 0 <= i < |f.members.value| =>
                                              MemberDoc(f.members.value[i]))))]
            else [])
         + [Entry("createdAt", Date(f.createdAt))])
  }

  /** The alphabet holds 36 characters, each an upper-case letter or a digit. */
  lemma AlphabetChars()
    ensures |CodeAlphabet| == 36
    ensures forall i :: 0 <= i < 36 ==> IsCodeChar(CodeAlphabet[i])
  {
  }

  /** One draw of `random.choices(chars, k=length)`, given as the positions
      of the drawn characters in the alphabet. */
  predicate ValidDraw(draw: seq<nat>, length: nat) {
    |draw| == length && forall i :: 0 <= i < |draw| ==> draw[i] < |CodeAlphabet|
  }

  /** `"".join(...)` of the drawn characters. */
  function CodeOf(draw: seq<nat>): (code: string)
    requires forall i :: 0 <= i < |draw| ==> draw[i] < |CodeAlphabet|
    ensures |code| == |draw|
    ensures forall i :: 0 <= i < |code| ==> IsCodeChar(code[i])
  {
    AlphabetChars();
    seq(|draw|, i requires 0 <= i < |draw| => CodeAlphabet[draw[i]])
  }

  /** Attempt `k` of the draws yields a code not in `used`. */
  predicate FreshAt(draws: seq<seq<nat>>, used: set<string>, length: nat, k: int)
    requires forall j :: 0 <= j < |draws| ==> ValidDraw(draws[j], length)
  {
    0 <= k < |draws| && (assert ValidDraw(draws[k], length); CodeOf(draws[k]) !in used)
  }

  /** `generate_join_code(length)` against the join codes `used` by existing
      folders: draw after draw until one is unused. The draws are the
      successive results of `random.choices`, and one of them is unused. */
  method GenerateJoinCode(length: nat, used: set<string>, draws: seq<seq<nat>>) returns (code: string)
    requires forall j :: 0 <= j < |draws| ==> ValidDraw(draws[j], length)
    requires exists k :: FreshAt(draws, used, length, k)
    ensures |code| == length
    ensures forall i :: 0 <= i < |code| ==> IsCodeChar(code[i])
    ensures code !in used
    ensures exists k :: FreshAt(draws, used, length, k) && code == CodeOf(draws[k])
                        && forall j :: 0 <= j < k ==> CodeOf(draws[j]) in used
  {
    var i := 0;
    code := CodeOf(draws[0]);
    while code in used
      invariant 0 <= i < |draws| && code == CodeOf(draws[i])
      invariant exists k :: i <= k && FreshAt(draws, used, length, k)
      invariant forall j :: 0 <= j < i ==> CodeOf(draws[j]) in used
      decreases |draws| - i
    {
      i := i + 1;
      code := CodeOf(draws[i]);
    }
    assert FreshAt(draws, used, length, i);
  }

  /** `create_folder(name, owner_id)` with the join code already drawn and
      the clock reading `now`. */
  function CreateFolder(name: string, ownerId: ObjectId, joinCode: string, now: real): (f: Folder)
    ensures f.id == None && f.name == name && f.ownerId == ownerId && f.joinCode == joinCode
    ensures f.members == Some([Member(ownerId, "owner")])
  {
    Folder(None, name, ownerId, joinCode, Some([Member(ownerId, "owner")]), now)
  }
}
