/** The dashboard: the user's folders as the API lists them, which of them
    the user owns, which are shared, the two-press delete of an owned folder
    and the guard in front of creating one. Each request's outcome is a
    parameter: `None` for success, `Some(message)` for the error it raised. */
module Dashboard {
  import opened Wrappers
  import opened Text
  import opened Seqs
  import opened Bson
  import opened FolderModel
  import opened FolderRoutes
  import opened Confirmation

  /** An entry of a folder's `members` in the JSON reply: the user id is a
      string once serialised. */
  datatype ApiMember = ApiMember(userId: string, role: string)

  /** A folder as the JSON reply carries it; `None` is a missing field. */
  datatype ApiFolder = ApiFolder(oid: Option<string>, id: Option<string>, name: string,
                                 members: Option<seq<ApiMember>>)

  /** `folderId(f)`: `f._id ?? f.id`. */
  function FolderKey(f: ApiFolder): Option<string> {
    if f.oid.Some? then f.oid else f.id
  }

  /** Some entry of `ms` names user `me` with the role "owner". */
  function AnyOwner(ms: seq<ApiMember>, me: string): (r: bool)
    ensures r <==> exists i :: 0 <= i < |ms| && ms[i].userId == me && ms[i].role == "owner"
  {
    if ms == [] then false
    else if ms[0].userId == me && ms[0].role == "owner" then true
    else
      var r := AnyOwner(ms[1..], me);
      assert forall i :: 1 <= i < |ms| ==> ms[i] == ms[1..][i - 1];
      r
  }

  /** `isOwner(f)` for the user `me` read from the token (`None` when there
      is no readable token): false without a `members` list. */
  function IsOwner(f: ApiFolder, me: Option<string>): (r: bool)
    ensures r <==> me.Some? && f.members.Some?
                   && exists i :: 0 <= i < |f.members.value| && f.members.value[i] == ApiMember(me.value, "owner")
  {
    me.Some? && f.members.Some? && AnyOwner(f.members.value, me.value)
  }

  /** `isShared(f)`: more than one member; no list counts as none. */
  function IsShared(f: ApiFolder): (r: bool)
    ensures r <==> f.members.Some? && |f.members.value| > 1
  {
    |f.members.GetOr([])| > 1
  }

  /** The folders whose identity differs from `k`, in their order. */
  function WithoutFolder(folders: seq<ApiFolder>, k: Option<string>): (r: seq<ApiFolder>)
    ensures |r| <= |folders|
    ensures forall f :: f in r <==> f in folders && FolderKey(f) != k
  {
    if folders == [] then []
    else if FolderKey(folders[0]) != k then [folders[0]] + WithoutFolder(folders[1..], k)
    else WithoutFolder(folders[1..], k)
  }

  /** Removing a folder keeps the others in their order. */
  lemma {:induction false} WithoutFolderSubsequence(folders: seq<ApiFolder>, k: Option<string>)
    ensures IsSubsequence(WithoutFolder(folders, k), folders)
  {
    if folders != [] {
      WithoutFolderSubsequence(folders[1..], k);
      var rest := WithoutFolder(folders[1..], k);
      if FolderKey(folders[0]) != k {
        assert WithoutFolder(folders, k) == [folders[0]] + rest;
        assert ([folders[0]] + rest)[1..] == rest;
      }
    }
  }

  /** Every folder with another identity remains as often as it was listed,
      and none with the removed identity does. */
  lemma {:induction false} WithoutFolderCounts(folders: seq<ApiFolder>, k: Option<string>)
    ensures forall f :: multiset(WithoutFolder(folders, k))[f] ==
                          if FolderKey(f) != k then multiset(folders)[f] else 0
  {
    if folders != [] {
      WithoutFolderCounts(folders[1..], k);
      assert folders == [folders[0]] + folders[1..];
    }
  }

  /** The name `handleCreate` sends: the trimmed input, or nothing when it
      is blank. */
  function CreateRequest(name: string): (r: Option<string>)
    ensures r.None? <==> AllSpace(JavaScript, name)
    ensures r.Some? ==> r.value == Strip(JavaScript, name) && r.value != []
  {
    BlankIffAllSpace(JavaScript, name);
    if IsBlank(JavaScript, name) then None else Some(Strip(JavaScript, name))
  }

  /** A stored folder as `serialize_doc` sends it: object ids become their
      strings, `members` entries included. */
  function ViewOf(f: Folder): (v: ApiFolder)
    ensures v.members.Some? <==> f.members.Some?
    ensures f.members.Some? ==> |v.members.value| == |f.members.value|
  {
    ApiFolder(if f.id.Some? then Some(Str(f.id.value)) else None, None, f.name,
              if f.members.Some?
              then Some(seq(|f.members.value|, i requires 0 <= i < |f.members.value| =>
                              ApiMember(Str(f.members.value[i].userId), f.members.value[i].role)))
              else None)
  }

  /** A JSON string field, or nothing when it is missing or not a string. */
  function ReadString(v: Option<Value>): Option<string> {
    if v.Some? && v.value.String? then Some(v.value.s) else None
  }

  /** A members entry of the JSON reply, when it has string `userId` and
      `role` fields. */
  function ReadMember(v: Value): Option<ApiMember> {
    if !v.Dict? then None
    else
      var u := ReadString(Lookup(v.entries, "userId"));
      var r := ReadString(Lookup(v.entries, "role"));
      if u.Some? && r.Some? then Some(ApiMember(u.value, r.value)) else None
  }

  /** A folder of the JSON reply as the page reads it: `_id` and `id` when
      they are strings, the name, and the members list when there is one;
      nothing for a value of another shape. */
  function ReadFolder(v: Value): Option<ApiFolder> {
    if !v.Dict? then None
    else
      var name := ReadString(Lookup(v.entries, "name"));
      var ms := Lookup(v.entries, "members");
      var oid := ReadString(Lookup(v.entries, "_id"));
      var id := ReadString(Lookup(v.entries, "id"));
      if name.None? then None
      else if ms.None? then Some(ApiFolder(oid, id, name.value, None))
      else if ms.value.List? && forall i :: 0 <= i < |ms.value.elems| ==> ReadMember(ms.value.elems[i]).Some? then
        var xs := ms.value.elems;
        Some(ApiFolder(oid, id, name.value, Some(seq(|xs|, i requires 0 <= i < |xs| => ReadMember(xs[i]).value))))
      else None
  }

  /** A serialised members entry reads as the member with its id as a string. */
  lemma ListedMemberIsView(m: Member)
    ensures ReadMember(SerializeDoc(MemberDoc(m))) == Some(ApiMember(Str(m.userId), m.role))
  {
    var es := MemberDoc(m).entries;
    var out := SerializeDoc(MemberDoc(m)).entries;
    assert out[0] == SerializeEntry(es[0]) && out[1] == SerializeEntry(es[1]);
    assert out == [Entry("userId", String(Str(m.userId))), Entry("role", String(m.role))];
    assert Lookup(out, "userId") == Some(String(Str(m.userId)));
    assert out[1..] == [Entry("role", String(m.role))];
    assert Lookup(out, "role") == Some(String(m.role));
  }

  /** The members list of a stored folder after `serialize_doc`. */
  function ListedMembers(ms: seq<Member>): seq<Value> {
    seq(|ms|, i requires 0 <= i < |ms| => SerializeDoc(MemberDoc(ms[i])))
  }

  /** The entries of a stored folder after `serialize_doc`: the object ids
      are strings, `members` holds the serialised entries. */
  function ListedEntries(f: Folder): seq<Entry> {
    (if f.id.Some? then [Entry("_id", String(Str(f.id.value)))] else [])
    + [Entry("name", String(f.name)), Entry("ownerId", String(Str(f.ownerId))),
       Entry("joinCode", String(f.joinCode))]
    + (if f.members.Some? then [Entry("members", List(ListedMembers(f.members.value)))] else [])
    + [Entry("createdAt", Date(f.createdAt))]
  }

  lemma SerializedFolder(f: Folder)
    ensures SerializeDoc(FolderDoc(f)) == Dict(ListedEntries(f))
  {
    var es := FolderDoc(f).entries;
    var out := SerializeDoc(FolderDoc(f)).entries;
    forall i | 0 <= i < |es| ensures out[i] == ListedEntries(f)[i] {
      assert out[i] == SerializeEntry(es[i]);
    }
  }

  /** The name and identity fields the page reads from a serialised folder. */
  lemma ListedNameAndIds(f: Folder)
    ensures Lookup(ListedEntries(f), "name") == Some(String(f.name))
    ensures ReadString(Lookup(ListedEntries(f), "_id")) == ViewOf(f).oid
    ensures Lookup(ListedEntries(f), "id") == None
  {
    var head := if f.id.Some? then [Entry("_id", String(Str(f.id.value)))] else [];
    LookupSkip(head, ListedEntries(f)[|head|..], "name");
    assert head + ListedEntries(f)[|head|..] == ListedEntries(f);
    assert ListedEntries(f) + [] == ListedEntries(f);
    LookupSkip(ListedEntries(f), [], "id");
    if f.id.None? {
      LookupSkip(ListedEntries(f), [], "_id");
    }
  }

  /** The members list the page reads from a serialised folder. */
  lemma ListedMembersLookup(f: Folder)
    ensures Lookup(ListedEntries(f), "members") ==
              if f.members.Some? then Some(List(ListedMembers(f.members.value))) else None
  {
    var head := if f.id.Some? then [Entry("_id", String(Str(f.id.value)))] else [];
    var mid := [Entry("name", String(f.name)), Entry("ownerId", String(Str(f.ownerId))),
                Entry("joinCode", String(f.joinCode))];
    var tail := if f.members.Some? then [Entry("members", List(ListedMembers(f.members.value)))] else [];
    var last := [Entry("createdAt", Date(f.createdAt))];
    assert ListedEntries(f) == head + (mid + (tail + last));
    LookupSkip(head, mid + (tail + last), "members");
    LookupSkip(mid, tail + last, "members");
    if f.members.None? {
      assert tail + last == last;
    }
  }

  /** `ViewOf` is what the page reads from `get_folders`' reply: the stored
      document passed through `serialize_doc`. */
  lemma ListedFolderIsView(f: Folder)
    ensures ReadFolder(SerializeDoc(FolderDoc(f))) == Some(ViewOf(f))
  {
    SerializedFolder(f);
    ListedNameAndIds(f);
    ListedMembersLookup(f);
    if f.members.Some? {
      var ms := f.members.value;
      var listed := ListedMembers(ms);
      forall i | 0 <= i < |listed| ensures ReadMember(listed[i]) == Some(ApiMember(Str(ms[i].userId), ms[i].role)) {
        ListedMemberIsView(ms[i]);
      }
      assert seq(|listed|, i requires 0 <= i < |listed| => ReadMember(listed[i]).value) == ViewOf(f).members.value;
    }
  }

  /** The page sees a folder as owned by exactly the users the stored
      folder lists as owners. */
  lemma OwnedViewIffStoredOwner(f: Folder, u: ObjectId)
    ensures IsOwner(ViewOf(f), Some(Str(u))) <==>
              f.members.Some? && exists i :: 0 <= i < |f.members.value| && f.members.value[i] == Member(u, "owner")
  {
    if f.members.Some? {
      var ms := f.members.value;
      var vs := ViewOf(f).members.value;
      if IsOwner(ViewOf(f), Some(Str(u))) {
        var i :| 0 <= i < |vs| && vs[i] == ApiMember(Str(u), "owner");
        assert ms[i].userId == u;
        assert ms[i] == Member(u, "owner");
      }
      if exists i :: 0 <= i < |ms| && ms[i] == Member(u, "owner") {
        var i :| 0 <= i < |ms| && ms[i] == Member(u, "owner");
        assert vs[i] == ApiMember(Str(u), "owner");
      }
    }
  }

  /** A user the backend finds to be the owner sees the folder as owned. */
  lemma OwnerRoleSeesOwned(f: Folder, u: ObjectId)
    requires GetMemberRole(f, Str(u)) == Some("owner")
    ensures IsOwner(ViewOf(f), Some(Str(u)))
  {
    var ms := f.members.GetOr([]);
    var i :| 0 <= i < |ms| && Str(ms[i].userId) == Str(u) && ms[i].role == "owner";
    assert ms[i] == Member(u, "owner");
    OwnedViewIffStoredOwner(f, u);
  }

  /** A new folder is owned by its creator and not shared; once another
      user joins it is shared, and still owned by the creator. */
  lemma CreatedThenJoined(name: string, owner: ObjectId, code: string, now: real, other: ObjectId)
    ensures var f := CreateFolder(name, owner, code, now);
      && IsOwner(ViewOf(f), Some(Str(owner))) && !IsShared(ViewOf(f))
      && IsShared(ViewOf(AddMember(f, Member(other, "member"))))
      && IsOwner(ViewOf(AddMember(f, Member(other, "member"))), Some(Str(owner)))
  {
    var f := CreateFolder(name, owner, code, now);
    var g := AddMember(f, Member(other, "member"));
    assert ViewOf(f).members.value[0] == ApiMember(Str(owner), "owner");
    assert ViewOf(g).members.value[0] == ApiMember(Str(owner), "owner");
  }

  /** The dashboard's state: the listed folders, the armed delete button,
      the error line and the name input; `me` is the user read from the
      token when the page renders. */
  class DashboardView {
    const me: Option<string>
    var folders: seq<ApiFolder>
    var confirm: Confirm
    var error: string
    var newName: string

    constructor(me: Option<string>)
      ensures this.me == me && folders == [] && confirm == Idle && error == "" && newName == ""
    {
      this.me := me;
      folders := [];
      confirm := Idle;
      error := "";
      newName := "";
    }

    /** `loadFolders`. */
    method Load(fetched: Result<seq<ApiFolder>, string>)
      modifies this
      ensures fetched.Ok? ==> folders == fetched.value && error == ""
      ensures fetched.Err? ==> folders == old(folders) && error == fetched.error
      ensures confirm == old(confirm) && newName == old(newName)
    {
      error := "";
      match fetched
      case Ok(list) => folders := list;
      case Err(msg) => error := msg;
    }

    /** `handleCreate`: nothing happens while the name is blank; otherwise
        the trimmed name is sent (`request`); on success the input is
        cleared and the list is reloaded (`loadFolders`, whose request ends
        with `reload`), on failure the error is shown. */
    method HandleCreate(outcome: Option<string>, reload: Result<seq<ApiFolder>, string>)
      returns (request: Option<string>)
      modifies this
      ensures request == CreateRequest(old(newName))
      ensures request.None? ==> newName == old(newName) && error == old(error) && folders == old(folders)
      ensures request.Some? && outcome.None? ==>
                && newName == ""
                && (reload.Ok? ==> folders == reload.value && error == "")
                && (reload.Err? ==> folders == old(folders) && error == reload.error)
      ensures request.Some? && outcome.Some? ==>
                newName == old(newName) && error == outcome.value && folders == old(folders)
      ensures confirm == old(confirm)
    {
      request := CreateRequest(newName);
      if request.None? {
        return;
      }
      error := "";
      match outcome
      case None =>
        newName := "";
        Load(reload);
      case Some(msg) => error := msg;
    }

    /** `handleDelete(e, k)`, reachable only from the delete button, which
        is drawn on the folders the user owns. A press on a folder the
        button is not armed for arms it; a press on the armed folder sends
        the request (`sent`), after which the button is disarmed and, on
        success, every folder with that identity leaves the list. */
    method HandleDelete(k: Option<string>, outcome: Option<string>) returns (sent: bool)
      requires exists i :: 0 <= i < |folders| && FolderKey(folders[i]) == k && IsOwner(folders[i], me)
      modifies this
      ensures sent <==> Confirms(old(confirm), k)
      ensures !sent ==> confirm == Armed(k) && folders == old(folders) && error == old(error)
      ensures sent ==> confirm == Idle
      ensures sent && outcome.None? ==> folders == WithoutFolder(old(folders), k) && error == old(error)
      ensures sent && outcome.Some? ==> folders == old(folders) && error == outcome.value
      ensures newName == old(newName)
    {
      if confirm != Armed(k) {
        confirm := Armed(k);
        return false;
      }
      sent := true;
      match outcome
      case None =>
        confirm := Idle;
        folders := WithoutFolder(folders, k);
      case Some(msg) =>
        error := msg;
        confirm := Idle;
    }

    /** The pointer leaving the card of folder `k`. */
    method MouseLeave(k: Option<string>)
      modifies this
      ensures confirm == Leave(old(confirm), k)
      ensures folders == old(folders) && error == old(error) && newName == old(newName)
    {
      if confirm == Armed(k) {
        confirm := Idle;
      }
    }
  }
}
