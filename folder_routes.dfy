/** The decision logic of the folder endpoints: who is a member and with
    which role, joining by code, deleting (owner only), adding a card, and
    creating a folder. The `folders` and `flashcards` collections are the
    fields of a `FolderDb`; the authenticated user is `None` when the request
    carries no valid token. */
module FolderRoutes {
  import opened Wrappers
  import opened Bson
  import opened Text
  import opened Cards
  import opened FolderModel
  import opened Seqs

  /** The role of the first entry of `ms` whose user id, as a string, is `s`. */
  function FirstRole(ms: seq<Member>, s: string): (r: Option<string>)
    ensures r.None? <==> forall i :: 0 <= i < |ms| ==> Str(ms[i].userId) != s
    ensures r.Some? ==> exists i :: 0 <= i < |ms| && Str(ms[i].userId) == s && ms[i].role == r.value
                                    && forall j :: 0 <= j < i ==> Str(ms[j].userId) != s
  {
    if ms == [] then None
    else if Str(ms[0].userId) == s then Some(ms[0].role)
    else
      var r := FirstRole(ms[1..], s);
      assert forall i :: 1 <= i < |ms| ==> ms[i] == ms[1..][i - 1];
      r
  }

  /** `get_member_role(folder, user_id_str)`; a folder without `members`
      has no members. */
  function GetMemberRole(folder: Folder, userIdStr: string): (r: Option<string>)
    ensures folder.members.None? ==> r.None?
    ensures folder.members.Some? ==>
      (r.None? <==> forall i :: 0 <= i < |folder.members.value| ==> Str(folder.members.value[i].userId) != userIdStr)
    ensures r.Some? ==> folder.members.Some?
    ensures r.Some? && folder.members.Some? ==>
      exists i :: 0 <= i < |folder.members.value| && Str(folder.members.value[i].userId) == userIdStr
                  && folder.members.value[i].role == r.value
  {
    FirstRole(folder.members.GetOr([]), userIdStr)
  }

  /** Python truthiness of a role: `None` and `""` are false. */
  predicate Truthy(role: Option<string>) {
    role.Some? && role.value != ""
  }

  /** The creator of a folder is its owner. */
  lemma CreatorIsOwner(name: string, owner: ObjectId, code: string, now: real)
    ensures GetMemberRole(CreateFolder(name, owner, code, now), Str(owner)) == Some("owner")
  {
  }

  /** `(code or "").strip().upper()`. */
  function NormaliseCode(code: Option<string>): (r: string)
    ensures code.None? ==> r == ""
    ensures forall i :: 0 <= i < |r| ==> !('a' <= r[i] <= 'z')
    ensures var s := code.GetOr("");
      exists i, j :: 0 <= i <= j <= |s| && r == Upper(s[i..j]) && AllSpace(Python, s[..i]) && AllSpace(Python, s[j..])
  {
    StripSpec(Python, code.GetOr(""));
    Upper(Strip(Python, code.GetOr("")))
  }

  /** Upper-casing keeps whitespace where it is, so a string without
      whitespace at its ends keeps that property. */
  lemma UpperKeepsEnds(s: string)
    requires s == [] || (!IsSpace(Python, s[0]) && !IsSpace(Python, s[|s| - 1]))
    ensures var u := Upper(s); u == [] || (!IsSpace(Python, u[0]) && !IsSpace(Python, u[|u| - 1]))
  {
  }

  /** A string with no whitespace at either end is its own strip. */
  lemma StripNoop(s: string)
    requires s == [] || (!IsSpace(Python, s[0]) && !IsSpace(Python, s[|s| - 1]))
    ensures Strip(Python, s) == s
  {
    var r := Strip(Python, s);
    StripSpec(Python, s);
    var i, j :| 0 <= i <= j <= |s| && r == s[i..j] && AllSpace(Python, s[..i]) && AllSpace(Python, s[j..]);
  }

  /** Upper-casing twice is upper-casing once. */
  lemma UpperIdempotent(s: string)
    ensures Upper(Upper(s)) == Upper(s)
  {
  }

  /** A normalised code has no lower-case letter and no surrounding
      whitespace, and normalising it again changes nothing. */
  lemma NormaliseIdempotent(code: Option<string>)
    ensures var c := NormaliseCode(code);
      && (forall i :: 0 <= i < |c| ==> !('a' <= c[i] <= 'z'))
      && (c == [] || (!IsSpace(Python, c[0]) && !IsSpace(Python, c[|c| - 1])))
      && NormaliseCode(Some(c)) == c
  {
    var t := Strip(Python, code.GetOr(""));
    StripSpec(Python, code.GetOr(""));
    var c := Upper(t);
    assert c == NormaliseCode(code);
    UpperKeepsEnds(t);
    StripNoop(c);
    UpperIdempotent(t);
    assert NormaliseCode(Some(c)) == Upper(c);
  }

  /** The index of the first folder whose join code is `code`
      (`find_one({"joinCode": code})`). */
  function FindByCode(folders: seq<Folder>, code: string): (r: Option<nat>)
    ensures r.None? <==> forall i :: 0 <= i < |folders| ==> folders[i].joinCode != code
    ensures r.Some? ==> r.value < |folders| && folders[r.value].joinCode == code
                        && forall j :: 0 <= j < r.value ==> folders[j].joinCode != code
    decreases |folders|
  {
    if folders == [] then None
    else if folders[0].joinCode == code then Some(0)
    else
      match FindByCode(folders[1..], code)
      case None => None
      case Some(k) => Some(k + 1)
  }

  /** The index of the first folder whose `_id` is `id`. */
  function FindById(folders: seq<Folder>, id: ObjectId): (r: Option<nat>)
    ensures r.None? <==> forall i :: 0 <= i < |folders| ==> folders[i].id != Some(id)
    ensures r.Some? ==> r.value < |folders| && folders[r.value].id == Some(id)
                        && forall j :: 0 <= j < r.value ==> folders[j].id != Some(id)
    decreases |folders|
  {
    if folders == [] then None
    else if folders[0].id == Some(id) then Some(0)
    else
      match FindById(folders[1..], id)
      case None => None
      case Some(k) => Some(k + 1)
  }

  /** `$push` of an entry to `members`; a missing list is created. */
  function AddMember(f: Folder, m: Member): (r: Folder)
    ensures r.members.Some? && r.members.value == f.members.GetOr([]) + [m]
    ensures r.(members := f.members) == f
  {
    f.(members := Some(f.members.GetOr([]) + [m]))
  }

  /** After joining, the user has a role in the folder: "member" when there
      was none before, and the earlier entries keep their places. */
  lemma JoinedHasRole(f: Folder, user: ObjectId)
    ensures var g := AddMember(f, Member(user, "member"));
      && GetMemberRole(g, Str(user)).Some?
      && (GetMemberRole(f, Str(user)).None? ==> GetMemberRole(g, Str(user)) == Some("member"))
      && g.members.value[..|f.members.GetOr([])|] == f.members.GetOr([])
  {
    var ms := f.members.GetOr([]);
    var g := AddMember(f, Member(user, "member"));
    assert g.members.value[|ms|] == Member(user, "member");
    if GetMemberRole(f, Str(user)).None? {
      assert forall i :: 0 <= i < |ms| ==> g.members.value[i] == ms[i];
    }
  }

  /** The cards left once a folder's cards are deleted (`delete_many`). */
  function WithoutFolderCards(cards: seq<Flashcard>, folderId: ObjectId): (r: seq<Flashcard>)
    ensures forall c :: c in r <==> c in cards && c.folderId != folderId
    ensures |r| <= |cards|
  {
    if cards == [] then []
    else if cards[0].folderId == folderId then WithoutFolderCards(cards[1..], folderId)
    else [cards[0]] + WithoutFolderCards(cards[1..], folderId)
  }

  /** The remaining cards keep their order. */
  lemma {:induction false} WithoutFolderCardsSubsequence(cards: seq<Flashcard>, folderId: ObjectId)
    ensures IsSubsequence(WithoutFolderCards(cards, folderId), cards)
  {
    if cards != [] {
      WithoutFolderCardsSubsequence(cards[1..], folderId);
      var rest := WithoutFolderCards(cards[1..], folderId);
      if cards[0].folderId != folderId {
        assert ([cards[0]] + rest)[1..] == rest;
      }
    }
  }

  /** Every card of another folder remains as often as it was stored, and
      none of the deleted folder's does. */
  lemma {:induction false} WithoutFolderCardsCounts(cards: seq<Flashcard>, folderId: ObjectId)
    ensures forall c :: multiset(WithoutFolderCards(cards, folderId))[c] ==
                          if c.folderId != folderId then multiset(cards)[c] else 0
  {
    if cards != [] {
      WithoutFolderCardsCounts(cards[1..], folderId);
      assert cards == [cards[0]] + cards[1..];
    }
  }

  /** The set of join codes in use. */
  function JoinCodes(folders: seq<Folder>): set<string> {
    set f | f in folders :: f.joinCode
  }

  datatype JoinResult = Unauthorized | MissingCode | InvalidCode
                      | AlreadyMember(folder: Folder) | Joined(folder: Folder)
                      | MembersMissing    // `folder["members"]` raised `KeyError` after the update

  datatype DeleteResult = Unauthorized | InvalidId | NotFound | Forbidden | Deleted

  datatype AddResult = Unauthorized | MissingFields | InvalidId | NotFound | Forbidden | Created(card: Flashcard)

  datatype CreateResult = Unauthorized | MissingName | Created(folder: Folder)

  class FolderDb {
    var folders: seq<Folder>
    var flashcards: seq<Flashcard>

    constructor (folders: seq<Folder>, flashcards: seq<Flashcard>)
      ensures this.folders == folders && this.flashcards == flashcards
    {
      this.folders := folders;
      this.flashcards := flashcards;
    }

    /** `POST /folders/join`: the code is normalised; an empty code and an
        unknown code are errors; a user who already has a (truthy) role gets
        the folder back unchanged; anyone else is appended as "member" to the
        first folder with that code. */
    method JoinFolder(user: Option<ObjectId>, code: Option<string>) returns (r: JoinResult)
      modifies this
      ensures flashcards == old(flashcards)
      ensures user.None? ==> r == JoinResult.Unauthorized && folders == old(folders)
      ensures user.Some? && NormaliseCode(code) == "" ==> r == MissingCode && folders == old(folders)
      ensures user.Some? && NormaliseCode(code) != "" && FindByCode(old(folders), NormaliseCode(code)).None? ==>
        r == InvalidCode && folders == old(folders)
      ensures user.Some? && NormaliseCode(code) != "" && FindByCode(old(folders), NormaliseCode(code)).Some? ==>
        var i := FindByCode(old(folders), NormaliseCode(code)).value;
        var f := old(folders)[i];
        if Truthy(GetMemberRole(f, Str(user.value))) then
          r == AlreadyMember(f) && folders == old(folders)
        else
          && folders == old(folders)[i := AddMember(f, Member(user.value, "member"))]
          && r == (if f.members.Some? then Joined(folders[i]) else MembersMissing)
    {
      if user.None? {
        return JoinResult.Unauthorized;
      }
      var c := NormaliseCode(code);
      if c == "" {
        return MissingCode;
      }
      var found := FindByCode(folders, c);
      if found.None? {
        return InvalidCode;
      }
      var i := found.value;
      var f := folders[i];
      if Truthy(GetMemberRole(f, Str(user.value))) {
        return AlreadyMember(f);
      }
      var joined := AddMember(f, Member(user.value, "member"));
      folders := folders[i := joined];
      if f.members.None? {
        return MembersMissing;
      }
      r := Joined(joined);
    }

    /** `DELETE /folders/<id>`: a malformed id, an unknown folder and a user
        whose role is not "owner" are errors; otherwise the folder and all
        its cards are gone and everything else stays, in order. */
    method DeleteFolder(user: Option<ObjectId>, folderId: string) returns (r: DeleteResult)
      modifies this
      ensures user.None? ==> r == DeleteResult.Unauthorized
      ensures user.Some? && ParseObjectId(folderId).None? ==> r == DeleteResult.InvalidId
      ensures r != Deleted ==> folders == old(folders) && flashcards == old(flashcards)
      ensures user.Some? && ParseObjectId(folderId).Some? ==>
        var oid := ParseObjectId(folderId).value;
        match FindById(old(folders), oid)
        case None => r == DeleteResult.NotFound
        case Some(i) =>
          if GetMemberRole(old(folders)[i], Str(user.value)) != Some("owner") then r == DeleteResult.Forbidden
          else
            && r == Deleted
            && flashcards == WithoutFolderCards(old(flashcards), oid)
            && folders == old(folders)[..i] + old(folders)[i + 1..]
    {
      if user.None? {
        return DeleteResult.Unauthorized;
      }
      var parsed := ParseObjectId(folderId);
      if parsed.None? {
        return DeleteResult.InvalidId;
      }
      var oid := parsed.value;
      var found := FindById(folders, oid);
      if found.None? {
        return DeleteResult.NotFound;
      }
      var i := found.value;
      if GetMemberRole(folders[i], Str(user.value)) != Some("owner") {
        return DeleteResult.Forbidden;
      }
      flashcards := WithoutFolderCards(flashcards, oid);
      folders := folders[..i] + folders[i + 1..];
      r := Deleted;
    }

    /** `POST /folders/flashcard`: a missing folder id or a blank side is an
        error, then a malformed id, an unknown folder and a non-member; a
        member's card is stored with both sides stripped, under id `newId`. */
    method AddFlashcard(user: Option<ObjectId>, folderId: Option<string>, front: Option<string>,
                        back: Option<string>, newId: ObjectId, now: real) returns (r: AddResult)
      modifies this
      ensures folders == old(folders)
      ensures r.Created? ==> flashcards == old(flashcards) + [r.card]
      ensures !r.Created? ==> flashcards == old(flashcards)
      ensures user.None? ==> r == AddResult.Unauthorized
      ensures user.Some? ==>
        var f := Strip(Python, front.GetOr(""));
        var b := Strip(Python, back.GetOr(""));
        if folderId.GetOr("") == "" || f == "" || b == "" then r == MissingFields
        else match ParseObjectId(folderId.value)
          case None => r == AddResult.InvalidId
          case Some(oid) =>
            match FindById(old(folders), oid)
            case None => r == AddResult.NotFound
            case Some(i) =>
              if !Truthy(GetMemberRole(old(folders)[i], Str(user.value))) then r == AddResult.Forbidden
              else r == AddResult.Created(Flashcard(newId, oid, f, b, now, false))
    {
      if user.None? {
        return AddResult.Unauthorized;
      }
      var f := Strip(Python, front.GetOr(""));
      var b := Strip(Python, back.GetOr(""));
      if folderId.GetOr("") == "" || f == "" || b == "" {
        return MissingFields;
      }
      var parsed := ParseObjectId(folderId.value);
      if parsed.None? {
        return AddResult.InvalidId;
      }
      var oid := parsed.value;
      var found := FindById(folders, oid);
      if found.None? {
        return AddResult.NotFound;
      }
      if !Truthy(GetMemberRole(folders[found.value], Str(user.value))) {
        return AddResult.Forbidden;
      }
      var card := Flashcard(newId, oid, f, b, now, false);
      flashcards := flashcards + [card];
      r := AddResult.Created(card);
    }

    /** `POST /folders`: a missing or blank name is an error; otherwise the
        folder is built with the stripped name, the user as sole owner and a
        join code no folder uses, and is stored under id `newId`. */
    method CreateNewFolder(user: Option<ObjectId>, name: Option<string>, draws: seq<seq<nat>>,
                           newId: ObjectId, now: real) returns (r: CreateResult)
      requires forall j :: 0 <= j < |draws| ==> ValidDraw(draws[j], DefaultCodeLength)
      requires exists k :: FreshAt(draws, JoinCodes(folders), DefaultCodeLength, k)
      modifies this
      ensures flashcards == old(flashcards)
      ensures r.Created? ==> folders == old(folders) + [r.folder]
      ensures !r.Created? ==> folders == old(folders)
      ensures user.None? ==> r == CreateResult.Unauthorized
      ensures user.Some? ==> (r == MissingName <==> Strip(Python, name.GetOr("")) == "")
      ensures user.Some? && Strip(Python, name.GetOr("")) != "" ==> r.Created?
      ensures r.Created? ==>
        && r.folder.id == Some(newId)
        && r.folder.name == Strip(Python, name.value)
        && r.folder.ownerId == user.value
        && r.folder.members == Some([Member(user.value, "owner")])
        && r.folder.createdAt == now
        && |r.folder.joinCode| == DefaultCodeLength
        && r.folder.joinCode !in JoinCodes(old(folders))
      ensures r.Created? ==>
        exists k :: FreshAt(draws, JoinCodes(old(folders)), DefaultCodeLength, k)
                    && r.folder.joinCode == CodeOf(draws[k])
                    && forall j :: 0 <= j < k ==> CodeOf(draws[j]) in JoinCodes(old(folders))
    {
      if user.None? {
        return CreateResult.Unauthorized;
      }
      if Strip(Python, name.GetOr("")) == "" {
        return MissingName;
      }
      var code := GenerateJoinCode(DefaultCodeLength, JoinCodes(folders), draws);
      var folder := CreateFolder(Strip(Python, name.value), user.value, code, now);
      folder := folder.(id := Some(newId));
      folders := folders + [folder];
      r := CreateResult.Created(folder);
    }
  }
}
