/** The handling around the language model in `POST /ai/generate`: the style
    analysis of the folder's existing cards, the list of existing fronts put
    in the prompt, the search for the JSON array in the model's reply, the
    clamp on the requested count, the filter that keeps the well-formed
    cards, and the documents stored for them.

    The model call is the parameter `reply` (a function of the prompt, `None`
    when the call raises), `json.loads` the parameter `decode`, Python's
    `str.lower` the parameter `lower`, and `insert_many`'s ids the function
    `newId` of the position. */
module AiRoutes {
  import opened Wrappers
  import opened Bson
  import opened Text
  import opened Cards
  import opened FolderModel
  import opened FolderRoutes
  import opened Seqs

  // ---------------------------------------------------------------------
  // analyze_style
  // ---------------------------------------------------------------------

  /** A question style and the keywords that reveal it. */
  datatype Category = Category(keywords: seq<string>, style: string)

  const DefaultStyle: string := "domanda diretta con risposta concisa"

  /** The categories, in the order in which they are tried. */
  const Categories: seq<Category> := [
    Category(["cos'è", "cosa si intende", "definisci", "definizione di"],
             "definizione di concetti (Cos'è X? → risposta definitoria)"),
    Category(["differenza tra", "confronta", " vs ", "versus"],
             "confronto tra concetti (Differenza tra X e Y? → distinzione chiara)"),
    Category(["calcola", "risolvi", "quanto vale", "formula", "equazione"],
             "esercizio numerico o formula (es: Formula di X? → formula con breve spiegazione)"),
    Category(["vero o falso", "true or false"],
             "vero o falso (Affermazione → Vero/Falso + motivazione breve)"),
    Category(["completa", "___", "..."],
             "completamento di frase (Frase incompleta → parola/frase mancante)"),
    Category(["perché", "spiega perché", "come funziona", "come mai"],
             "spiegazione causale (Perché X? → spiegazione concisa)"),
    Category(["elenca", "quali sono", "nomina", "cita"],
             "enumerazione (Quali sono X? → lista puntata breve)")
  ]

  const VeryShortAnswers: string := "molto breve (max 1 riga)"
  const ShortAnswers: string := "breve (1-2 righe)"
  const MediumAnswers: string := "medio (2-4 righe)"

  /** `any(k in text for k in keywords)`. */
  predicate Mentions(text: string, keywords: seq<string>) {
    exists k | k in keywords :: Contains(text, k)
  }

  /** The style of the first category of `cats` that `text` mentions, or the
      default style when it mentions none. */
  function StyleOf(cats: seq<Category>, text: string): (r: string)
    ensures || (exists i :: 0 <= i < |cats| && Mentions(text, cats[i].keywords) && r == cats[i].style
                            && forall j :: 0 <= j < i ==> !Mentions(text, cats[j].keywords))
            || ((forall i :: 0 <= i < |cats| ==> !Mentions(text, cats[i].keywords)) && r == DefaultStyle)
  {
    if cats == [] then DefaultStyle
    else if Mentions(text, cats[0].keywords) then cats[0].style
    else
      var r := StyleOf(cats[1..], text);
      assert forall i :: 1 <= i < |cats| ==> cats[i] == cats[1..][i - 1];
      r
  }

  /** The lower-cased fronts. */
  function LowerFronts(cards: seq<Flashcard>, lower: string -> string): (r: seq<string>)
    ensures |r| == |cards|
    ensures forall i :: 0 <= i < |cards| ==> r[i] == lower(cards[i].front)
  {
    seq(|cards|, i requires 0 <= i < |cards| => lower(cards[i].front))
  }

  /** Total length of the backs. */
  function BackLengths(cards: seq<Flashcard>): nat {
    if cards == [] then 0 else BackLengths(cards[..|cards| - 1]) + |cards[|cards| - 1].back|
  }

  /** The answer-length bucket of an average `total / n`. */
  function LengthBucket(total: nat, n: nat): (r: string)
    requires 0 < n
    ensures r == VeryShortAnswers || r == ShortAnswers || r == MediumAnswers
  {
    var avg := total as real / n as real;
    if avg < 60.0 then VeryShortAnswers
    else if avg < 130.0 then ShortAnswers
    else MediumAnswers
  }

  /** Comparing the average is comparing the total with `n` times the bound. */
  lemma AverageBelow(total: nat, n: nat, bound: real)
    requires 0 < n
    ensures total as real / n as real < bound <==> (total as real) < bound * n as real
  {
    var avg := total as real / n as real;
    assert avg * n as real == total as real;
    if avg < bound {
      assert avg * n as real < bound * n as real;
    } else {
      assert avg * n as real >= bound * n as real;
    }
  }

  /** The three buckets split the totals without gap or overlap: below 60
      per card, from 60 to below 130 per card, and 130 per card or more. */
  lemma BucketsByTotal(total: nat, n: nat)
    requires 0 < n
    ensures LengthBucket(total, n) == VeryShortAnswers <==> total < 60 * n
    ensures LengthBucket(total, n) == ShortAnswers <==> 60 * n <= total < 130 * n
    ensures LengthBucket(total, n) == MediumAnswers <==> 130 * n <= total
  {
    AverageBelow(total, n, 60.0);
    AverageBelow(total, n, 130.0);
  }

  /** What the analysis reports: the style, the answer length and the
      example cards (front, back). */
  datatype StyleInfo = StyleInfo(style: string, length: string, sample: seq<(string, string)>)

  /** The first (at most) `k` cards as (front, back) pairs. */
  function Sample(cards: seq<Flashcard>, k: nat): (r: seq<(string, string)>)
    ensures |r| == if |cards| < k then |cards| else k
    ensures forall i :: 0 <= i < |r| ==> r[i] == (cards[i].front, cards[i].back)
  {
    var n := if |cards| < k then |cards| else k;
    seq(n, i requires 0 <= i < n => (cards[i].front, cards[i].back))
  }

  /** `analyze_style(cards)`: a fixed answer for no cards; otherwise the style
      of the first category the lower-cased, space-joined fronts mention, the
      bucket of the average back length, and the first four cards. */
  function AnalyzeStyle(cards: seq<Flashcard>, lower: string -> string): (r: StyleInfo)
    ensures cards == [] ==> r == StyleInfo(DefaultStyle, ShortAnswers, [])
    ensures cards != [] ==>
      && r.style == StyleOf(Categories, JoinWithSpace(LowerFronts(cards, lower)))
      && r.length == LengthBucket(BackLengths(cards), |cards|)
    ensures |r.sample| <= 4 && |r.sample| == if |cards| < 4 then |cards| else 4
    ensures forall i :: 0 <= i < |r.sample| ==> r.sample[i] == (cards[i].front, cards[i].back)
  {
    if cards == [] then StyleInfo(DefaultStyle, ShortAnswers, [])
    else
      var fronts := JoinWithSpace(LowerFronts(cards, lower));
      StyleInfo(StyleOf(Categories, fronts), LengthBucket(BackLengths(cards), |cards|), Sample(cards, 4))
  }

  // ---------------------------------------------------------------------
  // build_prompt (the parts that carry data)
  // ---------------------------------------------------------------------

  /** Most existing fronts listed in the prompt. */
  const PromptFrontsLimit: nat := 20

  /** What the prompt is made of. */
  datatype Prompt = Prompt(topic: string, style: string, length: string, sample: seq<(string, string)>,
                           existingFronts: seq<string>, count: int)

  /** `existing_fronts[:20]`. */
  function PromptFronts(cards: seq<Flashcard>): (r: seq<string>)
    ensures |r| <= PromptFrontsLimit
    ensures |r| == if |cards| < PromptFrontsLimit then |cards| else PromptFrontsLimit
    ensures forall i :: 0 <= i < |r| ==> r[i] == cards[i].front
  {
    var n := if |cards| < PromptFrontsLimit then |cards| else PromptFrontsLimit;
    seq(n, i requires 0 <= i < n => cards[i].front)
  }

  function BuildPrompt(topic: string, info: StyleInfo, existing: seq<Flashcard>, n: int): (r: Prompt)
    ensures r.topic == topic && r.count == n
    ensures r.style == info.style && r.length == info.length && r.sample == info.sample
    ensures |r.existingFronts| == if |existing| < PromptFrontsLimit then |existing| else PromptFrontsLimit
    ensures forall i :: 0 <= i < |r.existingFronts| ==> r.existingFronts[i] == existing[i].front
  {
    Prompt(topic, info.style, info.length, info.sample, PromptFronts(existing), n)
  }

  // ---------------------------------------------------------------------
  // extract_json: the search for `\[.*\]`
  // ---------------------------------------------------------------------

  /** Position of the first `c` in `s`. */
  function FirstIndex(s: string, c: char): (r: Option<nat>)
    ensures r.None? <==> forall k :: 0 <= k < |s| ==> s[k] != c
    ensures r.Some? ==> r.value < |s| && s[r.value] == c && forall k :: 0 <= k < r.value ==> s[k] != c
  {
    if s == [] then None
    else if s[0] == c then Some(0)
    else
      match FirstIndex(s[1..], c)
      case None => None
      case Some(k) => Some(k + 1)
  }

  /** Position of the last `c` in `s`. */
  function LastIndex(s: string, c: char): (r: Option<nat>)
    ensures r.None? <==> forall k :: 0 <= k < |s| ==> s[k] != c
    ensures r.Some? ==> r.value < |s| && s[r.value] == c && forall k :: r.value < k < |s| ==> s[k] != c
  {
    if s == [] then None
    else if s[|s| - 1] == c then Some(|s| - 1)
    else LastIndex(s[..|s| - 1], c)
  }

  /** The leftmost, longest match of `\[.*\]` (dot matching newlines) in
      `text`, or the `ValueError` message when there is none. */
  function ExtractBracketed(text: string): (r: Result<string, string>)
    ensures r.Ok? <==> exists i, j :: 0 <= i < j < |text| && text[i] == '[' && text[j] == ']'
    ensures r.Ok? ==> exists i, j :: 0 <= i < j < |text| && r.value == text[i..j + 1]
                                     && text[i] == '[' && text[j] == ']'
                                     && (forall k :: 0 <= k < i ==> text[k] != '[')
                                     && (forall k :: j < k < |text| ==> text[k] != ']')
  {
    match FirstIndex(text, '[')
    case None => Err(NoJsonMessage(text))
    case Some(i) =>
      match LastIndex(text, ']')
      case None => Err(NoJsonMessage(text))
      case Some(j) => if i < j then Ok(text[i..j + 1]) else Err(NoJsonMessage(text))
  }

  /** The message of the `ValueError`: a fixed text and the first 200
      characters of the reply. */
  function NoJsonMessage(text: string): string {
    "Nessun JSON valido trovato nella risposta: " + text[..if |text| < 200 then |text| else 200]
  }

  /** The match always starts with `[` and ends with `]`, and is the whole
      text when that text is already a bracketed array. */
  lemma ExtractBracketedShape(text: string)
    ensures ExtractBracketed(text).Ok? ==>
      var m := ExtractBracketed(text).value; 2 <= |m| && m[0] == '[' && m[|m| - 1] == ']'
    ensures 2 <= |text| && text[0] == '[' && text[|text| - 1] == ']' ==> ExtractBracketed(text) == Ok(text)
  {
    if 2 <= |text| && text[0] == '[' && text[|text| - 1] == ']' {
      assert text[..|text|] == text;
    }
  }

  // ---------------------------------------------------------------------
  // Count clamp, validity filter, documents
  // ---------------------------------------------------------------------

  /** Most cards asked of the model per request. */
  const MaxCount: int := 10

  /** Cards asked for when the request names no count. */
  const DefaultCount: int := 5

  /** `min(int(data.get("count", 5)), 10)`: never above 10, otherwise the
      requested count as it is (no lower bound). */
  function ClampCount(count: Option<int>): (r: int)
    ensures r <= MaxCount
    ensures count.None? ==> r == DefaultCount
    ensures count.Some? ==> (r == count.value <==> count.value <= MaxCount)
    ensures count.Some? && count.value > MaxCount ==> r == MaxCount
  {
    var c := count.GetOr(DefaultCount);
    if c < MaxCount then c else MaxCount
  }

  /** An element of the decoded array: an object with (possibly missing)
      `front` and `back` strings, or anything that is not an object. */
  datatype GeneratedItem = NotAnObject | Object(front: Option<string>, back: Option<string>)

  /** An object whose `front` and `back` are present and not blank. */
  predicate IsValidItem(c: GeneratedItem) {
    c.Object? && !IsBlank(Python, c.front.GetOr("")) && !IsBlank(Python, c.back.GetOr(""))
  }

  /** The list comprehension that keeps the valid items. */
  function ValidItems(items: seq<GeneratedItem>): (r: seq<GeneratedItem>)
    ensures forall c :: c in r <==> c in items && IsValidItem(c)
    ensures |r| <= |items|
  {
    if items == [] then []
    else if IsValidItem(items[0]) then [items[0]] + ValidItems(items[1..])
    else ValidItems(items[1..])
  }

  /** The valid items are a subsequence of the generated ones. */
  lemma {:induction false} ValidItemsSubsequence(items: seq<GeneratedItem>)
    ensures IsSubsequence(ValidItems(items), items)
  {
    if items != [] {
      ValidItemsSubsequence(items[1..]);
      var rest := ValidItems(items[1..]);
      if IsValidItem(items[0]) {
        assert ValidItems(items) == [items[0]] + rest;
        assert ([items[0]] + rest)[1..] == rest;
      }
    }
  }

  /** Each valid item is kept as often as the reply holds it, and no
      other item is kept. */
  lemma {:induction false} ValidItemsCounts(items: seq<GeneratedItem>)
    ensures forall c :: multiset(ValidItems(items))[c] == if IsValidItem(c) then multiset(items)[c] else 0
  {
    if items != [] {
      ValidItemsCounts(items[1..]);
      assert items == [items[0]] + items[1..];
    }
  }

  /** A document to insert: `_id` is `None` until `insert_many` sets it. */
  datatype AiDoc = AiDoc(id: Option<ObjectId>, folderId: ObjectId, front: string, back: string,
                         createdAt: real, aiGenerated: bool)

  /** The document of one valid item: both sides stripped, flagged as
      generated, in the folder `folderId`. */
  function DocOf(c: GeneratedItem, folderId: ObjectId, now: real): AiDoc
    requires c.Object?
  {
    AiDoc(None, folderId, Strip(Python, c.front.GetOr("")), Strip(Python, c.back.GetOr("")), now, true)
  }

  /** A valid item has both sides, and neither is empty once stripped. */
  lemma ValidItemSides(c: GeneratedItem)
    requires IsValidItem(c)
    ensures c.front.Some? && c.back.Some?
    ensures Strip(Python, c.front.value) != [] && Strip(Python, c.back.value) != []
  {
    StripEmpty(Python);
  }

  /** One document per item, in order. */
  function BuildDocs(valid: seq<GeneratedItem>, folderId: ObjectId, now: real): (r: seq<AiDoc>)
    requires forall i :: 0 <= i < |valid| ==> valid[i].Object?
    ensures |r| == |valid|
    ensures forall i :: 0 <= i < |r| ==> r[i] == DocOf(valid[i], folderId, now)
  {
    seq(|valid|, i requires 0 <= i < |valid| => DocOf(valid[i], folderId, now))
  }

  /** `for doc, inserted_id in zip(docs, ids): doc["_id"] = inserted_id`:
      the first `min(|docs|, |ids|)` documents get their id, the rest stay. */
  method AssignIds(docs: array<AiDoc>, ids: seq<ObjectId>)
    modifies docs
    ensures forall i :: 0 <= i < docs.Length ==>
      docs[i] == if i < |ids| then old(docs[i]).(id := Some(ids[i])) else old(docs[i])
  {
    var i := 0;
    while i < docs.Length && i < |ids|
      invariant 0 <= i <= docs.Length
      invariant forall k :: 0 <= k < i ==> k < |ids| && docs[k] == old(docs[k]).(id := Some(ids[k]))
      invariant forall k :: i <= k < docs.Length ==> docs[k] == old(docs[k])
    {
      docs[i] := docs[i].(id := Some(ids[i]));
      i := i + 1;
    }
  }

  /** The stored documents as flashcard records. */
  function AsFlashcards(docs: seq<AiDoc>): (r: seq<Flashcard>)
    requires forall i :: 0 <= i < |docs| ==> docs[i].id.Some?
    ensures |r| == |docs|
    ensures forall i :: 0 <= i < |docs| ==>
      r[i] == Flashcard(docs[i].id.value, docs[i].folderId, docs[i].front, docs[i].back,
                        docs[i].createdAt, docs[i].aiGenerated)
  {
    seq(|docs|, i requires 0 <= i < |docs| =>
      Flashcard(docs[i].id.value, docs[i].folderId, docs[i].front, docs[i].back,
                docs[i].createdAt, docs[i].aiGenerated))
  }

  /** The card stored for a valid item under id `id`: both sides stripped,
      flagged as generated, in the folder `folderId`. */
  function CardOf(c: GeneratedItem, folderId: ObjectId, now: real, id: ObjectId): Flashcard
    requires c.Object?
  {
    Flashcard(id, folderId, Strip(Python, c.front.GetOr("")), Strip(Python, c.back.GetOr("")), now, true)
  }

  /** Step 6 of the endpoint: the documents of the valid items are built,
      inserted, and given the ids `newId(0)`, `newId(1)`, ... in order. */
  method StoreGenerated(db: FolderDb, valid: seq<GeneratedItem>, oid: ObjectId, now: real,
                        newId: nat -> ObjectId) returns (cards: seq<Flashcard>)
    requires forall i :: 0 <= i < |valid| ==> valid[i].Object?
    modifies db
    ensures db.folders == old(db.folders)
    ensures db.flashcards == old(db.flashcards) + cards
    ensures |cards| == |valid|
    ensures forall i :: 0 <= i < |cards| ==>
      cards[i] == CardOf(valid[i], oid, now, newId(i))
  {
    var built := BuildDocs(valid, oid, now);
    var docs := new AiDoc[|built|](i requires 0 <= i < |built| => built[i]);
    var ids := seq(docs.Length, i requires 0 <= i => newId(i));
    AssignIds(docs, ids);
    cards := AsFlashcards(docs[..]);
    forall i | 0 <= i < |cards|
      ensures cards[i] == CardOf(valid[i], oid, now, newId(i))
    {
      assert docs[i] == built[i].(id := Some(ids[i]));
      assert built[i] == DocOf(valid[i], oid, now);
    }
    db.flashcards := db.flashcards + cards;
  }

  datatype GenerateResult =
    | Unauthorized | MissingFields | InvalidId | NotFound | Forbidden
    | ModelError       // the model call raised
    | NoJson           // no bracketed array, or `json.loads` failed
    | NoValidCards
    | Generated(cards: seq<Flashcard>, styleDetected: string)

  /** The reply's array, decoded: `None` when there is no bracketed text or
      it does not decode. */
  function DecodeReply(raw: string, decode: string -> Option<seq<GeneratedItem>>): (r: Option<seq<GeneratedItem>>)
    ensures (forall i, j :: 0 <= i < j < |raw| ==> raw[i] != '[' || raw[j] != ']') ==> r.None?
    ensures r.Some? ==> exists i, j :: 0 <= i < j < |raw| && raw[i] == '[' && raw[j] == ']' && r == decode(raw[i..j + 1])
    ensures (exists i, j :: 0 <= i < j < |raw| && raw[i] == '[' && raw[j] == ']') ==>
      exists i, j :: 0 <= i < j < |raw| && raw[i] == '[' && raw[j] == ']'
                     && (forall k :: 0 <= k < i ==> raw[k] != '[')
                     && (forall k :: j < k < |raw| ==> raw[k] != ']')
                     && r == decode(raw[i..j + 1])
  {
    match ExtractBracketed(raw)
    case Err(_) => None
    case Ok(m) => decode(m)
  }

  /** An accepted request: the folder and the stripped topic. */
  datatype Request = Request(oid: ObjectId, topic: string)

  /** The checks before the model is called: a user, a non-blank folder id
      and topic, a well-formed id, an existing folder, and a (truthy) role in
      it, in this order. */
  function CheckRequest(folders: seq<Folder>, user: Option<ObjectId>, folderIdIn: Option<string>,
                        topicIn: Option<string>): (r: Result<Request, GenerateResult>)
    ensures user.None? ==> r == Err(GenerateResult.Unauthorized)
    ensures user.Some? && (Strip(Python, folderIdIn.GetOr("")) == "" || Strip(Python, topicIn.GetOr("")) == "") ==>
      r == Err(GenerateResult.MissingFields)
    ensures user.Some? && Strip(Python, folderIdIn.GetOr("")) != "" && Strip(Python, topicIn.GetOr("")) != "" ==>
      match ParseObjectId(Strip(Python, folderIdIn.GetOr("")))
      case None => r == Err(GenerateResult.InvalidId)
      case Some(oid) =>
        match FindById(folders, oid)
        case None => r == Err(GenerateResult.NotFound)
        case Some(i) =>
          if !Truthy(GetMemberRole(folders[i], Str(user.value))) then r == Err(GenerateResult.Forbidden)
          else r.Ok?
    ensures r.Ok? ==>
      && user.Some? && r.value.topic == Strip(Python, topicIn.GetOr("")) && r.value.topic != ""
      && ParseObjectId(Strip(Python, folderIdIn.GetOr(""))) == Some(r.value.oid)
      && FindById(folders, r.value.oid).Some?
      && Truthy(GetMemberRole(folders[FindById(folders, r.value.oid).value], Str(user.value)))
    ensures r.Err? ==> !r.error.Generated?
  {
    var folderId := Strip(Python, folderIdIn.GetOr(""));
    var topic := Strip(Python, topicIn.GetOr(""));
    if user.None? then Err(GenerateResult.Unauthorized)
    else if folderId == "" || topic == "" then Err(GenerateResult.MissingFields)
    else match ParseObjectId(folderId)
      case None => Err(GenerateResult.InvalidId)
      case Some(oid) =>
        match FindById(folders, oid)
        case None => Err(GenerateResult.NotFound)
        case Some(i) =>
          if !Truthy(GetMemberRole(folders[i], Str(user.value))) then Err(GenerateResult.Forbidden)
          else Ok(Request(oid, topic))
  }

  /** `POST /ai/generate`: after the request checks, the folder's cards are
      analysed, the model is asked for `ClampCount(countIn)` cards, its reply
      is decoded and filtered, and one new generated card per valid item, in
      order, is appended to the collection. Every failure leaves the
      collections as they were. */
  method GenerateFlashcards(db: FolderDb, user: Option<ObjectId>, folderIdIn: Option<string>,
                            topicIn: Option<string>, countIn: Option<int>, now: real,
                            lower: string -> string, reply: Prompt -> Option<string>,
                            decode: string -> Option<seq<GeneratedItem>>, newId: nat -> ObjectId)
    returns (r: GenerateResult)
    modifies db
    ensures db.folders == old(db.folders)
    ensures !r.Generated? ==> db.flashcards == old(db.flashcards)
    ensures r.Generated? ==> db.flashcards == old(db.flashcards) + r.cards
    ensures match CheckRequest(old(db.folders), user, folderIdIn, topicIn)
      case Err(e) => r == e
      case Ok(req) =>
        var existing := FolderCards(old(db.flashcards), req.oid);
        var info := AnalyzeStyle(existing, lower);
        var raw := reply(BuildPrompt(req.topic, info, existing, ClampCount(countIn)));
        if raw.None? then r == ModelError
        else match DecodeReply(raw.value, decode)
          case None => r == NoJson
          case Some(items) =>
            var valid := ValidItems(items);
            if valid == [] then r == NoValidCards
            else
              && r.Generated? && r.styleDetected == info.style && |r.cards| == |valid|
              && (forall i :: 0 <= i < |valid| ==> valid[i].Object?)
              && forall i :: 0 <= i < |valid| ==>
                   r.cards[i] == CardOf(valid[i], req.oid, now, newId(i))
  {
    var count := ClampCount(countIn);
    var check := CheckRequest(db.folders, user, folderIdIn, topicIn);
    if check.Err? {
      return check.error;
    }
    var req := check.value;
    var existing := FolderCards(db.flashcards, req.oid);
    var info := AnalyzeStyle(existing, lower);
    var raw := reply(BuildPrompt(req.topic, info, existing, count));
    if raw.None? {
      return ModelError;
    }
    var generated := DecodeReply(raw.value, decode);
    if generated.None? {
      return NoJson;
    }
    var valid := ValidItems(generated.value);
    if valid == [] {
      return NoValidCards;
    }
    forall i | 0 <= i < |valid| ensures valid[i].Object? {
      assert valid[i] in valid;
    }
    var cards := StoreGenerated(db, valid, req.oid, now, newId);
    r := Generated(cards, info.style);
  }
}
