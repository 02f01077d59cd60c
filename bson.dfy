/** Documents as the backend stores and returns them: MongoDB object ids,
    the document values a collection holds, and the recursive serialiser
    that turns object ids found as dictionary values into their string form
    before a document is sent as JSON (`serialize_doc`). */
module Bson {
  import opened Wrappers

  predicate IsHexDigit(c: char) {
    '0' <= c <= '9' || 'a' <= c <= 'f' || 'A' <= c <= 'F'
  }

  predicate IsLowerHexDigit(c: char) {
    '0' <= c <= '9' || 'a' <= c <= 'f'
  }

  /** Hexadecimal digits are normalised to lower case. */
  function LowerHexDigit(c: char): (r: char)
    requires IsHexDigit(c)
    ensures IsLowerHexDigit(r)
    ensures IsLowerHexDigit(c) ==> r == c
  {
    if 'A' <= c <= 'F' then (c as int + 32) as char else c
  }

  /** A 12-byte MongoDB object id, held as its string form `str(oid)`:
      24 lower-case hexadecimal digits once it is `Canonical`. */
  datatype ObjectId = ObjectId(hex: string)

  ghost predicate Canonical(o: ObjectId) {
    |o.hex| == 24 && forall i :: 0 <= i < 24 ==> IsLowerHexDigit(o.hex[i])
  }

  /** `str(oid)`. */
  function Str(o: ObjectId): string {
    o.hex
  }

  /** `ObjectId(s)` for a string `s`: 24 hexadecimal digits in either case
      make an id; anything else is `InvalidId`, here `None`. */
  function ParseObjectId(s: string): (r: Option<ObjectId>)
    ensures r.Some? <==> |s| == 24 && forall i :: 0 <= i < |s| ==> IsHexDigit(s[i])
    ensures r.Some? ==> Canonical(r.value)
    ensures r.Some? ==> forall i :: 0 <= i < 24 ==> r.value.hex[i] == LowerHexDigit(s[i])
  {
    if |s| == 24 && forall i :: 0 <= i < |s| ==> IsHexDigit(s[i]) then
      Some(ObjectId(seq(24, i requires 0 <= i < 24 => LowerHexDigit(s[i]))))
    else None
  }

  /** Parsing the string form of an id gives the id back. */
  lemma ParseStr(o: ObjectId)
    requires Canonical(o)
    ensures ParseObjectId(Str(o)) == Some(o)
  {
    var r := ParseObjectId(Str(o));
    assert r.Some?;
    assert r.value.hex == o.hex;
  }

  /** A value stored in a document. Dictionaries keep their entries in
      insertion order, as Python's `dict` does. */
  datatype Value =
    | Null
    | Bool(b: bool)
    | Int(i: int)
    | String(s: string)
    | Date(t: real)
    | Oid(id: ObjectId)
    | List(elems: seq<Value>)
    | Dict(entries: seq<Entry>)

  datatype Entry = Entry(key: string, val: Value)

  function Keys(entries: seq<Entry>): (r: seq<string>)
    ensures |r| == |entries|
    ensures forall i :: 0 <= i < |entries| ==> r[i] == entries[i].key
  {
    seq(|entries|, i requires 0 <= i < |entries| => entries[i].key)
  }

  /** `d.get(k)` on a document's entries: the value of the first entry with
      key `k`, or nothing when no entry has it. */
  function Lookup(es: seq<Entry>, k: string): Option<Value> {
    if es == [] then None
    else if es[0].key == k then Some(es[0].val)
    else Lookup(es[1..], k)
  }

  /** Entries without key `k` in front of others do not change the lookup. */
  lemma {:induction false} LookupSkip(a: seq<Entry>, b: seq<Entry>, k: string)
    requires forall i :: 0 <= i < |a| ==> a[i].key != k
    ensures Lookup(a + b, k) == Lookup(b, k)
  {
    if a != [] {
      LookupSkip(a[1..], b, k);
      assert (a + b)[0] == a[0] && a[0].key != k;
      assert (a + b)[1..] == a[1..] + b;
    } else {
      assert a + b == b;
    }
  }

  /** The serialiser: lists element-wise, dictionaries value-wise with an
      object id value replaced by its string, everything else as it is. */
  function SerializeDoc(v: Value): (r: Value)
    ensures v.List? <==> r.List?
    ensures v.Dict? <==> r.Dict?
    ensures v.List? ==> |r.elems| == |v.elems|
    ensures v.Dict? ==> Keys(r.entries) == Keys(v.entries)
    ensures !v.List? && !v.Dict? ==> r == v
    decreases v
  {
    match v
    case List(xs) => List(seq(|xs|, i requires 0 <= i < |xs| => SerializeDoc(xs[i])))
    case Dict(es) => Dict(seq(|es|, i requires 0 <= i < |es| => SerializeEntry(es[i])))
    case _ => v
  }

  function SerializeEntry(e: Entry): (r: Entry)
    ensures r.key == e.key
    decreases e
  {
    Entry(e.key, if e.val.Oid? then String(Str(e.val.id)) else SerializeDoc(e.val))
  }

  /** The serialiser on one list element. */
  lemma SerializeListElement(v: Value, i: nat)
    requires v.List? && i < |v.elems|
    ensures SerializeDoc(v).elems[i] == SerializeDoc(v.elems[i])
    ensures v.elems[i].Oid? ==> SerializeDoc(v).elems[i] == v.elems[i]
  {
  }

  /** The serialiser on one dictionary entry: an object id value becomes its
      string, any other value is serialised in turn. */
  lemma SerializeDictEntry(v: Value, i: nat)
    requires v.Dict? && i < |v.entries|
    ensures SerializeDoc(v).entries[i].key == v.entries[i].key
    ensures v.entries[i].val.Oid? ==> SerializeDoc(v).entries[i].val == String(Str(v.entries[i].val.id))
    ensures !v.entries[i].val.Oid? ==> SerializeDoc(v).entries[i].val == SerializeDoc(v.entries[i].val)
  {
  }

  /** Serialising a serialised document changes nothing. */
  lemma {:induction false} SerializeIdempotent(v: Value)
    ensures SerializeDoc(SerializeDoc(v)) == SerializeDoc(v)
    decreases v
  {
    match v
    case List(xs) =>
      var once := SerializeDoc(v);
      forall i | 0 <= i < |xs|
        ensures SerializeDoc(once.elems[i]) == once.elems[i]
      {
        SerializeIdempotent(xs[i]);
      }
      assert SerializeDoc(once).elems == once.elems;
    case Dict(es) =>
      var once := SerializeDoc(v);
      forall i | 0 <= i < |es|
        ensures SerializeEntry(once.entries[i]) == once.entries[i]
      {
        assert es[i] < v;
        assert once.entries[i] == SerializeEntry(es[i]);
        if !es[i].val.Oid? {
          assert !once.entries[i].val.Oid?;
          SerializeIdempotent(es[i].val);
        }
      }
      assert SerializeDoc(once).entries == once.entries;
    case _ =>
  }
}
