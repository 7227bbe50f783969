/**
 * MongoDB object ids as the routes handle them: `primitive.ObjectIDFromHex`
 * accepts exactly 24 hexadecimal digits in either case, and an id is shown as
 * 24 lower-case hexadecimal digits. The id-list conversion loop shared by the
 * project and team routes lives here.
 */
module ObjectIds {
  import opened Wrappers
  import Text
  import Sequences

  /** A 12-byte object id, held as its 24-digit lower-case hexadecimal form. */
  datatype ObjectId = ObjectId(hex: string)

  predicate IsHexDigit(c: char) {
    ('0' <= c <= '9') || ('a' <= c <= 'f') || ('A' <= c <= 'F')
  }

  predicate IsValidHex(s: string) {
    |s| == 24 && forall i :: 0 <= i < |s| ==> IsHexDigit(s[i])
  }

  /** The form `Hex()` produces: 24 lower-case hexadecimal digits. */
  predicate Canonical(id: ObjectId) {
    IsValidHex(id.hex) && forall i :: 0 <= i < |id.hex| ==> !Text.IsUpper(id.hex[i])
  }

  /** `primitive.ObjectIDFromHex(s)`; `None` stands for its error result. */
  function FromHex(s: string): (r: Option<ObjectId>)
    ensures r.Some? <==> IsValidHex(s)
    ensures r.Some? ==> Canonical(r.value)
  {
    if IsValidHex(s) then Some(ObjectId(Text.Lower(s))) else None
  }

  /** `primitive.NilObjectID`, what `ObjectIDFromHex` returns alongside an error. */
  const Zero := ObjectId("000000000000000000000000")

  /** `id, _ := primitive.ObjectIDFromHex(s)`: the error is dropped and the zero id kept. */
  function FromHexOrZero(s: string): (id: ObjectId)
    ensures IsValidHex(s) ==> Some(id) == FromHex(s)
    ensures !IsValidHex(s) ==> id == Zero
  {
    FromHex(s).GetOr(Zero)
  }

  /** Parsing the printed form of an id gives the id back. */
  lemma HexRoundTrip(id: ObjectId)
    requires Canonical(id)
    ensures FromHex(id.hex) == Some(id)
  {
    LowerFixesLowerCase(id.hex);
  }

  lemma {:induction false} LowerFixesLowerCase(s: string)
    requires forall i :: 0 <= i < |s| ==> !Text.IsUpper(s[i])
    ensures Text.Lower(s) == s
  {
    if s != [] {
      LowerFixesLowerCase(s[1..]);
      assert s == [s[0]] + s[1..];
    }
  }

  /** The ids of the strings that parse, in request order; the others are dropped. */
  function ValidIds(ss: seq<string>): (ids: seq<ObjectId>)
    ensures |ids| <= |ss|
    ensures forall id :: id in ids ==> Canonical(id)
  {
    if ss == [] then []
    else (if IsValidHex(ss[0]) then [FromHex(ss[0]).value] else []) + ValidIds(ss[1..])
  }

  lemma {:induction false} ValidIdsAppend(ss: seq<string>, s: string)
    ensures ValidIds(ss + [s]) == ValidIds(ss) + (if IsValidHex(s) then [FromHex(s).value] else [])
    decreases |ss|
  {
    if ss != [] {
      assert (ss + [s])[1..] == ss[1..] + [s];
      ValidIdsAppend(ss[1..], s);
    } else {
      assert ss + [s] == [s];
    }
  }

  /**
   * Dropping and keeping: the result is the parsed form of exactly the valid
   * strings, in the order the request listed them.
   */
  lemma {:induction false} ValidIdsIsParsedFilter(ss: seq<string>)
    ensures var kept := Sequences.Filter(ss, IsValidHex);
      |ValidIds(ss)| == |kept| &&
      forall i :: 0 <= i < |kept| ==> ValidIds(ss)[i] == FromHex(kept[i]).value
    decreases |ss|
  {
    if ss != [] {
      ValidIdsIsParsedFilter(ss[1..]);
      var kept := Sequences.Filter(ss, IsValidHex);
      var rest := Sequences.Filter(ss[1..], IsValidHex);
      var ids := ValidIds(ss);
      if IsValidHex(ss[0]) {
        assert kept == [ss[0]] + rest;
        assert ids == [FromHex(ss[0]).value] + ValidIds(ss[1..]);
        forall i | 0 < i < |kept|
          ensures ids[i] == FromHex(kept[i]).value
        {
          assert kept[i] == rest[i - 1];
        }
      } else {
        assert kept == rest;
        assert ids == ValidIds(ss[1..]);
      }
    }
  }

  /** A request listing only malformed ids stores an empty list. */
  lemma {:induction false} ValidIdsAllInvalid(ss: seq<string>)
    requires forall i :: 0 <= i < |ss| ==> !IsValidHex(ss[i])
    ensures ValidIds(ss) == []
    decreases |ss|
  {
    if ss != [] {
      ValidIdsAllInvalid(ss[1..]);
    }
  }

  /**
   * The conversion loop of the project and team routes: each string that parses
   * is appended, the others are skipped.
   */
  method ParseIds(ss: seq<string>) returns (ids: seq<ObjectId>)
    ensures ids == ValidIds(ss)
  {
    ids := [];
    for i := 0 to |ss|
      invariant ids == ValidIds(ss[..i])
    {
      var parsed := FromHex(ss[i]);
      if parsed.Some? {
        ids := ids + [parsed.value];
      }
      ValidIdsAppend(ss[..i], ss[i]);
      assert ss[..i + 1] == ss[..i] + [ss[i]];
    }
    assert ss[..|ss|] == ss;
  }

  /** No two documents of a collection share an `_id` (MongoDB's unique index on `_id`). */
  predicate DistinctIds<T>(docs: seq<T>, idOf: T -> ObjectId) {
    forall i, j :: 0 <= i < j < |docs| ==> idOf(docs[i]) != idOf(docs[j])
  }

  predicate HasId<T>(docs: seq<T>, idOf: T -> ObjectId, id: ObjectId) {
    exists i :: 0 <= i < |docs| && idOf(docs[i]) == id
  }

  /** `FindOne({_id: id})` over a collection: the first document carrying `id`. */
  function FindById<T>(docs: seq<T>, idOf: T -> ObjectId, id: ObjectId): (r: Option<T>)
    ensures r.None? <==> !HasId(docs, idOf, id)
    ensures r.Some? ==> r.value in docs && idOf(r.value) == id
  {
    if docs == [] then None
    else if idOf(docs[0]) == id then Some(docs[0])
    else
      var r := FindById(docs[1..], idOf, id);
      assert HasId(docs[1..], idOf, id) <==> HasId(docs, idOf, id) by {
        if HasId(docs, idOf, id) {
          var k :| 0 <= k < |docs| && idOf(docs[k]) == id;
          assert docs[1..][k - 1] == docs[k];
        }
        if HasId(docs[1..], idOf, id) {
          var k :| 0 <= k < |docs[1..]| && idOf(docs[1..][k]) == id;
          assert docs[k + 1] == docs[1..][k];
        }
      }
      r
  }

  /** The lookup returns the earliest document with the id. */
  lemma {:induction false} FindByIdFirst<T>(docs: seq<T>, idOf: T -> ObjectId, i: nat)
    requires i < |docs|
    requires forall k :: 0 <= k < i ==> idOf(docs[k]) != idOf(docs[i])
    ensures FindById(docs, idOf, idOf(docs[i])) == Some(docs[i])
    decreases i
  {
    if i > 0 {
      var rest := docs[1..];
      assert rest[i - 1] == docs[i];
      forall k | 0 <= k < i - 1
        ensures idOf(rest[k]) != idOf(rest[i - 1])
      {
        assert rest[k] == docs[k + 1];
      }
      FindByIdFirst(rest, idOf, i - 1);
    }
  }

  /** Under distinct ids, looking up any stored document's id gives that document. */
  lemma FindByIdUnique<T>(docs: seq<T>, idOf: T -> ObjectId, i: nat)
    requires DistinctIds(docs, idOf) && i < |docs|
    ensures FindById(docs, idOf, idOf(docs[i])) == Some(docs[i])
  {
    FindByIdFirst(docs, idOf, i);
  }

  /** Once a document with a fresh id is appended, looking that id up finds it. */
  lemma FindByIdAppendFresh<T>(docs: seq<T>, idOf: T -> ObjectId, d: T)
    requires !HasId(docs, idOf, idOf(d))
    ensures FindById(docs + [d], idOf, idOf(d)) == Some(d)
  {
    var all := docs + [d];
    forall k | 0 <= k < |docs|
      ensures idOf(all[k]) != idOf(all[|docs|])
    {
      assert all[k] == docs[k];
    }
    FindByIdFirst(all, idOf, |docs|);
  }

  /** Removing documents keeps the remaining ids distinct. */
  lemma {:induction false} FilterKeepsDistinctIds<T>(docs: seq<T>, idOf: T -> ObjectId, keep: T -> bool)
    requires DistinctIds(docs, idOf)
    ensures DistinctIds(Sequences.Filter(docs, keep), idOf)
    decreases |docs|
  {
    if docs != [] {
      var rest := docs[1..];
      assert DistinctIds(rest, idOf) by {
        forall i, j | 0 <= i < j < |rest|
          ensures idOf(rest[i]) != idOf(rest[j])
        {
          assert rest[i] == docs[i + 1] && rest[j] == docs[j + 1];
        }
      }
      FilterKeepsDistinctIds(rest, idOf, keep);
      var f := Sequences.Filter(rest, keep);
      forall d | d in f
        ensures idOf(d) != idOf(docs[0])
      {
        var k :| 0 <= k < |rest| && rest[k] == d;
        assert d == docs[k + 1];
      }
    }
  }
}
