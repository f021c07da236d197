/** The document store behind one connection URI, seen as values: database name to
    collection name to the documents in store order. Filter matching is opaque: it is
    given as a predicate on documents. */
module Store {
  import opened Values

  type Collection = seq<Document>
  type Database = map<string, Collection>
  type Cluster = map<string, Database>

  /** A database is listed only while it holds at least one collection. */
  predicate WellFormed(c: Cluster) {
    forall db :: db in c ==> |c[db]| > 0
  }

  predicate HasDatabase(c: Cluster, db: string) {
    db in c
  }

  predicate HasCollection(c: Cluster, db: string, coll: string) {
    db in c && coll in c[db]
  }

  /** The documents of a collection; a missing collection reads as empty. */
  function Docs(c: Cluster, db: string, coll: string): Collection {
    if HasCollection(c, db, coll) then c[db][coll] else []
  }

  /** Sets one collection's documents, creating the collection (and its database) when it
      is missing; every other collection is left as it was. */
  function PutCollection(c: Cluster, db: string, coll: string, docs: Collection): (r: Cluster)
    ensures WellFormed(c) ==> WellFormed(r)
    ensures HasCollection(r, db, coll) && Docs(r, db, coll) == docs
    ensures forall d, k :: d != db || k != coll ==>
      HasCollection(r, d, k) == HasCollection(c, d, k) && Docs(r, d, k) == Docs(c, d, k)
    ensures forall d :: HasDatabase(r, d) <==> HasDatabase(c, d) || d == db
  {
    c[db := (if db in c then c[db] else map[])[coll := docs]]
  }

  /** Writing a collection twice leaves only the second write. */
  lemma PutCollectionTwice(c: Cluster, db: string, coll: string, first: Collection, second: Collection)
    ensures PutCollection(PutCollection(c, db, coll, first), db, coll, second) == PutCollection(c, db, coll, second)
  {
    var a := PutCollection(PutCollection(c, db, coll, first), db, coll, second);
    var b := PutCollection(c, db, coll, second);
    assert a[db] == b[db];
  }

  /** Drops one collection; a database left without collections disappears with it. */
  function RemoveCollection(c: Cluster, db: string, coll: string): (r: Cluster)
    ensures WellFormed(c) ==> WellFormed(r)
    ensures !HasCollection(r, db, coll)
    ensures forall d, k :: d != db || k != coll ==>
      HasCollection(r, d, k) == HasCollection(c, d, k) && Docs(r, d, k) == Docs(c, d, k)
    ensures HasCollection(c, db, coll) && c[db].Keys == {coll} ==> !HasDatabase(r, db)
  {
    if !HasCollection(c, db, coll) then c
    else
      var rest := c[db] - {coll};
      if |rest| == 0 then c - {db} else c[db := rest]
  }

  // ---------------------------------------------------------------- find

  /** The documents a filter matches, in store order. */
  function Filter(docs: Collection, matches: Document -> bool): (r: Collection)
    ensures |r| <= |docs|
    ensures forall k :: 0 <= k < |r| ==> matches(r[k]) && r[k] in docs
    ensures forall k :: 0 <= k < |docs| && matches(docs[k]) ==> docs[k] in r
  {
    if docs == [] then []
    else if matches(docs[0]) then [docs[0]] + Filter(docs[1..], matches)
    else Filter(docs[1..], matches)
  }

  /** A filter that matches every document keeps them all, in order. */
  lemma {:induction false} FilterAll(docs: Collection, matches: Document -> bool)
    requires forall k :: 0 <= k < |docs| ==> matches(docs[k])
    ensures Filter(docs, matches) == docs
  {
    if docs != [] {
      FilterAll(docs[1..], matches);
    }
  }

  /** A document appended to a collection where nothing else matches is all that a filter
      matching it finds there. */
  lemma {:induction false} FilterFindsAppended(docs: Collection, d: Document, matches: Document -> bool)
    requires matches(d)
    requires forall k :: 0 <= k < |docs| ==> !matches(docs[k])
    ensures Filter(docs + [d], matches) == [d]
  {
    if docs == [] {
      assert Filter([d], matches) == [d] + Filter([], matches);
    } else {
      assert (docs + [d])[1..] == docs[1..] + [d];
      FilterFindsAppended(docs[1..], d, matches);
    }
  }

  function Abs(n: int): nat {
    if n < 0 then -n else n
  }

  /** `cursor.skip(skip).limit(limit)`: drop the first `skip` documents, then keep at most
      `|limit|` of the rest; a limit of 0 keeps them all (a negative limit asks for one
      batch of at most `-limit` documents). */
  function Window(docs: Collection, skip: nat, limit: int): Collection {
    var rest := if skip <= |docs| then docs[skip..] else [];
    if limit == 0 || Abs(limit) >= |rest| then rest else rest[..Abs(limit)]
  }

  /** The window is the run of documents that starts at position `skip`, as long as the
      limit allows and the collection holds. */
  lemma WindowIsRun(docs: Collection, skip: nat, limit: int)
    ensures var n := if skip <= |docs| then |docs| - skip else 0;
      |Window(docs, skip, limit)| == (if limit == 0 || Abs(limit) >= n then n else Abs(limit))
    ensures forall k :: 0 <= k < |Window(docs, skip, limit)| ==> Window(docs, skip, limit)[k] == docs[skip + k]
  {
  }

  /** `limit = 2, offset = 1` over five documents gives the second and the third. */
  lemma WindowSecondAndThird(docs: Collection)
    requires |docs| == 5
    ensures Window(docs, 1, 2) == [docs[1], docs[2]]
  {
  }

  // ---------------------------------------------------------------- update and delete

  /** `updateMany(filter, {$set: fields})`: each matching document takes the given fields
      over its own; the others are untouched. */
  function UpdateMany(docs: Collection, matches: Document -> bool, fields: Document): (r: Collection)
    ensures |r| == |docs|
    ensures forall i :: 0 <= i < |docs| && !matches(docs[i]) ==> r[i] == docs[i]
    ensures forall i, f :: 0 <= i < |docs| && matches(docs[i]) && f in fields ==> f in r[i] && r[i][f] == fields[f]
    ensures forall i, f :: 0 <= i < |docs| && matches(docs[i]) && f !in fields ==>
      (f in r[i] <==> f in docs[i]) && (f in docs[i] ==> r[i][f] == docs[i][f])
  {
    seq(|docs|, i requires 0 <= i < |docs| => if matches(docs[i]) then docs[i] + fields else docs[i])
  }

  /** The number of documents that actually change under the `$set`. */
  function CountChanged(docs: Collection, matches: Document -> bool, fields: Document): (n: nat)
    ensures n <= |Filter(docs, matches)|
  {
    if docs == [] then 0
    else
      (if matches(docs[0]) && docs[0] + fields != docs[0] then 1 else 0)
      + CountChanged(docs[1..], matches, fields)
  }

  /** `deleteMany(filter)`: the documents the filter does not match, in store order. */
  function DeleteMany(docs: Collection, matches: Document -> bool): (r: Collection)
    ensures forall k :: 0 <= k < |r| ==> !matches(r[k]) && r[k] in docs
    ensures forall k :: 0 <= k < |docs| && !matches(docs[k]) ==> docs[k] in r
  {
    Filter(docs, (d: Document) => !matches(d))
  }

  /** Deleting removes exactly the matched documents: what is deleted and what is kept
      add up to the whole collection. */
  lemma {:induction false} DeleteManyCount(docs: Collection, matches: Document -> bool)
    ensures |DeleteMany(docs, matches)| + |Filter(docs, matches)| == |docs|
  {
    if docs != [] {
      DeleteManyCount(docs[1..], matches);
    }
  }
}
