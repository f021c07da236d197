/** The database handlers of the gateway: each validates its request body, then works on
    the document store behind the request's connection and, for provisioning, on the
    calling tenant's database counter. */
module DbController {
  import opened Values
  import opened PayloadSchema
  import opened UserModel
  import opened Store

  // ---------------------------------------------------------------- the free tier

  /** A tenant on the free tier may provision this many databases. */
  const FreeDatabaseLimit: nat := 5

  /** `user && !user.is_paid && user.dbCount >= 5`: the request is refused with 403. */
  predicate OverQuota(tenant: Option<User>) {
    tenant.Some? && !tenant.value.isPaid && tenant.value.dbCount >= FreeDatabaseLimit
  }

  /** `if (user && !user.is_paid) User.updateOne(..., {$inc: {dbCount: 1}})`: a tenant on
      the free tier is charged one database; anyone else is not. */
  function Charge(tenant: Option<User>): Option<User> {
    if tenant.Some? && !tenant.value.isPaid then Some(tenant.value.(dbCount := tenant.value.dbCount + 1))
    else tenant
  }

  /** No tenant on the free tier holds more databases than the limit. */
  predicate QuotaRespected(tenant: Option<User>) {
    tenant.None? || tenant.value.isPaid || tenant.value.dbCount <= FreeDatabaseLimit
  }

  /** Only a tenant on the free tier is charged, by exactly one, and nothing else of the
      record changes; a tenant that passes the quota check stays within the limit. */
  lemma ChargeOnlyFreeTier(tenant: Option<User>)
    ensures Charge(tenant) != tenant <==> tenant.Some? && !tenant.value.isPaid
    ensures Charge(tenant).Some? == tenant.Some?
    ensures tenant.Some? ==> Charge(tenant).value.(dbCount := tenant.value.dbCount) == tenant.value
    ensures tenant.Some? && !tenant.value.isPaid ==> Charge(tenant).value.dbCount == tenant.value.dbCount + 1
    ensures QuotaRespected(tenant) && !OverQuota(tenant) ==> QuotaRespected(Charge(tenant))
  {
  }

  /** The tenant after `n` provisioning requests that each pass validation and would seed
      a new collection: each one checks the quota and charges when it passes. */
  function AfterProvisioning(tenant: Option<User>, n: nat): Option<User> {
    if n == 0 then tenant
    else
      var before := AfterProvisioning(tenant, n - 1);
      if OverQuota(before) then before else Charge(before)
  }

  function Min(a: nat, b: nat): nat {
    if a <= b then a else b
  }

  /** However many charging requests a tenant on the free tier sends, its `dbCount` ends at
      `min(count + n, 5)`: the first ones are charged and the rest refused. */
  lemma {:induction false} FreeTierCap(u: User, n: nat)
    requires !u.isPaid && u.dbCount <= FreeDatabaseLimit
    ensures AfterProvisioning(Some(u), n) == Some(u.(dbCount := Min(u.dbCount + n, FreeDatabaseLimit)))
  {
    if n > 0 {
      FreeTierCap(u, n - 1);
    }
  }

  /** A paying tenant is never charged and never refused. */
  lemma {:induction false} PaidTierUncharged(u: User, n: nat)
    requires u.isPaid
    ensures AfterProvisioning(Some(u), n) == Some(u)
    ensures !OverQuota(AfterProvisioning(Some(u), n))
  {
    if n > 0 {
      PaidTierUncharged(u, n - 1);
    }
  }

  /** The first document of a provisioned collection. */
  function SeedDocument(coll: string, now: int): Document {
    map["created_at" := Date(now), "collection_name" := Str(coll)]
  }

  // ---------------------------------------------------------------- requests and answers

  /** The fields of a request body the handlers read. A field the body does not carry is
      `Undefined`; the collection name is a single string. */
  datatype Request = Request(
    databaseName: Value,
    mongodbURI: Value,
    collectionName: string,
    document: Value,
    query: Value,
    update: Value,
    limit: Value,
    offset: Value)

  /** The answers of the handlers; the comment gives the HTTP status. */
  datatype Message =
    | InvalidPayload(errors: seq<string>)   // 400
    | QuotaReached                          // 403 "Free users can create up to 5 databases only."
    | SeededEmptyCollection                 // 200 "... was empty and now has initial data."
    | AlreadyPresent                        // 200 "... are already present with data."
    | CollectionCreatedWithSeed             // 200 "Collection ... created in database ... with initial data."
    | DatabaseCreatedWithSeed               // 200 "Database ... and collection ... created with initial data."
    | CollectionAlreadyExists               // 400
    | CollectionCreated                     // 201
    | InvalidApiKey                         // 401
    | CollectionDropped                     // 200
    | CollectionMissing                     // 404
    | DocumentInserted                      // 201
    | Fetched(documents: seq<Document>)     // 200
    | Updated(matched: nat, modified: nat)  // 200
    | Deleted(count: nat)                   // 200
    | StoreFailure                          // 500: the store or the handler threw

  datatype Response = Response(status: nat, message: Message)

  /** Destructuring with a default: `const {x = d} = req.body` applies only to a missing field. */
  function Default(v: Value, d: Value): Value {
    if v.Undefined? then d else v
  }

  /** The database name as the handlers pass it to the driver (the raw request value). */
  function DbName(req: Request): string {
    if req.databaseName.Str? then req.databaseName.s else ""
  }

  function FieldsOf(v: Value): Document {
    if v.Obj? then v.fields else map[]
  }

  /** `Math.floor` of a number; 0 for anything else. */
  function IntOf(v: Value): int {
    if v.Num? then v.x.Floor else 0
  }

  /** `offset = 0` and `limit = 10` by default. */
  function Offset(req: Request): int {
    IntOf(Default(req.offset, Num(0.0)))
  }

  function Limit(req: Request): int {
    IntOf(Default(req.limit, Num(10.0)))
  }

  function DatabasePayload(req: Request): Payload {
    map["databaseName" := req.databaseName, "mongodbURI" := req.mongodbURI,
        "collectionName" := Str(req.collectionName)]
  }

  function InsertPayload(req: Request): Payload {
    DatabasePayload(req)["document" := req.document]
  }

  function FetchPayload(req: Request): Payload {
    DatabasePayload(req)["query" := Default(req.query, Obj(map[]))]
      ["limit" := Default(req.limit, Num(10.0))]["offset" := Default(req.offset, Num(0.0))]
  }

  /** What `updateDocument` validates: the filter goes in under the key `query`. */
  function UpdatePayloadAsWritten(req: Request): Payload {
    DatabasePayload(req)["query" := req.query]["update" := req.update]
  }

  /** What `deleteDocument` validates: the filter goes in under the key `query`. */
  function DeletePayloadAsWritten(req: Request): Payload {
    DatabasePayload(req)["query" := req.query]
  }

  /** The corrected payloads: the request's `query` is validated as the schema's `filter`. */
  function UpdatePayload(req: Request): Payload {
    DatabasePayload(req)["filter" := req.query]["update" := req.update]
  }

  function DeletePayload(req: Request): Payload {
    DatabasePayload(req)["filter" := req.query]
  }

  /** The update and delete payloads as the handlers build them are never accepted: the
      schemas demand a `filter` object the payloads do not carry, and the errors say so. */
  lemma AsWrittenPayloadsRejected(req: Request, fmt: Formats)
    ensures !Accepts(UpdateDocumentSchema, UpdatePayloadAsWritten(req), fmt)
    ensures var v := ValidateData(UpdateDocumentSchema, UpdatePayloadAsWritten(req), fmt);
      v.Invalid? && "filter" in v.errors
    ensures !Accepts(DeleteDocumentSchema, DeletePayloadAsWritten(req), fmt)
    ensures var v := ValidateData(DeleteDocumentSchema, DeletePayloadAsWritten(req), fmt);
      v.Invalid? && "filter" in v.errors
  {
    var su := Shape(UpdateDocumentSchema);
    assert su[3] == ("filter", Record) && Get(UpdatePayloadAsWritten(req), "filter") == Undefined;
    ValidateDataSound(UpdateDocumentSchema, UpdatePayloadAsWritten(req), fmt);
    var sd := Shape(DeleteDocumentSchema);
    assert sd[3] == ("filter", Record) && Get(DeletePayloadAsWritten(req), "filter") == Undefined;
    ValidateDataSound(DeleteDocumentSchema, DeletePayloadAsWritten(req), fmt);
  }

  /** The corrected payloads are accepted exactly when the target is well-formed and the
      filter (and, for an update, the update) is an object. */
  lemma CorrectedPayloadsAccepted(req: Request, fmt: Formats)
    ensures Accepts(UpdateDocumentSchema, UpdatePayload(req), fmt) <==>
      DocumentTarget(DatabasePayload(req), fmt) && req.query.Obj? && req.update.Obj?
    ensures Accepts(DeleteDocumentSchema, DeletePayload(req), fmt) <==>
      DocumentTarget(DatabasePayload(req), fmt) && req.query.Obj?
  {
    FilterSchemasFields(UpdatePayload(req), fmt);
    FilterSchemasFields(DeletePayload(req), fmt);
    assert forall k :: k in {"databaseName", "mongodbURI", "collectionName"} ==>
      Get(UpdatePayload(req), k) == Get(DatabasePayload(req), k)
      && Get(DeletePayload(req), k) == Get(DatabasePayload(req), k);
  }

  /** An `_id` the driver treats as missing (`doc._id == null`): it replaces it with a fresh
      ObjectId before sending the document. */
  predicate NullId(d: Document) {
    "_id" in d && (d["_id"].Null? || d["_id"].Undefined?)
  }

  /** The document `insertOne` stores: a null `_id` is dropped, standing for the fresh
      ObjectId the driver generates (generated identifiers are not modelled). */
  function AsInserted(d: Document): Document {
    if NullId(d) then d - {"_id"} else d
  }

  /** An `_id` the request supplies that a document of the collection already holds: the
      unique `_id` index rejects the insertion. A null `_id` is never taken, since the
      driver replaces it. */
  predicate IdTaken(docs: Collection, d: Document) {
    "_id" in d && !NullId(d) && exists k :: 0 <= k < |docs| && "_id" in docs[k] && docs[k]["_id"] == d["_id"]
  }

  /** The query object a fetch sends: the request's, or `{}` when it has none. */
  function QueryOf(req: Request): Document {
    FieldsOf(Default(req.query, Obj(map[])))
  }

  /** A document inserted into a collection where nothing else matches a query is what a
      fetch with that query and the default window returns. */
  lemma InsertThenFetch(c: Cluster, db: string, coll: string, d: Document, matches: Document -> bool)
    requires matches(d)
    requires forall k :: 0 <= k < |Docs(c, db, coll)| ==> !matches(Docs(c, db, coll)[k])
    ensures Window(Filter(Docs(PutCollection(c, db, coll, Docs(c, db, coll) + [d]), db, coll), matches), 0, 10) == [d]
  {
    FilterFindsAppended(Docs(c, db, coll), d, matches);
  }

  // ---------------------------------------------------------------- the handlers

  /** The store behind a request's connection, and the tenant the API-key check attached to
      the request (`req.user`), if any. */
  class Gateway {
    var cluster: Cluster
    var tenant: Option<User>

    ghost predicate Valid()
      reads this
    {
      WellFormed(cluster) && QuotaRespected(tenant)
    }

    constructor (cluster0: Cluster, tenant0: Option<User>)
      requires WellFormed(cluster0) && QuotaRespected(tenant0)
      ensures Valid() && cluster == cluster0 && tenant == tenant0
    {
      cluster := cluster0;
      tenant := tenant0;
    }

    /** `db.createCollection(coll)` */
    method CreateCollectionStep(db: string, coll: string)
      requires Valid() && !HasCollection(cluster, db, coll)
      modifies this`cluster
      ensures Valid() && cluster == PutCollection(old(cluster), db, coll, [])
    {
      cluster := PutCollection(cluster, db, coll, []);
    }

    /** `db.collection(coll).insertOne(d)` on an existing collection. */
    method InsertOne(db: string, coll: string, d: Document)
      requires Valid() && HasCollection(cluster, db, coll)
      modifies this`cluster
      ensures Valid() && cluster == PutCollection(old(cluster), db, coll, old(Docs(cluster, db, coll)) + [d])
    {
      cluster := PutCollection(cluster, db, coll, Docs(cluster, db, coll) + [d]);
    }

    /** The tenant's `$inc: {dbCount: 1}`, run after the quota check passed. */
    method ChargeTenant()
      requires Valid() && !OverQuota(tenant)
      modifies this`tenant
      ensures Valid() && tenant == Charge(old(tenant))
    {
      ChargeOnlyFreeTier(tenant);
      tenant := Charge(tenant);
    }

    /** `createDatabase`: makes sure the named collection exists and holds a document.
        An empty or missing collection gets a seed document and charges a tenant on the
        free tier; a collection that already holds documents is left alone. */
    method CreateDatabase(req: Request, now: int, fmt: Formats) returns (r: Response)
      requires Valid()
      modifies this
      ensures Valid()
      ensures !Accepts(DatabaseSchema, DatabasePayload(req), fmt) ==>
        && r == Response(400, InvalidPayload(ValidateData(DatabaseSchema, DatabasePayload(req), fmt).errors))
        && cluster == old(cluster) && tenant == old(tenant)
      ensures Accepts(DatabaseSchema, DatabasePayload(req), fmt) && OverQuota(old(tenant)) ==>
        r == Response(403, QuotaReached) && cluster == old(cluster) && tenant == old(tenant)
      ensures Accepts(DatabaseSchema, DatabasePayload(req), fmt) && !OverQuota(old(tenant))
              && |Docs(old(cluster), DbName(req), req.collectionName)| > 0 ==>
        r == Response(200, AlreadyPresent) && cluster == old(cluster) && tenant == old(tenant)
      ensures Accepts(DatabaseSchema, DatabasePayload(req), fmt) && !OverQuota(old(tenant))
              && |Docs(old(cluster), DbName(req), req.collectionName)| == 0 ==>
        && r.status == 200
        && r.message == (if HasCollection(old(cluster), DbName(req), req.collectionName) then SeededEmptyCollection
                         else if HasDatabase(old(cluster), DbName(req)) then CollectionCreatedWithSeed
                         else DatabaseCreatedWithSeed)
        && cluster == PutCollection(old(cluster), DbName(req), req.collectionName,
                                    [SeedDocument(req.collectionName, now)])
        && tenant == Charge(old(tenant))
    {
      var v := ValidateData(DatabaseSchema, DatabasePayload(req), fmt);
      ValidateDataSound(DatabaseSchema, DatabasePayload(req), fmt);
      if v.Invalid? {
        return Response(400, InvalidPayload(v.errors));
      }
      if OverQuota(tenant) {
        return Response(403, QuotaReached);
      }
      var db, coll := DbName(req), req.collectionName;
      var seed := SeedDocument(coll, now);
      if HasDatabase(cluster, db) {
        if HasCollection(cluster, db, coll) {
          if |Docs(cluster, db, coll)| == 0 {
            assert Docs(cluster, db, coll) + [seed] == [seed];
            InsertOne(db, coll, seed);
            ChargeTenant();
            r := Response(200, SeededEmptyCollection);
          } else {
            r := Response(200, AlreadyPresent);
          }
        } else {
          CreateCollectionStep(db, coll);
          assert Docs(cluster, db, coll) + [seed] == [seed];
          InsertOne(db, coll, seed);
          PutCollectionTwice(old(cluster), db, coll, [], [seed]);
          ChargeTenant();
          r := Response(200, CollectionCreatedWithSeed);
        }
      } else {
        CreateCollectionStep(db, coll);
        assert Docs(cluster, db, coll) + [seed] == [seed];
        InsertOne(db, coll, seed);
        PutCollectionTwice(old(cluster), db, coll, [], [seed]);
        ChargeTenant();
        r := Response(200, DatabaseCreatedWithSeed);
      }
    }

    /** `createCollection`: creates an empty collection, refusing one that exists. */
    method CreateCollection(req: Request, fmt: Formats) returns (r: Response)
      requires Valid()
      modifies this
      ensures Valid()
      ensures !Accepts(DatabaseSchema, DatabasePayload(req), fmt) ==>
        && r == Response(400, InvalidPayload(ValidateData(DatabaseSchema, DatabasePayload(req), fmt).errors))
        && cluster == old(cluster) && tenant == old(tenant)
      ensures Accepts(DatabaseSchema, DatabasePayload(req), fmt) && OverQuota(old(tenant)) ==>
        r == Response(403, QuotaReached) && cluster == old(cluster) && tenant == old(tenant)
      ensures Accepts(DatabaseSchema, DatabasePayload(req), fmt) && !OverQuota(old(tenant))
              && HasCollection(old(cluster), DbName(req), req.collectionName) ==>
        r == Response(400, CollectionAlreadyExists) && cluster == old(cluster) && tenant == old(tenant)
      ensures Accepts(DatabaseSchema, DatabasePayload(req), fmt) && !OverQuota(old(tenant))
              && !HasCollection(old(cluster), DbName(req), req.collectionName) ==>
        && r == Response(201, CollectionCreated)
        && cluster == PutCollection(old(cluster), DbName(req), req.collectionName, [])
        && tenant == Charge(old(tenant))
    {
      var v := ValidateData(DatabaseSchema, DatabasePayload(req), fmt);
      ValidateDataSound(DatabaseSchema, DatabasePayload(req), fmt);
      if v.Invalid? {
        return Response(400, InvalidPayload(v.errors));
      }
      if OverQuota(tenant) {
        return Response(403, QuotaReached);
      }
      var db, coll := DbName(req), req.collectionName;
      if HasCollection(cluster, db, coll) {
        return Response(400, CollectionAlreadyExists);
      }
      CreateCollectionStep(db, coll);
      ChargeTenant();
      r := Response(201, CollectionCreated);
    }

    /** `dropCollection`: only a request with a tenant attached may drop; dropping a
        collection that is not there changes nothing. */
    method DropCollection(req: Request, fmt: Formats) returns (r: Response)
      requires Valid()
      modifies this`cluster
      ensures Valid()
      ensures !Accepts(DropCollectionSchema, DatabasePayload(req), fmt) ==>
        && r == Response(400, InvalidPayload(ValidateData(DropCollectionSchema, DatabasePayload(req), fmt).errors))
        && cluster == old(cluster)
      ensures Accepts(DropCollectionSchema, DatabasePayload(req), fmt) && tenant.None? ==>
        r == Response(401, InvalidApiKey) && cluster == old(cluster)
      ensures Accepts(DropCollectionSchema, DatabasePayload(req), fmt) && tenant.Some? ==>
        && r == Response(200, CollectionDropped)
        && cluster == RemoveCollection(old(cluster), DbName(req), req.collectionName)
    {
      var v := ValidateData(DropCollectionSchema, DatabasePayload(req), fmt);
      ValidateDataSound(DropCollectionSchema, DatabasePayload(req), fmt);
      if v.Invalid? {
        return Response(400, InvalidPayload(v.errors));
      }
      if tenant.None? {
        return Response(401, InvalidApiKey);
      }
      cluster := RemoveCollection(cluster, DbName(req), req.collectionName);
      r := Response(200, CollectionDropped);
    }

    /** `insertDocument`: appends the request's document to an existing collection. A
        truthy `_id` reaches `new ObjectId(...)`, which the module never imports, so the
        handler fails with 500 before inserting. */
    method InsertDocument(req: Request, fmt: Formats) returns (r: Response)
      requires Valid()
      modifies this`cluster
      ensures Valid()
      ensures !Accepts(InsertDocumentSchema, InsertPayload(req), fmt) ==>
        && r == Response(400, InvalidPayload(ValidateData(InsertDocumentSchema, InsertPayload(req), fmt).errors))
        && cluster == old(cluster)
      ensures Accepts(InsertDocumentSchema, InsertPayload(req), fmt)
              && !HasCollection(old(cluster), DbName(req), req.collectionName) ==>
        r == Response(404, CollectionMissing) && cluster == old(cluster)
      ensures Accepts(InsertDocumentSchema, InsertPayload(req), fmt)
              && HasCollection(old(cluster), DbName(req), req.collectionName)
              && (Truthy(Get(FieldsOf(req.document), "_id"))
                  || IdTaken(old(Docs(cluster, DbName(req), req.collectionName)), FieldsOf(req.document))) ==>
        r == Response(500, StoreFailure) && cluster == old(cluster)
      ensures Accepts(InsertDocumentSchema, InsertPayload(req), fmt)
              && HasCollection(old(cluster), DbName(req), req.collectionName)
              && !Truthy(Get(FieldsOf(req.document), "_id"))
              && !IdTaken(old(Docs(cluster, DbName(req), req.collectionName)), FieldsOf(req.document)) ==>
        && r == Response(201, DocumentInserted)
        && cluster == PutCollection(old(cluster), DbName(req), req.collectionName,
                                    old(Docs(cluster, DbName(req), req.collectionName)) + [AsInserted(FieldsOf(req.document))])
    {
      var v := ValidateData(InsertDocumentSchema, InsertPayload(req), fmt);
      ValidateDataSound(InsertDocumentSchema, InsertPayload(req), fmt);
      if v.Invalid? {
        return Response(400, InvalidPayload(v.errors));
      }
      var db, coll := DbName(req), req.collectionName;
      if !HasCollection(cluster, db, coll) {
        return Response(404, CollectionMissing);
      }
      var d := FieldsOf(req.document);
      if Truthy(Get(d, "_id")) {
        // `ObjectId` is not in scope: the handler throws
        return Response(500, StoreFailure);
      }
      if IdTaken(Docs(cluster, db, coll), d) {
        // duplicate key on the `_id` index
        return Response(500, StoreFailure);
      }
      InsertOne(db, coll, AsInserted(d));
      r := Response(201, DocumentInserted);
    }

    /** `fetchDocuments`: the documents the query matches, in store order, from position
        `offset` on and at most `|limit|` of them (all of them for a limit of 0). A missing
        collection reads as empty; a negative offset makes the driver throw. `read` is how
        the store reads a query object; it reads the empty query as matching everything. */
    method FetchDocuments(req: Request, read: Document -> Document -> bool, fmt: Formats) returns (r: Response)
      requires forall d: Document :: read(map[])(d)
      ensures !Accepts(FetchDocumentsSchema, FetchPayload(req), fmt) ==>
        r == Response(400, InvalidPayload(ValidateData(FetchDocumentsSchema, FetchPayload(req), fmt).errors))
      ensures Accepts(FetchDocumentsSchema, FetchPayload(req), fmt) && Offset(req) < 0 ==>
        r == Response(500, StoreFailure)
      ensures Accepts(FetchDocumentsSchema, FetchPayload(req), fmt) && Offset(req) >= 0 ==>
        r == Response(200, Fetched(Window(Filter(Docs(cluster, DbName(req), req.collectionName), read(QueryOf(req))),
                                          Offset(req), Limit(req))))
      ensures r.message.Fetched? ==>
        forall k :: 0 <= k < |r.message.documents| ==>
          read(QueryOf(req))(r.message.documents[k])
          && r.message.documents[k] in Docs(cluster, DbName(req), req.collectionName)
      ensures r.message.Fetched? && Limit(req) != 0 ==> |r.message.documents| <= Abs(Limit(req))
      ensures Accepts(FetchDocumentsSchema, FetchPayload(req), fmt)
              && req.query.Undefined? && req.limit.Undefined? && req.offset.Undefined? ==>
        var docs := Docs(cluster, DbName(req), req.collectionName);
        r == Response(200, Fetched(docs[..Min(|docs|, 10)]))
    {
      var v := ValidateData(FetchDocumentsSchema, FetchPayload(req), fmt);
      ValidateDataSound(FetchDocumentsSchema, FetchPayload(req), fmt);
      if v.Invalid? {
        return Response(400, InvalidPayload(v.errors));
      }
      var offset := Offset(req);
      if offset < 0 {
        // `skip` refuses a negative count
        return Response(500, StoreFailure);
      }
      var docs := Docs(cluster, DbName(req), req.collectionName);
      var found := Filter(docs, read(QueryOf(req)));
      if req.query.Undefined? {
        FilterAll(docs, read(map[]));
      }
      WindowIsRun(found, offset, Limit(req));
      r := Response(200, Fetched(Window(found, offset, Limit(req))));
    }

    /** The body of `updateDocument` once a payload passed validation:
        `updateMany(query, {$set: update})` on the named collection. */
    method ApplyUpdate(req: Request, payload: Payload, matches: Document -> bool, fmt: Formats)
      returns (r: Response)
      requires Valid()
      modifies this`cluster
      ensures Valid()
      ensures !Accepts(UpdateDocumentSchema, payload, fmt) ==>
        && r == Response(400, InvalidPayload(ValidateData(UpdateDocumentSchema, payload, fmt).errors))
        && cluster == old(cluster)
      ensures Accepts(UpdateDocumentSchema, payload, fmt) ==>
        var docs := old(Docs(cluster, DbName(req), req.collectionName));
        && r == Response(200, Updated(|Filter(docs, matches)|, CountChanged(docs, matches, FieldsOf(req.update))))
        && cluster == (if HasCollection(old(cluster), DbName(req), req.collectionName)
                       then PutCollection(old(cluster), DbName(req), req.collectionName,
                                          UpdateMany(docs, matches, FieldsOf(req.update)))
                       else old(cluster))
    {
      var v := ValidateData(UpdateDocumentSchema, payload, fmt);
      ValidateDataSound(UpdateDocumentSchema, payload, fmt);
      if v.Invalid? {
        return Response(400, InvalidPayload(v.errors));
      }
      var db, coll := DbName(req), req.collectionName;
      var docs := Docs(cluster, db, coll);
      var fields := FieldsOf(req.update);
      if HasCollection(cluster, db, coll) {
        cluster := PutCollection(cluster, db, coll, UpdateMany(docs, matches, fields));
      }
      r := Response(200, Updated(|Filter(docs, matches)|, CountChanged(docs, matches, fields)));
    }

    /** The body of `deleteDocument` once a payload passed validation:
        `deleteMany(query)` on the named collection. */
    method ApplyDelete(req: Request, payload: Payload, matches: Document -> bool, fmt: Formats)
      returns (r: Response)
      requires Valid()
      modifies this`cluster
      ensures Valid()
      ensures !Accepts(DeleteDocumentSchema, payload, fmt) ==>
        && r == Response(400, InvalidPayload(ValidateData(DeleteDocumentSchema, payload, fmt).errors))
        && cluster == old(cluster)
      ensures Accepts(DeleteDocumentSchema, payload, fmt) ==>
        var docs := old(Docs(cluster, DbName(req), req.collectionName));
        && r == Response(200, Deleted(|Filter(docs, matches)|))
        && cluster == (if HasCollection(old(cluster), DbName(req), req.collectionName)
                       then PutCollection(old(cluster), DbName(req), req.collectionName, DeleteMany(docs, matches))
                       else old(cluster))
    {
      var v := ValidateData(DeleteDocumentSchema, payload, fmt);
      ValidateDataSound(DeleteDocumentSchema, payload, fmt);
      if v.Invalid? {
        return Response(400, InvalidPayload(v.errors));
      }
      var db, coll := DbName(req), req.collectionName;
      var docs := Docs(cluster, db, coll);
      if HasCollection(cluster, db, coll) {
        cluster := PutCollection(cluster, db, coll, DeleteMany(docs, matches));
      }
      r := Response(200, Deleted(|Filter(docs, matches)|));
    }

    /** `updateDocument` as written: it validates the filter under the key `query`, so every
        request is refused with 400 naming `filter`, and nothing is updated. */
    method UpdateDocument(req: Request, matches: Document -> bool, fmt: Formats) returns (r: Response)
      requires Valid()
      modifies this`cluster
      ensures Valid()
      ensures r.status == 400 && r.message.InvalidPayload? && "filter" in r.message.errors
      ensures cluster == old(cluster)
    {
      AsWrittenPayloadsRejected(req, fmt);
      r := ApplyUpdate(req, UpdatePayloadAsWritten(req), matches, fmt);
    }

    /** `deleteDocument` as written: refused with 400 naming `filter`; nothing is deleted. */
    method DeleteDocument(req: Request, matches: Document -> bool, fmt: Formats) returns (r: Response)
      requires Valid()
      modifies this`cluster
      ensures Valid()
      ensures r.status == 400 && r.message.InvalidPayload? && "filter" in r.message.errors
      ensures cluster == old(cluster)
    {
      AsWrittenPayloadsRejected(req, fmt);
      r := ApplyDelete(req, DeletePayloadAsWritten(req), matches, fmt);
    }

    /** `updateDocument` with the request's `query` validated as the schema's `filter`:
        a well-formed request sets the update's fields on every matching document and
        reports how many matched and how many changed. */
    method UpdateDocumentCorrected(req: Request, matches: Document -> bool, fmt: Formats) returns (r: Response)
      requires Valid()
      modifies this`cluster
      ensures Valid()
      ensures !(DocumentTarget(DatabasePayload(req), fmt) && req.query.Obj? && req.update.Obj?) ==>
        r.status == 400 && r.message.InvalidPayload? && r.message.errors != [] && cluster == old(cluster)
      ensures DocumentTarget(DatabasePayload(req), fmt) && req.query.Obj? && req.update.Obj? ==>
        var docs := old(Docs(cluster, DbName(req), req.collectionName));
        && r == Response(200, Updated(|Filter(docs, matches)|, CountChanged(docs, matches, req.update.fields)))
        && (HasCollection(old(cluster), DbName(req), req.collectionName) ==>
              cluster == PutCollection(old(cluster), DbName(req), req.collectionName,
                                       UpdateMany(docs, matches, req.update.fields)))
        && (!HasCollection(old(cluster), DbName(req), req.collectionName) ==>
              cluster == old(cluster) && r.message == Updated(0, 0))
    {
      CorrectedPayloadsAccepted(req, fmt);
      ValidateDataSound(UpdateDocumentSchema, UpdatePayload(req), fmt);
      r := ApplyUpdate(req, UpdatePayload(req), matches, fmt);
    }

    /** `deleteDocument` with the request's `query` validated as the schema's `filter`:
        a well-formed request removes exactly the matching documents and reports how many. */
    method DeleteDocumentCorrected(req: Request, matches: Document -> bool, fmt: Formats) returns (r: Response)
      requires Valid()
      modifies this`cluster
      ensures Valid()
      ensures !(DocumentTarget(DatabasePayload(req), fmt) && req.query.Obj?) ==>
        r.status == 400 && r.message.InvalidPayload? && r.message.errors != [] && cluster == old(cluster)
      ensures DocumentTarget(DatabasePayload(req), fmt) && req.query.Obj? ==>
        var docs := old(Docs(cluster, DbName(req), req.collectionName));
        && r == Response(200, Deleted(|Filter(docs, matches)|))
        && (HasCollection(old(cluster), DbName(req), req.collectionName) ==>
              cluster == PutCollection(old(cluster), DbName(req), req.collectionName, DeleteMany(docs, matches))
              && |Docs(cluster, DbName(req), req.collectionName)| + r.message.count == |docs|)
        && (!HasCollection(old(cluster), DbName(req), req.collectionName) ==>
              cluster == old(cluster) && r.message == Deleted(0))
    {
      CorrectedPayloadsAccepted(req, fmt);
      ValidateDataSound(DeleteDocumentSchema, DeletePayload(req), fmt);
      DeleteManyCount(Docs(cluster, DbName(req), req.collectionName), matches);
      r := ApplyDelete(req, DeletePayload(req), matches, fmt);
    }
  }

  /** Inserting the same document with a null `_id` twice: the driver gives each copy a
      fresh identifier, so both insertions succeed and the collection grows by two. */
  method InsertNullIdTwice(g: Gateway, req: Request, fmt: Formats) returns (first: Response, second: Response)
    requires g.Valid() && Accepts(InsertDocumentSchema, InsertPayload(req), fmt)
    requires HasCollection(g.cluster, DbName(req), req.collectionName) && NullId(FieldsOf(req.document))
    modifies g
    ensures g.Valid()
    ensures first == Response(201, DocumentInserted) && second == first
    ensures Docs(g.cluster, DbName(req), req.collectionName)
      == old(Docs(g.cluster, DbName(req), req.collectionName))
        + [AsInserted(FieldsOf(req.document)), AsInserted(FieldsOf(req.document))]
  {
    first := g.InsertDocument(req, fmt);
    second := g.InsertDocument(req, fmt);
  }

  /** Sending the same `createDatabase` request twice: the second request changes nothing.
      When the first one answered 200, the second finds the collection holding data and
      answers so, unless the first one used up the free tier, in which case it is refused. */
  method ProvisionTwice(g: Gateway, req: Request, now1: int, now2: int, fmt: Formats)
    returns (first: Response, second: Response, ghost between: Cluster, ghost tenantBetween: Option<User>)
    requires g.Valid()
    modifies g
    ensures g.Valid()
    ensures g.cluster == between && g.tenant == tenantBetween
    ensures first.status == 200 ==>
      second == Response(200, AlreadyPresent) || second == Response(403, QuotaReached)
    ensures first.status != 200 ==> second == first
    ensures first == Response(200, AlreadyPresent) ==> second == first
    ensures first.status == 200 ==> (second.status == 403 <==> OverQuota(tenantBetween))
    ensures first.status == 200 && OverQuota(tenantBetween) ==>
      first.message != AlreadyPresent && tenantBetween == Charge(old(g.tenant))
      && tenantBetween.value.dbCount == FreeDatabaseLimit
  {
    first := g.CreateDatabase(req, now1, fmt);
    between, tenantBetween := g.cluster, g.tenant;
    second := g.CreateDatabase(req, now2, fmt);
  }
}
