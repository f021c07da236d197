/** The request-payload schemas and the validation service that applies them.
    A schema is a table of (field, rule) pairs; a payload is accepted when every field
    satisfies its rule. Keys a schema does not list are ignored (and dropped from the
    validated data), as a zod object does by default. */
module PayloadSchema {
  import opened Values
  import opened Text

  /** The two format checks the schemas delegate to the validation library
      (`z.string().url()` and `z.string().email()`). */
  datatype Formats = Formats(isUrl: string -> bool, isEmail: string -> bool)

  /** The rule a schema attaches to one field. */
  datatype Rule =
    | LowerName            // string, 1..255 characters, equal to its own lowercase
    | Name                 // string, 1..255 characters
    | LoweredName          // string, 1..255 characters, lowercased by the parse
    | Url                  // string accepted by the URL check
    | Email                // string accepted by the e-mail check
    | NameOrNames          // a LowerName, or an array of LowerNames
    | OptionalNameOrNames  // the same, or absent
    | Record               // an object (any field values)
    | OptionalRecord       // an object, or absent
    | OptionalInt          // an integral number, or absent

  datatype Schema =
    | DatabaseSchema
    | UserDataSchema
    | DropDatabaseSchema
    | DropCollectionSchema
    | InsertDocumentSchema
    | FetchDocumentsSchema
    | UpdateDocumentSchema
    | DeleteDocumentSchema

  function Shape(schema: Schema): seq<(string, Rule)> {
    match schema
    case DatabaseSchema =>
      [("databaseName", LowerName), ("mongodbURI", Url), ("collectionName", OptionalNameOrNames)]
    case UserDataSchema =>
      [("email", Email)]
    case DropDatabaseSchema =>
      [("databaseName", LowerName), ("mongodbURI", Url)]
    case DropCollectionSchema =>
      [("databaseName", LowerName), ("mongodbURI", Url), ("collectionName", NameOrNames)]
    case InsertDocumentSchema =>
      [("databaseName", LoweredName), ("mongodbURI", Url), ("collectionName", Name),
       ("document", Record)]
    case FetchDocumentsSchema =>
      [("databaseName", LoweredName), ("mongodbURI", Url), ("collectionName", Name),
       ("query", OptionalRecord), ("limit", OptionalInt), ("offset", OptionalInt)]
    case UpdateDocumentSchema =>
      [("databaseName", LoweredName), ("mongodbURI", Url), ("collectionName", Name),
       ("filter", Record), ("update", Record)]
    case DeleteDocumentSchema =>
      [("databaseName", LoweredName), ("mongodbURI", Url), ("collectionName", Name),
       ("filter", Record)]
  }

  /** `z.string().nonempty().min(1).max(255)` */
  predicate BoundedName(v: Value) {
    v.Str? && 1 <= |v.s| <= 255
  }

  /** A bounded name with the lowercase refinement. */
  predicate LowercaseName(v: Value) {
    BoundedName(v) && IsLowercase(v.s)
  }

  /** The union of a single lowercase name and an array of them (an empty array included). */
  predicate NameOrNameList(v: Value) {
    LowercaseName(v) || (v.Arr? && forall i :: 0 <= i < |v.items| ==> LowercaseName(v.items[i]))
  }

  predicate IntegralNumber(v: Value) {
    v.Num? && IsInteger(v.x)
  }

  predicate Holds(rule: Rule, v: Value, fmt: Formats) {
    match rule
    case LowerName => LowercaseName(v)
    case Name => BoundedName(v)
    case LoweredName => BoundedName(v)
    case Url => v.Str? && fmt.isUrl(v.s)
    case Email => v.Str? && fmt.isEmail(v.s)
    case NameOrNames => NameOrNameList(v)
    case OptionalNameOrNames => v.Undefined? || NameOrNameList(v)
    case Record => v.Obj?
    case OptionalRecord => v.Undefined? || v.Obj?
    case OptionalInt => v.Undefined? || IntegralNumber(v)
  }

  /** Every field the schema lists satisfies its rule. */
  predicate Accepts(schema: Schema, p: Payload, fmt: Formats) {
    forall i :: 0 <= i < |Shape(schema)| ==> Holds(Shape(schema)[i].1, Get(p, Shape(schema)[i].0), fmt)
  }

  /** The fields that fail their rule, in schema order. */
  function Issues(shape: seq<(string, Rule)>, p: Payload, fmt: Formats): seq<string> {
    if shape == [] then []
    else
      var rest := Issues(shape[1..], p, fmt);
      if Holds(shape[0].1, Get(p, shape[0].0), fmt) then rest else [shape[0].0] + rest
  }

  /** The parsed value of one field: `LoweredName` applies `toLowerCase`. */
  function Transform(rule: Rule, v: Value): Value {
    if rule == LoweredName && v.Str? then Str(ToLower(v.s)) else v
  }

  /** The parsed object: the listed fields that are present, transformed. */
  function Parse(shape: seq<(string, Rule)>, p: Payload): Payload {
    if shape == [] then map[]
    else
      var rest := Parse(shape[1..], p);
      var v := Get(p, shape[0].0);
      if v.Undefined? then rest else rest[shape[0].0 := Transform(shape[0].1, v)]
  }

  /** The result shape of the validation service: `{isValid, validatedData}` or
      `{isValid: false, errors}`. */
  datatype Validation = Valid(validatedData: Payload) | Invalid(errors: seq<string>) {
    predicate IsValid() { Valid? }
  }

  /** `PayloadValidationServices.validateData(schema, data)` */
  function ValidateData(schema: Schema, p: Payload, fmt: Formats): (v: Validation)
    ensures v.Valid? <==> Accepts(schema, p, fmt)
  {
    IssuesExact(Shape(schema), p, fmt);
    var issues := Issues(Shape(schema), p, fmt);
    if issues == [] then Valid(Parse(Shape(schema), p)) else Invalid(issues)
  }

  // ---------------------------------------------------------------- validation service

  lemma {:induction false} IssuesExact(shape: seq<(string, Rule)>, p: Payload, fmt: Formats)
    ensures Issues(shape, p, fmt) == [] <==>
      forall i :: 0 <= i < |shape| ==> Holds(shape[i].1, Get(p, shape[i].0), fmt)
    ensures forall k :: k in Issues(shape, p, fmt) ==>
      exists i :: 0 <= i < |shape| && shape[i].0 == k && !Holds(shape[i].1, Get(p, shape[i].0), fmt)
    ensures forall i :: 0 <= i < |shape| && !Holds(shape[i].1, Get(p, shape[i].0), fmt) ==>
      shape[i].0 in Issues(shape, p, fmt)
  {
    if shape != [] {
      IssuesExact(shape[1..], p, fmt);
      assert forall i :: 1 <= i < |shape| ==> shape[i] == shape[1..][i - 1];
    }
  }

  /** The service reports valid exactly when the schema accepts the payload; otherwise it
      names at least one field, and each field it names breaks its rule. */
  lemma ValidateDataSound(schema: Schema, p: Payload, fmt: Formats)
    ensures ValidateData(schema, p, fmt).IsValid() <==> Accepts(schema, p, fmt)
    ensures ValidateData(schema, p, fmt).Invalid? ==> ValidateData(schema, p, fmt).errors != []
    ensures ValidateData(schema, p, fmt).Invalid? ==>
      forall k :: k in ValidateData(schema, p, fmt).errors ==>
        exists i :: 0 <= i < |Shape(schema)| && Shape(schema)[i].0 == k
          && !Holds(Shape(schema)[i].1, Get(p, k), fmt)
    ensures forall i :: 0 <= i < |Shape(schema)| && !Holds(Shape(schema)[i].1, Get(p, Shape(schema)[i].0), fmt) ==>
      ValidateData(schema, p, fmt).Invalid? && Shape(schema)[i].0 in ValidateData(schema, p, fmt).errors
  {
    IssuesExact(Shape(schema), p, fmt);
  }

  lemma {:induction false} ParseFields(shape: seq<(string, Rule)>, p: Payload, k: string, rule: Rule)
    requires (k, rule) in shape
    requires forall i, j :: 0 <= i < j < |shape| ==> shape[i].0 != shape[j].0
    ensures Get(p, k).Undefined? ==> k !in Parse(shape, p)
    ensures !Get(p, k).Undefined? ==> k in Parse(shape, p) && Parse(shape, p)[k] == Transform(rule, Get(p, k))
  {
    if shape[0] != (k, rule) {
      assert forall i :: 1 <= i < |shape| ==> shape[i] == shape[1..][i - 1];
      ParseFields(shape[1..], p, k, rule);
    } else {
      assert forall i :: 1 <= i < |shape| ==> shape[i].0 != k;
      ParseAbsent(shape[1..], p, k);
    }
  }

  lemma {:induction false} ParseAbsent(shape: seq<(string, Rule)>, p: Payload, k: string)
    requires forall i :: 0 <= i < |shape| ==> shape[i].0 != k
    ensures k !in Parse(shape, p)
  {
    if shape != [] {
      assert forall i :: 1 <= i < |shape| ==> shape[i] == shape[1..][i - 1];
      ParseAbsent(shape[1..], p, k);
    }
  }

  // ---------------------------------------------------------------- the schemas

  /** `databaseSchema`: a lowercase database name of 1..255 characters, a URL, and an
      optional collection name that is one lowercase name or an array of them. */
  lemma DatabaseSchemaFields(p: Payload, fmt: Formats)
    ensures Accepts(DatabaseSchema, p, fmt) <==>
      && Get(p, "databaseName").Str? && 1 <= |Get(p, "databaseName").s| <= 255
      && Get(p, "databaseName").s == ToLower(Get(p, "databaseName").s)
      && Get(p, "mongodbURI").Str? && fmt.isUrl(Get(p, "mongodbURI").s)
      && (|| Get(p, "collectionName").Undefined?
          || LowercaseName(Get(p, "collectionName"))
          || (Get(p, "collectionName").Arr?
              && forall i :: 0 <= i < |Get(p, "collectionName").items| ==>
                   LowercaseName(Get(p, "collectionName").items[i])))
  {
    var sh := Shape(DatabaseSchema);
    assert sh[0] == ("databaseName", LowerName) && sh[1] == ("mongodbURI", Url)
      && sh[2] == ("collectionName", OptionalNameOrNames);
  }

  /** A name is lowercase exactly when it holds no upper-case letter; an upper-case letter
      anywhere gets the name rejected by `databaseSchema`. */
  lemma LowercaseNameChars(v: Value)
    requires BoundedName(v)
    ensures LowercaseName(v) <==> forall i :: 0 <= i < |v.s| ==> !IsUpper(v.s[i])
  {
    LowercaseIffNoUpper(v.s);
  }

  /** An empty array of collection names is accepted, like an absent one. */
  lemma EmptyNameListAccepted(p: Payload, fmt: Formats)
    ensures Accepts(DatabaseSchema, p["collectionName" := Arr([])], fmt)
        <==> Accepts(DatabaseSchema, p["collectionName" := Undefined], fmt)
  {
  }

  /** `dropCollectionSchema` is `databaseSchema` with the collection name made mandatory. */
  lemma DropCollectionSchemaFields(p: Payload, fmt: Formats)
    ensures Accepts(DropCollectionSchema, p, fmt) <==>
      Accepts(DatabaseSchema, p, fmt) && !Get(p, "collectionName").Undefined?
  {
    var sh := Shape(DropCollectionSchema);
    assert sh[0] == ("databaseName", LowerName) && sh[1] == ("mongodbURI", Url)
      && sh[2] == ("collectionName", NameOrNames);
    DatabaseSchemaFields(p, fmt);
  }

  /** `dropDatabaseSchema` asks for a lowercase database name and a URL and nothing else;
      whatever `databaseSchema` accepts, it accepts. */
  lemma DropDatabaseSchemaFields(p: Payload, fmt: Formats)
    ensures Accepts(DropDatabaseSchema, p, fmt) <==>
      LowercaseName(Get(p, "databaseName")) && Get(p, "mongodbURI").Str? && fmt.isUrl(Get(p, "mongodbURI").s)
    ensures Accepts(DatabaseSchema, p, fmt) ==> Accepts(DropDatabaseSchema, p, fmt)
  {
    var sh := Shape(DropDatabaseSchema);
    assert sh[0] == ("databaseName", LowerName) && sh[1] == ("mongodbURI", Url);
    DatabaseSchemaFields(p, fmt);
  }

  /** `dropDatabaseSchema` has no collection name: whatever that field holds plays no part. */
  lemma DropDatabaseIgnoresCollection(p: Payload, v: Value, fmt: Formats)
    ensures Accepts(DropDatabaseSchema, p["collectionName" := v], fmt) == Accepts(DropDatabaseSchema, p, fmt)
  {
  }

  /** The common prefix of the four document schemas: names bounded by length only. */
  predicate DocumentTarget(p: Payload, fmt: Formats) {
    && BoundedName(Get(p, "databaseName"))
    && Get(p, "mongodbURI").Str? && fmt.isUrl(Get(p, "mongodbURI").s)
    && BoundedName(Get(p, "collectionName"))
  }

  /** `insertDocumentSchema`: bounded names, a URL and a document object. */
  lemma InsertDocumentSchemaFields(p: Payload, fmt: Formats)
    ensures Accepts(InsertDocumentSchema, p, fmt) <==> DocumentTarget(p, fmt) && Get(p, "document").Obj?
  {
    var sh := Shape(InsertDocumentSchema);
    assert sh[0].0 == "databaseName" && sh[1].0 == "mongodbURI" && sh[2].0 == "collectionName"
      && sh[3].0 == "document";
  }

  /** `fetchDocumentsSchema`: query, limit and offset may be absent; when present the query
      is an object and limit and offset are integers. */
  lemma FetchDocumentsSchemaFields(p: Payload, fmt: Formats)
    ensures Accepts(FetchDocumentsSchema, p, fmt) <==>
      && DocumentTarget(p, fmt)
      && (Get(p, "query").Undefined? || Get(p, "query").Obj?)
      && (Get(p, "limit").Undefined? || (Get(p, "limit").Num? && IsInteger(Get(p, "limit").x)))
      && (Get(p, "offset").Undefined? || (Get(p, "offset").Num? && IsInteger(Get(p, "offset").x)))
  {
    var sh := Shape(FetchDocumentsSchema);
    assert sh[0].0 == "databaseName" && sh[1].0 == "mongodbURI" && sh[2].0 == "collectionName"
      && sh[3] == ("query", OptionalRecord) && sh[4] == ("limit", OptionalInt)
      && sh[5] == ("offset", OptionalInt);
  }

  /** `updateDocumentSchema` demands a `filter` object and an `update` object;
      `deleteDocumentSchema` demands a `filter` object. */
  lemma FilterSchemasFields(p: Payload, fmt: Formats)
    ensures Accepts(UpdateDocumentSchema, p, fmt) <==>
      DocumentTarget(p, fmt) && Get(p, "filter").Obj? && Get(p, "update").Obj?
    ensures Accepts(DeleteDocumentSchema, p, fmt) <==>
      DocumentTarget(p, fmt) && Get(p, "filter").Obj?
  {
    var su := Shape(UpdateDocumentSchema);
    assert su[0].0 == "databaseName" && su[1].0 == "mongodbURI" && su[2].0 == "collectionName"
      && su[3] == ("filter", Record) && su[4] == ("update", Record);
    var sd := Shape(DeleteDocumentSchema);
    assert sd[0].0 == "databaseName" && sd[1].0 == "mongodbURI" && sd[2].0 == "collectionName"
      && sd[3] == ("filter", Record);
  }

  /** `userDataSchema`: an e-mail string. */
  lemma UserDataSchemaFields(p: Payload, fmt: Formats)
    ensures Accepts(UserDataSchema, p, fmt) <==> Get(p, "email").Str? && fmt.isEmail(Get(p, "email").s)
  {
    assert Shape(UserDataSchema)[0] == ("email", Email);
  }

  /** The document schemas do not reject an upper-case database name: they lowercase it in
      the validated data. They put no case rule on the collection name. */
  lemma DocumentSchemasLowerDatabaseName(schema: Schema, p: Payload, fmt: Formats)
    requires schema in {InsertDocumentSchema, FetchDocumentsSchema, UpdateDocumentSchema, DeleteDocumentSchema}
    requires ValidateData(schema, p, fmt).Valid?
    ensures var d := Get(p, "databaseName");
      d.Str? && "databaseName" in ValidateData(schema, p, fmt).validatedData
      && ValidateData(schema, p, fmt).validatedData["databaseName"] == Str(ToLower(d.s))
      && IsLowercase(ToLower(d.s))
  {
    ValidateDataSound(schema, p, fmt);
    var sh := Shape(schema);
    assert sh[0] == ("databaseName", LoweredName);
    ParseFields(sh, p, "databaseName", LoweredName);
    ToLowerIsLowercase(Get(p, "databaseName").s);
  }

  /** The same upper-case names: refused by `databaseSchema`, accepted by
      `insertDocumentSchema`. */
  lemma UppercaseNameOnlyForDocuments(fmt: Formats)
    requires fmt.isUrl("mongodb://host")
    ensures var p := map["databaseName" := Str("Shop"), "mongodbURI" := Str("mongodb://host"),
                         "collectionName" := Str("Orders"), "document" := Obj(map[])];
      !Accepts(DatabaseSchema, p, fmt) && Accepts(InsertDocumentSchema, p, fmt)
  {
    var p := map["databaseName" := Str("Shop"), "mongodbURI" := Str("mongodb://host"),
                 "collectionName" := Str("Orders"), "document" := Obj(map[])];
    DatabaseSchemaFields(p, fmt);
    LowercaseIffNoUpper("Shop");
    assert IsUpper("Shop"[0]);
    InsertDocumentSchemaFields(p, fmt);
  }
}
