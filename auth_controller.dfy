/** Tenant sign-up: guarded insertion into the user table. */
module AuthController {
  import opened Values
  import opened Text
  import opened UserModel
  import opened PayloadSchema

  /** The answers of `createUser`. */
  datatype Reply =
    | InvalidPayload(errors: seq<string>)  // 400 "Invalid payload"
    | AlreadyExists(existing: User)        // 400 "User already exists with this email"
    | CreateFailed                         // 500: the store refused the new record
    | Created(user: User)                  // 200 "User created successfully"
  {
    function Status(): nat {
      match this
      case InvalidPayload(_) => 400
      case AlreadyExists(_) => 400
      case CreateFailed => 500
      case Created(_) => 200
    }
  }

  /** A record as the schema stores it: e-mail and key lowercased and trimmed. */
  predicate Stored(u: User) {
    Normalize(u.email) == u.email && Normalize(u.apiKey) == u.apiKey
  }

  predicate AllStored(users: seq<User>) {
    forall i :: 0 <= i < |users| ==> Stored(users[i])
  }

  /** Appending a record whose e-mail and key are both new keeps the unique indexes. */
  lemma AppendKeepsIndexes(users: seq<User>, u: User)
    requires UniqueEmails(users) && UniqueKeys(users) && AllStored(users) && Stored(u)
    requires forall j :: 0 <= j < |users| ==> users[j].email != u.email
    requires forall j :: 0 <= j < |users| ==> users[j].apiKey != u.apiKey
    ensures UniqueEmails(users + [u]) && UniqueKeys(users + [u]) && AllStored(users + [u])
  {
  }

  /** The user table. */
  class UserTable {
    var users: seq<User>

    /** The unique indexes hold and every record is in stored form. */
    ghost predicate Valid()
      reads this
    {
      UniqueEmails(users) && UniqueKeys(users) && AllStored(users)
    }

    constructor ()
      ensures Valid() && users == []
    {
      users := [];
    }

    /** `createUser`. `generatedKey` stands for the schema's random key default. */
    method CreateUser(email: Value, generatedKey: string, fmt: Formats) returns (r: Reply)
      requires Valid()
      modifies this
      ensures Valid()
      ensures !Holds(Email, email, fmt) ==> r.InvalidPayload? && r.errors == ["email"] && users == old(users)
      ensures Holds(Email, email, fmt) && FindByEmail(old(users), email.s).Some? ==>
        && r.AlreadyExists? && r.existing in old(users) && r.existing.email == Normalize(email.s)
        && users == old(users)
      ensures Holds(Email, email, fmt) && FindByEmail(old(users), email.s).None?
              && FindByApiKey(old(users), generatedKey).Some? ==>
        r == CreateFailed && users == old(users)
      ensures Holds(Email, email, fmt) && FindByEmail(old(users), email.s).None?
              && FindByApiKey(old(users), generatedKey).None? ==>
        r == Created(NewUser(email.s, generatedKey)) && users == old(users) + [r.user]
    {
      var v := ValidateEmail(email, fmt);
      if v.Invalid? {
        return InvalidPayload(v.errors);
      }
      var existing := FindByEmail(users, email.s);
      if existing.Some? {
        return AlreadyExists(users[existing.value]);
      }
      if FindByApiKey(users, generatedKey).Some? {
        // the unique index on `apiKey` rejects the record
        return CreateFailed;
      }
      var u := NewUser(email.s, generatedKey);
      NewUserDefaults(email.s, generatedKey);
      AppendKeepsIndexes(users, u);
      users := users + [u];
      r := Created(u);
    }
  }

  /** The validation `createUser` runs on `{email}`: it fails exactly when the e-mail rule
      fails, and then reports that one field. */
  function ValidateEmail(email: Value, fmt: Formats): (v: Validation)
    ensures v == ValidateData(UserDataSchema, map["email" := email], fmt)
    ensures v.Valid? <==> Holds(Email, email, fmt)
    ensures v.Invalid? ==> v.errors == ["email"]
  {
    var p := map["email" := email];
    UserDataSchemaFields(p, fmt);
    ValidateDataSound(UserDataSchema, p, fmt);
    var sh := Shape(UserDataSchema);
    assert sh == [("email", Email)] && sh[1..] == [];
    assert Issues(sh, p, fmt) == if Holds(Email, email, fmt) then [] else ["email"];
    ValidateData(UserDataSchema, p, fmt)
  }

  /** Signing up twice with the same address: the second call is refused and returns the
      record the first one created. */
  method SignUpTwice(table: UserTable, email: string, key1: string, key2: string, fmt: Formats)
    returns (first: Reply, second: Reply)
    requires table.Valid() && fmt.isEmail(email)
    requires FindByEmail(table.users, email).None? && FindByApiKey(table.users, key1).None?
    modifies table
    ensures table.Valid()
    ensures first == Created(NewUser(email, key1)) && first.Status() == 200
    ensures second.Status() == 400
    ensures second.AlreadyExists? && second.existing == NewUser(email, key1)
    ensures table.users == old(table.users) + [NewUser(email, key1)]
  {
    first := table.CreateUser(Str(email), key1, fmt);
    var users := table.users;
    var last := |users| - 1;
    assert users[last].email == Normalize(email);
    second := table.CreateUser(Str(email), key2, fmt);
    var k :| 0 <= k < |users| && users[k] == second.existing;
    assert k == last;
  }
}
