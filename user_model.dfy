/** The tenant record of the user table and the lookups the gateway runs against it. */
module UserModel {
  import opened Values
  import opened Text

  /** A tenant. The `email` and `apiKey` fields are stored lowercased and trimmed; the
      record's creation and update timestamps are not modelled. */
  datatype User = User(email: string, isActive: bool, isPaid: bool, apiKey: string, dbCount: nat)

  /** The record `User.create({email})` stores: the given e-mail and the generated key,
      both normalised, and the schema's defaults for the other fields. */
  function NewUser(email: string, generatedKey: string): User {
    User(Normalize(email), true, false, Normalize(generatedKey), 0)
  }

  /** A new tenant is active, on the free tier, has created no database, and holds its
      e-mail and key in the stored (lowercase, trimmed) form. */
  lemma NewUserDefaults(email: string, generatedKey: string)
    ensures var u := NewUser(email, generatedKey);
      && u.isActive && !u.isPaid && u.dbCount == 0
      && IsLowercase(u.email) && Normalize(u.email) == u.email
      && IsLowercase(u.apiKey) && Normalize(u.apiKey) == u.apiKey
  {
    NormalizeIdempotent(email);
    NormalizeIdempotent(generatedKey);
  }

  /** `User.findOne(filter)`: the position of the first record, in table order, that the
      filter matches. */
  function FindFirst(users: seq<User>, matches: User -> bool): (r: Option<nat>)
    ensures r.Some? ==> r.value < |users| && matches(users[r.value])
    ensures r.Some? ==> forall j :: 0 <= j < r.value ==> !matches(users[j])
    ensures r.None? ==> forall j :: 0 <= j < |users| ==> !matches(users[j])
  {
    if users == [] then None
    else if matches(users[0]) then Some(0)
    else match FindFirst(users[1..], matches)
      case None => None
      case Some(i) => Some(i + 1)
  }

  /** `User.findOne({email})`: the filter value goes through the schema's lowercase and trim
      setters before it is compared. */
  function FindByEmail(users: seq<User>, email: string): Option<nat> {
    FindFirst(users, (u: User) => u.email == Normalize(email))
  }

  /** `User.findOne({apiKey})`, normalised the same way. */
  function FindByApiKey(users: seq<User>, apiKey: string): Option<nat> {
    FindFirst(users, (u: User) => u.apiKey == Normalize(apiKey))
  }

  /** The two unique indexes of the user schema. */
  predicate UniqueEmails(users: seq<User>) {
    forall i, j :: 0 <= i < j < |users| ==> users[i].email != users[j].email
  }

  predicate UniqueKeys(users: seq<User>) {
    forall i, j :: 0 <= i < j < |users| ==> users[i].apiKey != users[j].apiKey
  }

  /** Under the unique key index, looking a stored key up finds exactly its owner. */
  lemma FindByApiKeyFindsOwner(users: seq<User>, i: nat)
    requires UniqueKeys(users) && i < |users|
    requires Normalize(users[i].apiKey) == users[i].apiKey
    ensures FindByApiKey(users, users[i].apiKey) == Some(i)
  {
  }
}
