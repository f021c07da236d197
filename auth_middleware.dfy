/** The API-key gate: a bearer credential is resolved against the user table. */
module AuthMiddleware {
  import opened Values
  import opened Text
  import opened UserModel

  /** What the gate decides. Only `Authenticated` attaches a tenant to the request and
      passes it on to the next handler. */
  datatype AuthOutcome =
    | MissingKey               // 401 "Please provide an API key"
    | UnknownKey               // 401 "Invalid API key"
    | Deactivated              // 403 "Your API key is deactivated"
    | Authenticated(user: User)
  {
    function Status(): nat {
      match this
      case MissingKey => 401
      case UnknownKey => 401
      case Deactivated => 403
      case Authenticated(_) => 200
    }
  }

  const BearerPrefix: string := "Bearer "

  /** `req.header("Authorization")?.replace("Bearer ", "")`: no header gives no key;
      otherwise the first occurrence of the prefix is cut out, wherever it stands. */
  function ExtractKey(authorization: Option<string>): Option<string> {
    match authorization
    case None => None
    case Some(h) => Some(RemoveFirst(h, BearerPrefix))
  }

  /** `validateApiKey`: missing key, then unknown key, then deactivated tenant. */
  function ValidateApiKey(authorization: Option<string>, users: seq<User>): (r: AuthOutcome)
    ensures r.MissingKey? <==> ExtractKey(authorization) in {None, Some("")}
    ensures r.UnknownKey? <==>
      && ExtractKey(authorization).Some? && ExtractKey(authorization).value != ""
      && forall i :: 0 <= i < |users| ==> users[i].apiKey != Normalize(ExtractKey(authorization).value)
    ensures r.Deactivated? ==>
      exists i :: 0 <= i < |users| && !users[i].isActive
        && users[i].apiKey == Normalize(ExtractKey(authorization).value)
    ensures r.Authenticated? ==>
      && r.user in users && r.user.isActive
      && r.user.apiKey == Normalize(ExtractKey(authorization).value)
  {
    match ExtractKey(authorization)
    case None => MissingKey
    case Some(key) =>
      if key == "" then MissingKey
      else match FindByApiKey(users, key)
        case None => UnknownKey
        case Some(i) => if !users[i].isActive then Deactivated else Authenticated(users[i])
  }

  /** A header that is exactly `Bearer ` carries an empty key and is refused as missing,
      before any lookup: even a record whose key is empty is not consulted. */
  lemma BareBearerIsMissing(users: seq<User>)
    ensures ValidateApiKey(Some(BearerPrefix), users) == MissingKey
  {
  }

  /** `Bearer <key>` for the key of a stored tenant resolves to that tenant: it passes when
      the tenant is active and is refused with 403 when it is not. */
  lemma BearerKeyResolvesOwner(users: seq<User>, i: nat)
    requires UniqueKeys(users) && i < |users| && users[i].apiKey != ""
    requires Normalize(users[i].apiKey) == users[i].apiKey
    ensures var r := ValidateApiKey(Some(BearerPrefix + users[i].apiKey), users);
      (users[i].isActive ==> r == Authenticated(users[i]))
      && (!users[i].isActive ==> r == Deactivated && r.Status() == 403)
  {
    RemoveFirstPrefix(BearerPrefix, users[i].apiKey);
    FindByApiKeyFindsOwner(users, i);
  }
}
