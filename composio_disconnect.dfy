/** POST /api/composio/connect/disconnect: remove one of the caller's connected accounts, after
    checking that the account is the caller's. */
module ConnectDisconnect {
  import opened Wrappers
  import opened Strings
  import opened ComposioClient
  import opened ComposioErrors

  /** The request body: JSON that fails to parse (its parser's message), or an object whose
      `connectedAccountId` is a string (Some) or anything else (None). */
  datatype DisconnectBody = MalformedJson(message: string) | Json(connectedAccountId: Option<string>)

  /** What fetching the account gives: the account with its owner's id, nothing, or a thrown error
      with its status and message, either of which may be missing. */
  datatype AccountLookup =
    | Account(ownerId: Option<string>)
    | NoAccount
    | LookupThrew(status: Option<int>, message: Option<string>)

  datatype DisconnectResponse =
    | Unauthorized          // 401 "Unauthorized"
    | InvalidBody           // 400 "Invalid request body"
    | Denied                // 403 "Permission denied or connection not found."
    | NotFound              // 404 "Connection not found."
    | VerifyFailed          // 500 "Failed to verify connection ownership."
    | Disconnected          // 200 "Account disconnected successfully."
    | Failed(error: string) // 500, from the catch-all

  function Status(r: DisconnectResponse): int {
    match r
    case Unauthorized => 401
    case InvalidBody => 400
    case Denied => 403
    case NotFound => 404
    case VerifyFailed => 500
    case Disconnected => 200
    case Failed(_) => 500
  }

  const DisconnectFailed := "Failed to disconnect account."
  const AccountIdPrefix := "ca_"

  /** The schema's check: a non-empty string starting with "ca_". */
  predicate ValidAccountId(id: Option<string>) {
    id.Some? && |id.value| >= 1 && StartsWith(id.value, AccountIdPrefix)
  }

  /** A lookup error that means the account does not exist: status 404, or "not found" in the
      lower-cased message. */
  predicate MeansNotFound(status: Option<int>, message: Option<string>) {
    status == Some(404) || (message.Some? && Contains(Lower(message.value), "not found"))
  }

  /** The answer, and the id of the account a deletion was requested for, if any. */
  datatype Outcome = Outcome(response: DisconnectResponse, deleteRequested: Option<string>)

  /** The route, with the caller's id, the parsed body, what getting the client gives, the lookup's
      answer for an id, and the deletion's answer for an id (None when it resolves, else the
      message it threw) as parameters. */
  function Disconnect(userId: Option<string>, body: DisconnectBody, client: Result<Client, string>,
                      lookup: string -> AccountLookup, delete: string -> Option<string>): (r: Outcome)
    ensures !Truthy(userId) ==> r == Outcome(Unauthorized, None)
    ensures Truthy(userId) && body.MalformedJson? ==> r == Outcome(Failed(CaughtError(body.message, DisconnectFailed)), None)
    ensures Truthy(userId) && body.Json? && !ValidAccountId(body.connectedAccountId) ==> r == Outcome(InvalidBody, None)
    ensures Truthy(userId) && body.Json? && ValidAccountId(body.connectedAccountId) && client.Err? ==>
      r == Outcome(Failed(CaughtError(client.error, DisconnectFailed)), None)
    ensures Truthy(userId) && body.Json? && ValidAccountId(body.connectedAccountId) && client.Ok? ==>
      match lookup(body.connectedAccountId.value)
      case NoAccount => r == Outcome(Denied, None)
      case Account(owner) =>
        if owner != userId then r == Outcome(Denied, None)
        else
          var id := body.connectedAccountId.value;
          (match delete(id)
           case None => r == Outcome(Disconnected, Some(id))
           case Some(message) => r == Outcome(Failed(CaughtError(message, DisconnectFailed)), Some(id)))
      case LookupThrew(status, message) =>
        r == Outcome(if MeansNotFound(status, message) then NotFound else VerifyFailed, None)
    // a deletion is requested only for the body's account, and only once the caller owns it
    ensures r.deleteRequested.Some? <==>
      && Truthy(userId) && body.Json? && ValidAccountId(body.connectedAccountId) && client.Ok?
      && lookup(body.connectedAccountId.value) == Account(userId)
    ensures r.deleteRequested.Some? ==> r.deleteRequested == body.connectedAccountId
    ensures r.response == Disconnected <==> r.deleteRequested.Some? && delete(r.deleteRequested.value).None?
    ensures r.response.Failed? ==> r.response.error in {ApiKeyError, DisconnectFailed}
  {
    if !Truthy(userId) then Outcome(Unauthorized, None)
    else match body
      case MalformedJson(message) => Outcome(Failed(CaughtError(message, DisconnectFailed)), None)
      case Json(connectedAccountId) =>
        if !ValidAccountId(connectedAccountId) then Outcome(InvalidBody, None)
        else match client
          case Err(message) => Outcome(Failed(CaughtError(message, DisconnectFailed)), None)
          case Ok(_) =>
            var id := connectedAccountId.value;
            match lookup(id)
            case LookupThrew(status, message) =>
              Outcome(if MeansNotFound(status, message) then NotFound else VerifyFailed, None)
            case NoAccount => Outcome(Denied, None)
            case Account(owner) =>
              if owner != userId then Outcome(Denied, None)
              else match delete(id)
                case None => Outcome(Disconnected, Some(id))
                case Some(message) => Outcome(Failed(CaughtError(message, DisconnectFailed)), Some(id))
  }

  /** Another user's account is never deleted: whatever the deletion would do, the caller gets 403
      and no deletion is requested. */
  lemma OthersAccountsUntouched(userId: string, id: string, owner: Option<string>, client: Result<Client, string>,
                                lookup: string -> AccountLookup, delete: string -> Option<string>)
    requires userId != "" && ValidAccountId(Some(id)) && client.Ok?
    requires lookup(id) == Account(owner) && owner != Some(userId)
    ensures Disconnect(Some(userId), Json(Some(id)), client, lookup, delete) == Outcome(Denied, None)
  {
  }

  /** An id without the "ca_" prefix is refused before any account is looked up. */
  lemma MalformedIdRefused(userId: string, id: string, client: Result<Client, string>,
                           lookup: string -> AccountLookup, delete: string -> Option<string>)
    requires userId != "" && !StartsWith(id, AccountIdPrefix)
    ensures Disconnect(Some(userId), Json(Some(id)), client, lookup, delete) == Outcome(InvalidBody, None)
    ensures Status(Disconnect(Some(userId), Json(Some(id)), client, lookup, delete).response) == 400
  {
  }

  /** The not-found test ignores the case of the message. */
  lemma NotFoundIgnoresCase(status: Option<int>, message: string)
    ensures MeansNotFound(status, Some(message)) == MeansNotFound(status, Some(Lower(message)))
  {
    LowerIdempotent(message);
  }
}
