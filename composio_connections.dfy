/** GET /api/composio/connections: the caller's connected accounts, normalised for the page. */
module ComposioConnections {
  import opened Wrappers
  import opened Strings
  import opened Seqs
  import opened ComposioClient
  import opened ComposioErrors

  /** An account as the service lists it; the toolkit and the configuration may lack their ids. */
  datatype RawConnection = RawConnection(id: string, status: string, toolkitSlug: Option<string>, authConfigId: Option<string>)

  /** The shape of the listing: an object with an `items` array, a bare array, or anything else. */
  datatype ListResponse = ItemsObject(items: seq<RawConnection>) | BareArray(connections: seq<RawConnection>) | OtherShape

  /** What the listing call gives: a response, or the message of the error it threw. */
  datatype ListOutcome = Listed(response: ListResponse) | ListThrew(message: string)

  /** One account as the route returns it. */
  datatype Connection = Connection(connectedAccountId: string, appName: Option<string>, status: string, authConfigId: Option<string>)

  datatype ConnectionsResponse =
    | Unauthorized                     // 401 "Unauthorized"
    | Connections(list: seq<Connection>) // 200
    | Failed(error: string)            // 500, from the catch-all

  const FetchFailed := "Failed to fetch connections."

  /** The accounts a response carries: its `items`, else the array itself, else none. */
  function RawConnections(response: ListResponse): (r: seq<RawConnection>)
    ensures response.ItemsObject? ==> r == response.items
    ensures response.BareArray? ==> r == response.connections
    ensures response.OtherShape? ==> r == []
  {
    match response
    case ItemsObject(items) => items
    case BareArray(connections) => connections
    case OtherShape => []
  }

  /** The name shown for an account: the toolkit's slug when it is non-empty, else the
      configuration id. */
  function Format(conn: RawConnection): (c: Connection)
    ensures c.connectedAccountId == conn.id && c.status == conn.status && c.authConfigId == conn.authConfigId
    ensures Truthy(conn.toolkitSlug) ==> c.appName == conn.toolkitSlug
    ensures !Truthy(conn.toolkitSlug) ==> c.appName == conn.authConfigId
  {
    Connection(conn.id, if Truthy(conn.toolkitSlug) then conn.toolkitSlug else conn.authConfigId, conn.status, conn.authConfigId)
  }

  /** The route, with the caller's id, what getting the client gives and the listing call's answer
      for a list of user ids as parameters. */
  function GetConnections(userId: Option<string>, client: Result<Client, string>, list: seq<string> -> ListOutcome)
    : (r: ConnectionsResponse)
    ensures !Truthy(userId) ==> r == Unauthorized
    ensures Truthy(userId) && client.Err? ==> r == Failed(CaughtError(client.error, FetchFailed))
    ensures Truthy(userId) && client.Ok? && list([userId.value]).ListThrew? ==>
      r == Failed(CaughtError(list([userId.value]).message, FetchFailed))
    ensures r.Connections? <==> Truthy(userId) && client.Ok? && list([userId.value]).Listed?
    ensures r.Connections? ==>
      var raw := RawConnections(list([userId.value]).response);
      && |r.list| == |raw|
      && forall i :: 0 <= i < |raw| ==> r.list[i] == Format(raw[i])
  {
    if !Truthy(userId) then Unauthorized
    else match client
      case Err(message) => Failed(CaughtError(message, FetchFailed))
      case Ok(_) =>
        match list([userId.value])
        case ListThrew(message) => Failed(CaughtError(message, FetchFailed))
        case Listed(response) => Connections(Map(RawConnections(response), Format))
  }

  /** Only the caller's accounts are asked for: two listing calls that agree on the caller's id
      alone give the same answer. */
  lemma OnlyCallerListed(userId: Option<string>, client: Result<Client, string>, l1: seq<string> -> ListOutcome, l2: seq<string> -> ListOutcome)
    requires Truthy(userId) ==> l1([userId.value]) == l2([userId.value])
    ensures GetConnections(userId, client, l1) == GetConnections(userId, client, l2)
  {
  }
}
