/** The Notion toolkit's server side: its tools need the user's Notion OAuth token. */
module NotionServer {
  import opened Wrappers
  import opened Strings
  import opened Records
  import opened Api
  import opened OAuthTokens

  const Provider := "oauth_notion"
  const ToolNames := ["ListDatabases", "QueryDatabase", "CreateDatabase", "GetPage", "SearchPages", "CreatePage", "GetBlocks", "AppendBlocks", "ListUsers"]
  const NoUser := "User authentication required for Notion toolkit."
  const TokenNotFound := "Notion OAuth token not found or access denied."
  const TokenFailed := "Failed to retrieve Notion OAuth token."

  /** The `try` block: the first entry's token, or NOT_FOUND; a failed request is the thrown error. */
  function TryToken(response: TokenFetch): (r: Result<string, ApiError>)
    ensures r.Ok? <==> response.Tokens? && FirstToken(response.data).Some?
    ensures r.Ok? ==> r.value == FirstToken(response.data).value
  {
    match response
    case TokenRequestFailed => Err(Thrown("token request failed"))
    case Tokens(data) =>
      if FirstToken(data).Some? then Ok(FirstToken(data).value)
      else Err(TrpcError(NotFound, TokenNotFound))
  }

  /** The initializer: UNAUTHORIZED without a user; otherwise the nine Notion tools around the first
      returned token, and every failure to get one caught and reported as INTERNAL_SERVER_ERROR. */
  function InitializeTools(userId: string, fetch: (string, string) -> TokenFetch): (r: Result<Record<ToolConfig>, ApiError>)
    ensures userId == "" ==> r == Err(TrpcError(Unauthorized, NoUser))
    ensures userId != "" ==> (r.Ok? <==> TryToken(fetch(userId, Provider)).Ok?)
    ensures userId != "" && r.Err? ==> r.error == TrpcError(InternalServerError, TokenFailed)
    ensures r.Ok? ==> KeysOf(r.value) == ToolNames
    ensures r.Ok? ==> forall i :: 0 <= i < |r.value| ==> r.value[i].1.token == FirstToken(fetch(userId, Provider).data).value
  {
    if userId == "" then Err(TrpcError(Unauthorized, NoUser))
    else match TryToken(fetch(userId, Provider))
      case Err(_) => Err(TrpcError(InternalServerError, TokenFailed))
      case Ok(accessToken) => Ok(ToolsWithToken(ToolNames, accessToken))
  }

  /** Only the token request for the user and "oauth_notion" matters, and none is made without a user. */
  lemma OnlyNotionTokenRequested(userId: string, f: (string, string) -> TokenFetch, g: (string, string) -> TokenFetch)
    requires userId == "" || f(userId, Provider) == g(userId, Provider)
    ensures InitializeTools(userId, f) == InitializeTools(userId, g)
  {
  }
}
