/** The GitHub toolkit's server side: its tools need the user's GitHub OAuth token. */
module GithubServer {
  import opened Wrappers
  import opened Strings
  import opened Records
  import opened Api
  import opened OAuthTokens

  const Provider := "oauth_github"
  const ToolNames := ["SearchRepos", "SearchCode", "SearchUsers", "RepoInfo"]
  const NoUser := "User authentication required for GitHub toolkit."
  const TokenNotFound := "GitHub OAuth token not found or access denied."
  const TokenFailed := "Failed to retrieve GitHub OAuth token."

  /** The `try` block: the first entry's token, or NOT_FOUND; a failed request is the thrown error. */
  function TryToken(response: TokenFetch): (r: Result<string, ApiError>)
    ensures r.Ok? <==> response.Tokens? && FirstToken(response.data).Some?
    ensures r.Ok? ==> r.value == FirstToken(response.data).value
  {
    match response
    case TokenRequestFailed => Err(Thrown("token request failed"))
    case Tokens(data) =>
      if FirstToken(data).Some? then Ok(FirstToken(data).value)
      else Err(TrpcError(NotFound, TokenNotFound))
  }

  /** The initializer: UNAUTHORIZED without a user; otherwise the four GitHub tools around the first
      returned token, and every failure to get one caught and reported as INTERNAL_SERVER_ERROR. */
  function InitializeTools(userId: string, fetch: (string, string) -> TokenFetch): (r: Result<Record<ToolConfig>, ApiError>)
    ensures userId == "" ==> r == Err(TrpcError(Unauthorized, NoUser))
    ensures userId != "" ==> (r.Ok? <==> TryToken(fetch(userId, Provider)).Ok?)
    ensures userId != "" && r.Err? ==> r.error == TrpcError(InternalServerError, TokenFailed)
    ensures r.Ok? ==> KeysOf(r.value) == ToolNames
    ensures r.Ok? ==> forall i :: 0 <= i < |r.value| ==> r.value[i].1.token == FirstToken(fetch(userId, Provider).data).value
  {
    if userId == "" then Err(TrpcError(Unauthorized, NoUser))
    else match TryToken(fetch(userId, Provider))
      case Err(_) => Err(TrpcError(InternalServerError, TokenFailed))
      case Ok(accessToken) => Ok(ToolsWithToken(ToolNames, accessToken))
  }

  /** Only the token request for the user and "oauth_github" matters, and none is made without a user. */
  lemma OnlyGithubTokenRequested(userId: string, f: (string, string) -> TokenFetch, g: (string, string) -> TokenFetch)
    requires userId == "" || f(userId, Provider) == g(userId, Provider)
    ensures InitializeTools(userId, f) == InitializeTools(userId, g)
  {
  }
}
