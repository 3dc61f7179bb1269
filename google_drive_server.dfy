/** The Google Drive toolkit's server side: its tools take a Google OAuth token that carries the
    read-only Drive scope. */
module GoogleDriveServer {
  import opened Wrappers
  import opened Strings
  import opened Seqs
  import opened Records
  import opened Api
  import opened OAuthTokens

  const Provider := "oauth_google"
  const RequiredScope := "https://www.googleapis.com/auth/drive.readonly"
  const ToolNames := ["SearchFiles", "ReadFile"]
  const NoUser := "User authentication required for Google Drive toolkit."
  const ScopeMissing := "Google Drive access denied. Please ensure the app has '" + RequiredScope + "' permission."
  const TokenFailed := "Failed to retrieve Google Drive OAuth token."

  /** An entry for Google whose scopes include the Drive scope. */
  predicate Qualifies(e: TokenEntry) {
    e.provider == Provider && e.scopes.Some? && RequiredScope in e.scopes.value
  }

  /** The first qualifying entry. */
  function DriveToken(data: seq<TokenEntry>): (r: Option<TokenEntry>)
    ensures r.Some? ==> r.value in data && Qualifies(r.value)
    ensures r.None? <==> forall e :: e in data ==> !Qualifies(e)
    ensures r.Some? ==> r.value == data[FindIndex(data, Qualifies)] && forall j :: 0 <= j < FindIndex(data, Qualifies) ==> !Qualifies(data[j])
  {
    Find(data, Qualifies)
  }

  /** The `try` block: the qualifying entry's token when it is non-empty, or NOT_FOUND. */
  function TryToken(response: TokenFetch): (r: Result<string, ApiError>)
    ensures r.Ok? <==> response.Tokens? && DriveToken(response.data).Some? && Truthy(DriveToken(response.data).value.token)
    ensures r.Ok? ==> Some(r.value) == DriveToken(response.data).value.token
  {
    match response
    case TokenRequestFailed => Err(Thrown("token request failed"))
    case Tokens(data) =>
      var googleToken := DriveToken(data);
      if googleToken.Some? && Truthy(googleToken.value.token) then Ok(googleToken.value.token.value)
      else Err(TrpcError(NotFound, ScopeMissing))
  }

  /** The initializer: UNAUTHORIZED without a user; otherwise both Drive tools around the token of the
      first Google entry with the Drive scope, and every failure reported as INTERNAL_SERVER_ERROR. */
  function InitializeTools(userId: string, fetch: (string, string) -> TokenFetch): (r: Result<Record<ToolConfig>, ApiError>)
    ensures userId == "" ==> r == Err(TrpcError(Unauthorized, NoUser))
    ensures userId != "" ==> (r.Ok? <==> TryToken(fetch(userId, Provider)).Ok?)
    ensures userId != "" && r.Err? ==> r.error == TrpcError(InternalServerError, TokenFailed)
    ensures r.Ok? ==> KeysOf(r.value) == ToolNames
    ensures r.Ok? ==> forall i :: 0 <= i < |r.value| ==> Some(r.value[i].1.token) == DriveToken(fetch(userId, Provider).data).value.token
  {
    if userId == "" then Err(TrpcError(Unauthorized, NoUser))
    else match TryToken(fetch(userId, Provider))
      case Err(_) => Err(TrpcError(InternalServerError, TokenFailed))
      case Ok(accessToken) => Ok(ToolsWithToken(ToolNames, accessToken))
  }

  /** An entry without the Drive scope is never used, even when it comes first. */
  lemma ScopelessFirstEntrySkipped(userId: string, fetch: (string, string) -> TokenFetch, first: TokenEntry, second: TokenEntry)
    requires userId != "" && fetch(userId, Provider) == Tokens([first, second])
    requires !Qualifies(first) && Qualifies(second) && Truthy(second.token)
    ensures InitializeTools(userId, fetch).Ok?
    ensures forall i :: 0 <= i < |InitializeTools(userId, fetch).value| ==>
      InitializeTools(userId, fetch).value[i].1.token == second.token.value
  {
    assert DriveToken([first, second]) == Some(second) by {
      assert FindIndex([first, second], Qualifies) == 1;
    }
  }
}
