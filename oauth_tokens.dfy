/** The OAuth access tokens the identity provider hands out for a user and provider, and the tool
    configurations the toolkit servers build around the chosen token. */
module OAuthTokens {
  import opened Wrappers
  import opened Strings
  import opened Records

  /** One entry of the token response. */
  datatype TokenEntry = TokenEntry(provider: string, token: Option<string>, scopes: Option<seq<string>>)

  /** What the token request gives: the entries, or a thrown error. */
  datatype TokenFetch = Tokens(data: seq<TokenEntry>) | TokenRequestFailed

  /** A server tool's configuration, built around a client authenticated with `token`. */
  datatype ToolConfig = ToolConfig(tool: string, token: string)

  /** The token of the first entry, when that entry has a non-empty one; later entries are not looked at. */
  function FirstToken(data: seq<TokenEntry>): (r: Option<string>)
    ensures r.Some? <==> |data| > 0 && Truthy(data[0].token)
    ensures r.Some? ==> r == data[0].token && r.value != ""
  {
    if |data| > 0 && Truthy(data[0].token) then data[0].token else None
  }

  /** The tool record a server returns: each tool name, in order, with a tool using `token`. */
  function ToolsWithToken(names: seq<string>, token: string): (r: Record<ToolConfig>)
    ensures KeysOf(r) == names
    ensures forall i :: 0 <= i < |r| ==> r[i].1 == ToolConfig(names[i], token)
  {
    var r := seq(|names|, i requires 0 <= i < |names| => (names[i], ToolConfig(names[i], token)));
    KeysAt(r);
    r
  }
}
