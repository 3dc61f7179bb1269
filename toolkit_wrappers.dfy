/** The wrappers the GitHub and Notion toolkits put around their "add" control: with the
    external-accounts flag on, the control shows only for a user who has linked the provider. */
module ToolkitWrappers {
  import opened Wrappers
  import opened Seqs
  import GithubServer
  import NotionServer

  /** What the wrapper renders: a disabled spinner, nothing, or the control it wraps. */
  datatype WrapperView = Spinner | Nothing | Children

  /** The provider names each wrapper compares the user's external accounts against. */
  const GithubProvider := "github"
  const NotionProvider := "oauth_notion"

  /** Whether the user has an external account of the provider; a missing user or a missing
      account list counts as none. */
  predicate HasConnection(providers: Option<seq<string>>, required: string) {
    providers.Some? && Any(providers.value, (p: string) => p == required)
  }

  /** The wrapper: the control itself with the flag off; with it on, a spinner while the user
      loads, then the control only when the user has an account of the provider. */
  function AddToolkitWrapper(flag: bool, isLoaded: bool, providers: Option<seq<string>>, required: string)
    : (v: WrapperView)
    ensures !flag ==> v == Children
    ensures flag && !isLoaded ==> v == Spinner
    ensures flag && isLoaded ==> (v == Children <==> required in providers.GetOr([]))
    ensures flag && isLoaded ==> (v == Nothing <==> required !in providers.GetOr([]))
  {
    if flag then
      if !isLoaded then Spinner
      else if !HasConnection(providers, required) then Nothing
      else Children
    else Children
  }

  function GithubWrapper(flag: bool, isLoaded: bool, providers: Option<seq<string>>): (v: WrapperView)
    ensures flag && isLoaded ==> (v == Children <==> GithubProvider in providers.GetOr([]))
  {
    AddToolkitWrapper(flag, isLoaded, providers, GithubProvider)
  }

  function NotionWrapper(flag: bool, isLoaded: bool, providers: Option<seq<string>>): (v: WrapperView)
    ensures flag && isLoaded ==> (v == Children <==> NotionProvider in providers.GetOr([]))
  {
    AddToolkitWrapper(flag, isLoaded, providers, NotionProvider)
  }

  /** The Notion wrapper looks for the same provider id its server fetches tokens under, so with
      the flag on a loaded user sees the control exactly when that token's account is linked. */
  lemma NotionWrapperMatchesServer(providers: Option<seq<string>>)
    ensures NotionWrapper(true, true, providers) == Children <==> NotionServer.Provider in providers.GetOr([])
  {
  }

  /** The GitHub wrapper compares against "github" while its server fetches tokens under
      "oauth_github": a user whose only linked account carries the server's id sees nothing. */
  lemma GithubWrapperSpelling()
    ensures GithubProvider != GithubServer.Provider
    ensures GithubWrapper(true, true, Some([GithubServer.Provider])) == Nothing
  {
    assert |GithubProvider| != |GithubServer.Provider|;
  }
}
