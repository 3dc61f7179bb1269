/** The accounts router: the caller's external sign-in accounts as the identity provider reports them. */
module Accounts {
  import opened Wrappers
  import opened Strings
  import opened Seqs
  import opened Api

  /** An external account linked to a user at the identity provider. */
  datatype ExternalAccount = ExternalAccount(
    id: string,
    provider: string,
    approvedScopes: string,
    emailAddress: string,
    username: Option<string>)

  /** What fetching a user from the identity provider gives: its linked accounts, or a thrown error. */
  datatype UserFetch = Fetched(externalAccounts: seq<ExternalAccount>) | FetchFailed

  datatype AccountSummary = AccountSummary(id: string, provider: string)

  datatype AccountDetail = AccountDetail(
    id: string,
    provider: string,
    scope: string,
    emailAddress: string,
    username: Option<string>)

  datatype AccountsPage = AccountsPage(items: seq<AccountSummary>, hasMore: bool, nextCursor: Option<string>)

  const OAuthPrefix := "oauth_"
  const NotAuthenticated := "User not authenticated."
  const DisconnectFailed := "Failed to disconnect the account. Please try again later."
  const Disconnected := "Account disconnected successfully via Clerk."

  /** The identity provider's id for a provider name: the fixed entries for github, google and
      notion, else "oauth_" before the lower-cased name. Every fixed entry is that same string. */
  function ProviderId(provider: string): (r: string)
    ensures r == OAuthPrefix + Lower(provider)
  {
    var lowerProvider := Lower(provider);
    match lowerProvider
    case "github" => PrefixedLiteral("github", "oauth_github"); "oauth_github"
    case "google" => PrefixedLiteral("google", "oauth_google"); "oauth_google"
    case "notion" => PrefixedLiteral("notion", "oauth_notion"); "oauth_notion"
    case _ => OAuthPrefix + lowerProvider
  }

  /** A six-letter name after "oauth_", letter by letter. */
  lemma PrefixedLiteral(name: string, id: string)
    requires |name| == 6 && |id| == 12 && id[..6] == "oauth_" && id[6..] == name
    ensures id == OAuthPrefix + name
  {
    assert id == id[..6] + id[6..];
  }

  /** The provider name shown to the user: the id without a leading "oauth_". */
  function StripOAuth(provider: string): (r: string)
    ensures StartsWith(provider, OAuthPrefix) ==> OAuthPrefix + r == provider
    ensures !StartsWith(provider, OAuthPrefix) ==> r == provider
  {
    if StartsWith(provider, OAuthPrefix) then provider[6..] else provider
  }

  /** Stripping undoes the mapping up to case, and the mapping ignores case. */
  lemma {:induction false} StripProviderId(provider: string)
    ensures StripOAuth(ProviderId(provider)) == Lower(provider)
    ensures ProviderId(Lower(provider)) == ProviderId(provider)
  {
    var id := ProviderId(provider);
    assert id[..|OAuthPrefix|] == OAuthPrefix;
    assert id[6..] == Lower(provider);
    LowerIdempotent(provider);
  }

  function Summary(a: ExternalAccount): AccountSummary {
    AccountSummary(a.id, StripOAuth(a.provider))
  }

  /** The empty page the listing returns without a user or on a lookup error. */
  const EmptyPage := AccountsPage([], false, None)

  /** getAccounts: every linked account, in order, with its display name; never more pages. The
      page size and cursor are checked by the input schema and otherwise ignored. */
  function GetAccounts(userId: Option<string>, fetch: string -> UserFetch, limit: Option<int>, cursor: Option<string>)
    : (r: Result<AccountsPage, ApiError>)
    ensures r.Err? <==> ParseLimit(limit).Err?
    ensures r.Ok? ==> !r.value.hasMore && r.value.nextCursor.None?
    ensures r.Ok? && (!Truthy(userId) || fetch(userId.value).FetchFailed?) ==> r.value.items == []
    ensures r.Ok? && Truthy(userId) && fetch(userId.value).Fetched? ==>
      var accounts := fetch(userId.value).externalAccounts;
      && |r.value.items| == |accounts|
      && forall i :: 0 <= i < |accounts| ==>
           r.value.items[i].id == accounts[i].id && r.value.items[i].provider == StripOAuth(accounts[i].provider)
  {
    if ParseLimit(limit).Err? then Err(ParseLimit(limit).error)
    else if !Truthy(userId) then Ok(EmptyPage)
    else match fetch(userId.value)
      case FetchFailed => Ok(EmptyPage)
      case Fetched(accounts) => Ok(AccountsPage(Map(accounts, Summary), false, None))
  }

  /** Position `i` holds the first account whose provider id is `providerId`. */
  predicate FirstOfProvider(accounts: seq<ExternalAccount>, providerId: string, i: int) {
    0 <= i < |accounts| && accounts[i].provider == providerId
    && forall j :: 0 <= j < i ==> accounts[j].provider != providerId
  }

  /** The first linked account whose provider id is `providerId`. */
  function AccountFor(accounts: seq<ExternalAccount>, providerId: string): (r: Option<ExternalAccount>)
    ensures r.Some? ==> r.value in accounts && r.value.provider == providerId
    ensures r.Some? ==> exists i :: FirstOfProvider(accounts, providerId, i) && r.value == accounts[i]
    ensures r.None? <==> forall a :: a in accounts ==> a.provider != providerId
  {
    var matches := (a: ExternalAccount) => a.provider == providerId;
    var found := Find(accounts, matches);
    if found.Some? then
      assert FirstOfProvider(accounts, providerId, FindIndex(accounts, matches));
      found
    else found
  }

  function Detail(a: ExternalAccount): AccountDetail {
    AccountDetail(a.id, StripOAuth(a.provider), a.approvedScopes, a.emailAddress, a.username)
  }

  /** getAccountByProvider: the first account of the mapped provider, or null without a user, on a
      lookup error, or when there is none. */
  function GetAccountByProvider(userId: Option<string>, fetch: string -> UserFetch, provider: string)
    : (r: Option<AccountDetail>)
    ensures !Truthy(userId) || fetch(userId.value).FetchFailed? ==> r.None?
    ensures r.Some? ==> r.value.provider == Lower(provider)
    ensures Truthy(userId) && fetch(userId.value).Fetched? ==>
      var accounts := fetch(userId.value).externalAccounts;
      (r.None? <==> forall a :: a in accounts ==> a.provider != ProviderId(provider))
      && (r.Some? ==> exists i :: FirstOfProvider(accounts, ProviderId(provider), i) && r.value == Detail(accounts[i]))
  {
    if !Truthy(userId) then None
    else match fetch(userId.value)
      case FetchFailed => None
      case Fetched(accounts) =>
        var externalAccount := AccountFor(accounts, ProviderId(provider));
        if externalAccount.Some? then
          StripProviderId(provider);
          Some(Detail(externalAccount.value))
        else None
  }

  /** hasProviderAccount: whether some account has the mapped provider id; false without a user or
      on a lookup error. */
  function HasProviderAccount(userId: Option<string>, fetch: string -> UserFetch, provider: string): (r: bool)
    ensures !Truthy(userId) || fetch(userId.value).FetchFailed? ==> !r
    ensures Truthy(userId) && fetch(userId.value).Fetched? ==>
      (r <==> exists a :: a in fetch(userId.value).externalAccounts && a.provider == ProviderId(provider))
  {
    if !Truthy(userId) then false
    else match fetch(userId.value)
      case FetchFailed => false
      case Fetched(accounts) =>
        var providerId := ProviderId(provider);
        Any(accounts, (a: ExternalAccount) => a.provider == providerId)
  }

  /** The two provider queries agree: an account is reported present exactly when one is found. */
  lemma HasAgreesWithGet(userId: Option<string>, fetch: string -> UserFetch, provider: string)
    ensures HasProviderAccount(userId, fetch, provider) <==> GetAccountByProvider(userId, fetch, provider).Some?
  {
    if Truthy(userId) && fetch(userId.value).Fetched? {
      var accounts := fetch(userId.value).externalAccounts;
      if HasProviderAccount(userId, fetch, provider) {
        var a :| a in accounts && a.provider == ProviderId(provider);
      }
    }
  }

  /** deleteAccount: refused without a user; otherwise the identity provider's deletion of the
      account, any failure of which becomes an internal error. `deleted` says whether it succeeded. */
  function DeleteAccount(userId: Option<string>, accountId: string, deleted: (string, string) -> bool)
    : (r: Result<string, ApiError>)
    ensures !Truthy(userId) ==> r == Err(TrpcError(Unauthorized, NotAuthenticated))
    ensures Truthy(userId) ==> (r.Ok? <==> deleted(userId.value, accountId))
    ensures Truthy(userId) && r.Err? ==> r.error == TrpcError(InternalServerError, DisconnectFailed)
    ensures r.Ok? ==> r.value == Disconnected
  {
    if !Truthy(userId) then Err(TrpcError(Unauthorized, NotAuthenticated))
    else if deleted(userId.value, accountId) then Ok(Disconnected)
    else Err(TrpcError(InternalServerError, DisconnectFailed))
  }
}
