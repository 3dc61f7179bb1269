/** The account page's tab of connected third-party services: the listing with friendly names,
    the services still to connect, and the per-account connect and disconnect flags. */
module ConnectedAccounts {
  import opened Wrappers
  import opened Strings
  import opened Seqs
  import opened ComposioConnections

  /** A service the page offers to connect; every one has an icon. */
  datatype ServiceDefinition = ServiceDefinition(id: string, name: string)

  const AvailableServices := [ServiceDefinition("google_calendar", "Google Calendar")]

  /** A listed account with the details the page adds. */
  datatype AccountView = AccountView(account: Connection, friendlyName: Option<string>, hasIcon: bool)

  /** What an endpoint call gives: a non-OK answer with its error text if any, an OK body, or a
      thrown error. */
  datatype Reply<T> = NotOk(error: Option<string>) | Ok(body: T) | Threw(message: string)

  datatype BadgeVariant = DefaultBadge | SecondaryBadge

  const ListingFailed := "Failed to fetch connected accounts"

  /** The offered service whose id is the account's name, if any. */
  function ServiceFor(services: seq<ServiceDefinition>, appName: Option<string>): (r: Option<ServiceDefinition>)
    ensures r.Some? ==> r.value in services && appName == Some(r.value.id)
    ensures r.None? <==> forall s :: s in services ==> appName != Some(s.id)
  {
    Find(services, (s: ServiceDefinition) => appName == Some(s.id))
  }

  /** The account with its friendly name (the matching service's name when non-empty, else the
      account's own name) and an icon exactly when a service matches. */
  function WithDetails(services: seq<ServiceDefinition>, acc: Connection): (v: AccountView)
    ensures v.account == acc
    ensures v.hasIcon <==> ServiceFor(services, acc.appName).Some?
    ensures v.friendlyName == if ServiceFor(services, acc.appName).Some? && ServiceFor(services, acc.appName).value.name != ""
                              then Some(ServiceFor(services, acc.appName).value.name) else acc.appName
  {
    var serviceDef := ServiceFor(services, acc.appName);
    AccountView(acc,
                if serviceDef.Some? && serviceDef.value.name != "" then Some(serviceDef.value.name) else acc.appName,
                serviceDef.Some?)
  }

  /** The listing as the tab shows it: each account, in order, with its details. */
  function ListingViews(data: seq<Connection>): (r: seq<AccountView>)
    ensures |r| == |data|
    ensures forall i :: 0 <= i < |data| ==> r[i].account == data[i] && r[i] == WithDetails(AvailableServices, data[i])
  {
    Map(data, (acc: Connection) => WithDetails(AvailableServices, acc))
  }

  /** An account of an offered service is shown under that service's name; any other keeps its own. */
  lemma FriendlyNames(acc: Connection)
    ensures acc.appName == Some("google_calendar") ==> WithDetails(AvailableServices, acc).friendlyName == Some("Google Calendar")
    ensures acc.appName != Some("google_calendar") ==> WithDetails(AvailableServices, acc).friendlyName == acc.appName
  {
    if acc.appName != Some("google_calendar") {
      assert forall s :: s in AvailableServices ==> acc.appName != Some(s.id);
    }
  }

  /** The services offered for connection: those no listed account is named after. */
  function UnconnectedServices(services: seq<ServiceDefinition>, accounts: seq<AccountView>): (r: seq<ServiceDefinition>)
    ensures forall s :: s in r <==> s in services && forall a :: a in accounts ==> a.account.appName != Some(s.id)
  {
    Filter(services, (s: ServiceDefinition) => !Any(accounts, (a: AccountView) => a.account.appName == Some(s.id)))
  }

  /** "All available services connected." shows when nothing is left to offer and something is
      connected. */
  predicate AllConnectedNotice(services: seq<ServiceDefinition>, accounts: seq<AccountView>) {
    |UnconnectedServices(services, accounts)| == 0 && |accounts| > 0
  }

  /** Once an account is named after every offered service, the notice shows. */
  lemma NoticeWhenEveryServiceConnected(services: seq<ServiceDefinition>, accounts: seq<AccountView>)
    requires forall s :: s in services ==> exists a :: a in accounts && a.account.appName == Some(s.id)
    requires |accounts| > 0
    ensures AllConnectedNotice(services, accounts)
  {
    var keep := (s: ServiceDefinition) => !Any(accounts, (a: AccountView) => a.account.appName == Some(s.id));
    forall s | s in services
      ensures !keep(s)
    {
      var a :| a in accounts && a.account.appName == Some(s.id);
    }
    FilterNone(services, keep);
  }

  function Badge(status: string): (b: BadgeVariant)
    ensures b == DefaultBadge <==> status == "ACTIVE"
  {
    if status == "ACTIVE" then DefaultBadge else SecondaryBadge
  }

  /** The address after the connection service sends the user back: refetch when it names a
      service and its status is "pending_completion". */
  predicate RefetchAfterRedirect(composioService: Option<string>, composioStatus: Option<string>) {
    Truthy(composioService) && composioStatus == Some("pending_completion")
  }

  /** An error text, or the endpoint-specific default when it is missing or empty. */
  function ErrorOr(error: Option<string>, default: string): (r: string)
    ensures Truthy(error) ==> r == error.value
    ensures !Truthy(error) ==> r == default
  {
    if Truthy(error) then error.value else default
  }

  /** The tab's state. */
  class ConnectedAccountsTab {
    var connectedAccounts: seq<AccountView>
    var isLoading: bool
    var error: Option<string>
    var isConnecting: map<string, bool>
    var isDisconnecting: map<string, bool>

    constructor ()
      ensures connectedAccounts == [] && isLoading && error.None?
      ensures isConnecting == map[] && isDisconnecting == map[]
    {
      connectedAccounts := [];
      isLoading := true;
      error := None;
      isConnecting := map[];
      isDisconnecting := map[];
    }

    /** fetchConnectedAccounts: the listing with details on success; on any failure an empty list
        and the error; loading off either way. The per-id flags are untouched. */
    method FetchConnectedAccounts(reply: Reply<seq<Connection>>)
      modifies this`isLoading, this`error, this`connectedAccounts
      ensures !isLoading
      ensures reply.Ok? ==> error.None? && connectedAccounts == ListingViews(reply.body)
      ensures reply.NotOk? ==> error == Some(ErrorOr(reply.error, ListingFailed)) && connectedAccounts == []
      ensures reply.Threw? ==> error == Some(reply.message) && connectedAccounts == []
      ensures unchanged(`isConnecting, `isDisconnecting)
    {
      isLoading, error := true, None;
      match reply {
        case Ok(data) =>
          connectedAccounts := ListingViews(data);
        case NotOk(e) =>
          error := Some(ErrorOr(e, ListingFailed));
          connectedAccounts := [];
        case Threw(message) =>
          error := Some(message);
          connectedAccounts := [];
      }
      isLoading := false;
    }

    /** handleDisconnect: nothing unless the user confirms; then the account's flag is raised for
        the request and lowered after it whatever happens, and only that entry changes. Returns
        whether the list is fetched again, which it is after a success. */
    method HandleDisconnect(connectedAccountId: string, appName: string, confirmed: bool, reply: Reply<()>)
      returns (refetch: bool)
      modifies this
      ensures !confirmed ==> !refetch && error == old(error) && isDisconnecting == old(isDisconnecting)
      ensures confirmed ==> isDisconnecting == old(isDisconnecting)[connectedAccountId := false]
      ensures confirmed ==> (refetch <==> reply.Ok?) && (reply.Ok? ==> error.None?)
      ensures confirmed && reply.NotOk? ==> error == Some(ErrorOr(reply.error, "Failed to disconnect " + appName))
      ensures confirmed && reply.Threw? ==> error == Some(reply.message)
      ensures connectedAccounts == old(connectedAccounts) && isConnecting == old(isConnecting) && isLoading == old(isLoading)
    {
      if !confirmed {
        return false;
      }
      isDisconnecting := isDisconnecting[connectedAccountId := true];
      error := None;
      refetch := false;
      match reply {
        case Ok(_) =>
          refetch := true;
        case NotOk(e) =>
          error := Some(ErrorOr(e, "Failed to disconnect " + appName));
        case Threw(message) =>
          error := Some(message);
      }
      isDisconnecting := isDisconnecting[connectedAccountId := false];
    }

    /** handleConnect: the service's flag is raised and stays raised while the browser follows the
        provider's address; any failure sets the error and lowers only that flag. Returns the
        address followed, if any. */
    method HandleConnect(serviceId: string, serviceName: string, reply: Reply<Option<string>>)
      returns (redirect: Option<string>)
      modifies this
      ensures redirect.Some? <==> reply.Ok? && Truthy(reply.body)
      ensures redirect.Some? ==> redirect == reply.body && error.None?
      ensures isConnecting == old(isConnecting)[serviceId := redirect.Some?]
      ensures reply.NotOk? ==> error == Some(ErrorOr(reply.error, "Failed to initiate connection for " + serviceName))
      ensures reply.Ok? && !Truthy(reply.body) ==> error == Some("No redirect URL received for " + serviceName + ".")
      ensures reply.Threw? ==> error == Some(reply.message)
      ensures connectedAccounts == old(connectedAccounts) && isDisconnecting == old(isDisconnecting) && isLoading == old(isLoading)
    {
      isConnecting := isConnecting[serviceId := true];
      error := None;
      match reply {
        case Ok(redirectUrl) =>
          if Truthy(redirectUrl) {
            return redirectUrl;
          }
          error := Some("No redirect URL received for " + serviceName + ".");
        case NotOk(e) =>
          error := Some(ErrorOr(e, "Failed to initiate connection for " + serviceName));
        case Threw(message) =>
          error := Some(message);
      }
      isConnecting := isConnecting[serviceId := false];
      redirect := None;
    }
  }
}
