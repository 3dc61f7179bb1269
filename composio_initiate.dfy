/** POST /api/composio/connect/initiate: start connecting a third-party service for the caller. */
module ConnectInitiate {
  import opened Wrappers
  import opened Strings
  import opened Records
  import opened ComposioClient
  import opened ComposioErrors

  /** The request body: JSON that fails to parse (its parser's message), or an object whose
      `service` is a string (Some) or anything else (None). */
  datatype InitiateBody = MalformedJson(message: string) | Json(service: Option<string>)

  /** What the service answers to an initiation: the pending account's id and the provider's
      sign-in address, if it gave one; or the message of the error it threw. */
  datatype ConnectionRequest = Requested(id: string, redirectUrl: Option<string>) | RequestThrew(message: string)

  datatype InitiateResponse =
    | Unauthorized                        // 401 "Unauthorized"
    | InvalidBody                         // 400 "Invalid request body"
    | ConfigMissing(error: string)        // 500, naming the service
    | Unsupported                         // 400 "Unsupported service provided."
    | NoRedirect                          // 500 "Failed to initiate connection: No redirect URL …"
    | Initiated(redirectUrl: string, pendingConnectedAccountId: string)  // 200
    | Failed(error: string)               // 500, from the catch-all

  function Status(r: InitiateResponse): int {
    match r
    case Unauthorized => 401
    case InvalidBody => 400
    case ConfigMissing(_) => 500
    case Unsupported => 400
    case NoRedirect => 500
    case Initiated(_, _) => 200
    case Failed(_) => 500
  }

  const InitiateFailed := "Failed to initiate connection with third-party service."
  const GoogleCalendar := "google_calendar"

  /** The error text of a known service whose configuration id is not set. */
  function ConfigMissingMessage(service: string): string {
    "Configuration error for service: " + service + ". Auth Config ID missing."
  }

  /** The schema's check: `service` is a string of at least one character. */
  predicate ValidService(service: Option<string>) {
    service.Some? && |service.value| >= 1
  }

  /** The map from service names to configuration ids, built from the environment's id for
      Google Calendar; the only service the route knows. */
  function ServiceAuthConfigMap(calendarConfigId: Option<string>): (m: Record<Option<string>>)
    ensures KeysOf(m) == [GoogleCalendar]
    ensures Get(m, GoogleCalendar) == Some(calendarConfigId)
  {
    [(GoogleCalendar, calendarConfigId)]
  }

  /** The configuration id looked up for a service name: the map's value, undefined when absent. */
  function AuthConfigFor(m: Record<Option<string>>, service: string): (r: Option<string>)
    ensures Get(m, Lower(service)).None? ==> r.None?
    ensures Get(m, Lower(service)).Some? ==> r == Get(m, Lower(service)).value
  {
    match Get(m, Lower(service))
    case None => None
    case Some(id) => id
  }

  /** The route, with the caller's id, the parsed body, the environment's configuration id, what
      getting the client gives (a client, or the message it threw) and the service's answer as
      parameters. */
  function Initiate(userId: Option<string>, body: InitiateBody, calendarConfigId: Option<string>,
                    client: Result<Client, string>, initiate: (string, string) -> ConnectionRequest)
    : (r: InitiateResponse)
    ensures !Truthy(userId) ==> r == Unauthorized
    ensures Truthy(userId) && body.MalformedJson? ==> r == Failed(CaughtError(body.message, InitiateFailed))
    ensures Truthy(userId) && body.Json? && !ValidService(body.service) ==> r == InvalidBody
    ensures Truthy(userId) && body.Json? && ValidService(body.service) ==>
      var service := body.service.value;
      && (Lower(service) != GoogleCalendar ==> r == Unsupported)
      && (Lower(service) == GoogleCalendar && !Truthy(calendarConfigId) ==> r == ConfigMissing(ConfigMissingMessage(service)))
    ensures r.Initiated? <==>
      && Truthy(userId) && body.Json? && ValidService(body.service)
      && Lower(body.service.value) == GoogleCalendar && Truthy(calendarConfigId) && client.Ok?
      && initiate(userId.value, calendarConfigId.value).Requested?
      && Truthy(initiate(userId.value, calendarConfigId.value).redirectUrl)
    ensures r.Initiated? ==>
      initiate(userId.value, calendarConfigId.value) == Requested(r.pendingConnectedAccountId, Some(r.redirectUrl))
    ensures r.Failed? ==> r.error in {ApiKeyError, InitiateFailed}
    // past the configuration check: the client's error, the service's error, a missing address
    ensures Truthy(userId) && body.Json? && ValidService(body.service)
            && Lower(body.service.value) == GoogleCalendar && Truthy(calendarConfigId) ==>
      && (client.Err? ==> r == Failed(CaughtError(client.error, InitiateFailed)))
      && (client.Ok? ==>
            match initiate(userId.value, calendarConfigId.value)
            case RequestThrew(message) => r == Failed(CaughtError(message, InitiateFailed))
            case Requested(id, redirectUrl) =>
              r == (if Truthy(redirectUrl) then Initiated(redirectUrl.value, id) else NoRedirect))
  {
    if !Truthy(userId) then Unauthorized
    else match body
      case MalformedJson(message) => Failed(CaughtError(message, InitiateFailed))
      case Json(service) =>
        if !ValidService(service) then InvalidBody
        else
          var serviceMap := ServiceAuthConfigMap(calendarConfigId);
          var authConfigId := AuthConfigFor(serviceMap, service.value);
          if !Truthy(authConfigId) then
            if Lower(service.value) in KeysOf(serviceMap) then ConfigMissing(ConfigMissingMessage(service.value))
            else Unsupported
          else match client
            case Err(message) => Failed(CaughtError(message, InitiateFailed))
            case Ok(_) =>
              match initiate(userId.value, authConfigId.value)
              case RequestThrew(message) => Failed(CaughtError(message, InitiateFailed))
              case Requested(id, redirectUrl) =>
                if !Truthy(redirectUrl) then NoRedirect
                else Initiated(redirectUrl.value, id)
  }

  /** The service name is matched without regard to case: two spellings that lower-case alike get
      the same status, and the same answer except for the name echoed in a configuration error. */
  lemma {:induction false} ServiceCaseInsensitive(userId: Option<string>, a: string, b: string, calendarConfigId: Option<string>,
                                                  client: Result<Client, string>, initiate: (string, string) -> ConnectionRequest)
    requires Lower(a) == Lower(b)
    ensures var ra := Initiate(userId, Json(Some(a)), calendarConfigId, client, initiate);
      var rb := Initiate(userId, Json(Some(b)), calendarConfigId, client, initiate);
      && Status(ra) == Status(rb)
      && (!ra.ConfigMissing? ==> ra == rb)
  {
    assert |a| == |Lower(a)| == |b|;
  }

  /** An unknown service, or a known one left unconfigured, never reaches the client or the
      service: the answer is the same whatever they would do. */
  lemma UnknownServiceNeverInitiates(userId: Option<string>, service: string, calendarConfigId: Option<string>,
                                     c1: Result<Client, string>, i1: (string, string) -> ConnectionRequest,
                                     c2: Result<Client, string>, i2: (string, string) -> ConnectionRequest)
    requires Lower(service) != GoogleCalendar || !Truthy(calendarConfigId)
    ensures Initiate(userId, Json(Some(service)), calendarConfigId, c1, i1) == Initiate(userId, Json(Some(service)), calendarConfigId, c2, i2)
  {
  }

  /** Without a key the client cannot be made, and a configured request then ends in the generic
      500, not the API-key one. */
  lemma MissingKeyGivesGenericError(userId: string, calendarConfigId: string, initiate: (string, string) -> ConnectionRequest)
    requires userId != "" && calendarConfigId != ""
    ensures Initiate(Some(userId), Json(Some(GoogleCalendar)), Some(calendarConfigId), Err(MissingKeyMessage), initiate) == Failed(InitiateFailed)
  {
    MissingKeyIsGeneric(InitiateFailed);
    GoogleCalendarIsLower();
  }

  lemma GoogleCalendarIsLower()
    ensures Lower(GoogleCalendar) == GoogleCalendar
  {
    NoUpperIsLower(GoogleCalendar);
  }
}
