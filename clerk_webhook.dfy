/** The identity provider's webhook: signed `user.created`, `user.updated` and `user.deleted`
    events applied to the local user table. */
module ClerkWebhook {
  import opened Wrappers
  import opened Strings
  import opened Seqs
  import opened Users

  /** The three signature headers of a delivery, each possibly missing. */
  datatype SvixHeaders = SvixHeaders(id: Option<string>, timestamp: Option<string>, signature: Option<string>)

  /** The user object an event carries. A deletion event without an id carries the empty id. */
  datatype UserJson = UserJson(
    id: string,
    emailAddresses: seq<EmailAddress>,
    primaryEmailAddressId: Option<string>,
    firstName: Option<string>,
    lastName: Option<string>,
    username: Option<string>,
    imageUrl: string)

  datatype WebhookEvent = WebhookEvent(eventType: string, data: UserJson)

  /** The route's answers. */
  datatype WebhookResponse =
    | NoSvixHeaders       // 400 "Error occurred -- no svix headers"
    | VerificationFailed  // 400 "Error occurred"
    | Received            // 200 { received: true }
    | ProcessingFailed    // 500 { error: "Failed to process webhook event" }

  function Status(r: WebhookResponse): int {
    match r
    case NoSvixHeaders => 400
    case VerificationFailed => 400
    case Received => 200
    case ProcessingFailed => 500
  }

  predicate HeadersPresent(h: SvixHeaders) {
    Truthy(h.id) && Truthy(h.timestamp) && Truthy(h.signature)
  }

  /** The entry whose id is the primary address id, if any. */
  function PrimaryEmail(data: UserJson): (r: Option<EmailAddress>)
    ensures r.Some? ==> r.value in data.emailAddresses && Some(r.value.id) == data.primaryEmailAddressId
    ensures r.None? <==> forall e :: e in data.emailAddresses ==> Some(e.id) != data.primaryEmailAddressId
  {
    Find(data.emailAddresses, (e: EmailAddress) => Some(e.id) == data.primaryEmailAddressId)
  }

  /** The stored name: first and last name joined and trimmed when there is a first name, else the
      username. */
  function DisplayName(data: UserJson): (r: Option<string>)
    ensures !Truthy(data.firstName) ==> r == data.username
    ensures Truthy(data.firstName) ==> r == Some(Trim(data.firstName.value + " " + data.lastName.GetOr("")))
    ensures Truthy(data.firstName) ==> r.Some? && Contains(data.firstName.value + " " + data.lastName.GetOr(""), r.value)
    ensures Truthy(data.firstName) && |r.value| > 0 ==> !IsSpace(r.value[0]) && !IsSpace(r.value[|r.value| - 1])
  {
    if Truthy(data.firstName) then Some(Trim(data.firstName.value + " " + data.lastName.GetOr("")))
    else data.username
  }

  /** A first name with no surrounding space and no last name is stored as it is. */
  lemma FirstNameAlone(data: UserJson)
    requires Truthy(data.firstName) && (data.lastName.None? || data.lastName == Some(""))
    requires !IsSpace(data.firstName.value[0]) && !IsSpace(data.firstName.value[|data.firstName.value| - 1])
    ensures DisplayName(data) == data.firstName
  {
    var f := data.firstName.value;
    var s := f + " " + "";
    assert s == f + " ";
    assert TrimEnd(s) == f by {
      assert s[..|s| - 1] == f;
    }
    TrimStartKeeps(f);
  }

  lemma TrimStartKeeps(s: string)
    requires |s| > 0 && !IsSpace(s[0])
    ensures TrimStart(s) == s
  {
  }

  /** The row a `user.created` event inserts, stamped at `now`. */
  function CreatedRow(data: UserJson, now: int): (r: User)
    ensures r.id == data.id && r.name == DisplayName(data) && r.image == Some(data.imageUrl)
    ensures r.email.Some? <==> PrimaryEmail(data).Some?
    ensures r.email.Some? ==> r.email.value == PrimaryEmail(data).value.emailAddress
    ensures r.emailVerified.Some? <==> PrimaryEmail(data).Some? && PrimaryEmail(data).value.verificationStatus == Some("verified")
  {
    var primary := PrimaryEmail(data);
    User(data.id,
         DisplayName(data),
         if primary.Some? then Some(primary.value.emailAddress) else None,
         Some(data.imageUrl),
         if primary.Some? && primary.value.verificationStatus == Some("verified") then Some(now) else None)
  }

  /** The row after a `user.updated` event: e-mail, name, image and verification time overwritten;
      with no primary entry the e-mail is left undefined in the update, so it keeps its value. */
  function UpdatedRow(current: User, data: UserJson, now: int): (r: User)
    ensures r.id == current.id
    ensures var incoming := CreatedRow(data, now);
      && r.name == incoming.name && r.image == incoming.image && r.emailVerified == incoming.emailVerified
      && r.email == (if incoming.email.Some? then incoming.email else current.email)
  {
    var incoming := CreatedRow(data, now);
    current.(name := incoming.name, image := incoming.image, emailVerified := incoming.emailVerified,
          email := incoming.email.Or(current.email))
  }

  /** What the route answers, and the table after, for one delivery. `verified` is the event the
      signature check yields, or None when it throws. A write the table refuses (a taken id or
      address on insert, a missing row or a taken address on update, a missing row on delete)
      throws, and the route answers 500. */
  function Handle(rows: map<string, User>, headers: SvixHeaders, verified: Option<WebhookEvent>, now: int)
    : (r: (WebhookResponse, map<string, User>))
    ensures r.0 == NoSvixHeaders <==> !HeadersPresent(headers)
    ensures r.0 == VerificationFailed <==> HeadersPresent(headers) && verified.None?
    ensures r.0 != Received ==> r.1 == rows
  {
    if !HeadersPresent(headers) then (NoSvixHeaders, rows)
    else if verified.None? then (VerificationFailed, rows)
    else
      var data := verified.value.data;
      match verified.value.eventType
      case "user.created" =>
        var row := CreatedRow(data, now);
        if data.id in rows || EmailTaken(rows, data.id, row.email) then (ProcessingFailed, rows)
        else (Received, rows[data.id := row])
      case "user.updated" =>
        if data.id !in rows || EmailTaken(rows, data.id, CreatedRow(data, now).email) then (ProcessingFailed, rows)
        else (Received, rows[data.id := UpdatedRow(rows[data.id], data, now)])
      case "user.deleted" =>
        if data.id == "" then (Received, rows)
        else if data.id !in rows then (ProcessingFailed, rows)
        else (Received, rows - {data.id})
      case _ => (Received, rows)
  }

  /** A delivery missing a signature header, or failing verification, is refused with 400 and
      changes nothing; every refusal or failure leaves the table as it was. */
  lemma RejectedDeliveriesChangeNothing(rows: map<string, User>, headers: SvixHeaders, verified: Option<WebhookEvent>, now: int)
    ensures var (resp, after) := Handle(rows, headers, verified, now);
      && (!HeadersPresent(headers) ==> resp == NoSvixHeaders && Status(resp) == 400)
      && (HeadersPresent(headers) && verified.None? ==> resp == VerificationFailed && Status(resp) == 400)
      && (resp != Received ==> after == rows)
  {
  }

  /** Each event type touches only the row of the event's id: created inserts it, updated rewrites
      it, deleted removes it, and any other type changes nothing. A write the table refuses is a
      500: a taken id or address for created, a missing row or an address another row holds for
      updated, a missing row for deleted. */
  lemma EventEffects(rows: map<string, User>, headers: SvixHeaders, e: WebhookEvent, now: int)
    requires HeadersPresent(headers)
    ensures var (resp, after) := Handle(rows, headers, Some(e), now);
      var id := e.data.id;
      var email := CreatedRow(e.data, now).email;
      && (forall k :: k != id ==> (k in after <==> k in rows) && (k in after ==> after[k] == rows[k]))
      && (e.eventType == "user.created" ==>
            (resp == Received <==> id !in rows && !EmailTaken(rows, id, email))
            && (resp == Received ==> after[id] == CreatedRow(e.data, now)))
      && (e.eventType == "user.updated" ==>
            (resp == Received <==> id in rows && !EmailTaken(rows, id, email))
            && (resp == Received ==> after[id] == UpdatedRow(rows[id], e.data, now)))
      && (e.eventType == "user.deleted" ==> (resp == ProcessingFailed <==> id != "" && id !in rows) && (id != "" ==> id !in after))
      && (e.eventType !in {"user.created", "user.updated", "user.deleted"} ==> resp == Received && after == rows)
      && Status(resp) in {200, 500}
  {
  }

  /** The table stays keyed by id through every delivery. */
  lemma HandleKeepsKeys(rows: map<string, User>, headers: SvixHeaders, verified: Option<WebhookEvent>, now: int)
    requires forall k :: k in rows ==> rows[k].id == k
    ensures var after := Handle(rows, headers, verified, now).1;
      forall k :: k in after ==> after[k].id == k
  {
  }

  /** No delivery puts an address in two rows. */
  lemma HandleKeepsEmailsUnique(rows: map<string, User>, headers: SvixHeaders, verified: Option<WebhookEvent>, now: int)
    requires UniqueEmails(rows)
    ensures UniqueEmails(Handle(rows, headers, verified, now).1)
  {
    if HeadersPresent(headers) && verified.Some? {
      var data := verified.value.data;
      var (resp, after) := Handle(rows, headers, verified, now);
      if verified.value.eventType == "user.created" && resp == Received {
        WriteKeepsEmailsUnique(rows, data.id, CreatedRow(data, now));
      } else if verified.value.eventType == "user.updated" && resp == Received {
        var current := rows[data.id];
        var row := UpdatedRow(current, data, now);
        if CreatedRow(data, now).email.None? && row.email.Some? {
          forall k | k in rows && k != data.id
            ensures rows[k].email != row.email
          {
            assert current.email == row.email;
          }
        }
        WriteKeepsEmailsUnique(rows, data.id, row);
      }
    }
  }

  /** The route handler, applying the event to the table. */
  method HandleWebhook(table: UserTable, headers: SvixHeaders, verified: Option<WebhookEvent>, now: int)
    returns (resp: WebhookResponse)
    requires table.Valid()
    modifies table
    ensures table.Valid()
    ensures (resp, table.rows) == Handle(old(table.rows), headers, verified, now)
    ensures UniqueEmails(old(table.rows)) ==> UniqueEmails(table.rows)
  {
    if !HeadersPresent(headers) {
      return NoSvixHeaders;
    }
    if verified.None? {
      return VerificationFailed;
    }
    var eventType := verified.value.eventType;
    var eventData := verified.value.data;
    if UniqueEmails(table.rows) {
      HandleKeepsEmailsUnique(table.rows, headers, verified, now);
    }
    if eventType == "user.created" {
      var row := CreatedRow(eventData, now);
      if eventData.id in table.rows || EmailTaken(table.rows, eventData.id, row.email) {
        return ProcessingFailed;
      }
      table.rows := table.rows[eventData.id := row];
    } else if eventType == "user.updated" {
      if eventData.id !in table.rows || EmailTaken(table.rows, eventData.id, CreatedRow(eventData, now).email) {
        return ProcessingFailed;
      }
      table.rows := table.rows[eventData.id := UpdatedRow(table.rows[eventData.id], eventData, now)];
    } else if eventType == "user.deleted" {
      if eventData.id != "" {
        if eventData.id !in table.rows {
          return ProcessingFailed;
        }
        table.rows := table.rows - {eventData.id};
      }
    }
    resp := Received;
  }
}
