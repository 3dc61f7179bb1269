/** The protected procedure's middleware: reject unauthenticated calls, and make sure the caller has
    a row in the local user table, creating it from the identity provider's profile if needed. */
module Provisioning {
  import opened Wrappers
  import opened Strings
  import opened Api
  import opened Users

  /** The identity provider's profile of the signed-in user, as far as the middleware reads it. */
  datatype ClerkUser = ClerkUser(
    fullName: Option<string>,
    firstName: Option<string>,
    lastName: Option<string>,
    primaryEmail: Option<EmailAddress>,
    imageUrl: string)

  /** How the attempt to insert the row ended. A failed insert carries the ORM's error code and
      unique-key target, and the row a concurrent request for the same user committed meanwhile, if any. */
  datatype CreateOutcome =
    | Inserted
    | CreateFailed(code: string, target: Option<seq<string>>, raced: Option<User>)

  const NotAuthenticated := "Not authenticated"
  const NoProfile := "Could not fetch user details from Clerk."
  const RaceUnresolved := "Failed to provision user locally after unique constraint error."
  const ProvisionFailed := "Failed to provision user locally."

  /** The name stored for a new user: the full name when it is non-empty, else "first last" when both
      parts are non-empty, else the full name as it came (empty or null). */
  function NameToStore(u: ClerkUser): (r: Option<string>)
    ensures Truthy(r) <==> Truthy(u.fullName) || (Truthy(u.firstName) && Truthy(u.lastName))
    ensures Truthy(u.fullName) ==> r == u.fullName
    ensures !Truthy(u.fullName) && Truthy(u.firstName) && Truthy(u.lastName) ==>
      r == Some(u.firstName.value + " " + u.lastName.value)
    ensures !Truthy(r) ==> r == u.fullName
  {
    var nameToStore := u.fullName;
    if !Truthy(nameToStore) && Truthy(u.firstName) && Truthy(u.lastName) then
      Some(u.firstName.value + " " + u.lastName.value)
    else nameToStore
  }

  /** Whether an address entry has been verified by the identity provider. */
  predicate IsVerified(e: Option<EmailAddress>) {
    e.Some? && e.value.verificationStatus == Some("verified")
  }

  /** The address of an entry, if there is one. */
  function AddressOf(e: Option<EmailAddress>): (r: Option<string>)
    ensures r.Some? <==> e.Some?
    ensures r.Some? ==> r.value == e.value.emailAddress
  {
    match e
    case None => None
    case Some(a) => Some(a.emailAddress)
  }

  /** The row created for a new user at time `now`. */
  function NewRow(userId: string, u: ClerkUser, now: int): (r: User)
    ensures r.id == userId && r.name == NameToStore(u) && r.image == Some(u.imageUrl)
    ensures r.email == AddressOf(u.primaryEmail)
    ensures r.emailVerified.Some? <==> IsVerified(u.primaryEmail)
    ensures r.emailVerified.Some? ==> r.emailVerified.value == now
  {
    User(userId, NameToStore(u), AddressOf(u.primaryEmail), Some(u.imageUrl),
         if IsVerified(u.primaryEmail) then Some(now) else None)
  }

  /** The ORM's unique-constraint failure: code P2002, or a target naming the e-mail column. */
  predicate IsUniqueViolation(code: string, target: Option<seq<string>>) {
    code == "P2002" || (target.Some? && "email" in target.value)
  }

  /** The table after a failed insert: with the concurrent request's row, if it committed one. */
  function AfterFailedInsert(rows: map<string, User>, userId: string, raced: Option<User>): map<string, User> {
    if raced.Some? then rows[userId := raced.value.(id := userId)] else rows
  }

  /** What the middleware does: the user it attaches to the context, or its error, and the table after.
      `create` is how the insert ends apart from the unique e-mail column, which the table itself
      enforces: a new row whose address another row holds is refused as a unique-constraint
      failure on `email`. */
  function Provision(rows: map<string, User>, auth: Option<string>, profile: Option<ClerkUser>,
                     create: CreateOutcome, now: int): (r: (Result<User, ApiError>, map<string, User>))
    ensures !Truthy(auth) ==> r.0 == Err(TrpcError(Unauthorized, NotAuthenticated)) && r.1 == rows
    ensures r.0.Ok? ==> Truthy(auth) && auth.value in r.1 && r.1[auth.value] == r.0.value
    ensures r.1 != rows ==> Truthy(auth) && auth.value !in rows && auth.value in r.1 && r.1 == rows[auth.value := r.1[auth.value]]
  {
    if !Truthy(auth) then (Err(TrpcError(Unauthorized, NotAuthenticated)), rows)
    else
      var userId := auth.value;
      if userId in rows then (Ok(rows[userId]), rows)
      else if profile.None? then (Err(TrpcError(InternalServerError, NoProfile)), rows)
      else match create
        case Inserted =>
          var row := NewRow(userId, profile.value, now);
          // the unique e-mail column refuses the insert, and the re-read by id finds nothing
          if EmailTaken(rows, userId, row.email) then (Err(TrpcError(InternalServerError, RaceUnresolved)), rows)
          else (Ok(row), rows[userId := row])
        case CreateFailed(code, target, raced) =>
          var after := AfterFailedInsert(rows, userId, raced);
          if !IsUniqueViolation(code, target) then (Err(TrpcError(InternalServerError, ProvisionFailed)), after)
          else if userId in after then (Ok(after[userId]), after)
          else (Err(TrpcError(InternalServerError, RaceUnresolved)), after)
  }

  ghost predicate WellKeyed(rows: map<string, User>) {
    forall k :: k in rows ==> rows[k].id == k
  }

  /** A call without a signed-in user is refused before the table is read, whatever it holds. */
  lemma UnauthenticatedRejected(rows: map<string, User>, auth: Option<string>, profile: Option<ClerkUser>,
                                create: CreateOutcome, now: int)
    requires !Truthy(auth)
    ensures Provision(rows, auth, profile, create, now) == (Err(TrpcError(Unauthorized, NotAuthenticated)), rows)
  {
  }

  /** A user who already has a row gets that row, and nothing is created. */
  lemma ExistingRowUsed(rows: map<string, User>, userId: string, profile: Option<ClerkUser>,
                        create: CreateOutcome, now: int)
    requires userId != "" && userId in rows
    ensures Provision(rows, Some(userId), profile, create, now) == (Ok(rows[userId]), rows)
  {
  }

  /** Without a profile from the identity provider a missing user is not created. */
  lemma MissingProfileFails(rows: map<string, User>, userId: string, create: CreateOutcome, now: int)
    requires userId != "" && userId !in rows
    ensures Provision(rows, Some(userId), None, create, now) == (Err(TrpcError(InternalServerError, NoProfile)), rows)
  {
  }

  /** A failed insert that is not a unique-constraint failure ends with the generic error, and one
      that is ends with the row a concurrent request created, or with the race error when there is
      none. */
  lemma FailedInsertOutcomes(rows: map<string, User>, userId: string, profile: ClerkUser,
                             code: string, target: Option<seq<string>>, raced: Option<User>, now: int)
    requires userId != "" && userId !in rows
    ensures var (r, after) := Provision(rows, Some(userId), Some(profile), CreateFailed(code, target, raced), now);
      && (!IsUniqueViolation(code, target) ==> r == Err(TrpcError(InternalServerError, ProvisionFailed)))
      && (IsUniqueViolation(code, target) && raced.None? ==> r == Err(TrpcError(InternalServerError, RaceUnresolved)) && after == rows)
      && (IsUniqueViolation(code, target) && raced.Some? ==> r == Ok(raced.value.(id := userId)))
  {
  }

  /** A new user whose primary address another row already holds is not created: the insert fails
      on the unique e-mail column, the re-read by id finds nothing, and the race error is thrown. */
  lemma TakenAddressRefused(rows: map<string, User>, userId: string, profile: ClerkUser, now: int)
    requires userId != "" && userId !in rows
    requires EmailTaken(rows, userId, AddressOf(profile.primaryEmail))
    ensures Provision(rows, Some(userId), Some(profile), Inserted, now) == (Err(TrpcError(InternalServerError, RaceUnresolved)), rows)
  {
  }

  /** The row a concurrent request committed for the caller obeys the unique e-mail column too:
      no other row holds its address. */
  predicate RaceAdmitted(rows: map<string, User>, auth: Option<string>, create: CreateOutcome) {
    create.CreateFailed? && create.raced.Some? && auth.Some? ==>
      !EmailTaken(rows, auth.value, create.raced.value.email)
  }

  /** No provisioning leaves one address in two rows. */
  lemma ProvisionKeepsEmailsUnique(rows: map<string, User>, auth: Option<string>, profile: Option<ClerkUser>,
                                   create: CreateOutcome, now: int)
    requires UniqueEmails(rows) && RaceAdmitted(rows, auth, create)
    ensures UniqueEmails(Provision(rows, auth, profile, create, now).1)
  {
    if Truthy(auth) && auth.value !in rows && profile.Some? {
      var userId := auth.value;
      match create
      case Inserted =>
        var row := NewRow(userId, profile.value, now);
        if !EmailTaken(rows, userId, row.email) {
          WriteKeepsEmailsUnique(rows, userId, row);
        }
      case CreateFailed(_, _, raced) =>
        if raced.Some? {
          WriteKeepsEmailsUnique(rows, userId, raced.value.(id := userId));
        }
    }
  }

  /** On success the attached user is the caller's own row, as a later lookup by the caller's id
      finds it; the table stays keyed by id, no other user's row changes, and no two rows come to
      share an address. */
  lemma ProvisionedUserIsCallers(rows: map<string, User>, auth: Option<string>, profile: Option<ClerkUser>,
                                 create: CreateOutcome, now: int)
    requires WellKeyed(rows)
    ensures var (r, after) := Provision(rows, auth, profile, create, now);
      && WellKeyed(after)
      && (r.Ok? ==> r.value.id == auth.value && auth.value in after && after[auth.value] == r.value)
      && (forall k :: k != auth.GetOr("") ==> (k in after <==> k in rows) && (k in rows ==> after[k] == rows[k]))
      && (after != rows ==> Truthy(auth) && auth.value !in rows)
      && (UniqueEmails(rows) && RaceAdmitted(rows, auth, create) ==> UniqueEmails(after))
  {
    if UniqueEmails(rows) && RaceAdmitted(rows, auth, create) {
      ProvisionKeepsEmailsUnique(rows, auth, profile, create, now);
    }
  }

  /** The middleware, step by step as the procedure runs it. */
  method ProvisionUser(table: UserTable, auth: Option<string>, profile: Option<ClerkUser>,
                       create: CreateOutcome, now: int) returns (r: Result<User, ApiError>)
    requires table.Valid()
    modifies table
    ensures table.Valid()
    ensures (r, table.rows) == Provision(old(table.rows), auth, profile, create, now)
    ensures UniqueEmails(old(table.rows)) && RaceAdmitted(old(table.rows), auth, create) ==> UniqueEmails(table.rows)
  {
    if UniqueEmails(table.rows) && RaceAdmitted(table.rows, auth, create) {
      ProvisionKeepsEmailsUnique(table.rows, auth, profile, create, now);
    }
    if !Truthy(auth) {
      return Err(TrpcError(Unauthorized, NotAuthenticated));
    }
    var userId := auth.value;
    var userInDb := table.Lookup(userId);
    if userInDb.None? {
      if profile.None? {
        return Err(TrpcError(InternalServerError, NoProfile));
      }
      match create {
        case Inserted =>
          var row := NewRow(userId, profile.value, now);
          if EmailTaken(table.rows, userId, row.email) {
            return Err(TrpcError(InternalServerError, RaceUnresolved));
          }
          table.rows := table.rows[userId := row];
          userInDb := Some(row);
        case CreateFailed(code, target, raced) =>
          if raced.Some? {
            table.rows := table.rows[userId := raced.value.(id := userId)];
          }
          if IsUniqueViolation(code, target) {
            userInDb := table.Lookup(userId);
            if userInDb.None? {
              return Err(TrpcError(InternalServerError, RaceUnresolved));
            }
          } else {
            return Err(TrpcError(InternalServerError, ProvisionFailed));
          }
      }
    }
    r := Ok(userInDb.value);
  }
}
