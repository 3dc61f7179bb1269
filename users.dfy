/** The local user table and the users router: read, update and delete the caller's own row. */
module Users {
  import opened Wrappers
  import opened Strings
  import opened Api

  /** A row of the user table; `emailVerified` is the time the address was seen verified. */
  datatype User = User(
    id: string,
    name: Option<string>,
    email: Option<string>,
    image: Option<string>,
    emailVerified: Option<int>)

  /** One e-mail address of an identity-provider profile. */
  datatype EmailAddress = EmailAddress(id: string, emailAddress: string, verificationStatus: Option<string>)

  /** The update the users router accepts: each field absent (left as it is) or a new value. */
  datatype UserPatch = UserPatch(name: Option<string>, email: Option<string>, image: Option<string>)

  // ---------------------------------------------------------------- the e-mail rule of the input schema

  predicate IsAsciiLetter(c: char) { 'a' <= c <= 'z' || 'A' <= c <= 'Z' }
  predicate IsAsciiAlnum(c: char) { IsAsciiLetter(c) || '0' <= c <= '9' }

  /** A character the local part may hold anywhere but at its end. */
  predicate LocalChar(c: char) { IsAsciiAlnum(c) || c == '_' || c == '\'' || c == '+' || c == '-' || c == '.' }

  /** A character the local part may end with. */
  predicate LocalLastChar(c: char) { IsAsciiAlnum(c) || c == '_' || c == '+' || c == '-' }

  /** The part before `@`: allowed characters, not starting or ending with a dot, no two dots in a row. */
  predicate LocalPart(l: string) {
    && |l| > 0
    && (forall i :: 0 <= i < |l| ==> LocalChar(l[i]))
    && l[0] != '.'
    && LocalLastChar(l[|l| - 1])
    && (forall i :: 0 <= i < |l| - 1 ==> !(l[i] == '.' && l[i + 1] == '.'))
  }

  /** A domain label: a letter or digit, then letters, digits and hyphens. */
  predicate Label(l: string) {
    |l| > 0 && IsAsciiAlnum(l[0]) && forall i :: 0 <= i < |l| ==> IsAsciiAlnum(l[i]) || l[i] == '-'
  }

  /** The top-level domain: two or more letters. */
  predicate TopLevel(t: string) {
    |t| >= 2 && forall i :: 0 <= i < |t| ==> IsAsciiLetter(t[i])
  }

  /** One or more labels, each followed by a dot, then the top-level domain. */
  predicate Domain(d: string)
    decreases |d|
  {
    var l := BeforeFirst(d, '.');
    |l| < |d| && Label(l) && (TopLevel(d[|l| + 1..]) || Domain(d[|l| + 1..]))
  }

  /** The schema's e-mail check: a local part, one `@`, and a dotted domain. */
  predicate IsEmail(s: string)
    ensures IsEmail(s) ==> '@' in s && s[0] != '@'
  {
    var local := BeforeFirst(s, '@');
    |local| < |s| && LocalPart(local) && Domain(s[|local| + 1..])
  }

  /** An accepted address has exactly one `@`, with a non-empty part before it and a dot after it. */
  lemma {:induction false} EmailShape(s: string)
    requires IsEmail(s)
    ensures var i := |BeforeFirst(s, '@')|;
      0 < i < |s| - 1 && s[i] == '@' && '@' !in s[..i] && '@' !in s[i + 1..] && '.' in s[i + 1..]
  {
    var i := |BeforeFirst(s, '@')|;
    DomainShape(s[i + 1..]);
  }

  lemma {:induction false} DomainShape(d: string)
    requires Domain(d)
    ensures '@' !in d && '.' in d
    decreases |d|
  {
    var l := BeforeFirst(d, '.');
    var rest := d[|l| + 1..];
    assert d == l + ['.'] + rest;
    assert forall i :: 0 <= i < |l| ==> l[i] != '@';
    if TopLevel(rest) {
      assert forall i :: 0 <= i < |rest| ==> rest[i] != '@';
    } else {
      DomainShape(rest);
    }
  }

  lemma ExampleDomain()
    ensures Domain("b.io")
  {
    var d := "b.io";
    BeforeFirstAt(d, '.', 1);
    assert d[2..] == "io";
    assert Label("b") && TopLevel("io");
  }

  lemma EmailAccepted()
    ensures IsEmail("ada@b.io")
  {
    var s := "ada@b.io";
    BeforeFirstAt(s, '@', 3);
    assert s[..3] == "ada" && s[4..] == "b.io";
    assert LocalPart("ada");
    ExampleDomain();
  }

  lemma EmailWithoutDotRefused()
    ensures !IsEmail("ada@b")
  {
    var s := "ada@b";
    BeforeFirstAt(s, '@', 3);
    BeforeFirstAt(s[4..], '.', 1);
  }

  // ---------------------------------------------------------------- updates

  /** The row after `data: patch`: supplied fields replaced, absent ones kept. */
  function Patched(u: User, patch: UserPatch): (r: User)
    ensures r.id == u.id && r.emailVerified == u.emailVerified
    ensures r.name == (if patch.name.Some? then patch.name else u.name)
    ensures r.email == (if patch.email.Some? then patch.email else u.email)
    ensures r.image == (if patch.image.Some? then patch.image else u.image)
  {
    User(u.id, patch.name.Or(u.name), patch.email.Or(u.email), patch.image.Or(u.image), u.emailVerified)
  }

  /** An empty patch changes nothing, and patching twice with the same patch is patching once. */
  lemma PatchedLaws(u: User, patch: UserPatch)
    ensures Patched(u, UserPatch(None, None, None)) == u
    ensures Patched(Patched(u, patch), patch) == Patched(u, patch)
  {
  }

  // ---------------------------------------------------------------- the unique e-mail column

  /** Whether a row other than the one under `id` holds the address `email`. The e-mail column is
      unique; an absent address never clashes. */
  predicate EmailTaken(rows: map<string, User>, id: string, email: Option<string>) {
    email.Some? && exists k :: k in rows && k != id && rows[k].email == email
  }

  /** No two rows hold the same address. */
  ghost predicate UniqueEmails(rows: map<string, User>) {
    forall j, k :: j in rows && k in rows && j != k && rows[j].email.Some? ==> rows[j].email != rows[k].email
  }

  /** Writing a row whose address no other row holds keeps the addresses unique. */
  lemma {:induction false} WriteKeepsEmailsUnique(rows: map<string, User>, id: string, u: User)
    requires UniqueEmails(rows) && !EmailTaken(rows, id, u.email)
    ensures UniqueEmails(rows[id := u])
  {
    var after := rows[id := u];
    forall j, k | j in after && k in after && j != k && after[j].email.Some?
      ensures after[j].email != after[k].email
    {
      if j == id {
        assert k in rows && k != id;
      } else if k == id {
        assert j in rows && j != id && rows[j].email == after[j].email;
      }
    }
  }

  /** An update whose new address, if any, no other row holds keeps the addresses unique: a kept
      address was the row's own already. */
  lemma UpdateKeepsEmailsUnique(rows: map<string, User>, id: string, patch: UserPatch)
    requires UniqueEmails(rows) && id in rows && !EmailTaken(rows, id, patch.email)
    ensures UniqueEmails(rows[id := Patched(rows[id], patch)])
  {
    var u := Patched(rows[id], patch);
    if patch.email.None? && u.email.Some? {
      forall k | k in rows && k != id
        ensures rows[k].email != u.email
      {
        assert rows[id].email == u.email;
      }
    }
    WriteKeepsEmailsUnique(rows, id, u);
  }

  /** The user table, keyed by id. */
  class UserTable {
    var rows: map<string, User>

    /** Every row is stored under its own id. */
    ghost predicate Valid()
      reads this
    {
      forall k :: k in rows ==> rows[k].id == k
    }

    constructor ()
      ensures Valid() && rows == map[]
    {
      rows := map[];
    }

    /** `findUnique({ where: { id } })`. */
    function Lookup(id: string): (r: Option<User>)
      reads this
      requires Valid()
      ensures r.Some? <==> id in rows
      ensures r.Some? ==> r.value == rows[id] && r.value.id == id
    {
      if id in rows then Some(rows[id]) else None
    }

    /** getCurrentUser: the caller's row as the middleware attached it, else looked up by id. */
    function GetCurrentUser(dbUser: Option<User>, callerId: string): (r: Option<User>)
      reads this
      requires Valid()
      ensures dbUser.Some? ==> r == dbUser
      ensures dbUser.None? ==> (r.Some? <==> callerId in rows) && (r.Some? ==> r.value == rows[callerId])
    {
      if dbUser.Some? then dbUser else Lookup(callerId)
    }

    /** updateUser: an invalid e-mail is refused; a missing row is not found; an address another
        row holds violates the unique e-mail column; otherwise only the caller's row changes, and
        only in the supplied fields. Every refusal leaves the table as it was. */
    method UpdateUser(callerId: string, patch: UserPatch) returns (r: Result<User, ApiError>)
      requires Valid()
      modifies this
      ensures Valid()
      ensures UniqueEmails(old(rows)) ==> UniqueEmails(rows)
      ensures r.Err? ==> rows == old(rows)
      ensures patch.email.Some? && !IsEmail(patch.email.value) ==> r == Err(InvalidInput("email"))
      ensures (patch.email.None? || IsEmail(patch.email.value)) ==>
        && (callerId !in old(rows) ==> r == Err(RecordNotFound))
        && (callerId in old(rows) && EmailTaken(old(rows), callerId, patch.email) ==> r == Err(UniqueViolation(["email"])))
        && (callerId in old(rows) && !EmailTaken(old(rows), callerId, patch.email) ==>
              r == Ok(Patched(old(rows)[callerId], patch)) && rows == old(rows)[callerId := r.value])
    {
      if patch.email.Some? && !IsEmail(patch.email.value) {
        r := Err(InvalidInput("email"));
        return;
      }
      if callerId !in rows {
        r := Err(RecordNotFound);
        return;
      }
      if EmailTaken(rows, callerId, patch.email) {
        r := Err(UniqueViolation(["email"]));
        return;
      }
      var u := Patched(rows[callerId], patch);
      if UniqueEmails(rows) {
        UpdateKeepsEmailsUnique(rows, callerId, patch);
      }
      rows := rows[callerId := u];
      r := Ok(u);
    }

    /** deleteUser: only the caller's row leaves the table. */
    method DeleteUser(callerId: string) returns (r: Result<User, ApiError>)
      requires Valid()
      modifies this
      ensures Valid()
      ensures callerId !in old(rows) ==> r == Err(RecordNotFound) && rows == old(rows)
      ensures callerId in old(rows) ==> r == Ok(old(rows)[callerId]) && rows == old(rows) - {callerId}
    {
      if callerId !in rows {
        r := Err(RecordNotFound);
        return;
      }
      r := Ok(rows[callerId]);
      rows := rows - {callerId};
    }
  }
}
