/** The sidebar's user menu: the name, address and initials it shows for the signed-in user. */
module NavUser {
  import opened Wrappers
  import opened Strings

  /** The user as the identity provider's hook gives it: full name and primary address, either of
      which may be missing, and the avatar's address. */
  datatype ClerkUser = ClerkUser(fullName: Option<string>, primaryEmail: Option<string>, imageUrl: string)

  /** What the menu renders: nothing, or the user's details. */
  datatype NavView = Hidden | Shown(userName: string, userEmail: string, avatar: string, initials: string)

  const DefaultName := "User"

  /** The name shown: the full name when present (even empty), else the address's part before the
      first '@', else "User". */
  function UserName(u: ClerkUser): (name: string)
    ensures u.fullName.Some? ==> name == u.fullName.value
    ensures u.fullName.None? && u.primaryEmail.Some? ==>
      StartsWith(u.primaryEmail.value, name) && '@' !in name
      && (|name| < |u.primaryEmail.value| ==> u.primaryEmail.value[|name|] == '@')
    ensures u.fullName.None? && u.primaryEmail.None? ==> name == DefaultName
  {
    if u.fullName.Some? then u.fullName.value
    else if u.primaryEmail.Some? then BeforeFirst(u.primaryEmail.value, '@')
    else DefaultName
  }

  /** The first character of the name, upper-cased; an empty name gives empty initials. */
  function Initials(name: string): (r: string)
    ensures |r| == if name == "" then 0 else 1
    ensures name != "" ==> r[0] == UpperChar(name[0])
  {
    Upper(name[..if name == "" then 0 else 1])
  }

  /** The menu: hidden unless signed in with a user; otherwise the name, the address or "", the
      avatar and the initials of the name. */
  function NavUser(isSignedIn: bool, user: Option<ClerkUser>): (v: NavView)
    ensures v.Hidden? <==> !isSignedIn || user.None?
    ensures v.Shown? ==>
      && v.userName == UserName(user.value)
      && v.userEmail == user.value.primaryEmail.GetOr("")
      && v.avatar == user.value.imageUrl
      && v.initials == Initials(v.userName)
  {
    if !isSignedIn || user.None? then Hidden
    else
      var u := user.value;
      var userName := UserName(u);
      Shown(userName, u.primaryEmail.GetOr(""), u.imageUrl, Initials(userName))
  }

  /** Without a full name the shown name is the address's local part. */
  lemma {:induction false} NameFromAddress(local: string, domain: string, imageUrl: string)
    requires '@' !in local
    ensures UserName(ClerkUser(None, Some(local + "@" + domain), imageUrl)) == local
  {
    var s := local + "@" + domain;
    BeforeFirstAt(s, '@', |local|);
    assert s[..|local|] == local;
  }

  /** A user without a name or an address gets the initials of "User". */
  lemma NoNameInitials(imageUrl: string)
    ensures NavUser(true, Some(ClerkUser(None, None, imageUrl))).initials == "U"
  {
  }

  /** The name is always a string, so the fallback initial never applies: an empty full name
      gives empty initials. */
  lemma EmptyNameNoInitials(email: Option<string>, imageUrl: string)
    ensures NavUser(true, Some(ClerkUser(Some(""), email, imageUrl))).initials == ""
  {
  }
}
