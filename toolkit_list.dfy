/** The toolkit picker: the toolkits on offer grouped by kind, the toolkits a link asks to add, and
    the button each toolkit shows. */
module ToolkitList {
  import opened Wrappers
  import opened Strings
  import opened Seqs
  import opened Records
  import opened FilteredToolkits

  /** A toolkit chosen for the chat, with its parameter values. */
  datatype SelectedToolkit = SelectedToolkit(id: string, parameters: Record<string>, toolkit: ToolkitInfo)

  /** The control a toolkit shows, in the order they take precedence. */
  datatype Button =
    | Active      // selected: clicking removes it
    | Connect     // needs an OAuth connection first
    | Configure   // opens the parameter form
    | AddDirect   // adds it with no parameters

  const Exa := "Exa"

  /** The toolkits that go through the connection service before they can be used. */
  const OAuthToolkits := [Notion, GoogleCalendar, GoogleDrive, Github, Exa]

  predicate IsSelected(selected: seq<SelectedToolkit>, id: string) {
    Any(selected, (t: SelectedToolkit) => t.id == id)
  }

  /** A toolkit needs configuring when its parameter schema has at least one key. */
  predicate NeedsConfiguration(info: ToolkitInfo) {
    |info.parameterKeys| > 0
  }

  /** The button of a toolkit: Active when selected, else Connect for the OAuth toolkits, else
      Configure when it has parameters, else a plain Add. */
  function ButtonFor(selected: seq<SelectedToolkit>, id: string, info: ToolkitInfo): (b: Button)
    ensures b == Active <==> IsSelected(selected, id)
    ensures b == Connect <==> !IsSelected(selected, id) && id in OAuthToolkits
    ensures b == Configure <==> !IsSelected(selected, id) && id !in OAuthToolkits && NeedsConfiguration(info)
    ensures b == AddDirect <==> !IsSelected(selected, id) && id !in OAuthToolkits && !NeedsConfiguration(info)
  {
    if IsSelected(selected, id) then Active
    else if id in OAuthToolkits then Connect
    else if NeedsConfiguration(info) then Configure
    else AddDirect
  }

  /** With the external-accounts flag on, the only toolkit on offer that still asks for a
      connection is Exa: the other OAuth toolkits are the hidden legacy ones. */
  lemma OnlyExaConnectsUnderFlag(entries: seq<Entry>, selected: seq<SelectedToolkit>, e: Entry)
    requires e in AvailableEntries(entries, true)
    ensures ButtonFor(selected, e.0, e.1) == Connect ==> e.0 == Exa
  {
  }

  /** The toolkits listed under a group: the available ones of that kind, in order. */
  function GroupItems(available: seq<Entry>, groupId: string): (r: seq<Entry>)
    ensures forall e :: e in r <==> e in available && e.1.group == groupId
    ensures |r| <= |available|
  {
    Filter(available, (e: Entry) => e.1.group == groupId)
  }

  /** Grouping keeps the order of the available list: the items of a concatenation are the
      items of its parts, one after the other. */
  lemma GroupKeepsOrder(a: seq<Entry>, b: seq<Entry>, groupId: string)
    ensures GroupItems(a + b, groupId) == GroupItems(a, groupId) + GroupItems(b, groupId)
  {
    FilterAppend(a, b, (e: Entry) => e.1.group == groupId);
  }

  /** Each available toolkit is listed under its own group and under no other. */
  lemma ListedUnderOwnGroup(available: seq<Entry>, e: Entry, groupId: string)
    requires e in available
    ensures e in GroupItems(available, e.1.group)
    ensures groupId != e.1.group ==> e !in GroupItems(available, groupId)
  {
  }

  /** The entries the link asks to add: available, with their URL parameter exactly "true", and
      not selected yet. */
  function AutoAddCandidates(available: seq<Entry>, params: string -> Option<string>,
                             selected: seq<SelectedToolkit>): (r: seq<Entry>)
    ensures forall e :: e in r <==> e in available && params(e.0) == Some("true") && !IsSelected(selected, e.0)
  {
    Filter(available, (e: Entry) => params(e.0) == Some("true") && !IsSelected(selected, e.0))
  }

  /** The selection made for an auto-added toolkit: no parameters. */
  function Selection(e: Entry): (t: SelectedToolkit)
    ensures t.id == e.0 && t.toolkit == e.1 && t.parameters == []
  {
    SelectedToolkit(e.0, [], e.1)
  }

  /** Once the candidates are selected, the link asks for nothing more. */
  lemma {:induction false} AutoAddSettles(available: seq<Entry>, params: string -> Option<string>,
                                          selected: seq<SelectedToolkit>)
    ensures AutoAddCandidates(available, params, selected + Map(AutoAddCandidates(available, params, selected), Selection)) == []
  {
    var candidates := AutoAddCandidates(available, params, selected);
    var after := selected + Map(candidates, Selection);
    forall e | e in available && params(e.0) == Some("true")
      ensures IsSelected(after, e.0)
    {
      if IsSelected(selected, e.0) {
        var k :| 0 <= k < |selected| && selected[k].id == e.0;
        assert after[k] == selected[k];
      } else {
        assert e in candidates;
        var k :| 0 <= k < |candidates| && candidates[k] == e;
        assert after[|selected| + k] == Selection(e);
      }
    }
    FilterNone(available, (e: Entry) => params(e.0) == Some("true") && !IsSelected(after, e.0));
  }

  /** The picker's auto-add effect: the selections it hands to the chat, and the address after it. */
  class AutoAddEffect {
    /** The toolkits passed to `onAddToolkit`, in order. */
    var added: seq<SelectedToolkit>
    /** The page address; rewriting it drops the query string. */
    var location: string

    constructor (location: string)
      ensures added == [] && this.location == location
    {
      added := [];
      this.location := location;
    }

    /** Add every candidate with empty parameters, then, if any was added, rewrite the address to
        the bare path. */
    method Run(available: seq<Entry>, params: string -> Option<string>, selected: seq<SelectedToolkit>, pathname: string)
      modifies this
      ensures added == old(added) + Map(AutoAddCandidates(available, params, selected), Selection)
      ensures location == if AutoAddCandidates(available, params, selected) != [] then pathname else old(location)
    {
      var updatedToolkits := AutoAddCandidates(available, params, selected);
      if |updatedToolkits| > 0 {
        var i := 0;
        while i < |updatedToolkits|
          invariant 0 <= i <= |updatedToolkits|
          invariant added == old(added) + Map(updatedToolkits[..i], Selection)
        {
          MapPrefixStep(updatedToolkits, i, Selection);
          added := added + [Selection(updatedToolkits[i])];
          i := i + 1;
        }
        assert updatedToolkits[..i] == updatedToolkits;
        location := pathname;
      }
    }
  }

  /** Mapping one more element of a prefix appends its image. */
  lemma MapPrefixStep<T, U>(s: seq<T>, i: nat, f: T -> U)
    requires i < |s|
    ensures Map(s[..i + 1], f) == Map(s[..i], f) + [f(s[i])]
  {
    var m, m' := Map(s[..i], f), Map(s[..i + 1], f);
    assert forall k :: 0 <= k < i + 1 ==> m'[k] == (m + [f(s[i])])[k];
  }

  /** What the connection endpoint answers: not OK, with its error text if any; OK, with the
      provider's address if any; or a thrown error. */
  datatype ConnectResponse = NotOk(error: Option<string>) | Ok(redirectUrl: Option<string>) | FetchThrew(message: string)

  /** What starting a connection ends in: the browser sent to an address, or an error shown. */
  datatype ConnectResult = Redirect(url: string) | ShowError(message: string)

  /** One toolkit's row, with its loading flag. */
  class ToolkitItem {
    var isLoading: bool

    constructor ()
      ensures !isLoading
    {
      isLoading := false;
    }

    /** handleConnectService: ask the endpoint to connect the lower-cased service, then follow
        the address it gives; any failure shows an error and clears the flag, which otherwise
        stays set while the page leaves. */
    method HandleConnectService(serviceId: string, response: ConnectResponse) returns (service: string, r: ConnectResult)
      modifies this
      ensures service == Lower(serviceId)
      ensures r.Redirect? <==> response.Ok? && Truthy(response.redirectUrl)
      ensures r.Redirect? ==> r.url == response.redirectUrl.value
      ensures response.NotOk? ==>
        r == ShowError(if Truthy(response.error) then response.error.value else "Failed to initiate connection for " + serviceId)
      ensures response.Ok? && !Truthy(response.redirectUrl) ==> r == ShowError("No redirectUrl received for " + serviceId)
      ensures response.FetchThrew? ==> r == ShowError(response.message)
      ensures isLoading <==> r.Redirect?
    {
      isLoading := true;
      service := Lower(serviceId);
      match response {
        case NotOk(error) =>
          r := ShowError(if Truthy(error) then error.value else "Failed to initiate connection for " + serviceId);
        case Ok(redirectUrl) =>
          if Truthy(redirectUrl) {
            r := Redirect(redirectUrl.value);
            return;
          }
          r := ShowError("No redirectUrl received for " + serviceId);
        case FetchThrew(message) =>
          r := ShowError(message);
      }
      isLoading := false;
    }
  }
}
