/** The toolkits offered in the chat input: every client toolkit, minus the four whose accounts the
    identity provider takes over when the external-accounts flag is on. */
module FilteredToolkits {
  import opened Seqs

  /** A client toolkit as the selection logic sees it: its group, its name and the keys of its
      parameter schema. Toolkits are keyed by the identifier of their enum member. */
  datatype ToolkitInfo = ToolkitInfo(group: string, name: string, parameterKeys: seq<string>)

  type Entry = (string, ToolkitInfo)

  const Github := "Github"
  const GoogleCalendar := "GoogleCalendar"
  const Notion := "Notion"
  const GoogleDrive := "GoogleDrive"

  /** The toolkits hidden while the flag is on. */
  const LegacyToolkits := [Github, GoogleCalendar, Notion, GoogleDrive]

  /** Whether a toolkit is shown under the flag's setting. */
  predicate Shown(flag: bool, id: string) {
    !flag || id !in LegacyToolkits
  }

  /** displayableToolkitIds: the ids in their order, without the legacy ones when the flag is on. */
  function DisplayableToolkitIds(allIds: seq<string>, flag: bool): (r: seq<string>)
    ensures !flag ==> r == allIds
    ensures forall id :: id in r <==> id in allIds && (!flag || id !in LegacyToolkits)
  {
    if flag then Filter(allIds, (id: string) => id !in LegacyToolkits)
    else allIds
  }

  /** availableToolkitsEntries: the entries in their order, filtered by the same rule. */
  function AvailableEntries(entries: seq<Entry>, flag: bool): (r: seq<Entry>)
    ensures !flag ==> r == entries
    ensures forall e :: e in r <==> e in entries && (!flag || e.0 !in LegacyToolkits)
  {
    var keep := (e: Entry) => Shown(flag, e.0);
    if flag then Filter(entries, keep)
    else
      FilterAll(entries, keep);
      Filter(entries, keep)
  }

  /** The two lists agree: the available entries' ids are exactly the displayable ids, in order. */
  lemma EntriesMatchIds(entries: seq<Entry>, flag: bool)
    ensures Map(AvailableEntries(entries, flag), (e: Entry) => e.0) == DisplayableToolkitIds(Map(entries, (e: Entry) => e.0), flag)
  {
    var key := (e: Entry) => e.0;
    FilterMap(entries, key, (e: Entry) => Shown(flag, e.0), (id: string) => Shown(flag, id));
    if flag {
      FilterCongruent(Map(entries, key), (id: string) => Shown(flag, id), (id: string) => id !in LegacyToolkits);
    } else {
      FilterAll(Map(entries, key), (id: string) => Shown(flag, id));
    }
  }

  /** Filtering keeps the relative order: the result of a concatenation is the concatenation of
      the results. */
  lemma AvailableKeepsOrder(a: seq<Entry>, b: seq<Entry>, flag: bool)
    ensures AvailableEntries(a + b, flag) == AvailableEntries(a, flag) + AvailableEntries(b, flag)
  {
    FilterAppend(a, b, (e: Entry) => Shown(flag, e.0));
  }
}
