/** The chat input's toolkit button and dialog: when the dialog opens, what the button says, when
    it can be used, and what saving sends. */
module ToolsSelect {
  import opened Wrappers
  import opened Strings
  import opened Seqs
  import opened ToolkitList

  const ToolCalling := "tool-calling"

  /** The chat model chosen, as far as the button reads it: its capabilities, possibly absent. */
  datatype ChatModel = ChatModel(capabilities: Option<seq<string>>)

  predicate SupportsTools(m: ChatModel) {
    m.capabilities.Some? && ToolCalling in m.capabilities.value
  }

  /** Whether the address asks for one of the displayable toolkits: some id has a non-empty
      query parameter. */
  predicate LinkRequestsToolkit(displayable: seq<string>, params: string -> Option<string>) {
    Any(displayable, (id: string) => Truthy(params(id)))
  }

  /** The dialog's open state. */
  class ToolsDialog {
    var isOpen: bool

    /** It starts open exactly when the address asks for a displayable toolkit. */
    constructor (displayable: seq<string>, params: string -> Option<string>)
      ensures isOpen <==> LinkRequestsToolkit(displayable, params)
    {
      isOpen := LinkRequestsToolkit(displayable, params);
    }

    /** The effect: opens a closed dialog when the address asks for a toolkit; never closes it. */
    method SyncWithLink(displayable: seq<string>, params: string -> Option<string>)
      modifies this
      ensures isOpen <==> old(isOpen) || LinkRequestsToolkit(displayable, params)
    {
      if !isOpen && LinkRequestsToolkit(displayable, params) {
        isOpen := true;
      }
    }

    /** The dialog's own open or close request. */
    method OnOpenChange(open: bool)
      modifies this
      ensures isOpen == open
    {
      isOpen := open;
    }

    /** A successful save closes the dialog. */
    method SaveSucceeded()
      modifies this
      ensures !isOpen
    {
      isOpen := false;
    }
  }

  /** Decimal digits of a natural number. */
  function NatToString(n: nat): (s: string)
    ensures |s| > 0
    ensures forall i :: 0 <= i < |s| ==> '0' <= s[i] <= '9'
    decreases n
  {
    var d := ['0' + (n % 10) as char];
    if n < 10 then d else NatToString(n / 10) + d
  }

  /** The value of a string of decimal digits. */
  function DigitsValue(s: string): nat
    requires forall i :: 0 <= i < |s| ==> '0' <= s[i] <= '9'
  {
    if s == [] then 0 else DigitsValue(s[..|s| - 1]) * 10 + (s[|s| - 1] - '0') as nat
  }

  /** The digits read back to the number. */
  lemma {:induction false} NatToStringValue(n: nat)
    ensures DigitsValue(NatToString(n)) == n
    decreases n
  {
    var s := NatToString(n);
    if n >= 10 {
      NatToStringValue(n / 10);
      assert s[..|s| - 1] == NatToString(n / 10);
    }
  }

  /** The button's text: "Add Toolkits" with none selected, "1 Toolkit" with one, and the count
      followed by " Toolkits" otherwise. */
  function Label(count: nat): (s: string)
    ensures count == 0 ==> s == "Add Toolkits"
    ensures count > 0 ==> s == NatToString(count) + (if count > 1 then " Toolkits" else " Toolkit")
  {
    if count > 0 then NatToString(count) + " Toolkit" + (if count > 1 then "s" else "")
    else "Add Toolkits"
  }

  /** The button shown: a disabled plain button when the chosen model cannot call tools, else the
      dialog's trigger, disabled while no model is chosen. */
  datatype Trigger = NoToolCalling | DialogTrigger(disabled: bool)

  function TriggerFor(model: Option<ChatModel>): (t: Trigger)
    ensures t == NoToolCalling <==> model.Some? && !SupportsTools(model.value)
    ensures t.DialogTrigger? ==> (t.disabled <==> model.None?)
  {
    if model.Some? && !SupportsTools(model.value) then NoToolCalling
    else DialogTrigger(!(model.Some? && SupportsTools(model.value)))
  }

  datatype Workbench = Workbench(id: string, name: string, systemPrompt: string)

  /** What saving sends to update the workbench. */
  datatype WorkbenchUpdate = WorkbenchUpdate(id: string, name: string, systemPrompt: string, toolkitIds: seq<string>)

  /** handleSave: nothing without a workbench; otherwise the workbench unchanged but for its
      toolkits, which become the selected ids in order. */
  function Save(workbench: Option<Workbench>, toolkits: seq<SelectedToolkit>): (u: Option<WorkbenchUpdate>)
    ensures u.None? <==> workbench.None?
    ensures u.Some? ==>
      && u.value.id == workbench.value.id && u.value.name == workbench.value.name
      && u.value.systemPrompt == workbench.value.systemPrompt
    ensures u.Some? ==> |u.value.toolkitIds| == |toolkits| && forall i :: 0 <= i < |toolkits| ==> u.value.toolkitIds[i] == toolkits[i].id
  {
    match workbench
    case None => None
    case Some(w) => Some(WorkbenchUpdate(w.id, w.name, w.systemPrompt, Map(toolkits, (t: SelectedToolkit) => t.id)))
  }
}
