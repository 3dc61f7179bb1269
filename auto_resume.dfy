/** The chat's auto-resume hook: whether an interrupted reply is resumed, and how a streamed
    "append-message" part extends the messages. */
module AutoResume {
  import opened Wrappers

  /** A chat message, as far as the hook reads it. */
  datatype Message = Message(id: string, role: string)

  /** The first streamed data part: its type and its payload text. */
  datatype DataPart = DataPart(kind: string, message: string)

  const AppendMessage := "append-message"

  /** Whether the first effect calls resume: only when auto-resume is on, the resume function is
      there, and the last initial message is the user's. */
  function ResumeCalled(autoResume: bool, initialMessages: seq<Message>, hasResume: bool): (called: bool)
    ensures !autoResume ==> !called
    ensures called <==> autoResume && hasResume && |initialMessages| > 0 && initialMessages[|initialMessages| - 1].role == "user"
  {
    if !autoResume then false
    else
      var mostRecent := if |initialMessages| > 0 then Some(initialMessages[|initialMessages| - 1]) else None;
      mostRecent.Some? && mostRecent.value.role == "user" && hasResume
  }

  /** The second effect: the messages it sets, if any. Missing or empty data sets nothing; only
      the first part is read, and an "append-message" part sets the initial messages followed by
      its payload as `parse` reads it. */
  function MessagesAfterData(data: Option<seq<DataPart>>, initialMessages: seq<Message>, parse: string -> Message)
    : (r: Option<seq<Message>>)
    ensures r.Some? <==> data.Some? && |data.value| > 0 && data.value[0].kind == AppendMessage
    ensures r.Some? ==> r.value == initialMessages + [parse(data.value[0].message)]
  {
    if data.None? then None
    else if |data.value| == 0 then None
    else
      var dataPart := data.value[0];
      if dataPart.kind == AppendMessage then Some(initialMessages + [parse(dataPart.message)])
      else None
  }

  /** Parts after the first are never read. */
  lemma OnlyFirstPartRead(first: DataPart, rest1: seq<DataPart>, rest2: seq<DataPart>,
                          initialMessages: seq<Message>, parse: string -> Message)
    ensures MessagesAfterData(Some([first] + rest1), initialMessages, parse)
         == MessagesAfterData(Some([first] + rest2), initialMessages, parse)
  {
  }

  /** An appended message keeps the initial messages as a prefix and lands last. */
  lemma AppendKeepsHistory(data: Option<seq<DataPart>>, initialMessages: seq<Message>, parse: string -> Message)
    requires MessagesAfterData(data, initialMessages, parse).Some?
    ensures var m := MessagesAfterData(data, initialMessages, parse).value;
      |m| == |initialMessages| + 1 && m[..|initialMessages|] == initialMessages
  {
  }

  /** Resuming depends on the last initial message alone. */
  lemma ResumeReadsLastMessage(autoResume: bool, earlier1: seq<Message>, earlier2: seq<Message>, last: Message, hasResume: bool)
    ensures ResumeCalled(autoResume, earlier1 + [last], hasResume) == ResumeCalled(autoResume, earlier2 + [last], hasResume)
  {
  }
}
