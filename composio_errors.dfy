/** How the connection-service routes turn a thrown error into a response. */
module ComposioErrors {
  import opened Strings
  import ComposioClient

  const ApiKeyError := "Composio API Key error."

  /** The routes' test on a thrown error's message (case-sensitive). */
  predicate MentionsApiKey(message: string) {
    Contains(message, "API key")
  }

  /** The body of the 500 answer to a thrown error: the API-key message, else the route's own. */
  function CaughtError(message: string, generic: string): (r: string)
    ensures MentionsApiKey(message) ==> r == ApiKeyError
    ensures !MentionsApiKey(message) ==> r == generic
  {
    if MentionsApiKey(message) then ApiKeyError else generic
  }

  /** The client's own missing-key error spells the variable name, not "API key", so it gets the
      route's generic answer and never the API-key one. */
  lemma MissingKeyIsGeneric(generic: string)
    ensures CaughtError(ComposioClient.MissingKeyMessage, generic) == generic
  {
    MissingKeyLacksK();
    LackingCharNotContained(ComposioClient.MissingKeyMessage, "API key", 'k');
  }

  lemma MissingKeyLacksK()
    ensures 'k' !in ComposioClient.MissingKeyMessage
  {
    StartLacksK();
    MiddleLacksK();
    EndLacksK();
  }

  lemma StartLacksK()
    ensures 'k' !in ComposioClient.MissingKeyStart
  {
  }

  lemma MiddleLacksK()
    ensures 'k' !in ComposioClient.MissingKeyMiddle
  {
  }

  lemma EndLacksK()
    ensures 'k' !in ComposioClient.MissingKeyEnd
  {
  }
}
