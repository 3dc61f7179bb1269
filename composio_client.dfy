/** The lazily created, module-wide client of the third-party connection service. */
module ComposioClient {
  import opened Wrappers
  import opened Strings

  /** A constructed client; it keeps the key it was made with. */
  datatype Client = Client(apiKey: string)

  /** The error thrown when no key is set, written word by word and in three pieces so that its
      letters can be checked one short literal at a time. */
  const MissingKeyMessage: string := MissingKeyStart + MissingKeyMiddle + MissingKeyEnd
  const MissingKeyStart: string := "COMPOSIO_API_KEY" + " " + "is" + " " + "not" + " " + "set" + " " + "in" + " "
  const MissingKeyMiddle: string := "environment" + " " + "variables." + " " + "This" + " " + "is" + " " + "required" + " "
  const MissingKeyEnd: string := "for" + " " + "core" + " " + "Composio" + " " + "SDK" + " " + "operations."

  /** The module's `composioClient` variable, null until the first successful call. */
  class ClientSlot {
    var client: Option<Client>
    /** How many clients have been constructed so far. */
    ghost var constructed: nat

    ghost predicate Valid()
      reads this
    {
      constructed <= 1 && (client.None? <==> constructed == 0)
    }

    constructor ()
      ensures Valid() && client.None? && constructed == 0
    {
      client := None;
      constructed := 0;
    }

    /** getComposioClient, with the environment's key as a parameter: the stored client if there is
        one (the key is not looked at again); else a new client, stored, when the key is set; else
        the missing-key error, and nothing is stored. */
    method GetClient(apiKey: Option<string>) returns (r: Result<Client, string>)
      requires Valid()
      modifies this
      ensures Valid()
      ensures old(client).Some? ==> r == Ok(old(client).value) && client == old(client) && constructed == old(constructed)
      ensures old(client).None? && !Truthy(apiKey) ==> r == Err(MissingKeyMessage) && client.None? && constructed == old(constructed)
      ensures old(client).None? && Truthy(apiKey) ==> r == Ok(Client(apiKey.value)) && client == Some(r.value) && constructed == 1
    {
      if client.None? {
        if !Truthy(apiKey) {
          return Err(MissingKeyMessage);
        }
        client := Some(Client(apiKey.value));
        constructed := constructed + 1;
      }
      r := Ok(client.value);
    }
  }

  /** Two calls in a row: once a client exists, every call returns that same client, whatever the
      key is by then, and no second client is ever built. */
  method TwoCalls(slot: ClientSlot, first: Option<string>, second: Option<string>) returns (a: Result<Client, string>, b: Result<Client, string>)
    requires slot.Valid()
    modifies slot
    ensures slot.Valid() && slot.constructed <= 1
    ensures a.Ok? ==> b == a
  {
    a := slot.GetClient(first);
    b := slot.GetClient(second);
  }
}
