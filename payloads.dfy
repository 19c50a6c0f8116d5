/**
 * Callback payloads: the small dictionaries the bot attaches to each inline
 * button and receives back, decoded, when the button is pressed. The JSON
 * text form is not modelled; a payload is the decoded dictionary itself,
 * with string keys and string values.
 */
module Payloads {

  type Payload = map<string, string>

  /** The three branches of the callback handler. */
  datatype Branch =
    | Execute(host: string, action: string)  // run `action` on `host`
    | ShowActions(host: string)              // offer the action menu for `host`
    | Cancel                                 // acknowledge and go back to the host menu

  /** Branch selection of the callback handler: both keys present means
      execute, `host` alone means the action menu, anything else (including
      the empty payload and a payload with `action` but no `host`) cancels. */
  function Classify(data: Payload): (b: Branch)
    ensures b.Execute? <==> "host" in data && "action" in data
    ensures b.ShowActions? <==> "host" in data && "action" !in data
    ensures b.Cancel? <==> "host" !in data
    ensures b.Execute? ==> b.host == data["host"] && b.action == data["action"]
    ensures b.ShowActions? ==> b.host == data["host"]
  {
    if "action" in data && "host" in data then Execute(data["host"], data["action"])
    else if "host" in data then ShowActions(data["host"])
    else Cancel
  }

  /** Payload of a host button in the host menu. */
  function HostPayload(host: string): (p: Payload)
    ensures Classify(p) == ShowActions(host)
  {
    map["host" := host]
  }

  /** Payload of an action button in the action menu of `host`. */
  function ActionPayload(host: string, action: string): (p: Payload)
    ensures Classify(p) == Execute(host, action)
  {
    map["host" := host, "action" := action]
  }

  /** Payload of the Cancel button. */
  function CancelPayload(): (p: Payload)
    ensures Classify(p) == Cancel
  {
    map[]
  }
}
