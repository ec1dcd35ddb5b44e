/**
  The runtime messages exchanged between the settings panel, the content script
  and the background coordinator, and the `{success, data, error}` response
  shape every handler answers with.
 */
module Protocol {
  import opened JsText

  const UnknownMessageText := "Unknown message type"

  /** A runtime message; each constructor is one `type` string and its `data`. */
  datatype Message =
    | GetDiff                                                            // "GET_DIFF"
    | GetTemplate                                                        // "GET_TEMPLATE"
    | FillDescription(description: string)                               // "FILL_DESCRIPTION"
    | GeneratePRDescription(diff: string, template: string, url: string) // "GENERATE_PR_DESCRIPTION"
    | TestApiKey(apiKey: Option<string>)                                 // "TEST_API_KEY"
    | GetSettings                                                        // "GET_SETTINGS"
    | Unrecognised(kind: string)                                         // any other type

  /** The `data` member of a response. */
  datatype Payload =
    | NoData
    | Text(text: string)
    | Generated(description: string)
    | KeyCheck(valid: bool, reply: Option<string>)
    | SettingsData(hasApiKey: bool, isConnected: bool)

  /** JavaScript truthiness of `data`: absent is falsy, a string is falsy when
      empty, every object is truthy. */
  predicate PayloadTruthy(d: Payload) {
    match d
    case NoData => false
    case Text(s) => s != ""
    case _ => true
  }

  datatype Response = Response(success: bool, data: Payload, error: Option<string>)

  function Succeed(data: Payload): Response {
    Response(true, data, None)
  }

  function Fail(error: string): Response {
    Response(false, NoData, Some(error))
  }

  /** The outcome of reading the stored key with `chrome.storage.sync.get`. */
  datatype StorageRead = Stored(value: Option<string>) | ReadFailed

  /** The shape every modelled handler keeps: a success carries no error, a
      failure carries no data and a non-empty error string. */
  predicate WellShaped(r: Response) {
    if r.success then r.error.None? else r.data.NoData? && Truthy(r.error)
  }
}
