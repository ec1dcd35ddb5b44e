/**
  The background coordinator: owns the stored API key and the OpenAI client,
  answers runtime messages, tests keys, builds the generation prompt, shapes
  the generation result and turns thrown errors into short messages. The
  completion call is an oracle: a function from the request to its outcome.
 */
module Background {
  import opened JsText
  import opened Protocol
  import opened Prompt

  /** The OpenAI client, known by the key it was created with. */
  datatype Client = Client(apiKey: string)

  datatype State = State(apiKey: Option<string>, client: Option<Client>)

  datatype ChatMessage = ChatMessage(role: string, content: string)

  datatype CompletionRequest = CompletionRequest(
    client: Client, model: string, messages: seq<ChatMessage>, maxTokens: nat, temperature: real)

  /** `choices[i].message?.content`, absent when the message or its content is. */
  datatype Choice = Choice(content: Option<string>)

  /** The API's error body: `error.type` and `error.message`. */
  datatype ApiError = ApiError(kind: Option<string>, message: Option<string>)

  /** A thrown value as the error classifier inspects it: `error`, `code`, `message`. */
  datatype Thrown = Thrown(error: Option<ApiError>, code: Option<string>, message: Option<string>)

  /** What the completion call does: resolve with the choices, or throw. */
  datatype Completion = Completed(choices: seq<Choice>) | Threw(thrown: Thrown)

  const Model := "gpt-4o-mini"
  const KeyTestPrompt := "Say \"test\""

  const NoKeyText := "No API key provided"
  const NoClientText := "OpenAI client not initialized"
  const InvalidResponseText := "Invalid API response"
  const NotConfiguredText: string :=
    "OpenAI not configured. Please set up your API key "
    + "in the extension settings."
  const NoDescriptionText := "No description generated"
  const SettingsFailedText := "Failed to load settings"
  const InvalidKeyText := "Invalid API key. Please check your OpenAI API key."
  const QuotaText := "OpenAI API quota exceeded. Please check your billing."
  const RateLimitText := "Rate limit exceeded. Please try again in a moment."
  const NetworkText := "Network error. Please check your internet connection."
  const UnexpectedText := "An unexpected error occurred"
  const UncaughtText := "Unknown error occurred"

  // ---------------------------------------------------------------------------
  // Key and client

  /** The state the background keeps: a client exists exactly when a key is
      stored, and it was created with that key. */
  ghost predicate Inv(s: State) {
    if Truthy(s.apiKey) then s.client == Some(Client(s.apiKey.value)) else s.client.None?
  }

  /** Creates a client for the current key when there is one; otherwise keeps whatever client there was. */
  function InitializeOpenAI(s: State): (r: State)
    ensures r.apiKey == s.apiKey
    ensures Truthy(s.apiKey) ==> r.client == Some(Client(s.apiKey.value)) && Inv(r)
    ensures !Truthy(s.apiKey) ==> r == s
  {
    if Truthy(s.apiKey) then s.(client := Some(Client(s.apiKey.value))) else s
  }

  /** Start-up: a stored key becomes the current key and gets a client; a
      missing key or a failed read changes nothing. */
  function LoadApiKey(s: State, stored: StorageRead): (r: State)
    requires Inv(s)
    ensures Inv(r)
    ensures stored.Stored? && Truthy(stored.value) ==> r == State(stored.value, Some(Client(stored.value.value)))
    ensures !(stored.Stored? && Truthy(stored.value)) ==> r == s
  {
    if stored.Stored? && Truthy(stored.value) then InitializeOpenAI(s.(apiKey := stored.value)) else s
  }

  // ---------------------------------------------------------------------------
  // Error classification

  predicate KindIs(t: Thrown, kind: string) {
    t.error.Some? && t.error.value.kind == Some(kind)
  }

  /** None of the three recognised API error types. */
  predicate Unclassified(t: Thrown) {
    !KindIs(t, "invalid_api_key") && !KindIs(t, "insufficient_quota") && !KindIs(t, "rate_limit_exceeded")
  }

  predicate IsNetworkCode(t: Thrown) {
    t.code == Some("ENOTFOUND") || t.code == Some("ECONNREFUSED")
  }

  /** Classifies a thrown error. The API error types are tried in a fixed
      order, then the network codes; an unclassified error shows its own
      message, else its API error's message, else a generic text. The result is
      never empty and is either a fixed text or one of the error's own messages. */
  function GetErrorMessage(t: Thrown): (r: string)
    ensures r != ""
    ensures KindIs(t, "invalid_api_key") ==> r == InvalidKeyText
    ensures !KindIs(t, "invalid_api_key") && KindIs(t, "insufficient_quota") ==> r == QuotaText
    ensures !KindIs(t, "invalid_api_key") && !KindIs(t, "insufficient_quota") && KindIs(t, "rate_limit_exceeded")
            ==> r == RateLimitText
    ensures Unclassified(t) && IsNetworkCode(t) ==> r == NetworkText
    ensures Unclassified(t) && !IsNetworkCode(t) ==>
              r == (if Truthy(t.message) then t.message.value
                    else if t.error.Some? && Truthy(t.error.value.message) then t.error.value.message.value
                    else UnexpectedText)
    ensures r in {InvalidKeyText, QuotaText, RateLimitText, NetworkText, UnexpectedText}
            || Some(r) == t.message || (t.error.Some? && Some(r) == t.error.value.message)
  {
    if KindIs(t, "invalid_api_key") then InvalidKeyText
    else if KindIs(t, "insufficient_quota") then QuotaText
    else if KindIs(t, "rate_limit_exceeded") then RateLimitText
    else if IsNetworkCode(t) then NetworkText
    else if Truthy(t.message) then t.message.value
    else if t.error.Some? && Truthy(t.error.value.message) then t.error.value.message.value
    else UnexpectedText
  }

  // ---------------------------------------------------------------------------
  // Key test

  function KeyTestRequest(client: Client): CompletionRequest {
    CompletionRequest(client, Model, [ChatMessage("user", KeyTestPrompt)], 10, 0.0)
  }

  /** The reply to a key test once the completion call has an outcome: success
      exactly when at least one choice came back. */
  function KeyTestReply(c: Completion): (r: Response)
    ensures WellShaped(r)
    ensures r.success <==> c.Completed? && |c.choices| > 0
    ensures r.success ==> r.data == KeyCheck(true, c.choices[0].content)
    ensures c.Completed? && |c.choices| == 0 ==> r == Fail(InvalidResponseText)
    ensures c.Threw? ==> r == Fail(GetErrorMessage(c.thrown))
  {
    match c
    case Threw(t) => Fail(GetErrorMessage(t))
    case Completed(choices) =>
      if |choices| > 0 then Succeed(KeyCheck(true, choices[0].content)) else Fail(InvalidResponseText)
  }

  datatype Outcome = Outcome(state: State, response: Response)

  /** Tests the provided key, or else the stored one. A provided key that
      differs from the stored one replaces it (with a new client) before the call. */
  function TestApiKey(s: State, provided: Option<string>, oracle: CompletionRequest -> Completion): (r: Outcome)
    requires Inv(s)
    ensures Inv(r.state) && WellShaped(r.response)
    ensures !Truthy(provided) && !Truthy(s.apiKey) ==> r == Outcome(s, Fail(NoKeyText))
    ensures Truthy(provided) ==>
      r == Outcome(State(provided, Some(Client(provided.value))), KeyTestReply(oracle(KeyTestRequest(Client(provided.value)))))
    ensures !Truthy(provided) && Truthy(s.apiKey) ==>
      r == Outcome(s, KeyTestReply(oracle(KeyTestRequest(Client(s.apiKey.value)))))
  {
    var keyToTest := if Truthy(provided) then provided else s.apiKey;
    if !Truthy(keyToTest) then Outcome(s, Fail(NoKeyText))
    else
      var s1 := if Truthy(provided) && provided != s.apiKey then InitializeOpenAI(s.(apiKey := provided)) else s;
      if s1.client.None? then Outcome(s1, Fail(NoClientText))
      else Outcome(s1, KeyTestReply(oracle(KeyTestRequest(s1.client.value))))
  }

  // ---------------------------------------------------------------------------
  // Generation

  function GenerateRequest(client: Client, prompt: string): CompletionRequest {
    CompletionRequest(client, Model, [ChatMessage("system", SystemPrompt), ChatMessage("user", prompt)], 1000, 0.7)
  }

  /** The first choice's content, absent when there is no choice. */
  function FirstContent(choices: seq<Choice>): Option<string> {
    if |choices| > 0 then choices[0].content else None
  }

  /** The reply to a generation request once the completion call has an
      outcome: success exactly when the first choice has non-empty content,
      and then the description is that content trimmed. */
  function GenerationReply(c: Completion): (r: Response)
    ensures WellShaped(r)
    ensures r.success <==> c.Completed? && Truthy(FirstContent(c.choices))
    ensures r.success ==> r.data == Generated(Trim(FirstContent(c.choices).value))
    ensures c.Completed? && !Truthy(FirstContent(c.choices)) ==> r == Fail(NoDescriptionText)
    ensures c.Threw? ==> r == Fail(GetErrorMessage(c.thrown))
  {
    match c
    case Threw(t) => Fail(GetErrorMessage(t))
    case Completed(choices) =>
      var content := FirstContent(choices);
      if !Truthy(content) then Fail(NoDescriptionText) else Succeed(Generated(Trim(content.value)))
  }

  /** Without a client the request fails with the set-up hint; otherwise one
      completion is requested with the built prompt and its outcome shaped. */
  function GeneratePRDescription(s: State, diff: string, template: string, url: string,
                                 oracle: CompletionRequest -> Completion): (r: Response)
    ensures WellShaped(r)
    ensures s.client.None? ==> r == Fail(NotConfiguredText)
    ensures s.client.Some? ==> r == GenerationReply(oracle(GenerateRequest(s.client.value, BuildPrompt(diff, template, url))))
  {
    if s.client.None? then Fail(NotConfiguredText)
    else GenerationReply(oracle(GenerateRequest(s.client.value, BuildPrompt(diff, template, url))))
  }

  // ---------------------------------------------------------------------------
  // Settings and dispatch

  /** Reports whether a key is stored and whether a client exists. */
  function GetSettings(s: State, stored: StorageRead): (r: Response)
    ensures WellShaped(r)
    ensures stored.ReadFailed? ==> r == Fail(SettingsFailedText)
    ensures stored.Stored? ==> r == Succeed(SettingsData(Truthy(stored.value), s.client.Some?))
  {
    match stored
    case ReadFailed => Fail(SettingsFailedText)
    case Stored(v) => Succeed(SettingsData(Truthy(v), s.client.Some?))
  }

  /** The reply when a handler throws: its message, or a generic text. */
  function UncaughtReply(message: Option<string>): (r: Response)
    ensures WellShaped(r)
    ensures r.error == Some(OrElse(message, UncaughtText))
  {
    Fail(OrElse(message, UncaughtText))
  }

  /** Dispatches one runtime message and answers it once. Only a key test can
      change the state; an unknown type fails with "Unknown message type". */
  function HandleMessage(s: State, m: Message, stored: StorageRead,
                         oracle: CompletionRequest -> Completion): (r: Outcome)
    requires Inv(s)
    ensures Inv(r.state) && WellShaped(r.response)
    ensures !m.TestApiKey? ==> r.state == s
    ensures m.TestApiKey? ==> r == TestApiKey(s, m.apiKey, oracle)
    ensures m.GeneratePRDescription? ==> r == Outcome(s, GeneratePRDescription(s, m.diff, m.template, m.url, oracle))
    ensures m.GetSettings? ==> r == Outcome(s, GetSettings(s, stored))
    ensures !(m.TestApiKey? || m.GeneratePRDescription? || m.GetSettings?) ==> r.response == Fail(UnknownMessageText)
  {
    match m
    case TestApiKey(k) => TestApiKey(s, k, oracle)
    case GeneratePRDescription(d, t, u) => Outcome(s, GeneratePRDescription(s, d, t, u, oracle))
    case GetSettings => Outcome(s, GetSettings(s, stored))
    case _ => Outcome(s, Fail(UnknownMessageText))
  }

  // ---------------------------------------------------------------------------
  // Runs of the background

  /** What reaches the background: the start-up key read completing, or a runtime message. */
  datatype Input = Loaded(stored: StorageRead) | Received(message: Message, stored: StorageRead)

  function Apply(s: State, i: Input, oracle: CompletionRequest -> Completion): (r: State)
    requires Inv(s)
    ensures Inv(r)
  {
    match i
    case Loaded(stored) => LoadApiKey(s, stored)
    case Received(m, stored) => HandleMessage(s, m, stored, oracle).state
  }

  function RunInputs(s: State, inputs: seq<Input>, oracle: CompletionRequest -> Completion): State
    requires Inv(s)
    decreases |inputs|
  {
    if inputs == [] then s else RunInputs(Apply(s, inputs[0], oracle), inputs[1..], oracle)
  }

  const Initial := State(None, None)

  /** From the empty start state, whatever arrives, the client is present
      exactly when a key is, and it was made with that key; the key is only
      ever replaced by a non-empty one. */
  lemma {:induction false} RunKeepsInv(s: State, inputs: seq<Input>, oracle: CompletionRequest -> Completion)
    requires Inv(s)
    ensures Inv(RunInputs(s, inputs, oracle))
    ensures Truthy(s.apiKey) ==> Truthy(RunInputs(s, inputs, oracle).apiKey)
    decreases |inputs|
  {
    if inputs != [] {
      RunKeepsInv(Apply(s, inputs[0], oracle), inputs[1..], oracle);
    }
  }

  lemma InitialInv()
    ensures Inv(Initial)
  {
  }

  // ---------------------------------------------------------------------------
  // Properties of the key test

  /** A provided key becomes the background's key, with a client for it,
      whether or not the test succeeds; the next generation uses that client. */
  lemma TestedKeyIsAdopted(s: State, key: string, oracle: CompletionRequest -> Completion,
                           diff: string, template: string, url: string)
    requires Inv(s) && key != ""
    ensures var s1 := TestApiKey(s, Some(key), oracle).state;
      && s1.apiKey == Some(key)
      && GeneratePRDescription(s1, diff, template, url, oracle)
         == GenerationReply(oracle(GenerateRequest(Client(key), BuildPrompt(diff, template, url))))
  {
  }

  /** Without a provided key the stored one is tested and nothing changes; the
      "client not initialized" answer can only come from the completion call
      itself, since a stored key always has a client. */
  lemma StoredKeyTested(s: State, oracle: CompletionRequest -> Completion)
    requires Inv(s) && Truthy(s.apiKey)
    ensures TestApiKey(s, None, oracle).state == s
    ensures TestApiKey(s, Some(""), oracle) == TestApiKey(s, None, oracle)
    ensures TestApiKey(s, None, oracle).response == KeyTestReply(oracle(KeyTestRequest(s.client.value)))
  {
  }

  // ---------------------------------------------------------------------------
  // Properties of error classification

  /** A recognised API error type decides the message alone: the code and the
      messages carried alongside it do not matter. */
  lemma ApiErrorTypeDecides(t: Thrown, u: Thrown)
    requires t.error.Some? && u.error.Some? && t.error.value.kind == u.error.value.kind
    requires !Unclassified(t)
    ensures GetErrorMessage(t) == GetErrorMessage(u)
    ensures GetErrorMessage(t) in {InvalidKeyText, QuotaText, RateLimitText}
  {
  }

  /** For an unclassified error, a network code beats any message. */
  lemma NetworkCodeBeatsMessage(t: Thrown, message: string)
    requires Unclassified(t) && IsNetworkCode(t)
    ensures GetErrorMessage(t.(message := Some(message))) == NetworkText
  {
  }

  /** Otherwise the error's own message is preferred to its API error's message. */
  lemma OwnMessagePreferred(t: Thrown, message: string)
    requires Unclassified(t) && !IsNetworkCode(t) && message != ""
    ensures GetErrorMessage(t.(message := Some(message))) == message
  {
  }

}
