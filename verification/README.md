# PR auto-fill extension: a Dafny model of its core

The extension adds a floating "auto-fill" button to a code-review host's
compare and new-pull-request pages. A click collects a textual change summary
from the page and the existing template text from the pull-request body
field. It sends both, with the page URL, to the extension's background
coordinator. The coordinator builds a prompt and asks a chat-completion
service for a description, which the page script writes back into the body
field. A settings panel stores the API key, verifies it through the
background, and can run a canned generation test.

The model covers three contexts and one module that connects them:

- **Content script** (`src/content/index.ts`):
  - page eligibility
  - delayed injection of the button
  - the button's idle/loading/success/error state machine and its revert timers
  - the click handler before and after its `await`
  - change-summary extraction, with its four selector strategies
  - template read-back and description fill
  - tear-down on in-place navigation
  - the runtime-message handler

  Browser callbacks are discrete events (`ContentScript.Event`). The page is an
  explicit value (`HostPage.Page`).
- **Background coordinator** (`src/background/index.ts`):
  - key loading and client creation
  - key testing
  - prompt construction
  - generation
  - settings report
  - error classification
  - message dispatch

  The completion service is an oracle function from request to outcome, passed
  in as a parameter.
- **Settings panel** (`src/client/Application.tsx`):
  - key validation
  - Save & Verify, including the race between its 30-second timer and the message callback
  - Clear
  - the start-up settings load and connection check
  - the generation test
  - the enablement of the three buttons
- **Extension** connects these. It takes the message a sender builds, gives it to
  the background's handler, and passes the response to the sender's
  continuation. This shows end-to-end what a click or a save leads to.

Modules:

- `JsText`: JavaScript optional values, truthiness, `trim`, `includes`, `startsWith`.
- `HostPage`: the page record.
- `DiffExtraction`: the change summary.
- `Protocol`: messages and the `{success, data, error}` response.
- `ContentScript` and `ContentScriptTraces`: the content script.
- `Prompt`: the prompt text.
- `Background`: the background coordinator.
- `SettingsPanel`: the settings panel.
- `Extension`: the wiring between the contexts.

### Notable behaviour of the code

- There is no length cap on the change summary. `DiffExtraction.DiffTextUnbounded` builds a page whose summary is longer than any given bound.
- A whitespace-only text from an earlier selector strategy still stops the search. The summary is then the fallback string, even when a later strategy has content (`DiffExtraction.WhitespaceStrategyGivesFallback`).
- A click is accepted only in the idle state. It is also ignored while success or error is shown (`ContentScript.ClickIgnoredUnlessIdle`).
- A freshly injected button has no tooltip and does not reset the recorded state. The code asks for the idle look before it records the button, so that request does nothing (`ContentScript.InjectFloatingButton`).
- Navigation removes the button but does not cancel pending revert timers or awaited replies:
  - A stale revert timer can re-enable the new page's button while its request is in flight. Two requests can then be outstanding (`ContentScriptTraces.StaleRevertAllowsSecondRequest`).
  - A stale reply fills the new page's field (`ContentScriptTraces.StaleReplyFillsNextPage`).
  - Without navigation, at most one request is ever outstanding (`ContentScript.RunSingle`).
- The runtime-message listener is registered only at start-up, and only on an eligible page. Navigation never registers it later: a tab that started on another page never answers GET_DIFF, GET_TEMPLATE or FILL_DESCRIPTION (`ContentScript.NeverListensAfterIneligibleStart`).
- The code-block threshold counts UTF-16 code units, as JavaScript's `length` does. A character outside the Basic Multilingual Plane counts twice (`DiffExtraction.AstralCodeBlockKept`).
- The key field stays editable while Save & Verify is pending. The key written and tested is the one in the field at the click. The verdict is shown next to whatever the field holds when it arrives, so the panel can show "verified" and connected beside a key that was never stored (`SettingsPanel.EditDuringSave`).
- Testing a provided key adopts it into the background, with a new client, even when the test fails (`Background.TestedKeyIsAdopted`). The background's settings report "connected" when a client exists, not when the key was verified. After a failed test, the panel shows "not connected" while the background reports connected (`Extension.FailedTestStillConnected`).
- The content script's request to the background has no timeout, unlike the panel's 30 s one (src/content/index.ts:298-302). A generation request that is never answered leaves the button disabled in "loading" until navigation. A run of events with no reply is allowed.
- The panel's start-up connection check is not cancelled by a save. A stale stored key whose test fails after a verified save leaves "API key saved and verified!" beside "not connected", with the generation test disabled (`SettingsPanel.StaleCheckAfterVerifiedSave`).
- The panel's start-up load marks the panel connected as soon as a key is stored, before any verification (`SettingsPanel.LoadSettings`).
- The "OpenAI client not initialized" answer to a key test cannot happen: whenever a key exists, a client for it exists (`Background.Inv`, `Background.RunKeepsInv`).
- A completion whose first choice contains only whitespace is a success with an empty description, because the emptiness check comes before the trim (`Background.GenerationReply`).

## Model

| member | source | states |
|---|---|---|
| JsText.TrimStart | src/content/index.ts:286 | the result is the longest suffix of the input that does not begin with whitespace; everything removed is whitespace |
| JsText.TrimEnd | src/content/index.ts:286 | the result is the longest prefix of the input that does not end with whitespace; everything removed is whitespace |
| JsText.TrimIsInfix | src/content/index.ts:286 | `trim` gives the infix between the two whitespace runs; it neither starts nor ends with whitespace |
| JsText.TrimEmptyIff | src/client/Application.tsx:89 | a key trims to the empty string exactly when it is all whitespace |
| JsText.TrimIdempotent | src/background/index.ts:216 | trimming an already trimmed text changes nothing |
| JsText.Utf16Length | src/content/index.ts:270 | `length` counts between one and two code units per character |
| JsText.Utf16LengthBmp | src/content/index.ts:270 | for characters of the Basic Multilingual Plane, `length` is the character count |
| JsText.Utf16LengthAstral | src/content/index.ts:270 | for characters outside that plane, `length` is twice the character count |
| JsText.ContainsIff | src/content/index.ts:42 | the left-to-right `includes` search succeeds exactly when the pattern occurs at some index |
| HostPage.ExtractPRTemplate | src/content/index.ts:304-307 | the template is the body field's value, or empty when the page has no field |
| HostPage.FillPRDescription | src/content/index.ts:309-322 | with a field, the field holds exactly the description; without one, the page is unchanged; nothing but the field changes |
| HostPage.FillThenRead | src/content/index.ts:304-322 | reading the field after a fill gives back exactly the written text |
| HostPage.FillTwice | src/content/index.ts:309-313 | the last fill wins |
| DiffExtraction.DiffText | src/content/index.ts:285-288 | the change summary is never empty |
| DiffExtraction.ExtractDiffData | src/content/index.ts:245-289 | the procedure with its four guarded loops computes the first-non-empty-strategy summary, trimmed, with the fallback |
| DiffExtraction.AppendTexts | src/content/index.ts:252-254 | the loop appends the group's texts in document order |
| DiffExtraction.AppendCodeBlocks | src/content/index.ts:268-274 | the loop appends each text longer than 10 UTF-16 code units, followed by a newline |
| DiffExtraction.FirstStrategyWins | src/content/index.ts:249-288 | when strategies before k yield nothing and strategy k yields text, the summary is that text trimmed, or the fallback when it is blank |
| DiffExtraction.NoStrategyGivesFallback | src/content/index.ts:285-288 | when no strategy yields text, the summary is the fallback string |
| DiffExtraction.LaterStrategiesIgnored | src/content/index.ts:258-283 | once a strategy yields text, later selector groups have no influence on the summary |
| DiffExtraction.WhitespaceStrategyGivesFallback | src/content/index.ts:258-288 | a whitespace-only strategy text stops the chain and yields the fallback |
| DiffExtraction.DiffTextIsTrimmed | src/content/index.ts:285-288 | the summary is its own trim |
| DiffExtraction.DiffTextUnbounded | src/content/index.ts:245-289 | no length bound holds for the summary |
| DiffExtraction.ConcatEmptyIff | src/content/index.ts:252-263 | a group's accumulated text is empty exactly when every matched element's text is |
| DiffExtraction.CodeBlocksFilter | src/content/index.ts:266-275 | the code-block strategy is exactly the texts longer than 10 UTF-16 code units, in order, each with a trailing newline; membership both ways |
| DiffExtraction.CodeBlocksEmptyIff | src/content/index.ts:266-275 | the code-block strategy yields nothing exactly when no block is longer than 10 UTF-16 code units |
| DiffExtraction.AstralCodeBlockKept | src/content/index.ts:268-273 | six characters from outside the Basic Multilingual Plane have length 12 and are kept, with a newline |
| ContentScript.IsEligible | src/content/index.ts:40-49 | a page is eligible exactly when its URL contains "/compare/" or "/pull/new", or it has the body field |
| ContentScript.UpdateButtonState | src/content/index.ts:128-192 | without a button nothing changes; otherwise the state is recorded, the button is disabled exactly while loading, the error title is the message or "Click to try again", success and error each schedule one revert |
| ContentScript.Cleanup | src/content/index.ts:347-355 | the button is gone and the state idle; timers and awaited replies are kept |
| ContentScript.SetupAutoFillUI | src/content/index.ts:51-59 | one injection timer is scheduled unless the UI is already injected |
| ContentScript.InjectFloatingButton | src/content/index.ts:61-126 | without the field or with a button present nothing changes; otherwise a fresh enabled button without tooltip appears and the state is untouched |
| ContentScript.Init | src/content/index.ts:26-38 | eligibility decides both the injection timer and the listener registration; no button, idle, URL recorded |
| ContentScript.Click | src/content/index.ts:209-231 | only an idle button accepts a click; it then shows loading and sends one generation request carrying the summary, the field's text and the URL |
| ContentScript.DescriptionOf | src/content/index.ts:234 | the description of a generated payload, or the text "undefined" for any other payload |
| ContentScript.FailureReason | src/content/index.ts:236-241 | the response's error when it has one, else "Failed to generate description" (never empty); for a missing reply, the TypeError's message |
| ContentScript.HandleReply | src/content/index.ts:233-242 | a successful reply with data fills the field and shows success; anything else leaves the field and shows error with the reason as title |
| ContentScript.OnDomMutated | src/content/index.ts:324-345 | a URL change records the URL, tears down the button, forgets the injection and re-detects eligibility, scheduling an injection when eligible; timers and replies stay |
| ContentScript.HandleMessage | src/content/index.ts:357-388 | GET_DIFF, GET_TEMPLATE, FILL_DESCRIPTION succeed with the summary, the field's text and a fill; any other type fails with "Unknown message type"; only a fill changes the page |
| ContentScript.Receive | src/content/index.ts:291-296 | a runtime message is answered, by the handler, exactly when the listener was registered |
| ContentScript.RunKeepsListening | src/content/index.ts:324-345 | no run of events changes whether the listener is registered |
| ContentScript.NeverListensAfterIneligibleStart | src/content/index.ts:27-33 | a tab that started on an ineligible page never answers runtime messages, whatever navigation follows |
| ContentScript.InitInv | src/content/index.ts:26-38 | the start state meets the controller invariant |
| ContentScript.StepInv | src/content/index.ts:128-243 | every event keeps the invariant: no button means idle, a button is disabled exactly while loading and implies injection |
| ContentScript.ClickIgnoredUnlessIdle | src/content/index.ts:212 | a click outside the idle state changes nothing and sends nothing |
| ContentScript.RevertSetsIdle | src/content/index.ts:176 | a revert timer sets idle and re-enables the button unconditionally |
| ContentScript.Step | src/content/index.ts:128-355 | one event: only a click sends, and each request it sends is awaited until a reply is handled; only a reply changes the page, and only its body field; an environment page change touches nothing else; the listener registration never changes |
| ContentScript.ReplyFillsField | src/content/index.ts:233-241 | a successful reply leaves exactly the description in the field; a failure leaves the page unchanged |
| ContentScript.FillThenGetTemplate | src/content/index.ts:366-374 | GET_TEMPLATE after FILL_DESCRIPTION answers the written text |
| ContentScript.InitSingle | src/content/index.ts:26-38 | the start state has no request awaited and no revert pending |
| ContentScript.StepSingle | src/content/index.ts:209-243 | without navigation every event keeps at most one request awaited (exactly while loading) and at most one revert pending (exactly while showing success or error) |
| ContentScript.RunSingle | src/content/index.ts:209-243 | without navigation, at most one generation request is outstanding in any run |
| ContentScript.NavigationResets | src/content/index.ts:324-337 | navigation leaves no button, idle, not injected; an eligible page later gets a fresh enabled idle button |
| ContentScriptTraces.StaleRevertAllowsSecondRequest | src/content/index.ts:176 | after navigation a stale revert re-enables the new button mid-request, so a second click leaves two requests outstanding |
| ContentScriptTraces.StaleReplyFillsNextPage | src/content/index.ts:347-355 | a reply to a request from the previous page fills the new page's field and shows success there |
| Prompt.BuildPrompt | src/background/index.ts:229-263 | the prompt opens with the fixed request, carries the URL and the diff verbatim at fixed offsets, and the template section (or the default instructions) where the diff part ends |
| Prompt.PromptEndsWithImportant | src/background/index.ts:254-260 | every prompt ends with the "Important" block |
| Prompt.TemplateIncludedVerbatim | src/background/index.ts:239-243 | a non-blank template appears verbatim after its heading, followed by the fill-in instructions |
| Prompt.BlankTemplateIgnored | src/background/index.ts:239-252 | a blank template gives the same prompt as no template, with the default section instructions in its place |
| Background.InitializeOpenAI | src/background/index.ts:52-58 | with a key, a client for exactly that key exists afterwards and the invariant holds; without one nothing changes |
| Background.LoadApiKey | src/background/index.ts:40-50 | a stored non-empty key becomes the key with a client for it; otherwise nothing changes; the invariant is kept |
| Background.GetErrorMessage | src/background/index.ts:283-301 | API error types in fixed order, then network codes, then the error's own message, its API message, or a generic text; never empty |
| Background.KeyTestReply | src/background/index.ts:153-169 | success exactly when at least one choice came back, carrying the first choice's content; otherwise "Invalid API response" or the classified error |
| Background.TestApiKey | src/background/index.ts:122-171 | a provided key is adopted with a new client and tested; without one the stored key is tested; with neither, "No API key provided" |
| Background.GenerationReply | src/background/index.ts:204-225 | success exactly when the first choice has non-empty content, and the description is that content trimmed |
| Background.GeneratePRDescription | src/background/index.ts:173-227 | without a client the set-up hint fails the request; otherwise one completion with the built prompt decides the reply |
| Background.GetSettings | src/background/index.ts:265-281 | reports whether a key is stored and whether a client exists; a failed read fails with "Failed to load settings" |
| Background.HandleMessage | src/background/index.ts:80-116 | TEST_API_KEY is answered by the key test, GENERATE_PR_DESCRIPTION by generation, GET_SETTINGS by the settings report, any other type by "Unknown message type"; only a key test changes the state; every answer is well-shaped and the invariant is kept |
| Background.UncaughtReply | src/background/index.ts:108-116 | a handler that throws is answered with a well-shaped failure carrying its message, or "Unknown error occurred" |
| Background.RunKeepsInv | src/background/index.ts:27-58 | over any sequence of key loads and messages, the client exists exactly when a key does and was made with it; a key is never lost |
| Background.TestedKeyIsAdopted | src/background/index.ts:132-136 | a tested key becomes the background's key even when the test fails, and the next generation uses its client |
| Background.StoredKeyTested | src/background/index.ts:124-143 | without a provided key the stored key is tested and the state is unchanged; an empty provided key counts as none |
| Background.ApiErrorTypeDecides | src/background/index.ts:284-294 | a recognised API error type alone decides the message |
| Background.NetworkCodeBeatsMessage | src/background/index.ts:296-298 | for an unclassified error a network code beats any message |
| Background.OwnMessagePreferred | src/background/index.ts:300 | otherwise the error's own non-empty message is shown |
| SettingsPanel.KeyProblem | src/client/Application.tsx:89-97 | "Please enter an API key" exactly for a blank key, the format error exactly for a non-blank key without "sk-", no problem exactly for an "sk-" key |
| SettingsPanel.Settle | src/client/Application.tsx:107-130 | a timer firing first rejects with the timeout text; a callback with a runtime error rejects with its message or a generic text; otherwise the response resolves |
| SettingsPanel.Verdict | src/client/Application.tsx:132-145 | connected exactly when the success notice is chosen, exactly when the write succeeded and a successful response arrived first; each failure's notice text |
| SettingsPanel.StartVerify | src/client/Application.tsx:99-117 | up to the first await: loading is on and the key in the field is captured for writing and testing |
| SettingsPanel.FinishVerify | src/client/Application.tsx:102-148 | the captured key is written and, once written, sent for a test; the current panel gets the verdict's notice and flag, and loading ends; the key field keeps what it holds now |
| SettingsPanel.VerifyKey | src/client/Application.tsx:99-148 | the key is written; a test is sent exactly when the write succeeded; loading ends off; the notice and the connection flag are the verdict's |
| SettingsPanel.SaveApiKey | src/client/Application.tsx:86-149 | a key with a problem only shows it (nothing written or sent); any other key is verified |
| SettingsPanel.ClearApiKey | src/client/Application.tsx:151-160 | a successful removal empties the key, disconnects and shows the info notice; a failure only shows the error |
| SettingsPanel.HandleApiKeyChange | src/client/Application.tsx:210-213 | the field takes the value, any notice disappears, nothing else changes |
| SettingsPanel.DismissNotice | src/client/Application.tsx:379-383 | closing the alert removes the notice and nothing else |
| SettingsPanel.LoadSettings | src/client/Application.tsx:74-84 | a stored key fills the field and marks the panel connected; otherwise nothing changes |
| SettingsPanel.CheckConnection | src/client/Application.tsx:162-175 | a stored key is sent for a test and the flag follows the answer's success; a failed read disconnects; no key changes nothing |
| SettingsPanel.BeginTestGeneration | src/client/Application.tsx:177-179 | loading with the testing status, nothing else changes |
| SettingsPanel.FinishTestGeneration | src/client/Application.tsx:181-203 | "Ready" with the success notice exactly when a successful response came back, "Error" otherwise with the response's error or a generic text; loading off, connection untouched |
| SettingsPanel.SaveDisabled | src/client/Application.tsx:350 | Save is disabled exactly while loading or when the key is all whitespace |
| SettingsPanel.ClearButton | src/client/Application.tsx:363-367 | Clear is shown exactly for a non-empty key, disabled exactly while loading |
| SettingsPanel.TestDisabled | src/client/Application.tsx:448 | the test is enabled exactly when connected and not loading |
| SettingsPanel.EnabledSaveEnds | src/client/Application.tsx:86-149 | a save from an enabled button is stopped only by the prefix check and always ends with Save enabled again |
| SettingsPanel.SaveConnectedIffSuccess | src/client/Application.tsx:132-145 | after a save the panel is connected exactly when the success notice shows; any other notice is an error |
| SettingsPanel.PrefixedKeyVerified | src/client/Application.tsx:89-97 | every "sk-" key passes validation and is non-empty |
| SettingsPanel.SaveAnswered | src/client/Application.tsx:132-141 | with an answer the panel is connected exactly when it is a success; otherwise the answer's error or a generic text shows |
| SettingsPanel.SaveFailuresDisconnect | src/client/Application.tsx:102-145 | a storage failure sends nothing and disconnects |
| SettingsPanel.TimeoutDisconnects | src/client/Application.tsx:107-145 | a timeout shows "Failed to save API key: " with the timeout text and disconnects |
| SettingsPanel.EditAfterSave | src/client/Application.tsx:210-213 | editing to a blank value after any save removes the notice and disables Save |
| SettingsPanel.ClearDisconnects | src/client/Application.tsx:151-160 | after a successful clear, from any panel, the panel is disconnected, Clear hidden, Save and the test disabled |
| SettingsPanel.EditDuringSave | src/client/Application.tsx:107-141 | a key typed while a save is pending changes neither the key written nor the key tested, yet a successful verdict shows connected and "verified" beside the new key |
| SettingsPanel.StartUpLoadDuringSave | src/client/Application.tsx:74-148 | a start-up load settling during a save replaces the key field, not the key written or tested; the verdict's flag stands |
| SettingsPanel.StartUpCheckDuringSave | src/client/Application.tsx:99-175 | a start-up check settling during a save is overwritten: the verdict's notice and flag stand, and the key field is kept |
| SettingsPanel.StartUpCheckAfterSave | src/client/Application.tsx:132-175 | a start-up check settling after a save keeps the save's notice. It sets the flag from its own answer after a stored key, clears it after a failed read, and leaves the verdict's flag when no key is stored |
| SettingsPanel.StaleCheckAfterVerifiedSave | src/client/Application.tsx:132-175 | a failed test of a stale stored key after a verified save leaves the success notice beside "not connected" and the generation test disabled |
| SettingsPanel.DismissDuringSave | src/client/Application.tsx:132-141 | closing the notice while a save is pending does not change the outcome |
| SettingsPanel.InitialPanelIdle | src/client/Application.tsx:62-67 | before the start-up load, Save, Clear and the generation test are all unavailable |
| SettingsPanel.StartUpEnablesTest | src/client/Application.tsx:74-84 | once a stored key is loaded, the generation test and Clear are enabled, before any verification |
| SettingsPanel.TestGenerationRestartable | src/client/Application.tsx:177-204 | the test disables itself while running and is enabled again afterwards, whatever the outcome |
| Extension.ClickRoundTrip | src/content/index.ts:209-243 | a click sends the page's summary, template and URL; the background's answer fills the field with the trimmed completion text and shows success exactly when the completion has content, and the set-up hint shows without a client |
| Extension.ReceiveGeneration | src/background/index.ts:204-218 | the content script receiving a generation answer fills the field exactly when the completion is usable |
| Extension.BackgroundTestsKey | src/background/index.ts:122-171 | the key test the panel sends is answered with the test of that key, which the background adopts |
| Extension.SaveRoundTrip | src/client/Application.tsx:99-141 | Save & Verify against the background: the background adopts the key whatever the outcome; the panel is connected exactly when the test returned a choice, otherwise it shows the background's error |
| Extension.FailedTestStillConnected | src/background/index.ts:265-274 | after a key test that fails in any way (no choice returned, or any thrown error), the panel shows not connected while the background's settings report connected |
| Extension.TestGenerationRoundTrip | src/client/Application.tsx:177-197 | the generation test ends "Ready" exactly when the background has a client and the completion has content |

## Left out

- Browser APIs (storage, runtime messaging, timers, MutationObserver, DOM queries) are inputs or events. Storage reads are `StorageRead` values, message sends are returned values, and each timer or awaited reply is a pending count plus an event.
- The completion service is an oracle function. Its real latency and nondeterminism are not modelled: two identical requests get the same outcome. The `usage` field of a reply is not modelled. The oracle's argument is the request built by `Background.KeyTestRequest` or `Background.GenerateRequest`. Each carries the client, model, messages, `max_tokens` and `temperature` of the call at src/background/index.ts:145-150 or 187-202.
- `getSettings` is modelled as one step. In the code, it reads whether a client exists only after its storage read settles (src/background/index.ts:267-272), so a key test handled meanwhile can create the client first. Clients are never removed, so this changes only when "connected" is first reported.
- Delays and timeouts: the 1 s injection delay, the 3 s and 5 s reverts and the 30 s verification timeout are untimed events. The model decides which one happens first, not when.
- Presentation is not modelled: inner HTML, icons, styles, hover effects, spinner keyframes, labels, tabs, the show-key toggle and the `Verifying...` label.
- The `input` and `change` events, focus and blur after a fill are not modelled. They only notify the host page.
- Console logging is not modelled.
- `handleInstall` is not modelled. It only logs.
- Malformed runtime messages are not modelled: a missing `data` object, or a non-string `description`, causes JavaScript TypeErrors whose text is engine-defined. The exception is `Reply.Undelivered`, which carries such a message as an opaque string. `Background.UncaughtReply` is the dispatcher's catch-all for such errors, and no modelled message reaches it.
- `buildPrompt` with a missing (`undefined`) template is not modelled: templates are always strings here.
- The ordering race between the panel's `loadSettings` and `checkConnection` at start-up is not modelled. Each is modelled separately.
- Strings are sequences of Unicode scalar values, so a lone UTF-16 surrogate cannot be represented. Where the code reads `length`, the model counts UTF-16 code units (`JsText.Utf16Length`). Elsewhere (`trim`, `includes`, `startsWith` with ASCII patterns) counting characters gives the same answers for well-formed text.
- Interleavings during Save & Verify are modelled one at a time, never several together. The user can only type into the key field, close the notice or use presentation actions: Save, Clear and the generation test are disabled while loading (`SettingsPanel.EditDuringSave`, `SettingsPanel.DismissDuringSave`). The start-up `loadSettings` and `checkConnection` are not disabled, so they can settle during or after a save. Each can overwrite the key field or the connection flag (`SettingsPanel.StartUpLoadDuringSave`, `SettingsPanel.StartUpCheckDuringSave`, `SettingsPanel.StartUpCheckAfterSave`). Edits during the generation test are not modelled, because that test does not read the field.
- `src/client/index.tsx` (mounting the panel) and the build configuration are not part of this model.
- Extension.SaveRoundTrip: it is stated over `SettingsPanel.VerifyKey`, the save after validation, rather than over `SaveApiKey`. `SettingsPanel.PrefixedKeyVerified` shows the two agree for every key that passes validation.
- SettingsPanel.EnabledSaveEnds: it does not say which notice an enabled save ends with. `SaveConnectedIffSuccess` and `Verdict` state that.
