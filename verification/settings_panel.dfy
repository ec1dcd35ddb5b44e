/**
  The settings panel: the key field and its Save & Verify and Clear buttons,
  the notice shown under them, the connection flag and the AI generation test.
  React state is a record; each handler is a function from the record and the
  outcomes of the calls it awaits (storage, runtime messages) to the new record.
 */
module SettingsPanel {
  import opened JsText
  import opened Protocol

  datatype NoticeKind = SuccessNotice | ErrorNotice | InfoNotice

  /** The alert under the buttons: its severity and text. */
  datatype Notice = Notice(kind: NoticeKind, text: string)

  datatype Panel = Panel(
    apiKey: string,
    isLoading: bool,
    /** `None` when no alert is shown */
    message: Option<Notice>,
    isConnected: bool,
    currentStatus: string)

  const ReadyStatus := "Ready"
  const TestingStatus := "Testing AI generation..."
  const ErrorStatus := "Error"

  /** The panel before the start-up load: empty key, not loading, no notice, not connected, "Ready". */
  const InitialPanel := Panel("", false, None, false, ReadyStatus)

  const KeyPrefix := "sk-"
  const BlankKeyText := "Please enter an API key"
  const KeyFormatText := "Invalid API key format. Should start with \"sk-\""
  const SavedText := "API key saved and verified!"
  const VerifyFailedText := "Failed to verify API key"
  const SaveFailedPrefix := "Failed to save API key: "
  const TimeoutText := "Request timeout - the background script took too long to respond"
  const RuntimeErrorText := "Runtime error occurred"
  const ClearedText := "API key cleared"
  const ClearFailedText := "Failed to clear API key"
  const TestSucceededText := "AI generation test successful!"
  const TestFailedText := "Test failed"
  const TestThrewText := "Test generation failed"

  const TestDiff := "Test diff content: Added new feature for user authentication"
  const TestTemplate := "## Description\n\n## Changes\n\n## Testing"
  const TestUrl := "https://github.com/test/repo/compare/main...feature"

  // ---------------------------------------------------------------------------
  // Key validation

  /** The first problem with a key, if any: blank (empty or all whitespace)
      comes before a missing "sk-" prefix. A key passes exactly when it starts
      with "sk-", which already makes it non-blank. */
  function KeyProblem(key: string): (r: Option<string>)
    ensures r == Some(BlankKeyText) <==> AllWhitespace(key)
    ensures r == Some(KeyFormatText) <==> !AllWhitespace(key) && !StartsWith(key, KeyPrefix)
    ensures r.None? <==> StartsWith(key, KeyPrefix)
  {
    TrimEmptyIff(key);
    assert StartsWith(key, KeyPrefix) ==> key[0] == KeyPrefix[0];
    if Trim(key) == "" then Some(BlankKeyText)
    else if !StartsWith(key, KeyPrefix) then Some(KeyFormatText)
    else None
  }

  // ---------------------------------------------------------------------------
  // Save & Verify

  /** The `lastError` the message callback sees. */
  datatype LastError = NoLastError | LastError(message: Option<string>)

  /** Whichever settles the awaited verification first: the 30-second timer
      (its rejection wins, a later callback finds the promise settled), or the
      message callback (which clears the timer). */
  datatype FirstToSettle = TimerFired | CallbackRan(lastError: LastError, response: Option<Response>)

  /** The settled verification promise. */
  datatype Settlement = Resolved(response: Option<Response>) | Rejected(message: string)

  function Settle(first: FirstToSettle): (r: Settlement)
    ensures first.TimerFired? ==> r == Rejected(TimeoutText)
    ensures first.CallbackRan? && first.lastError.LastError? ==> r == Rejected(OrElse(first.lastError.message, RuntimeErrorText))
    ensures first.CallbackRan? && first.lastError.NoLastError? ==> r == Resolved(first.response)
  {
    match first
    case TimerFired => Rejected(TimeoutText)
    case CallbackRan(LastError(m), _) => Rejected(OrElse(m, RuntimeErrorText))
    case CallbackRan(NoLastError, response) => Resolved(response)
  }

  /** The result of writing the key to storage. */
  datatype StoreResult = StoreOk | StoreFailed(message: string)

  /** What a save attempt did: the new panel, the key written to storage (if
      any) and the runtime message sent (if any). */
  datatype SaveAttempt = SaveAttempt(panel: Panel, wrote: Option<string>, sent: Option<Message>)

  /** Whether a resolved response counts as verified: present and successful. */
  predicate Verified(response: Option<Response>) {
    response.Some? && response.value.success
  }

  /** The notice a completed verification leaves, and the connection flag. */
  function Verdict(store: StoreResult, first: FirstToSettle): (r: (Notice, bool))
    ensures r.1 <==> r.0 == Notice(SuccessNotice, SavedText)
    ensures r.1 <==> store.StoreOk? && first.CallbackRan? && first.lastError.NoLastError? && Verified(first.response)
    ensures store.StoreFailed? ==> r.0 == Notice(ErrorNotice, SaveFailedPrefix + store.message)
    ensures store.StoreOk? && Settle(first).Rejected? ==> r.0 == Notice(ErrorNotice, SaveFailedPrefix + Settle(first).message)
    ensures store.StoreOk? && Settle(first).Resolved? && !Verified(first.response) ==>
      r.0 == Notice(ErrorNotice, if first.response.Some? then OrElse(first.response.value.error, VerifyFailedText) else VerifyFailedText)
  {
    match store
    case StoreFailed(m) => (Notice(ErrorNotice, SaveFailedPrefix + m), false)
    case StoreOk =>
      match Settle(first)
      case Rejected(m) => (Notice(ErrorNotice, SaveFailedPrefix + m), false)
      case Resolved(response) =>
        if Verified(response) then (Notice(SuccessNotice, SavedText), true)
        else
          var error := if response.Some? then OrElse(response.value.error, VerifyFailedText) else VerifyFailedText;
          (Notice(ErrorNotice, error), false)
  }

  /** Save & Verify while its awaits are pending: the panel as it currently
      is, and the key that was in the field at the click, which is the one
      written and sent whatever is typed meanwhile. */
  datatype PendingSave = PendingSave(panel: Panel, key: string)

  /** Save & Verify for a key that passed validation, up to its first `await`:
      loading is switched on and the key is captured. */
  function StartVerify(p: Panel): (r: PendingSave)
    ensures r.key == p.apiKey && r.panel.isLoading
    ensures r.panel.(isLoading := p.isLoading) == p
  {
    PendingSave(p.(isLoading := true), p.apiKey)
  }

  /** The rest of Save & Verify once storage and the verification have settled:
      the captured key was written, and sent for a test once written; the
      current panel gets the verdict's notice and connection flag and loading
      ends. The key field keeps whatever it holds now. */
  function FinishVerify(pending: PendingSave, store: StoreResult, first: FirstToSettle): (r: SaveAttempt)
    ensures r.wrote == Some(pending.key)
    ensures r.sent.Some? <==> store.StoreOk?
    ensures r.sent.Some? ==> r.sent.value == TestApiKey(Some(pending.key))
    ensures !r.panel.isLoading
    ensures r.panel.apiKey == pending.panel.apiKey && r.panel.currentStatus == pending.panel.currentStatus
    ensures r.panel.message == Some(Verdict(store, first).0)
    ensures r.panel.isConnected == Verdict(store, first).1
  {
    var sent := if store.StoreOk? then Some(TestApiKey(Some(pending.key))) else None;
    var (notice, connected) := Verdict(store, first);
    SaveAttempt(pending.panel.(message := Some(notice), isConnected := connected, isLoading := false),
                Some(pending.key), sent)
  }

  /** Save & Verify for a key that passed validation, with nothing happening in
      the panel while it is pending: the key is written, and once written it is
      sent for a test; the attempt ends with loading off, the verdict shown and
      the connection flag set by it. */
  function VerifyKey(p: Panel, store: StoreResult, first: FirstToSettle): (r: SaveAttempt)
    ensures r.wrote == Some(p.apiKey)
    ensures r.sent.Some? <==> store.StoreOk?
    ensures r.sent.Some? ==> r.sent.value == TestApiKey(Some(p.apiKey))
    ensures !r.panel.isLoading
    ensures r.panel.apiKey == p.apiKey && r.panel.currentStatus == p.currentStatus
    ensures r.panel.message == Some(Verdict(store, first).0)
    ensures r.panel.isConnected == Verdict(store, first).1
  {
    FinishVerify(StartVerify(p), store, first)
  }

  /** The Save & Verify handler run to completion. A key that fails validation
      only shows the problem: nothing is written, nothing is sent and loading is
      not touched. A key that passes is verified. */
  function SaveApiKey(p: Panel, store: StoreResult, first: FirstToSettle): (r: SaveAttempt)
    ensures KeyProblem(p.apiKey).Some? ==>
      r == SaveAttempt(p.(message := Some(Notice(ErrorNotice, KeyProblem(p.apiKey).value))), None, None)
    ensures KeyProblem(p.apiKey).None? ==> r == VerifyKey(p, store, first)
  {
    match KeyProblem(p.apiKey)
    case Some(problem) => SaveAttempt(p.(message := Some(Notice(ErrorNotice, problem))), None, None)
    case None => VerifyKey(p, store, first)
  }

  // ---------------------------------------------------------------------------
  // The other handlers

  /** Clear: on success the key is emptied, the panel disconnected and an
      info notice shown; when removal fails only the error notice changes. */
  function ClearApiKey(p: Panel, removed: bool): (r: Panel)
    ensures removed ==> r == p.(apiKey := "", isConnected := false, message := Some(Notice(InfoNotice, ClearedText)))
    ensures !removed ==> r == p.(message := Some(Notice(ErrorNotice, ClearFailedText)))
  {
    if removed then p.(apiKey := "", isConnected := false, message := Some(Notice(InfoNotice, ClearedText)))
    else p.(message := Some(Notice(ErrorNotice, ClearFailedText)))
  }

  /** Typing into the key field: the field takes the new value and any notice disappears. */
  function HandleApiKeyChange(p: Panel, value: string): (r: Panel)
    ensures r.apiKey == value && r.message.None?
    ensures r.(apiKey := p.apiKey, message := p.message) == p
  {
    var p1 := p.(apiKey := value);
    if p1.message.Some? then p1.(message := None) else p1
  }

  /** Closing the notice (the alert's close button): only the notice goes. */
  function DismissNotice(p: Panel): (r: Panel)
    ensures r.message.None?
    ensures r.(message := p.message) == p
  {
    p.(message := None)
  }

  /** Start-up read of the stored key: a stored key fills the field and marks
      the panel connected, before any verification; otherwise nothing changes. */
  function LoadSettings(p: Panel, stored: StorageRead): (r: Panel)
    ensures stored.Stored? && Truthy(stored.value) ==> r == p.(apiKey := stored.value.value, isConnected := true)
    ensures !(stored.Stored? && Truthy(stored.value)) ==> r == p
  {
    if stored.Stored? && Truthy(stored.value) then p.(apiKey := stored.value.value, isConnected := true) else p
  }

  /** The answer to the start-up key test: a response, no response (reading
      `success` of `undefined` throws), or a rejected send. */
  datatype ConnectionReply = Answered(response: Option<Response>) | SendRejected

  datatype Check = Check(panel: Panel, sent: Option<Message>)

  /** Start-up connection check: a stored key is sent for a test and the flag
      follows the answer's `success`; any failure on the way clears the flag;
      with no stored key nothing is sent and nothing changes. */
  function CheckConnection(p: Panel, stored: StorageRead, reply: ConnectionReply): (r: Check)
    ensures stored.ReadFailed? ==> r == Check(p.(isConnected := false), None)
    ensures stored.Stored? && !Truthy(stored.value) ==> r == Check(p, None)
    ensures stored.Stored? && Truthy(stored.value) ==>
      && r.sent == Some(TestApiKey(stored.value))
      && r.panel == p.(isConnected := reply.Answered? && Verified(reply.response))
  {
    match stored
    case ReadFailed => Check(p.(isConnected := false), None)
    case Stored(v) =>
      if !Truthy(v) then Check(p, None)
      else
        var connected := match reply
          case Answered(Some(response)) => response.success
          case Answered(None) => false
          case SendRejected => false;
        Check(p.(isConnected := connected), Some(TestApiKey(v)))
  }

  /** The request the generation test sends: a fixed diff, template and URL. */
  const TestRequest := GeneratePRDescription(TestDiff, TestTemplate, TestUrl)

  /** The generation test up to its `await`: loading, with the testing status. */
  function BeginTestGeneration(p: Panel): (r: Panel)
    ensures r.isLoading && r.currentStatus == TestingStatus
    ensures r.(isLoading := p.isLoading, currentStatus := p.currentStatus) == p
  {
    p.(isLoading := true, currentStatus := TestingStatus)
  }

  /** The generation test after its `await`: status "Ready" with a success
      notice exactly when a response came back successful, "Error" otherwise;
      loading is off either way and the connection flag is untouched. */
  function FinishTestGeneration(p: Panel, reply: ConnectionReply): (r: Panel)
    ensures !r.isLoading && r.isConnected == p.isConnected && r.apiKey == p.apiKey
    ensures r.currentStatus == ReadyStatus <==> reply.Answered? && Verified(reply.response)
    ensures r.currentStatus == ReadyStatus || r.currentStatus == ErrorStatus
    ensures r.currentStatus == ReadyStatus <==> r.message == Some(Notice(SuccessNotice, TestSucceededText))
    ensures reply.Answered? && reply.response.Some? && !reply.response.value.success ==>
      r.message == Some(Notice(ErrorNotice, OrElse(reply.response.value.error, TestFailedText)))
    ensures !(reply.Answered? && reply.response.Some?) ==> r.message == Some(Notice(ErrorNotice, TestThrewText))
  {
    match reply
    case Answered(Some(response)) =>
      if response.success then
        p.(message := Some(Notice(SuccessNotice, TestSucceededText)), currentStatus := ReadyStatus, isLoading := false)
      else
        p.(message := Some(Notice(ErrorNotice, OrElse(response.error, TestFailedText))), currentStatus := ErrorStatus, isLoading := false)
    case _ => p.(message := Some(Notice(ErrorNotice, TestThrewText)), currentStatus := ErrorStatus, isLoading := false)
  }

  // ---------------------------------------------------------------------------
  // Buttons

  /** Save & Verify is disabled while loading and while the key is blank. */
  function SaveDisabled(p: Panel): (r: bool)
    ensures r <==> p.isLoading || AllWhitespace(p.apiKey)
  {
    TrimEmptyIff(p.apiKey);
    p.isLoading || Trim(p.apiKey) == ""
  }

  /** The Clear button: shown only for a non-empty key, disabled while loading. */
  function ClearButton(p: Panel): (r: Option<bool>)
    ensures r.Some? <==> p.apiKey != ""
    ensures r.Some? ==> (r.value <==> p.isLoading)
  {
    if p.apiKey != "" then Some(p.isLoading) else None
  }

  /** The generation test button is enabled only when connected and not loading. */
  function TestDisabled(p: Panel): (r: bool)
    ensures !r <==> p.isConnected && !p.isLoading
  {
    !p.isConnected || p.isLoading
  }

  // ---------------------------------------------------------------------------
  // Properties

  /** A save started from an enabled button can only be turned back by the
      prefix check, never by the blank check; it always ends with loading off
      and the button enabled again. */
  lemma EnabledSaveEnds(p: Panel, store: StoreResult, first: FirstToSettle)
    requires !SaveDisabled(p)
    ensures var r := SaveApiKey(p, store, first);
      && (r.wrote.None? ==> r.panel.message == Some(Notice(ErrorNotice, KeyFormatText)))
      && !r.panel.isLoading
      && !SaveDisabled(r.panel)
  {
  }

  /** After a completed save, the panel is connected exactly when the success
      notice is shown; any other notice is an error. */
  lemma SaveConnectedIffSuccess(p: Panel, store: StoreResult, first: FirstToSettle)
    requires StartsWith(p.apiKey, KeyPrefix)
    ensures var r := SaveApiKey(p, store, first).panel;
      && (r.isConnected <==> r.message == Some(Notice(SuccessNotice, SavedText)))
      && (!r.isConnected ==> r.message.Some? && r.message.value.kind == ErrorNotice)
  {
  }

  /** A key with the "sk-" prefix is verified, and is not empty. */
  lemma PrefixedKeyVerified(p: Panel, store: StoreResult, first: FirstToSettle)
    requires StartsWith(p.apiKey, KeyPrefix)
    ensures SaveApiKey(p, store, first) == VerifyKey(p, store, first)
    ensures p.apiKey != ""
  {
  }

  /** A verified key whose test is answered: connected exactly when the answer
      is a success; otherwise the answer's error is shown, or a generic text. */
  lemma SaveAnswered(p: Panel, response: Response)
    ensures var r := VerifyKey(p, StoreOk, CallbackRan(NoLastError, Some(response)));
      && r.sent == Some(TestApiKey(Some(p.apiKey)))
      && (r.panel.isConnected <==> response.success)
      && (!response.success ==> r.panel.message == Some(Notice(ErrorNotice, OrElse(response.error, VerifyFailedText))))
  {
  }

  /** While a save is pending the key field stays editable. A key typed then
      does not change what is written or tested, yet the verdict is shown
      against it: a successful verification of the earlier key leaves the
      panel connected, with the success notice, next to a different key. */
  lemma EditDuringSave(p: Panel, value: string, store: StoreResult, first: FirstToSettle)
    ensures var pending := StartVerify(p);
      var r := FinishVerify(pending.(panel := HandleApiKeyChange(pending.panel, value)), store, first);
      && r.panel.apiKey == value
      && r.wrote == Some(p.apiKey)
      && (r.sent.Some? ==> r.sent.value == TestApiKey(Some(p.apiKey)))
      && (Verdict(store, first).1 ==> r.panel.isConnected && r.panel.message == Some(Notice(SuccessNotice, SavedText)))
  {
  }

  /** Closing the notice while a save is pending does not stop the verdict from showing. */
  lemma DismissDuringSave(p: Panel, store: StoreResult, first: FirstToSettle)
    ensures var pending := StartVerify(p);
      FinishVerify(pending.(panel := DismissNotice(pending.panel)), store, first) == VerifyKey(p, store, first)
  {
  }

  /** The start-up load is not disabled by a pending save. When it settles in
      between, it replaces the key field but neither the key written nor the
      key tested, and the verdict then sits beside the stored key. */
  lemma StartUpLoadDuringSave(p: Panel, key: string, store: StoreResult, first: FirstToSettle)
    requires key != ""
    ensures var pending := StartVerify(p);
      var r := FinishVerify(pending.(panel := LoadSettings(pending.panel, Stored(Some(key)))), store, first);
      && r.panel.apiKey == key
      && r.wrote == Some(p.apiKey)
      && (r.sent.Some? ==> r.sent.value == TestApiKey(Some(p.apiKey)))
      && r.panel.isConnected == Verdict(store, first).1
  {
  }

  /** The start-up connection check settling while a save is pending: the
      save's verdict lands after it, so the flag it set does not survive. */
  lemma StartUpCheckDuringSave(p: Panel, stored: StorageRead, reply: ConnectionReply, store: StoreResult, first: FirstToSettle)
    ensures var pending := StartVerify(p);
      var checked := CheckConnection(pending.panel, stored, reply).panel;
      var r := FinishVerify(pending.(panel := checked), store, first);
      && r.panel.isConnected == Verdict(store, first).1
      && r.panel.message == Some(Verdict(store, first).0)
      && r.panel.apiKey == p.apiKey
  {
  }

  /** The start-up connection check settling after a save: it overwrites the
      save's connection flag whenever it read storage, but never its notice. */
  lemma StartUpCheckAfterSave(p: Panel, store: StoreResult, first: FirstToSettle, stored: StorageRead, reply: ConnectionReply)
    ensures var r := CheckConnection(VerifyKey(p, store, first).panel, stored, reply).panel;
      && r.message == Some(Verdict(store, first).0)
      && r.apiKey == p.apiKey
      && (stored.ReadFailed? ==> !r.isConnected)
      && (stored.Stored? && Truthy(stored.value) ==> (r.isConnected <==> reply.Answered? && Verified(reply.response)))
      && (stored.Stored? && !Truthy(stored.value) ==> r.isConnected == Verdict(store, first).1)
  {
  }

  /** A stale stored key whose start-up test fails only after a verified save:
      the success notice stays beside "not connected", and the generation test
      is disabled although the new key was verified. */
  lemma StaleCheckAfterVerifiedSave(p: Panel, store: StoreResult, first: FirstToSettle, staleKey: string, response: Response)
    requires Verdict(store, first).1
    requires staleKey != "" && !response.success
    ensures var r := CheckConnection(VerifyKey(p, store, first).panel, Stored(Some(staleKey)), Answered(Some(response))).panel;
      && r.message == Some(Notice(SuccessNotice, SavedText))
      && !r.isConnected
      && TestDisabled(r)
  {
  }

  /** A storage failure always disconnects and sends nothing, whatever the background would have answered. */
  lemma SaveFailuresDisconnect(p: Panel, message: string, first: FirstToSettle)
    requires StartsWith(p.apiKey, KeyPrefix)
    ensures !SaveApiKey(p, StoreFailed(message), first).panel.isConnected
    ensures SaveApiKey(p, StoreFailed(message), first).sent.None?
  {
  }

  /** A save whose timer fires before the background answers shows the timeout and disconnects. */
  lemma TimeoutDisconnects(p: Panel)
    requires StartsWith(p.apiKey, KeyPrefix)
    ensures SaveApiKey(p, StoreOk, TimerFired).panel.message == Some(Notice(ErrorNotice, SaveFailedPrefix + TimeoutText))
    ensures !SaveApiKey(p, StoreOk, TimerFired).panel.isConnected
  {
  }

  /** Editing the key after a failed save removes the notice; editing to a
      blank value disables Save again. */
  lemma EditAfterSave(p: Panel, store: StoreResult, first: FirstToSettle, value: string)
    requires AllWhitespace(value)
    ensures var r := HandleApiKeyChange(SaveApiKey(p, store, first).panel, value);
      r.message.None? && SaveDisabled(r)
  {
  }

  /** A successful clear, from any panel, disconnects, hides the Clear button and disables Save and the test. */
  lemma ClearDisconnects(p: Panel)
    ensures var r := ClearApiKey(p, true);
      && !r.isConnected && ClearButton(r).None? && SaveDisabled(r) && TestDisabled(r)
  {
    assert AllWhitespace("");
  }

  /** Before the start-up load only typing is possible: Save, Clear and the test are all unavailable. */
  lemma InitialPanelIdle()
    ensures SaveDisabled(InitialPanel) && ClearButton(InitialPanel).None? && TestDisabled(InitialPanel)
  {
    assert AllWhitespace(InitialPanel.apiKey);
  }

  /** Once a stored key is loaded, the generation test and Clear are enabled,
      before that key was ever verified. */
  lemma StartUpEnablesTest(key: string)
    requires key != ""
    ensures !TestDisabled(LoadSettings(InitialPanel, Stored(Some(key))))
    ensures ClearButton(LoadSettings(InitialPanel, Stored(Some(key)))) == Some(false)
  {
  }

  /** Whatever the generation test's outcome, it returns the panel to a state
      where the test can be started again when it was connected. */
  lemma TestGenerationRestartable(p: Panel, reply: ConnectionReply)
    requires !TestDisabled(p)
    ensures !TestDisabled(FinishTestGeneration(BeginTestGeneration(p), reply))
    ensures TestDisabled(BeginTestGeneration(p))
  {
  }
}
