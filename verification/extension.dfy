/**
  The three contexts wired together: the message one context sends is the
  message the other handles, and the response one handler produces is the
  response the sender's continuation receives.
 */
module Extension {
  import opened JsText
  import opened HostPage
  import opened DiffExtraction
  import opened Protocol
  import Prompt
  import CS = ContentScript
  import BG = Background
  import SP = SettingsPanel

  /** What the completion call yields for the generation request a click on `p` leads to. */
  function GenerationOutcome(s: BG.State, p: Page, oracle: BG.CompletionRequest -> BG.Completion): BG.Completion
    requires s.client.Some?
  {
    oracle(BG.GenerateRequest(s.client.value, Prompt.BuildPrompt(DiffText(p), ExtractPRTemplate(p), p.url)))
  }

  /** Whether that outcome carries a usable description. */
  predicate Usable(c: BG.Completion) {
    c.Completed? && Truthy(BG.FirstContent(c.choices))
  }

  /** The content script's continuation receiving a generation answer: the
      field takes the trimmed text and the button shows success exactly when
      the completion is usable; a failure leaves the field alone and puts the
      reason in the button's title. */
  lemma ReceiveGeneration(c: CS.Controller, p: Page, response: Response, outcome: BG.Completion)
    requires c.inFlight > 0 && c.button.Some?
    requires response == BG.GenerationReply(outcome)
    ensures var done := CS.HandleReply(c, p, CS.Delivered(response));
      && (Usable(outcome) ==>
            done.page == FillPRDescription(p, Trim(BG.FirstContent(outcome.choices).value))
            && done.controller.currentState == CS.Success)
      && (!Usable(outcome) ==> done.page == p && done.controller.currentState == CS.Error)
  {
  }

  /** The same continuation receiving the "not configured" failure. */
  lemma ReceiveNotConfigured(c: CS.Controller, p: Page)
    requires c.inFlight > 0 && c.button.Some?
    ensures var done := CS.HandleReply(c, p, CS.Delivered(Fail(BG.NotConfiguredText)));
      && done.page == p && done.controller.currentState == CS.Error
      && done.controller.button.Some? && done.controller.button.value.title == BG.NotConfiguredText
  {
  }

  /** A click on the idle button, answered by the background: the request
      carries the page's change summary, template and URL; the field ends up
      holding the trimmed completion text exactly when the completion has one,
      and the button shows success exactly then. Without a configured client the
      button shows the set-up hint and the field is untouched. */
  lemma ClickRoundTrip(c: CS.Controller, p: Page, s: BG.State, stored: StorageRead,
                       oracle: BG.CompletionRequest -> BG.Completion)
    requires c.button.Some? && c.currentState == CS.Idle && BG.Inv(s)
    ensures var click := CS.Click(c, p);
      && click.sent == Some(GeneratePRDescription(DiffText(p), ExtractPRTemplate(p), p.url))
      && var answer := BG.HandleMessage(s, click.sent.value, stored, oracle);
         var done := CS.HandleReply(click.controller, click.page, CS.Delivered(answer.response));
         && answer.state == s
         && (s.client.None? ==>
               done.page == p && done.controller.currentState == CS.Error
               && done.controller.button.value.title == BG.NotConfiguredText)
         && (s.client.Some? && Usable(GenerationOutcome(s, p, oracle)) ==>
               done.page == FillPRDescription(p, Trim(BG.FirstContent(GenerationOutcome(s, p, oracle).choices).value))
               && done.controller.currentState == CS.Success)
         && (s.client.Some? && !Usable(GenerationOutcome(s, p, oracle)) ==>
               done.page == p && done.controller.currentState == CS.Error)
  {
    var click := CS.Click(c, p);
    var d, t := DiffText(p), ExtractPRTemplate(p);
    assert click.sent == Some(GeneratePRDescription(d, t, p.url));
    assert click.page == p;
    var answer := BG.HandleMessage(s, click.sent.value, stored, oracle);
    assert answer == BG.Outcome(s, BG.GeneratePRDescription(s, d, t, p.url, oracle));
    if s.client.None? {
      ReceiveNotConfigured(click.controller, p);
    } else {
      ReceiveGeneration(click.controller, p, answer.response, GenerationOutcome(s, p, oracle));
    }
  }

  /** The panel reading a key-test answer as the background shapes it. */
  lemma PanelReadsKeyTest(panel: SP.Panel, test: BG.Completion)
    ensures var attempt := SP.VerifyKey(panel, SP.StoreOk, SP.CallbackRan(SP.NoLastError, Some(BG.KeyTestReply(test))));
      && attempt.sent == Some(TestApiKey(Some(panel.apiKey)))
      && (attempt.panel.isConnected <==> test.Completed? && |test.choices| > 0)
      && (!attempt.panel.isConnected ==>
            attempt.panel.message == Some(SP.Notice(SP.ErrorNotice, BG.KeyTestReply(test).error.value)))
  {
    SP.SaveAnswered(panel, BG.KeyTestReply(test));
  }

  /** The background's answer to the key test the panel's save sends. */
  function Answer(panel: SP.Panel, s: BG.State, stored: StorageRead,
                  oracle: BG.CompletionRequest -> BG.Completion): BG.Outcome
    requires BG.Inv(s)
  {
    BG.HandleMessage(s, TestApiKey(Some(panel.apiKey)), stored, oracle)
  }

  /** The background handling that key test adopts the key and answers with the test's verdict. */
  lemma BackgroundTestsKey(panel: SP.Panel, s: BG.State, stored: StorageRead,
                           oracle: BG.CompletionRequest -> BG.Completion)
    requires BG.Inv(s) && panel.apiKey != ""
    ensures Answer(panel, s, stored, oracle)
         == BG.Outcome(BG.State(Some(panel.apiKey), Some(BG.Client(panel.apiKey))),
                       BG.KeyTestReply(oracle(BG.KeyTestRequest(BG.Client(panel.apiKey)))))
  {
  }

  /** Save & Verify of a key that passed validation (every key with the "sk-"
      prefix, see `SettingsPanel.PrefixedKeyVerified`), answered by the
      background: the panel sends its key for a test, the background adopts
      that key (with a new client) whatever the test's outcome, and the panel
      reports connected exactly when the test completion returned at least one
      choice; otherwise it shows the background's error. */
  lemma SaveRoundTrip(panel: SP.Panel, s: BG.State, stored: StorageRead,
                      oracle: BG.CompletionRequest -> BG.Completion)
    requires panel.apiKey != "" && BG.Inv(s)
    ensures var out := Answer(panel, s, stored, oracle);
      var attempt := SP.VerifyKey(panel, SP.StoreOk, SP.CallbackRan(SP.NoLastError, Some(out.response)));
      var test := oracle(BG.KeyTestRequest(BG.Client(panel.apiKey)));
      && attempt.sent == Some(TestApiKey(Some(panel.apiKey)))
      && out.state == BG.State(Some(panel.apiKey), Some(BG.Client(panel.apiKey)))
      && (attempt.panel.isConnected <==> test.Completed? && |test.choices| > 0)
      && (!attempt.panel.isConnected ==> attempt.panel.message == Some(SP.Notice(SP.ErrorNotice, out.response.error.value)))
  {
    PanelReadsKeyTest(panel, oracle(BG.KeyTestRequest(BG.Client(panel.apiKey))));
    BackgroundTestsKey(panel, s, stored, oracle);
  }

  /** The panel and the background can disagree about the connection: after a
      key test that fails in any way (no choice returned, or a thrown error such
      as a rejected key), the panel shows "not connected", yet the background's
      settings report connected, because a client exists for the adopted key. */
  lemma FailedTestStillConnected(panel: SP.Panel, s: BG.State, stored: StorageRead, key: string,
                                 oracle: BG.CompletionRequest -> BG.Completion)
    requires BG.Inv(s) && key != "" && stored.Stored?
    requires var test := oracle(BG.KeyTestRequest(BG.Client(key))); !(test.Completed? && |test.choices| > 0)
    ensures var out := BG.HandleMessage(s, TestApiKey(Some(key)), stored, oracle);
      var check := SP.CheckConnection(panel, Stored(Some(key)), SP.Answered(Some(out.response)));
      && !check.panel.isConnected
      && BG.HandleMessage(out.state, GetSettings, stored, oracle).response.data.isConnected
  {
  }

  /** The panel's generation test answered by the background ends "Ready"
      exactly when a client exists and the completion carries a description. */
  lemma TestGenerationRoundTrip(panel: SP.Panel, s: BG.State, stored: StorageRead,
                                oracle: BG.CompletionRequest -> BG.Completion)
    requires BG.Inv(s)
    ensures var out := BG.HandleMessage(s, SP.TestRequest, stored, oracle);
      var r := SP.FinishTestGeneration(SP.BeginTestGeneration(panel), SP.Answered(Some(out.response)));
      r.currentStatus == SP.ReadyStatus
      <==> s.client.Some?
           && Usable(oracle(BG.GenerateRequest(s.client.value,
                                               Prompt.BuildPrompt(SP.TestDiff, SP.TestTemplate, SP.TestUrl))))
  {
  }
}
