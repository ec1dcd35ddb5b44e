/**
  The content script's controller: page eligibility, injection of the floating
  auto-fill button, the button's idle/loading/success/error state machine with
  its revert timers, reaction to in-place navigation, and the runtime-message
  handler. Browser events (timer expiry, the MutationObserver callback, the
  click, the arrival of the background's reply) are discrete events; the page
  is an explicit value the controller reads and writes.
 */
module ContentScript {
  import opened JsText
  import opened HostPage
  import opened DiffExtraction
  import opened Protocol

  datatype ButtonState = Idle | Loading | Success | Error

  /** The injected button as far as behaviour goes: enablement and tooltip. */
  datatype Button = Button(disabled: bool, title: string)

  /** The controller's fields, plus the timers and awaited replies it has
      scheduled and not yet seen (a JavaScript timer or pending promise is
      represented by a count, since all pending ones of a kind act alike). */
  datatype Controller = Controller(
    /** the URL the navigation observer last recorded */
    currentUrl: string,
    isComparePage: bool,
    hasInjectedUI: bool,
    /** whether the runtime-message listener was registered */
    listening: bool,
    button: Option<Button>,
    currentState: ButtonState,
    /** pending 1 s injection timers */
    injectTimers: nat,
    /** pending 3 s / 5 s revert-to-idle timers */
    revertTimers: nat,
    /** generation requests whose reply has not yet been handled */
    inFlight: nat
  )

  const ComparePath := "/compare/"
  const NewPullPath := "/pull/new"

  const IdleTitle := "Generate PR description using AI based on your changes"
  const LoadingTitle := "AI is generating your PR description..."
  const SuccessTitle := "PR description generated successfully!"
  const RetryTitle := "Click to try again"
  const GenerateFailedText := "Failed to generate description"

  // ---------------------------------------------------------------------------
  // Eligibility

  /** The page is eligible for the affordance when its URL contains "/compare/"
      or "/pull/new", or when it has the pull-request body field. */
  function IsEligible(p: Page): (r: bool)
    ensures r <==> || (exists i :: OccursAt(p.url, ComparePath, i))
                   || (exists i :: OccursAt(p.url, NewPullPath, i))
                   || p.body.Some?
  {
    ContainsIff(p.url, ComparePath);
    ContainsIff(p.url, NewPullPath);
    Contains(p.url, ComparePath) || Contains(p.url, NewPullPath) || p.body.Some?
  }

  // ---------------------------------------------------------------------------
  // The button state machine

  function TitleFor(state: ButtonState, errorMessage: Option<string>): string {
    match state
    case Idle => IdleTitle
    case Loading => LoadingTitle
    case Success => SuccessTitle
    case Error => OrElse(errorMessage, RetryTitle)
  }

  /** Without a button nothing happens (the state is not recorded either);
      otherwise the state is recorded, the button is disabled exactly while
      loading, and entering success or error schedules one revert timer. */
  function UpdateButtonState(c: Controller, state: ButtonState, errorMessage: Option<string>): (r: Controller)
    ensures c.button.None? ==> r == c
    ensures c.button.Some? ==>
      r.currentState == state && r.button.Some? && (r.button.value.disabled <==> state == Loading)
    ensures c.button.Some? && state == Error ==> r.button.value.title == OrElse(errorMessage, RetryTitle)
    ensures r.revertTimers == c.revertTimers + (if c.button.Some? && (state == Success || state == Error) then 1 else 0)
    ensures r.(button := c.button, currentState := c.currentState, revertTimers := c.revertTimers) == c
  {
    if c.button.None? then c
    else
      c.(currentState := state,
         button := Some(Button(state == Loading, TitleFor(state, errorMessage))),
         revertTimers := c.revertTimers + if state == Success || state == Error then 1 else 0)
  }

  /** Removes the button and resets the state; timers and awaited replies are not cancelled. */
  function Cleanup(c: Controller): (r: Controller)
    ensures r.button.None? && r.currentState == Idle
    ensures r.(button := c.button, currentState := c.currentState) == c
  {
    c.(button := None, currentState := Idle)
  }

  /** Schedules the delayed injection unless the UI was already injected. */
  function SetupAutoFillUI(c: Controller): (r: Controller)
    ensures c.hasInjectedUI ==> r == c
    ensures !c.hasInjectedUI ==> r == c.(injectTimers := c.injectTimers + 1)
  {
    if c.hasInjectedUI then c else c.(injectTimers := c.injectTimers + 1)
  }

  /** Injects a fresh button when the page has the body field and no button is
      present yet. The source asks for the idle look before it records the new
      button, so that request is a no-op: the fresh button is enabled, has no
      tooltip, and the state is left as it was. */
  function InjectFloatingButton(c: Controller, p: Page): (r: Controller)
    ensures p.body.None? || c.button.Some? ==> r == c
    ensures p.body.Some? && c.button.None? ==> r == c.(button := Some(Button(false, "")))
  {
    if p.body.None? then c
    else if c.button.Some? then c
    else
      var c1 := UpdateButtonState(c, Idle, None);
      c1.(button := Some(Button(false, "")))
  }

  /** Start-up: detect eligibility; on an eligible page schedule the injection
      and register the message listener; record the URL for the observer. */
  function Init(p: Page): (r: Controller)
    ensures r.isComparePage == IsEligible(p) && r.listening == IsEligible(p)
    ensures r.button.None? && r.currentState == Idle && !r.hasInjectedUI
    ensures r.injectTimers == (if IsEligible(p) then 1 else 0)
    ensures r.revertTimers == 0 && r.inFlight == 0 && r.currentUrl == p.url
  {
    var c := Controller(p.url, IsEligible(p), false, false, None, Idle, 0, 0, 0);
    if c.isComparePage then SetupAutoFillUI(c).(listening := true) else c
  }

  // ---------------------------------------------------------------------------
  // Events

  /** What the awaited `sendMessage` promise resolved with: the background's
      response, or nothing, in which case reading `success` throws a TypeError
      whose (engine-defined) message is carried here. */
  datatype Reply = Delivered(response: Response) | Undelivered(typeErrorMessage: string)

  datatype Event =
    | Clicked
    | Replied(reply: Reply)
    | RevertElapsed
    | InjectElapsed
    /** The environment changes the page (navigation, typing, DOM updates) without running any handler. */
    | PageChanged(page: Page)
    /** The MutationObserver callback runs against the current page. */
    | DomMutated

  datatype StepResult = StepResult(controller: Controller, page: Page, sent: Option<Message>)

  /** The click handler up to its `await`: only accepted with a button in the idle
      state; it then shows loading and sends one generation request carrying the
      change summary, the field's current text and the URL. */
  function Click(c: Controller, p: Page): (r: StepResult)
    ensures r.page == p
    ensures c.button.None? || c.currentState != Idle ==> r == StepResult(c, p, None)
    ensures c.button.Some? && c.currentState == Idle ==>
      && r.controller.currentState == Loading
      && r.controller.button.Some? && r.controller.button.value.disabled
      && r.controller.inFlight == c.inFlight + 1
      && r.sent == Some(GeneratePRDescription(DiffText(p), ExtractPRTemplate(p), p.url))
  {
    if c.button.None? || c.currentState != Idle then StepResult(c, p, None)
    else
      var c1 := UpdateButtonState(c, Loading, None);
      var request := GeneratePRDescription(DiffText(p), ExtractPRTemplate(p), p.url);
      StepResult(c1.(inFlight := c1.inFlight + 1), p, Some(request))
  }

  /** The description a successful reply carries; reading `description` from any
      other payload yields `undefined`, which the field stores as that text. */
  function DescriptionOf(d: Payload): (r: string)
    ensures d.Generated? ==> r == d.description
    ensures !d.Generated? ==> r == "undefined"
  {
    if d.Generated? then d.description else "undefined"
  }

  predicate GenerationSucceeded(reply: Reply) {
    reply.Delivered? && reply.response.success && PayloadTruthy(reply.response.data)
  }

  /** The error shown for an unsuccessful reply: the response's error when it
      has one, else a fixed text; for a missing reply, the TypeError's message. */
  function FailureReason(reply: Reply): (r: string)
    ensures reply.Delivered? && Truthy(reply.response.error) ==> r == reply.response.error.value
    ensures reply.Delivered? && !Truthy(reply.response.error) ==> r == GenerateFailedText
    ensures reply.Undelivered? ==> r == reply.typeErrorMessage
    ensures reply.Delivered? ==> r != ""
  {
    match reply
    case Delivered(resp) => OrElse(resp.error, GenerateFailedText)
    case Undelivered(m) => m
  }

  /** The click handler after its `await`: a successful reply with data fills the
      body field and shows success; anything else shows the error with its reason.
      The continuation runs whatever happened meanwhile (it checks no state). */
  function HandleReply(c: Controller, p: Page, reply: Reply): (r: StepResult)
    requires c.inFlight > 0
    ensures r.controller.inFlight == c.inFlight - 1 && r.sent.None?
    ensures GenerationSucceeded(reply) ==> r.page == FillPRDescription(p, DescriptionOf(reply.response.data))
    ensures !GenerationSucceeded(reply) ==> r.page == p
    ensures c.button.Some? ==> r.controller.currentState == (if GenerationSucceeded(reply) then Success else Error)
    ensures c.button.Some? && !GenerationSucceeded(reply) ==>
      r.controller.button.Some? && r.controller.button.value.title == OrElse(Some(FailureReason(reply)), RetryTitle)
  {
    var c1 := c.(inFlight := c.inFlight - 1);
    if GenerationSucceeded(reply) then
      StepResult(UpdateButtonState(c1, Success, None), FillPRDescription(p, DescriptionOf(reply.response.data)), None)
    else
      StepResult(UpdateButtonState(c1, Error, Some(FailureReason(reply))), p, None)
  }

  /** The MutationObserver callback: when the URL differs from the recorded one,
      record it, tear the button down, forget the injection, re-detect
      eligibility and, if eligible, schedule a new injection. */
  function OnDomMutated(c: Controller, p: Page): (r: Controller)
    ensures p.url == c.currentUrl ==> r == c
    ensures p.url != c.currentUrl ==>
      && r.currentUrl == p.url && r.button.None? && r.currentState == Idle && !r.hasInjectedUI
      && r.isComparePage == IsEligible(p)
      && r.injectTimers == c.injectTimers + (if IsEligible(p) then 1 else 0)
      && r.revertTimers == c.revertTimers && r.inFlight == c.inFlight && r.listening == c.listening
  {
    if p.url == c.currentUrl then c
    else
      var c1 := Cleanup(c.(currentUrl := p.url)).(hasInjectedUI := false);
      var c2 := c1.(isComparePage := IsEligible(p));
      if c2.isComparePage then SetupAutoFillUI(c2) else c2
  }

  /** One event. A timer or reply event with nothing pending of that kind does
      not occur and changes nothing. Only a click sends, and each request it
      sends is awaited until a reply is handled; only a reply changes the page,
      and only its body field; the listener registration never changes. */
  function Step(c: Controller, p: Page, e: Event): (r: StepResult)
    ensures r.controller.listening == c.listening
    ensures r.sent.Some? ==> e.Clicked?
    ensures r.controller.inFlight
            == c.inFlight + (if r.sent.Some? then 1 else 0) - (if e.Replied? && c.inFlight > 0 then 1 else 0)
    ensures e.PageChanged? ==> r == StepResult(c, e.page, None)
    ensures !e.PageChanged? ==> r.page.(body := p.body) == p
    ensures !e.Replied? && !e.PageChanged? ==> r.page == p
  {
    match e
    case Clicked => Click(c, p)
    case Replied(reply) =>
      if c.inFlight == 0 then StepResult(c, p, None) else HandleReply(c, p, reply)
    case RevertElapsed =>
      if c.revertTimers == 0 then StepResult(c, p, None)
      else StepResult(UpdateButtonState(c.(revertTimers := c.revertTimers - 1), Idle, None), p, None)
    case InjectElapsed =>
      if c.injectTimers == 0 then StepResult(c, p, None)
      else
        var c1 := InjectFloatingButton(c.(injectTimers := c.injectTimers - 1), p);
        StepResult(c1.(hasInjectedUI := true), p, None)
    case PageChanged(q) => StepResult(c, q, None)
    case DomMutated => StepResult(OnDomMutated(c, p), p, None)
  }

  datatype Run = Run(controller: Controller, page: Page, sent: seq<Message>)

  function Prepend(sent: seq<Message>, r: Run): Run {
    r.(sent := sent + r.sent)
  }

  /** The events applied in order by a step function, collecting the messages sent. */
  function RunWith(step: (Controller, Page, Event) -> StepResult, c: Controller, p: Page, events: seq<Event>): Run
    decreases |events|
  {
    if events == [] then Run(c, p, [])
    else
      var s := step(c, p, events[0]);
      Prepend(if s.sent.Some? then [s.sent.value] else [], RunWith(step, s.controller, s.page, events[1..]))
  }

  /** The run `r` continued with further events. */
  function ThenWith(step: (Controller, Page, Event) -> StepResult, r: Run, events: seq<Event>): Run {
    Prepend(r.sent, RunWith(step, r.controller, r.page, events))
  }

  /** Running two event sequences one after the other is running their concatenation. */
  lemma {:induction false} RunAppend(step: (Controller, Page, Event) -> StepResult,
                                     c: Controller, p: Page, a: seq<Event>, b: seq<Event>)
    ensures RunWith(step, c, p, a + b) == ThenWith(step, RunWith(step, c, p, a), b)
    decreases |a|
  {
    if a == [] {
      assert a + b == b;
    } else {
      var s := step(c, p, a[0]);
      assert (a + b)[0] == a[0] && (a + b)[1..] == a[1..] + b;
      RunAppend(step, s.controller, s.page, a[1..], b);
    }
  }

  /** The controller's runs. */
  function RunEvents(c: Controller, p: Page, events: seq<Event>): Run {
    RunWith(Step, c, p, events)
  }

  /** A run is its first step followed by the run of the rest. */
  lemma RunCons(c: Controller, p: Page, e: Event, rest: seq<Event>)
    ensures var s := Step(c, p, e);
      var r := RunEvents(s.controller, s.page, rest);
      RunEvents(c, p, [e] + rest) == Prepend(if s.sent.Some? then [s.sent.value] else [], r)
  {
    assert ([e] + rest)[1..] == rest;
  }

  // ---------------------------------------------------------------------------
  // The message handler

  datatype Handled = Handled(response: Response, page: Page)

  /** Answers GET_DIFF with the change summary, GET_TEMPLATE with the field's
      text, FILL_DESCRIPTION by writing the field; every other type fails with
      "Unknown message type". Only FILL_DESCRIPTION changes the page. */
  function HandleMessage(p: Page, m: Message): (r: Handled)
    ensures r.response.success <==> (m.GetDiff? || m.GetTemplate? || m.FillDescription?)
    ensures !r.response.success ==> r.response.error == Some(UnknownMessageText)
    ensures m.GetDiff? ==> r.response.data == Text(DiffText(p))
    ensures m.GetTemplate? ==> r.response.data == Text(ExtractPRTemplate(p))
    ensures m.FillDescription? ==> r.page == FillPRDescription(p, m.description)
    ensures !m.FillDescription? ==> r.page == p
    ensures WellShaped(r.response)
  {
    match m
    case GetDiff => Handled(Succeed(Text(DiffText(p))), p)
    case GetTemplate => Handled(Succeed(Text(ExtractPRTemplate(p))), p)
    case FillDescription(d) => Handled(Succeed(NoData), FillPRDescription(p, d))
    case _ => Handled(Fail(UnknownMessageText), p)
  }

  /** A runtime message reaching the tab: answered only when the listener was registered. */
  function Receive(c: Controller, p: Page, m: Message): (r: Option<Handled>)
    ensures r.Some? <==> c.listening
    ensures r.Some? ==> r.value == HandleMessage(p, m)
  {
    if c.listening then Some(HandleMessage(p, m)) else None
  }

  // ---------------------------------------------------------------------------
  // Properties

  /** What holds of every reachable controller: without a button the state is
      idle; with one, the button is disabled exactly while loading, and the UI
      counts as injected. */
  ghost predicate Inv(c: Controller) {
    && (c.button.None? ==> c.currentState == Idle)
    && (c.button.Some? ==> (c.button.value.disabled <==> c.currentState == Loading) && c.hasInjectedUI)
  }

  lemma InitInv(p: Page)
    ensures Inv(Init(p))
  {
  }

  /** Every event preserves the invariant; the listener registration never changes. */
  lemma StepInv(c: Controller, p: Page, e: Event)
    requires Inv(c)
    ensures Inv(Step(c, p, e).controller)
    ensures Step(c, p, e).controller.listening == c.listening
  {
  }

  /** A click when the state is not idle changes nothing and sends nothing. */
  lemma ClickIgnoredUnlessIdle(c: Controller, p: Page)
    requires c.currentState != Idle
    ensures Step(c, p, Clicked) == StepResult(c, p, None)
  {
  }

  /** A revert timer sets idle unconditionally when a button exists (and re-enables it). */
  lemma RevertSetsIdle(c: Controller, p: Page)
    requires c.revertTimers > 0 && c.button.Some?
    ensures Step(c, p, RevertElapsed).controller.currentState == Idle
    ensures !Step(c, p, RevertElapsed).controller.button.value.disabled
  {
  }

  /** A reply to a request that fails leaves the field untouched; a successful
      one leaves exactly the generated description in it. */
  lemma ReplyFillsField(c: Controller, p: Page, description: string)
    requires c.inFlight > 0 && p.body.Some?
    ensures Step(c, p, Replied(Delivered(Succeed(Generated(description))))).page.body == Some(description)
    ensures forall e :: Step(c, p, Replied(Delivered(Fail(e)))).page == p
  {
  }

  /** The handler's GET_TEMPLATE answers what FILL_DESCRIPTION wrote, when the field exists. */
  lemma FillThenGetTemplate(p: Page, description: string)
    requires p.body.Some?
    ensures HandleMessage(HandleMessage(p, FillDescription(description)).page, GetTemplate).response.data
            == Text(description)
  {
  }

  /** The state a single page's interaction keeps: at most one generation
      request awaited, which happens exactly while loading; at most one revert
      timer, pending exactly while showing success or error. */
  ghost predicate SingleInteraction(c: Controller) {
    && Inv(c)
    && c.inFlight <= 1 && c.revertTimers <= 1
    && (c.inFlight == 1 <==> c.currentState == Loading)
    && (c.revertTimers == 1 <==> c.currentState == Success || c.currentState == Error)
  }

  lemma InitSingle(p: Page)
    ensures SingleInteraction(Init(p))
  {
  }

  lemma StepSingle(c: Controller, p: Page, e: Event)
    requires SingleInteraction(c) && p.url == c.currentUrl
    requires e.PageChanged? ==> e.page.url == p.url
    ensures SingleInteraction(Step(c, p, e).controller)
    ensures Step(c, p, e).controller.currentUrl == c.currentUrl && Step(c, p, e).page.url == p.url
  {
  }

  /** As long as the URL does not change, at most one generation request is
      outstanding at any time: the idle-only click guard is the only lock needed. */
  lemma {:induction false} RunSingle(c: Controller, p: Page, events: seq<Event>)
    requires SingleInteraction(c) && p.url == c.currentUrl
    requires forall i :: 0 <= i < |events| && events[i].PageChanged? ==> events[i].page.url == p.url
    ensures SingleInteraction(RunEvents(c, p, events).controller)
    ensures RunEvents(c, p, events).controller.inFlight <= 1
    decreases |events|
  {
    if events != [] {
      StepSingle(c, p, events[0]);
      var s := Step(c, p, events[0]);
      RunSingle(s.controller, s.page, events[1..]);
    }
  }

  /** No run changes whether the listener is registered. */
  lemma {:induction false} RunKeepsListening(c: Controller, p: Page, events: seq<Event>)
    ensures RunEvents(c, p, events).controller.listening == c.listening
    decreases |events|
  {
    if events != [] {
      var s := Step(c, p, events[0]);
      RunKeepsListening(s.controller, s.page, events[1..]);
    }
  }

  /** A tab that started on an ineligible page never answers runtime messages,
      even after navigating to a page that gets the button. */
  lemma NeverListensAfterIneligibleStart(p: Page, events: seq<Event>, q: Page, m: Message)
    requires !IsEligible(p)
    ensures Receive(RunEvents(Init(p), p, events).controller, q, m).None?
  {
    RunKeepsListening(Init(p), p, events);
  }

  /** Navigating resets the affordance: no button, idle, not injected, and
      eligibility re-detected; an eligible new page later gets a fresh, enabled
      button in the idle state. */
  lemma NavigationResets(c: Controller, p: Page)
    requires p.url != c.currentUrl && p.body.Some?
    ensures var c1 := Step(c, p, DomMutated).controller;
      && c1.button.None? && c1.currentState == Idle && !c1.hasInjectedUI && c1.isComparePage
      && var c2 := Step(c1, p, InjectElapsed).controller;
         c2.button == Some(Button(false, "")) && c2.currentState == Idle && c2.hasInjectedUI
  {
  }
}

/** Two runs showing that tearing the affordance down on navigation does not
    cancel the timers and awaited replies of the previous page. Each is put
    together from stages that hold for any controller meeting their requires. */
module ContentScriptTraces {
  import opened JsText
  import opened HostPage
  import opened Protocol
  import opened ContentScript

  const Reply1 := Replied(Delivered(Succeed(Generated("first"))))

  /** The end of a run made of two parts is the end of the second part run from the end of the first. */
  lemma Compose(c: Controller, p: Page, x: seq<Event>, y: seq<Event>)
    ensures var rx := RunEvents(c, p, x);
      var ry := RunEvents(rx.controller, rx.page, y);
      var rxy := RunEvents(c, p, x + y);
      rxy.controller == ry.controller && rxy.page == ry.page && |rxy.sent| == |rx.sent| + |ry.sent|
  {
    RunAppend(Step, c, p, x, y);
  }

  /** Start on an eligible page with the body field, let the button appear, click it. */
  lemma ClickStage(p: Page)
    requires p.body.Some?
    ensures var run := RunEvents(Init(p), p, [InjectElapsed, Clicked]);
      && run.controller.currentState == Loading && run.controller.button.Some?
      && run.controller.inFlight == 1 && run.controller.revertTimers == 0
      && run.controller.currentUrl == p.url && run.page == p && |run.sent| == 1
  {
    var s1 := Step(Init(p), p, InjectElapsed);
    var s2 := Step(s1.controller, s1.page, Clicked);
    assert s2.controller.inFlight == 1;
    assert [InjectElapsed, Clicked] == [InjectElapsed] + [Clicked] && [Clicked] == [Clicked] + [];
    RunCons(Init(p), p, InjectElapsed, [Clicked]);
    RunCons(s1.controller, s1.page, Clicked, []);
  }

  /** A successful reply while a button exists: the field is filled, success is
      shown and a revert timer is pending. */
  lemma ReplyStage(c: Controller, p: Page)
    requires c.inFlight >= 1 && c.button.Some? && p.body.Some?
    ensures var run := RunEvents(c, p, [Reply1]);
      && run.controller.currentState == Success && run.controller.button.Some?
      && run.controller.inFlight == c.inFlight - 1 && run.controller.revertTimers == c.revertTimers + 1
      && run.controller.currentUrl == c.currentUrl && run.page == p.(body := Some("first")) && run.sent == []
  {
    assert [Reply1] == [Reply1] + [];
    RunCons(c, p, Reply1, []);
  }

  /** Navigate to another page with the body field and let its button appear:
      a fresh idle button, with the earlier timers and awaited replies untouched. */
  lemma NavigateStage(c: Controller, p: Page, q: Page)
    requires q.url != c.currentUrl && q.body.Some?
    ensures var run := RunEvents(c, p, [PageChanged(q), DomMutated, InjectElapsed]);
      && run.controller.button == Some(Button(false, "")) && run.controller.currentState == Idle
      && run.controller.inFlight == c.inFlight && run.controller.revertTimers == c.revertTimers
      && run.controller.currentUrl == q.url && run.page == q && run.sent == []
  {
    var s1 := Step(c, p, PageChanged(q));
    var s2 := Step(s1.controller, s1.page, DomMutated);
    var s3 := Step(s2.controller, s2.page, InjectElapsed);
    assert [PageChanged(q), DomMutated, InjectElapsed] == [PageChanged(q)] + [DomMutated, InjectElapsed];
    assert [DomMutated, InjectElapsed] == [DomMutated] + [InjectElapsed];
    assert [InjectElapsed] == [InjectElapsed] + [];
    RunCons(c, p, PageChanged(q), [DomMutated, InjectElapsed]);
    RunCons(s1.controller, s1.page, DomMutated, [InjectElapsed]);
    RunCons(s2.controller, s2.page, InjectElapsed, []);
  }

  /** With an idle button and a stale revert timer pending: click, the stale
      timer fires and re-enables the button mid-request, click again. */
  lemma DoubleClickStage(c: Controller, p: Page)
    requires c.button.Some? && c.currentState == Idle && c.revertTimers >= 1
    ensures var run := RunEvents(c, p, [Clicked, RevertElapsed, Clicked]);
      run.controller.inFlight == c.inFlight + 2 && run.controller.currentState == Loading && |run.sent| == 2
  {
    var s1 := Step(c, p, Clicked);
    var s2 := Step(s1.controller, s1.page, RevertElapsed);
    var s3 := Step(s2.controller, s2.page, Clicked);
    assert s2.controller.currentState == Idle && s2.controller.inFlight == c.inFlight + 1;
    assert [Clicked, RevertElapsed, Clicked] == [Clicked] + [RevertElapsed, Clicked];
    assert [RevertElapsed, Clicked] == [RevertElapsed] + [Clicked];
    assert [Clicked] == [Clicked] + [];
    RunCons(c, p, Clicked, [RevertElapsed, Clicked]);
    RunCons(s1.controller, s1.page, RevertElapsed, [Clicked]);
    RunCons(s2.controller, s2.page, Clicked, []);
  }

  /** A success shown on the first page leaves a revert timer behind; after
      navigating and clicking on the second page that stale timer re-enables
      the button while its request is still awaited, so a second click sends a
      second request: two generation requests are then outstanding, which a
      run without navigation never reaches (ContentScript.RunSingle). */
  lemma StaleRevertAllowsSecondRequest(first: Page, second: Page)
    requires first.body.Some? && second.body.Some? && first.url != second.url
    ensures var run := RunEvents(Init(first), first,
      [InjectElapsed, Clicked] + [Reply1] + [PageChanged(second), DomMutated, InjectElapsed] + [Clicked, RevertElapsed, Clicked]);
      run.controller.inFlight == 2 && run.controller.currentState == Loading && |run.sent| == 3
  {
    var a := [InjectElapsed, Clicked];
    var b := [Reply1];
    var d := [PageChanged(second), DomMutated, InjectElapsed];
    var e := [Clicked, RevertElapsed, Clicked];
    ClickStage(first);
    var ra := RunEvents(Init(first), first, a);
    ReplyStage(ra.controller, ra.page);
    var rb := RunEvents(ra.controller, ra.page, b);
    NavigateStage(rb.controller, rb.page, second);
    var rd := RunEvents(rb.controller, rb.page, d);
    DoubleClickStage(rd.controller, rd.page);
    Compose(Init(first), first, a, b);
    Compose(Init(first), first, a + b, d);
    Compose(Init(first), first, a + b + d, e);
  }

  /** A reply to a request made on the first page, arriving after navigation,
      writes its description into the second page's field and shows success on
      the second page's button. */
  lemma StaleReplyFillsNextPage(first: Page, second: Page)
    requires first.body.Some? && second.body.Some? && first.url != second.url
    ensures var run := RunEvents(Init(first), first,
      [InjectElapsed, Clicked] + [PageChanged(second), DomMutated, InjectElapsed] + [Reply1]);
      run.page == second.(body := Some("first")) && run.controller.currentState == Success
  {
    var a := [InjectElapsed, Clicked];
    var d := [PageChanged(second), DomMutated, InjectElapsed];
    var b := [Reply1];
    ClickStage(first);
    var ra := RunEvents(Init(first), first, a);
    NavigateStage(ra.controller, ra.page, second);
    var rd := RunEvents(ra.controller, ra.page, d);
    ReplyStage(rd.controller, rd.page);
    Compose(Init(first), first, a, d);
    Compose(Init(first), first, a + d, b);
  }
}
