/**
 * The browser driver: the one automation session (its three fields and the
 * start/close transitions between them), the first-match-wins selector
 * probing of `send_message`, and the two polling helpers.
 *
 * The browser is not modelled. A `Page` stands for what the browser answers
 * to each CSS-selector lookup; the process manager's answer during
 * `start_session` is a `Launch`. Wall-clock time becomes a tick count.
 */
module Drivers {
  import opened Common

  /** settings.timeout: the seconds a WebDriverWait is built with. */
  const Timeout: nat := 30

  /** The canned reply `send_message` returns whenever an element cannot be found or anything fails. */
  const Placeholder := "ChatGPT API からの模擬応答です。"

  /** The text of the RuntimeError `send_message` raises on an inactive session. */
  const NotActiveMessage := "WebDriver session is not active"

  const TextareaSelectors: seq<string> :=
    ["#prompt-textarea", "textarea[data-id='root']", "textarea[placeholder*='message']", "textarea"]

  const SendButtonSelectors: seq<string> :=
    ["button[data-testid='send-button']", "button[aria-label*='Send']", "button[title*='Send']", "button:has(svg)"]

  const ResponseSelectors: seq<string> :=
    [ "[data-message-author-role='assistant']:last-child .prose", "[data-testid='conversation-turn-3'] .prose",
      ".group\\/conversation-turn .prose", ".prose"]

  const IndicatorSelectors: seq<string> :=
    [ "[data-message-author-role='assistant']", ".result-streaming", "[class*='streaming']",
      "[class*='generating']", ".cursor-blink"]

  const WaitSelectors: seq<string> :=
    ["[data-message-author-role='assistant']", ".markdown", "[class*='message']", "[role='presentation']"]

  /** _wait_for_response gives up after this many one-second polling rounds. */
  const MaxWaitSeconds: nat := 60

  // ---------------------------------------------------------------------------
  // The external handles and the page
  // ---------------------------------------------------------------------------

  /** The Selenium driver inside the wrapper; `sessionId` is absent or None when the browser session is gone. */
  datatype WebDriver = WebDriver(sessionId: Option<string>)

  /** The process-wide wrapper the process manager hands out; it may hold no driver. */
  datatype SeleniumWrapper = SeleniumWrapper(driver: Option<WebDriver>)

  /** A WebDriverWait bound to a driver. */
  datatype Wait = Wait(driver: WebDriver, timeout: nat)

  /**
   * What happens during start_session outside this class: the wrapper the
   * process manager returns (or the exception it raises), and whether
   * opening the chat URL and waiting for `body` succeed.
   */
  datatype Launch = Launch(instance: Result<Option<SeleniumWrapper>>, pageLoads: bool)

  /** An element as the probing code sees it. */
  datatype Element = Element(displayed: bool, enabled: bool, text: string)

  /**
   * The answer to a single-element lookup: the element, the exception the
   * probing loop catches and skips (`Missing`), or any other exception,
   * which leaves the loop (`Broken`).
   */
  datatype Lookup = Found(element: Element) | Missing | Broken

  /**
   * The answer to `find_elements`: the elements in document order, a stale
   * reference while reading them, or any other exception.
   */
  datatype Listing = Listed(elements: seq<Element>) | Stale | Failed

  /**
   * A snapshot of the remote page: how each selector resolves for a single
   * element and for all elements, and whether typing into the input and
   * clicking the send button succeed.
   */
  datatype Page = Page(locate: string -> Lookup, list: string -> Listing, acceptsKeys: bool, acceptsClick: bool)

  /** What send_message did to the page, in order. */
  datatype Action = Typed(text: string) | Clicked

  // ---------------------------------------------------------------------------
  // First-match-wins probing
  // ---------------------------------------------------------------------------

  /** The outcome of probing an ordered selector list. */
  datatype Probe = Hit(element: Element) | NoHit | Aborted

  /** The lookup is skipped over: nothing found, or found but not acceptable. */
  predicate Passed(l: Lookup, acceptable: Element -> bool) {
    l.Missing? || (l.Found? && !acceptable(l.element))
  }

  predicate AllPassed(selectors: seq<string>, lookup: string -> Lookup, acceptable: Element -> bool) {
    forall i :: 0 <= i < |selectors| ==> Passed(lookup(selectors[i]), acceptable)
  }

  /** Selector `i` answers `l` and every selector before it was skipped over. */
  predicate FirstAt(selectors: seq<string>, lookup: string -> Lookup, acceptable: Element -> bool, i: int, l: Lookup) {
    0 <= i < |selectors| && lookup(selectors[i]) == l && AllPassed(selectors[..i], lookup, acceptable)
  }

  /**
   * Tries the selectors in order: the first acceptable element wins; an
   * escaping exception ends the search.
   */
  function FirstUsable(selectors: seq<string>, lookup: string -> Lookup, acceptable: Element -> bool): (r: Probe)
    ensures r.Hit? ==> acceptable(r.element)
    decreases |selectors|
  {
    if selectors == [] then NoHit
    else if Passed(lookup(selectors[0]), acceptable) then FirstUsable(selectors[1..], lookup, acceptable)
    else
      match lookup(selectors[0])
      case Broken => Aborted
      case Found(e) => Hit(e)
  }

  /**
   * The probe's answer is the first selector's that is not skipped over: a
   * hit is the element found there, an abort the exception raised there,
   * and no hit means every selector was skipped over.
   */
  lemma {:induction false} FirstUsableIsFirst(selectors: seq<string>, lookup: string -> Lookup, acceptable: Element -> bool)
    ensures FirstUsable(selectors, lookup, acceptable).Hit? ==>
      exists i :: FirstAt(selectors, lookup, acceptable, i, Found(FirstUsable(selectors, lookup, acceptable).element))
    ensures FirstUsable(selectors, lookup, acceptable).NoHit? <==> AllPassed(selectors, lookup, acceptable)
    ensures FirstUsable(selectors, lookup, acceptable).Aborted? ==> exists i :: FirstAt(selectors, lookup, acceptable, i, Broken)
    decreases |selectors|
  {
    if selectors != [] {
      var rest := FirstUsable(selectors[1..], lookup, acceptable);
      FirstUsableIsFirst(selectors[1..], lookup, acceptable);
      assert forall i :: 0 <= i < |selectors| - 1 ==> selectors[1..][i] == selectors[i + 1];
      if Passed(lookup(selectors[0]), acceptable) {
        if rest.Hit? {
          var i :| FirstAt(selectors[1..], lookup, acceptable, i, Found(rest.element));
          FirstAtShift(selectors, lookup, acceptable, i, Found(rest.element));
        }
        if rest.Aborted? {
          var i :| FirstAt(selectors[1..], lookup, acceptable, i, Broken);
          FirstAtShift(selectors, lookup, acceptable, i, Broken);
        }
      } else {
        assert FirstAt(selectors, lookup, acceptable, 0, lookup(selectors[0]));
      }
    }
  }

  /** A match in the tail, after a skipped first selector, is a match in the whole list. */
  lemma FirstAtShift(selectors: seq<string>, lookup: string -> Lookup, acceptable: Element -> bool, i: int, l: Lookup)
    requires selectors != [] && Passed(lookup(selectors[0]), acceptable)
    requires FirstAt(selectors[1..], lookup, acceptable, i, l)
    ensures FirstAt(selectors, lookup, acceptable, i + 1, l)
  {
    assert selectors[1..][..i] == selectors[1..i + 1];
  }

  /**
   * The probing loop of send_message: tries each selector in turn, stops at
   * the first acceptable element, skips what the loop catches, and gives up
   * on an escaping exception.
   */
  method ProbeSelectors(selectors: seq<string>, lookup: string -> Lookup, acceptable: Element -> bool) returns (r: Probe)
    ensures r == FirstUsable(selectors, lookup, acceptable)
  {
    var i := 0;
    while i < |selectors|
      invariant 0 <= i <= |selectors|
      invariant FirstUsable(selectors, lookup, acceptable) == FirstUsable(selectors[i..], lookup, acceptable)
    {
      assert selectors[i..][1..] == selectors[i + 1..];
      var found := lookup(selectors[i]);
      if found.Broken? {
        return Aborted;
      }
      if found.Found? && acceptable(found.element) {
        return Hit(found.element);
      }
      i := i + 1;
    }
    return NoHit;
  }

  /** An input or a button can be used: displayed and enabled. */
  predicate Interactable(e: Element) {
    e.displayed && e.enabled
  }

  /** A response element carries text once whitespace is stripped: `Strip(e.text) != ""`. */
  predicate HasText(e: Element) {
    !IsBlank(e.text)
  }

  /**
   * How send_message reads one response selector: the last listed element;
   * an empty list or a stale reference is skipped; any other failure escapes.
   */
  function LastListed(l: Listing): Lookup {
    match l
    case Listed(es) => if |es| > 0 then Found(es[|es| - 1]) else Missing
    case Stale => Missing
    case Failed => Broken
  }

  /** How the polling helpers read one selector: every failure is swallowed. */
  function LastListedQuietly(l: Listing): (r: Lookup)
    ensures r != Broken
  {
    if l.Listed? && |l.elements| > 0 then Found(l.elements[|l.elements| - 1]) else Missing
  }

  /** The non-empty element list that `_check_response_started` looks for. */
  predicate ListsSomething(l: Listing) {
    l.Listed? && |l.elements| > 0
  }

  // ---------------------------------------------------------------------------
  // What send_message does on an active session
  // ---------------------------------------------------------------------------

  datatype Exchange = Exchange(reply: string, trace: seq<Action>)

  function InputProbe(page: Page): Probe {
    FirstUsable(TextareaSelectors, page.locate, Interactable)
  }

  function ButtonProbe(page: Page): Probe {
    FirstUsable(SendButtonSelectors, page.locate, Interactable)
  }

  /** The lookup send_message applies to each response selector on one page. */
  function ListedLookup(page: Page): string -> Lookup {
    s => LastListed(page.list(s))
  }

  function ResponseProbe(page: Page): Probe {
    FirstUsable(ResponseSelectors, ListedLookup(page), HasText)
  }

  /** An input box was found, there is text to type, and typing succeeds. */
  predicate Types(message: Option<string>, page: Page) {
    InputProbe(page).Hit? && message.Some? && page.acceptsKeys
  }

  /** The message is typed, a send button was found, and clicking it succeeds. */
  predicate Clicks(message: Option<string>, page: Page) {
    Types(message, page) && ButtonProbe(page).Hit? && page.acceptsClick
  }

  /**
   * The reply and the page actions of send_message on an active session.
   * The reply is never empty: either the stripped text of a response
   * element or the placeholder. Text is typed only into an input the probe
   * found, and a click happens only on a button the probe found, after the
   * message was typed.
   */
  function SendOutcome(message: Option<string>, page: Page): (x: Exchange)
    ensures x.reply != ""
    ensures Types(message, page) ==> x.trace != [] && x.trace[0] == Typed(message.value)
    ensures Clicks(message, page) ==> x.trace == [Typed(message.value), Clicked]
    ensures Clicks(message, page) && ResponseProbe(page).Hit? ==> x.reply == Strip(ResponseProbe(page).element.text)
    ensures Clicks(message, page) && !ResponseProbe(page).Hit? ==> x.reply == Placeholder
    ensures !Clicks(message, page) ==> x.reply == Placeholder
    ensures !Types(message, page) ==> x.trace == []
    ensures Types(message, page) && !Clicks(message, page) ==> x.trace == [Typed(message.value)]
    ensures x.reply == Placeholder || (ResponseProbe(page).Hit? && x.reply == Strip(ResponseProbe(page).element.text))
    ensures x.trace != [] ==> InputProbe(page).Hit? && message.Some? && x.trace[0] == Typed(message.value)
    ensures Clicked in x.trace ==> ButtonProbe(page).Hit? && x.trace == [Typed(message.value), Clicked]
    ensures !InputProbe(page).Hit? ==> x == Exchange(Placeholder, [])
    ensures x.reply != Placeholder ==> Clicked in x.trace
  {
    if !Types(message, page) then
      Exchange(Placeholder, [])
    else
      var typed := [Typed(message.value)];
      if !Clicks(message, page) then
        Exchange(Placeholder, typed)
      else
        var sent := typed + [Clicked];
        match ResponseProbe(page)
        case Hit(e) => Exchange(Strip(e.text), sent)
        case _ => Exchange(Placeholder, sent)
  }

  /** The lookup of the polling helpers on one page. */
  function QuietLookup(page: Page): string -> Lookup {
    s => LastListedQuietly(page.list(s))
  }

  /**
   * One polling round of _wait_for_response on one page: the first selector
   * whose last element has text. A failing lookup never ends the round.
   */
  function RoundProbe(page: Page): Probe {
    FirstUsable(WaitSelectors, QuietLookup(page), HasText)
  }

  /**
   * The polling rounds from `t` on, round `u` seeing the page `ticks(u)`,
   * until the 60-second budget is spent: the element of the first round
   * that finds text, or None when no round does.
   */
  function FirstHit(ticks: nat -> Page, t: nat): (r: Option<Element>)
    ensures r.Some? ==> HasText(r.value)
    decreases MaxWaitSeconds - t
  {
    if t >= MaxWaitSeconds then None
    else if RoundProbe(ticks(t)).Hit? then Some(RoundProbe(ticks(t)).element)
    else FirstHit(ticks, t + 1)
  }

  /**
   * The outcome is the element of the first round from `t` on that finds
   * text, and None exactly when no round before the budget runs out does.
   */
  lemma {:induction false} FirstHitIsFirst(ticks: nat -> Page, t: nat)
    ensures FirstHit(ticks, t).Some? ==>
      exists u :: t <= u < MaxWaitSeconds && RoundProbe(ticks(u)) == Hit(FirstHit(ticks, t).value) && NoHitBetween(ticks, t, u)
    ensures FirstHit(ticks, t).None? <==> NoHitBetween(ticks, t, MaxWaitSeconds)
    decreases MaxWaitSeconds - t
  {
    if t < MaxWaitSeconds && !RoundProbe(ticks(t)).Hit? {
      FirstHitIsFirst(ticks, t + 1);
    }
  }

  /** No polling round from `t` up to (not including) `u` finds text. */
  predicate NoHitBetween(ticks: nat -> Page, t: nat, u: nat) {
    forall v :: t <= v < u ==> !RoundProbe(ticks(v)).Hit?
  }

  /** What _wait_for_response returns when the driver is there: the first text found, stripped. */
  function WaitOutcome(ticks: nat -> Page): (r: Option<string>)
    ensures r.Some? ==> r.value != "" && !IsSpace(r.value[0]) && !IsSpace(r.value[|r.value| - 1])
    ensures r.None? <==> FirstHit(ticks, 0).None?
    ensures r.Some? ==> FirstHit(ticks, 0).Some? && r.value == Strip(FirstHit(ticks, 0).value.text)
  {
    match FirstHit(ticks, 0)
    case Some(e) => Some(Strip(e.text))
    case None => None
  }

  /** The polling loop of _wait_for_response: one round per tick until text is found or the budget is spent. */
  method PollRounds(ticks: nat -> Page) returns (hit: Option<Element>)
    ensures hit == FirstHit(ticks, 0)
  {
    var t: nat := 0;
    while t < MaxWaitSeconds
      invariant t <= MaxWaitSeconds
      invariant FirstHit(ticks, 0) == FirstHit(ticks, t)
    {
      var latest := ProbeSelectors(WaitSelectors, QuietLookup(ticks(t)), HasText);
      if latest.Hit? {
        return Some(latest.element);
      }
      t := t + 1;
    }
    return None;
  }

  // ---------------------------------------------------------------------------
  // Session state and its transitions
  // ---------------------------------------------------------------------------

  /** The three fields of the driver: selenium_wrapper, wait and _session_active. */
  datatype DriverState = DriverState(wrapper: Option<SeleniumWrapper>, wait: Option<Wait>, sessionActive: bool)

  /** is_session_active: the flag is set and the wrapper holds a driver with a session id. */
  predicate Live(s: DriverState) {
    && s.sessionActive
    && s.wrapper.Some?
    && s.wrapper.value.driver.Some?
    && s.wrapper.value.driver.value.sessionId.Some?
  }

  /**
   * close_session: with a wrapper, all three fields are cleared; without one,
   * nothing changes. Either way the session is no longer live.
   */
  function CloseTransition(s: DriverState): (r: DriverState)
    ensures !Live(r)
    ensures s.wrapper.None? ==> r == s
    ensures s.wrapper.Some? ==> r.wrapper.None? && r.wait.None? && !r.sessionActive
  {
    if s.wrapper.Some? then DriverState(None, None, false) else s
  }

  /** Closing is idempotent. */
  lemma CloseIdempotent(s: DriverState)
    ensures CloseTransition(CloseTransition(s)) == CloseTransition(s)
  {
  }

  datatype StartOutcome = StartOutcome(state: DriverState, ok: bool)

  /**
   * start_session. Success exactly when the process manager returns a
   * wrapper holding a driver and the page loads; only that path sets the
   * flag. A missing wrapper or driver leaves the flag and the wait as they
   * were; an exception runs close_session.
   */
  function StartTransition(s: DriverState, launch: Launch): (r: StartOutcome)
    ensures r.ok <==> (launch.instance.Ok? && launch.instance.value.Some?
      && launch.instance.value.value.driver.Some? && launch.pageLoads)
    ensures r.ok ==> (r.state.sessionActive && r.state.wrapper == launch.instance.value
      && r.state.wait == Some(Wait(r.state.wrapper.value.driver.value, Timeout)))
    ensures r.ok ==> (Live(r.state) <==> r.state.wrapper.value.driver.value.sessionId.Some?)
    ensures launch.instance.Ok? && (launch.instance.value.None? || launch.instance.value.value.driver.None?)
      ==> r.state == s.(wrapper := launch.instance.value)
    ensures launch.instance.Raised? ==> r.state == CloseTransition(s)
    ensures (launch.instance.Ok? && launch.instance.value.Some? && launch.instance.value.value.driver.Some?
      && !launch.pageLoads) ==> r.state == DriverState(None, None, false)
  {
    match launch.instance
    case Raised(_) => StartOutcome(CloseTransition(s), false)
    case Ok(w) =>
      if w.Some? && w.value.driver.Some? then
        var waiting := s.(wrapper := w, wait := Some(Wait(w.value.driver.value, Timeout)));
        if launch.pageLoads then StartOutcome(waiting.(sessionActive := true), true)
        else StartOutcome(CloseTransition(waiting), false)
      else
        StartOutcome(s.(wrapper := w), false)
  }

  /** A failed start never leaves a live session behind. */
  lemma FailedStartNotLive(s: DriverState, launch: Launch)
    requires !StartTransition(s, launch).ok
    ensures !Live(StartTransition(s, launch).state)
  {
  }

  // ---------------------------------------------------------------------------
  // The driver object
  // ---------------------------------------------------------------------------

  class ChatGPTDriver {
    var seleniumWrapper: Option<SeleniumWrapper>
    var wait: Option<Wait>
    var sessionActive: bool

    function State(): DriverState
      reads this
    {
      DriverState(seleniumWrapper, wait, sessionActive)
    }

    /** A new driver holds no wrapper and no wait, and is inactive. */
    constructor ()
      ensures State() == DriverState(None, None, false)
      ensures !IsSessionActive()
    {
      seleniumWrapper := None;
      wait := None;
      sessionActive := false;
    }

    /** is_session_active: the flag, the wrapper, its driver and the driver's session id are all there. */
    predicate IsSessionActive()
      reads this
      ensures IsSessionActive() <==> (sessionActive && seleniumWrapper.Some? && seleniumWrapper.value.driver.Some?
        && seleniumWrapper.value.driver.value.sessionId.Some?)
    {
      Live(State())
    }

    /** close_session. */
    method CloseSession()
      modifies this
      ensures State() == CloseTransition(old(State()))
      ensures !IsSessionActive()
    {
      if seleniumWrapper.Some? {
        seleniumWrapper := None;
        wait := None;
        sessionActive := false;
      }
    }

    /** start_session, with the process manager's answer and the page load given by `launch`. */
    method StartSession(launch: Launch) returns (ok: bool)
      modifies this
      ensures StartOutcome(State(), ok) == StartTransition(old(State()), launch)
      ensures ok ==> sessionActive
    {
      match launch.instance {
        case Raised(_) =>
          CloseSession();
          return false;
        case Ok(w) =>
          seleniumWrapper := w;
          if w.Some? && w.value.driver.Some? {
            wait := Some(Wait(w.value.driver.value, Timeout));
            if !launch.pageLoads {
              CloseSession();
              return false;
            }
            sessionActive := true;
            return true;
          } else {
            return false;
          }
      }
    }

    /**
     * send_message. On an inactive session it raises before touching the
     * page. Otherwise it probes the input, types, probes the send button,
     * clicks, and probes the response, each probe first-match-wins; every
     * failed probe and every escaping exception yields the placeholder, so
     * the reply is never empty and nothing is raised.
     */
    method SendMessage(message: Option<string>, page: Page) returns (reply: Result<string>, trace: seq<Action>)
      ensures !IsSessionActive() ==> reply == Raised(NotActiveMessage) && trace == []
      ensures IsSessionActive() ==> reply == Ok(SendOutcome(message, page).reply) && trace == SendOutcome(message, page).trace
      ensures IsSessionActive() ==> reply.Ok? && reply.value != ""
    {
      trace := [];
      if !IsSessionActive() {
        return Raised(NotActiveMessage), trace;
      }

      // The input area: the first displayed and enabled match.
      var textarea := ProbeSelectors(TextareaSelectors, page.locate, Interactable);
      assert textarea == InputProbe(page);
      if !textarea.Hit? {
        return Ok(Placeholder), trace;
      }
      if message.None? || !page.acceptsKeys {
        return Ok(Placeholder), trace;
      }
      trace := trace + [Typed(message.value)];

      // The send button: the first enabled and displayed match.
      var button := ProbeSelectors(SendButtonSelectors, page.locate, Interactable);
      assert button == ButtonProbe(page);
      if !button.Hit? || !page.acceptsClick {
        return Ok(Placeholder), trace;
      }
      trace := trace + [Clicked];

      // The response: the last element of the first selector whose last element has text.
      var latest := ProbeSelectors(ResponseSelectors, ListedLookup(page), HasText);
      assert latest == ResponseProbe(page);
      if !latest.Hit? {
        return Ok(Placeholder), trace;
      }
      var text := Strip(latest.element.text);
      if text == "" {
        return Ok(Placeholder), trace;
      }
      return Ok(text), trace;
    }

    /**
     * _check_response_started: some indicator selector lists at least one
     * element; a lookup that fails counts as no match, and without a
     * wrapper the answer is false.
     */
    method CheckResponseStarted(page: Page) returns (started: bool)
      ensures started <==> (seleniumWrapper.Some? && seleniumWrapper.value.driver.Some?
        && exists i :: 0 <= i < |IndicatorSelectors| && ListsSomething(page.list(IndicatorSelectors[i])))
    {
      if seleniumWrapper.None? {
        return false;
      }
      // Without a driver every lookup raises, and the loop swallows it.
      var driverMissing := seleniumWrapper.value.driver.None?;
      var i := 0;
      while i < |IndicatorSelectors|
        invariant 0 <= i <= |IndicatorSelectors|
        invariant forall j :: 0 <= j < i ==> driverMissing || !ListsSomething(page.list(IndicatorSelectors[j]))
      {
        var listing := if driverMissing then Failed else page.list(IndicatorSelectors[i]);
        if ListsSomething(listing) {
          return true;
        }
        i := i + 1;
      }
      return false;
    }

    /**
     * _wait_for_response, one polling round per second: `ticks(t)` is the
     * page during round `t`. The result is the first non-blank stripped
     * text, or None once the 60-second budget is spent.
     */
    method WaitForResponse(ticks: nat -> Page) returns (text: Option<string>)
      ensures seleniumWrapper.Some? && seleniumWrapper.value.driver.Some? ==> text == WaitOutcome(ticks)
      ensures seleniumWrapper.None? || seleniumWrapper.value.driver.None? ==> text.None?
      ensures text.Some? ==> text.value != "" && !IsSpace(text.value[0]) && !IsSpace(text.value[|text.value| - 1])
    {
      if seleniumWrapper.None? {
        return None;
      }
      if seleniumWrapper.value.driver.None? {
        // Every lookup raises and is swallowed until the budget is spent.
        return None;
      }
      var hit := PollRounds(ticks);
      if hit.Some? {
        return Some(Strip(hit.value.text));
      }
      return None;
    }
  }
}
