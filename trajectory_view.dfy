/** The trajectory modal in the browser: the content it shows (a spinner, the server's
    HTML or an error box), the expand indicators and click handlers it gives the message
    boxes of that HTML, collapsing and expanding a message, and stopping the trajectory
    polling when the modal closes. */
module TrajectoryView {
  import opened Wrappers
  import opened Text
  import opened Browser

  const Collapsed := "content-collapsed"
  const ChevronDown := "fas fa-chevron-down"
  const ChevronUp := "fas fa-chevron-up"
  const TimeoutText := "Request timed out while loading trajectory data. Please try again."
  const GenericErrorText := "Error loading trajectory data. Please try again later."
  const FetchFailedMessage := "Failed to fetch trajectory data"

  /** `toggleContent(element)`: removes `content-collapsed` when present, adds it
      otherwise. */
  function ToggleContent(classes: set<string>): (r: set<string>)
    ensures Collapsed in r <==> Collapsed !in classes
    ensures forall c :: c != Collapsed ==> (c in r <==> c in classes)
  {
    Toggle(classes, Collapsed)
  }

  /** The icon a message box shows for its content's classes. */
  function IconFor(classes: set<string>): (icon: string)
    ensures icon == ChevronDown <==> Collapsed in classes
    ensures icon == ChevronUp <==> Collapsed !in classes
  {
    if Collapsed in classes then ChevronDown else ChevronUp
  }

  /** The text of the error box for an error whose message is `message`. */
  function ErrorText(message: string): (t: string)
    ensures t == TimeoutText <==> Contains(message, "timed out")
    ensures t == GenericErrorText <==> !Contains(message, "timed out")
  {
    if Contains(message, "timed out") then TimeoutText else GenericErrorText
  }

  /** A `.message-box` of the trajectory HTML: whether it has a `.message-content`, that
      element's classes, how many expand indicators it holds, the indicator's icon and
      how many times the box handler is registered. */
  class MessageBox {
    const hasContent: bool
    var contentClasses: set<string>
    var indicators: nat
    var icon: string
    var clickHandlers: nat

    constructor (hasContent: bool, contentClasses: set<string>)
      ensures this.hasContent == hasContent && this.contentClasses == contentClasses
      ensures indicators == 0 && icon == "" && clickHandlers == 0
    {
      this.hasContent := hasContent;
      this.contentClasses := contentClasses;
      indicators := 0;
      icon := "";
      clickHandlers := 0;
    }

    /** The indicator's icon says whether the content is collapsed. */
    predicate IconSynced()
      reads this
    {
      indicators > 0 ==> icon == IconFor(contentClasses)
    }

    /** The per-box click handler and the document click handler do the same: toggle the
        content and set the icon to match it. */
    method HandleClick()
      modifies this
      ensures hasContent ==> contentClasses == ToggleContent(old(contentClasses))
      ensures !hasContent ==> contentClasses == old(contentClasses) && icon == old(icon)
      ensures hasContent ==> IconSynced()
      ensures hasContent && indicators == 0 ==> icon == old(icon)
      ensures indicators == old(indicators) && clickHandlers == old(clickHandlers)
    {
      if hasContent {
        contentClasses := ToggleContent(contentClasses);
        if indicators > 0 {
          icon := IconFor(contentClasses);
        }
      }
    }

    /** A click on the box: its own handler (when registered) runs, then the event
        reaches the document's handler. With both in place the two toggles cancel out. */
    method Click()
      modifies this
      ensures clickHandlers > 0 ==> contentClasses == old(contentClasses)
      ensures clickHandlers == 0 && hasContent ==> contentClasses == ToggleContent(old(contentClasses))
      ensures hasContent ==> IconSynced()
      ensures indicators == old(indicators) && clickHandlers == old(clickHandlers)
    {
      if clickHandlers > 0 {
        HandleClick();
        HandleClick();
        ToggleTwice(old(contentClasses), Collapsed);
      } else {
        HandleClick();
      }
    }

    /** A click as the two handlers are evidently meant to work: the content is toggled
        once, by whichever handler the event reaches first. */
    method ClickCorrected()
      modifies this
      ensures hasContent ==> contentClasses == ToggleContent(old(contentClasses)) && IconSynced()
      ensures hasContent ==> (Collapsed in contentClasses <==> Collapsed !in old(contentClasses))
      ensures !hasContent ==> contentClasses == old(contentClasses)
      ensures indicators == old(indicators) && clickHandlers == old(clickHandlers)
    {
      HandleClick();
    }
  }

  /** The forEach over the message boxes after new content is loaded: a box is given an
      expand indicator (pointing down) if it has none, and its click handler is removed
      and added again, so it is registered once. */
  method EnhanceMessageBoxes(boxes: seq<MessageBox>)
    modifies set b | b in boxes
    ensures forall b :: b in boxes ==> b.indicators == (if old(b.indicators) == 0 then 1 else old(b.indicators))
    ensures forall b :: b in boxes ==> b.icon == (if old(b.indicators) == 0 then ChevronDown else old(b.icon))
    ensures forall b :: b in boxes ==> b.clickHandlers == 1
    ensures forall b :: b in boxes ==> b.contentClasses == old(b.contentClasses)
  {
    for i := 0 to |boxes|
      invariant forall b :: b in boxes[..i] ==> b.clickHandlers == 1
      invariant forall b :: b in boxes ==>
        b.indicators == (if old(b.indicators) == 0 && b in boxes[..i] then 1 else old(b.indicators))
      invariant forall b :: b in boxes ==>
        b.icon == (if old(b.indicators) == 0 && b in boxes[..i] then ChevronDown else old(b.icon))
      invariant forall b :: b in boxes ==> b.contentClasses == old(b.contentClasses)
    {
      var box := boxes[i];
      assert boxes[..i + 1] == boxes[..i] + [box];
      if box.indicators == 0 {
        box.indicators := 1;
        box.icon := ChevronDown;
      }
      box.clickHandlers := 1;
    }
  }

  /** What `#trajectoryContent` shows. */
  datatype Content = Empty | Spinner | Html(html: string) | ErrorBox(text: string)

  /** How fetching `/api/trajectory-html` ended: it threw with a message, or a response
      arrived with its status flag and text. */
  datatype FetchOutcome = FetchThrew(message: string) | Fetched(ok: bool, text: string)

  /** The page's part in the trajectory modal: the content area, the global polling
      interval shared with the chat page, the body's classes and backdrops, and the
      timers and listeners the modal schedules. */
  class TrajectoryPage {
    var content: Content
    var pollingInterval: Option<nat>
    var clearedIntervals: seq<nat>
    var bodyClasses: set<string>
    var backdrops: nat
    var hiddenListeners: nat
    var pendingLoads: nat
    var pendingEnhance: nat

    constructor (pollingInterval: Option<nat>, bodyClasses: set<string>, backdrops: nat)
      ensures content == Empty && this.pollingInterval == pollingInterval && clearedIntervals == []
      ensures this.bodyClasses == bodyClasses && this.backdrops == backdrops
      ensures hiddenListeners == 0 && pendingLoads == 0 && pendingEnhance == 0
    {
      content := Empty;
      this.pollingInterval := pollingInterval;
      clearedIntervals := [];
      this.bodyClasses := bodyClasses;
      this.backdrops := backdrops;
      hiddenListeners := 0;
      pendingLoads := 0;
      pendingEnhance := 0;
    }

    /** `showTrajectoryModal`: backdrops and `modal-open` go, a clean-up listener for
        closing is added, the spinner is shown and a load is scheduled. The page is taken
        to hold `#trajectoryModal` and `#trajectoryContent`, as the page template does;
        on a page without the content area the source would throw at its `style`, after
        the listener is added and the modal shown, and that case is not modelled. */
    method ShowTrajectoryModal()
      modifies this
      ensures backdrops == 0 && "modal-open" !in bodyClasses
      ensures bodyClasses == old(bodyClasses) - {"modal-open"}
      ensures content == Spinner && pendingLoads == old(pendingLoads) + 1
      ensures hiddenListeners == old(hiddenListeners) + 1
      ensures pollingInterval == old(pollingInterval) && clearedIntervals == old(clearedIntervals)
      ensures pendingEnhance == old(pendingEnhance)
    {
      backdrops := 0;
      bodyClasses := bodyClasses - {"modal-open"};
      hiddenListeners := hiddenListeners + 1;
      content := Spinner;
      pendingLoads := pendingLoads + 1;
    }

    /** The modal's `hidden` event: a running polling interval is cleared and dropped,
        and the backdrops and `modal-open` are removed again. */
    method ModalHidden()
      requires hiddenListeners > 0
      modifies this
      ensures pollingInterval == None
      ensures clearedIntervals == old(clearedIntervals) + (if old(pollingInterval).Some? then [old(pollingInterval).value] else [])
      ensures backdrops == 0 && bodyClasses == old(bodyClasses) - {"modal-open"}
      ensures content == old(content) && hiddenListeners == old(hiddenListeners)
      ensures pendingLoads == old(pendingLoads) && pendingEnhance == old(pendingEnhance)
    {
      if pollingInterval.Some? {
        clearedIntervals := clearedIntervals + [pollingInterval.value];
        pollingInterval := None;
      }
      backdrops := 0;
      bodyClasses := bodyClasses - {"modal-open"};
    }

    /** `loadTrajectoryContent`: nothing when the content area is gone; otherwise the
        fetched HTML replaces the content and the message boxes are enhanced later, and a
        failure shows the timeout text when its message mentions a timeout and the
        generic text otherwise. */
    method LoadTrajectoryContent(hasContainer: bool, outcome: FetchOutcome)
      modifies this
      ensures !hasContainer ==> content == old(content) && pendingEnhance == old(pendingEnhance)
      ensures hasContainer && outcome.Fetched? && outcome.ok ==>
        content == Html(outcome.text) && pendingEnhance == old(pendingEnhance) + 1
      ensures hasContainer && outcome.Fetched? && !outcome.ok ==>
        content == ErrorBox(GenericErrorText) && pendingEnhance == old(pendingEnhance)
      ensures hasContainer && outcome.FetchThrew? ==>
        content == ErrorBox(ErrorText(outcome.message)) && pendingEnhance == old(pendingEnhance)
      ensures pollingInterval == old(pollingInterval) && clearedIntervals == old(clearedIntervals)
      ensures pendingLoads == old(pendingLoads) && hiddenListeners == old(hiddenListeners)
    {
      if !hasContainer {
        return;
      }
      match outcome {
        case Fetched(ok, text) =>
          if ok {
            content := Html(text);
            pendingEnhance := pendingEnhance + 1;
          } else {
            FetchFailedNotTimeout();
            content := ErrorBox(ErrorText(FetchFailedMessage));
          }
        case FetchThrew(message) =>
          content := ErrorBox(ErrorText(message));
      }
    }

    /** The load timer 100 ms after the modal opens. */
    method FireLoad(hasContainer: bool, outcome: FetchOutcome)
      requires pendingLoads > 0
      modifies this
      ensures pendingLoads == old(pendingLoads) - 1
      ensures hasContainer && outcome.Fetched? && outcome.ok ==> content == Html(outcome.text)
      ensures pollingInterval == old(pollingInterval)
    {
      pendingLoads := pendingLoads - 1;
      LoadTrajectoryContent(hasContainer, outcome);
    }

    /** The enhance timer 100 ms after content arrived, over the message boxes found in
        it. */
    method FireEnhance(boxes: seq<MessageBox>)
      requires pendingEnhance > 0
      modifies this, set b | b in boxes
      ensures pendingEnhance == old(pendingEnhance) - 1
      ensures forall b :: b in boxes ==> b.indicators >= 1 && b.clickHandlers == 1
      ensures forall b :: b in boxes ==> b.contentClasses == old(b.contentClasses)
      ensures content == old(content) && pollingInterval == old(pollingInterval)
    {
      pendingEnhance := pendingEnhance - 1;
      EnhanceMessageBoxes(boxes);
    }
  }

  // ---------------------------------------------------------------- lemmas

  /** An HTTP failure is reported with the generic text: its message does not mention a
      timeout. */
  lemma FetchFailedNotTimeout()
    ensures ErrorText(FetchFailedMessage) == GenericErrorText
  {
    NotContainsPair(FetchFailedMessage, "timed out");
  }

  /** Collapsing twice restores the content. */
  lemma ToggleContentTwice(classes: set<string>)
    ensures ToggleContent(ToggleContent(classes)) == classes
  {
    ToggleTwice(classes, Collapsed);
  }

  /** The content the server renders starts collapsed, so the down chevron a new
      indicator gets matches it. */
  lemma NewIndicatorMatches(classes: set<string>)
    requires Collapsed in classes
    ensures IconFor(classes) == ChevronDown
  {
  }
}
