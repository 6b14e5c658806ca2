/** The page controller of the main screen: the guard that holds off new commands and
    design selections while a request is pending, the command submission and design
    selection flows, rollback and feedback requests, the auto-sizing command box, the
    on-screen keyboard detection, and which requests carry the tab id header. Network
    answers are parameters of the steps that receive them; the requests sent are recorded
    in `requests`, the calls made to the 3D viewer in `viewerCalls`. */
module MainApp {
  import opened Wrappers
  import opened Text
  import opened Browser
  import opened MainConversation

  // ------------------------------------------------------------ tab id header

  /** The test of the `fetch` wrapper: the `X-Tab-ID` header is added to relative URLs and
      to URLs that start with the page's origin. */
  predicate IsOwnBackend(url: string, origin: string)
  {
    !StartsWith(url, "http") || StartsWith(url, origin)
  }

  /** Characters that end the origin part of an absolute URL. */
  predicate EndsOrigin(c: char)
  {
    c == '/' || c == '?' || c == '#'
  }

  /** The same-origin test the wrapper's comment describes: relative URLs, and absolute
      URLs whose origin is the page's origin as a whole. */
  predicate IsOwnBackendCorrected(url: string, origin: string)
  {
    !StartsWith(url, "http") || url == origin ||
    (|url| > |origin| && StartsWith(url, origin) && EndsOrigin(url[|origin|]))
  }

  const TabIdHeader := "X-Tab-ID"

  /** The headers the `fetch` wrapper sends, with the corrected same-origin test: the tab
      id is set for the page's own backend, and the caller's headers go out unchanged
      everywhere else. */
  function RequestHeaders(url: string, origin: string, headers: map<string, string>, tabId: string):
    (h: map<string, string>)
    ensures IsOwnBackendCorrected(url, origin) ==> TabIdHeader in h && h[TabIdHeader] == tabId
    ensures IsOwnBackendCorrected(url, origin) ==> h.Keys == headers.Keys + {TabIdHeader}
    ensures !IsOwnBackendCorrected(url, origin) ==> h == headers
    ensures forall k :: k in headers && k != TabIdHeader ==> k in h && h[k] == headers[k]
  {
    if IsOwnBackendCorrected(url, origin) then headers[TabIdHeader := tabId] else headers
  }

  // ------------------------------------------------------------- text layout

  const SingleLineHeight := 52
  const MaxInputHeight := 150

  /** `adjustTextareaHeight` given the box's content and the `scrollHeight` it measures:
      the height in pixels and whether the `overflow` class is set. */
  function TextareaLayout(content: string, scrollHeight: int): (r: (int, bool))
    ensures r.1 <==> scrollHeight > MaxInputHeight
    ensures r.0 <= MaxInputHeight
    ensures CountChar(content, '\n') == 0 && scrollHeight <= SingleLineHeight ==> r.0 == SingleLineHeight
    ensures CountChar(content, '\n') > 0 || scrollHeight > SingleLineHeight ==>
      r.0 == scrollHeight || (r.0 == MaxInputHeight && r.0 < scrollHeight)
  {
    var lineCount := CountChar(content, '\n') + 1;
    if lineCount > 1 || scrollHeight > SingleLineHeight then
      (if scrollHeight < MaxInputHeight then scrollHeight else MaxInputHeight, scrollHeight > MaxInputHeight)
    else
      (SingleLineHeight, false)
  }

  // ----------------------------------------------------------------- messages

  const TimeoutAnswer := "Error: Request timed out. The server may be busy - please try again."
  const FailureAnswer := "Error: Failed to process command"
  const RollbackTimeout := "Error: Rollback request timed out. Please try again."

  /** The answer shown when `new_design` gives no message: `designType.replace('_', ' ')`,
      which in JavaScript replaces the first underscore only. */
  function NewDesignFallback(designType: string): (m: string)
    ensures '_' !in designType ==> m == "New " + designType + " design started."
    ensures m == "New " + designType[..IndexOf(designType, '_')] +
      (if '_' in designType then " " + designType[IndexOf(designType, '_') + 1..] else "") + " design started."
  {
    "New " + ReplaceFirst(designType, '_', " ") + " design started."
  }

  /** The error shown when starting a design fails with the error text `error`. */
  function DesignError(designType: string, error: string): string
  {
    if Contains(error, "timed out") then
      "Error: Request timed out while starting " + designType + " design. Please try again."
    else "Error: Failed to start " + designType + " design"
  }

  datatype Request =
    | Generate(command: string)
    | NewDesign(designType: string)
    | Rollback(target: int)
    | SendFeedback(index: int, feedbackType: string)

  datatype ViewerCall = UpdateModelCall | ResetViewerCall

  /** How the `/generate` request ended: an answer with status ok (its message, whether it
      has a model, whether it asks for a viewer reset), an answer with an error status
      (its `error`), or a thrown error (its message). */
  datatype GenerateOutcome =
    | GenerateOk(message: string, hasModel: bool, resetViewer: bool)
    | GenerateRefused(error: string)
    | GenerateThrew(errorMessage: string)

  /** The text, kind and `generated` flag of the message `submitCommand` shows for
      `outcome`: the server's message, `Error: ` and its error, or one of two fixed
      answers depending on whether the thrown error mentions a timeout. */
  function GenerateReply(outcome: GenerateOutcome): (r: (string, MsgType, bool))
    ensures r.1 == System <==> outcome.GenerateOk?
    ensures r.1 != System ==> r.1 == SystemError
    ensures r.2 <==> outcome.GenerateOk?
    ensures outcome.GenerateOk? ==> r.0 == outcome.message
    ensures outcome.GenerateRefused? ==> r.0 == "Error: " + outcome.error
    ensures outcome.GenerateThrew? ==>
      r.0 == if Contains(outcome.errorMessage, "timed out") then TimeoutAnswer else FailureAnswer
  {
    match outcome
    case GenerateOk(message, _, _) => (message, System, true)
    case GenerateRefused(error) => ("Error: " + error, SystemError, false)
    case GenerateThrew(e) => (if Contains(e, "timed out") then TimeoutAnswer else FailureAnswer, SystemError, false)
  }

  /** The viewer call an answer asks for: a model update when it has a model, else a
      reset when it asks for one, else none. */
  function GenerateViewerCalls(outcome: GenerateOutcome): (calls: seq<ViewerCall>)
    ensures |calls| <= 1
    ensures calls == [UpdateModelCall] <==> outcome.GenerateOk? && outcome.hasModel
    ensures calls == [ResetViewerCall] <==> outcome.GenerateOk? && !outcome.hasModel && outcome.resetViewer
  {
    if outcome.GenerateOk? && outcome.hasModel then [UpdateModelCall]
    else if outcome.GenerateOk? && outcome.resetViewer then [ResetViewerCall]
    else []
  }

  /** How the `/new_design` request ended. A non-ok status makes the handler throw
      `Failed to start <type> design` itself. */
  datatype DesignOutcome =
    | DesignOk(message: Option<string>, hasModel: bool)
    | DesignRefused
    | DesignThrew(errorMessage: string)

  /** The text and kind of the message `handleDesignSelection` shows for `outcome`. A
      refused request throws `Failed to start <type> design`, whose text is then searched
      for "timed out" like any other error. */
  function DesignReply(designType: string, outcome: DesignOutcome): (r: (string, MsgType))
    ensures r.1 == System <==> outcome.DesignOk?
    ensures r.1 != System ==> r.1 == SystemError
  {
    match outcome
    case DesignOk(message, _) =>
      (if Truthy(message) then message.value else NewDesignFallback(designType), System)
    case DesignRefused => (DesignError(designType, "Failed to start " + designType + " design"), SystemError)
    case DesignThrew(e) => (DesignError(designType, e), SystemError)
  }

  /** The texts of `DesignReply`: the backend's message or the fallback on success, and
      the two error texts, chosen by whether the error mentions a timeout. */
  lemma DesignReplyText(designType: string, outcome: DesignOutcome)
    ensures var r := DesignReply(designType, outcome);
      (outcome.DesignOk? && Truthy(outcome.message) ==> r.0 == outcome.message.value) &&
      (outcome.DesignOk? && !Truthy(outcome.message) ==> r.0 == NewDesignFallback(designType)) &&
      (outcome.DesignThrew? && !Contains(outcome.errorMessage, "timed out") ==>
        r.0 == "Error: Failed to start " + designType + " design") &&
      (outcome.DesignThrew? && Contains(outcome.errorMessage, "timed out") ==>
        r.0 == "Error: Request timed out while starting " + designType + " design. Please try again.") &&
      (outcome.DesignRefused? ==> r.0 == DesignError(designType, "Failed to start " + designType + " design"))
  {
  }

  /** How the `/rollback` request ended. */
  datatype RollbackOutcome =
    | RollbackOk(hasModel: bool, resetViewer: bool)
    | RollbackRefused
    | RollbackThrew(errorMessage: string)

  class MorfisApp {
    const conversation: Conversation
    var isWaitingForResponse: bool
    /** The request `isWaitingForResponse` waits for. */
    var inFlight: Option<Request>
    var requests: seq<Request>
    var viewerCalls: seq<ViewerCall>
    /** The command box: its value, height and `overflow` class. */
    var input: string
    var inputHeight: int
    var inputOverflow: bool
    /** Timeouts set by the first submit listener that will empty the command box. */
    var clearInputTimers: nat
    /** Whether `window.trajectoryPollingInterval` is set. */
    var polling: bool
    var baseViewportHeight: int
    var isKeyboardVisible: bool
    /** The last `--app-height` set. */
    var appHeight: Option<int>
    /** Timeouts set by `detectKeyboard` that will restore the viewport height. */
    var viewportRestores: nat
    /** The height `handleViewportChange` compares against. */
    var initialViewportHeight: int
    /** Timeouts set by the `orientationchange`, `focusin`, `focusout` and `touchend`
        listeners, and whether the `scroll` listener's timeout is set. */
    var orientationTimers: nat
    var focusInTimers: nat
    var focusOutTimers: nat
    var touchTimers: nat
    var scrollTimer: bool

    /** The waiting flag is set exactly while a command or a design selection is pending,
        and the bare loading element of `showLoadingMessage` is in the panel only while
        a command is pending. */
    ghost predicate Valid()
      reads this, conversation
    {
      conversation.Valid() && Consistent() &&
      (!Generating() ==> NoneOfType(conversation.messages, Loading(false)))
    }

    /** Whether a `/generate` request is pending. */
    predicate Generating()
      reads this
    {
      inFlight.Some? && inFlight.value.Generate?
    }

    /** The part of `Valid` about the controller's own fields. */
    ghost predicate Consistent()
      reads this
    {
      (isWaitingForResponse <==> inFlight.Some?) &&
      (inFlight.Some? ==> inFlight.value.Generate? || inFlight.value.NewDesign?)
    }

    constructor (conversation: Conversation, viewportHeight: int)
      requires conversation.Valid() && NoneOfType(conversation.messages, Loading(false))
      ensures Valid() && this.conversation == conversation
      ensures !isWaitingForResponse && inFlight == None && requests == [] && viewerCalls == []
      ensures input == "" && inputHeight == SingleLineHeight && !inputOverflow && clearInputTimers == 0
      ensures !polling && baseViewportHeight == viewportHeight && !isKeyboardVisible
      ensures appHeight == Some(viewportHeight) && viewportRestores == 0 && initialViewportHeight == viewportHeight
      ensures orientationTimers == 0 && focusInTimers == 0 && focusOutTimers == 0 && touchTimers == 0 && !scrollTimer
    {
      this.conversation := conversation;
      isWaitingForResponse := false;
      inFlight := None;
      requests := [];
      viewerCalls := [];
      input := "";
      inputHeight := SingleLineHeight;
      inputOverflow := false;
      clearInputTimers := 0;
      polling := false;
      baseViewportHeight := viewportHeight;
      isKeyboardVisible := false;
      appHeight := Some(viewportHeight);
      viewportRestores := 0;
      initialViewportHeight := viewportHeight;
      orientationTimers, focusInTimers, focusOutTimers, touchTimers := 0, 0, 0, 0;
      scrollTimer := false;
    }

    /** A submit of the command form. The first listener always schedules the emptying of
        the command box; the second ignores the submit while a request is pending or when
        the command is blank, and otherwise shows and sends the trimmed command. */
    method Submit()
      requires Valid()
      modifies this, conversation
      ensures Valid()
      ensures clearInputTimers == old(clearInputTimers) + 1
      ensures var command := Trim(old(input));
        old(isWaitingForResponse) || command == [] ==>
        isWaitingForResponse == old(isWaitingForResponse) && inFlight == old(inFlight) &&
        requests == old(requests) && input == old(input) && polling == old(polling) &&
        conversation.messages == old(conversation.messages)
      ensures var command := Trim(old(input));
        !old(isWaitingForResponse) && command != [] ==>
        isWaitingForResponse && inFlight == Some(Generate(command)) &&
        requests == old(requests) + [Generate(command)] && input == "" && polling &&
        conversation.messages == old(conversation.messages) +
          [NewMessage(command, User, false, old(conversation.messageIndex), old(conversation.created)),
           LoadingElement(false, old(conversation.created) + 1)]
      ensures conversation.messageIndex == old(conversation.messageIndex) && viewerCalls == old(viewerCalls)
    {
      clearInputTimers := clearInputTimers + 1;
      if isWaitingForResponse {
        return;
      }
      var command := Trim(input);
      if command == [] {
        return;
      }
      SendCommand(command);
    }

    /** The sending half of a submit: the command is shown, the box is emptied, the bare
        loading element is shown and starts polling, and the request goes out. */
    method SendCommand(command: string)
      requires Valid() && !isWaitingForResponse
      modifies this, conversation
      ensures Valid()
      ensures isWaitingForResponse && inFlight == Some(Generate(command))
      ensures requests == old(requests) + [Generate(command)] && input == "" && polling
      ensures conversation.messages == old(conversation.messages) +
        [NewMessage(command, User, false, old(conversation.messageIndex), old(conversation.created)),
         LoadingElement(false, old(conversation.created) + 1)]
      ensures conversation.messageIndex == old(conversation.messageIndex)
      ensures viewerCalls == old(viewerCalls) && clearInputTimers == old(clearInputTimers)
    {
      isWaitingForResponse := true;
      inFlight := Some(Generate(command));
      input := "";
      polling := true;
      requests := requests + [Generate(command)];
      ShowCommand(command);
    }

    /** The panel side of a submit: the command, then the bare loading element. */
    method ShowCommand(command: string)
      requires conversation.Valid() && NoneOfType(conversation.messages, Loading(false))
      modifies conversation
      ensures conversation.Valid()
      ensures conversation.messages == old(conversation.messages) +
        [NewMessage(command, User, false, old(conversation.messageIndex), old(conversation.created)),
         LoadingElement(false, old(conversation.created) + 1)]
      ensures conversation.messageIndex == old(conversation.messageIndex)
    {
      AppendKeepsNone(conversation.messages, NewMessage(command, User, false, conversation.messageIndex, conversation.created), Loading(false));
      conversation.AddMessage(command, User, false);
      conversation.ShowLoading(false);
    }

    /** The first submit listener's timeout: the command box emptied and reset to one line. */
    method FireClearInput()
      requires Valid() && clearInputTimers > 0
      modifies this
      ensures Valid()
      ensures clearInputTimers == old(clearInputTimers) - 1
      ensures input == "" && inputHeight == SingleLineHeight && !inputOverflow
      ensures isWaitingForResponse == old(isWaitingForResponse) && inFlight == old(inFlight)
      ensures requests == old(requests) && viewerCalls == old(viewerCalls) && polling == old(polling)
    {
      clearInputTimers := clearInputTimers - 1;
      input := "";
      inputHeight := SingleLineHeight;
      inputOverflow := false;
    }

    /** The end of the `/generate` request: the loading element goes (if a rollback has
        not removed it already) and polling stops, the answer or an error is shown, and
        the waiting flag is always cleared. */
    method FinishSubmit(outcome: GenerateOutcome)
      requires Valid() && Generating()
      modifies this, conversation
      ensures Valid()
      ensures !isWaitingForResponse && inFlight == None && !polling
      ensures var r := GenerateReply(outcome);
        conversation.messages == WithoutLoading(old(conversation.messages), false) +
          [NewMessage(r.0, r.1, r.2, old(conversation.messageIndex), old(conversation.created))]
      ensures viewerCalls == old(viewerCalls) + GenerateViewerCalls(outcome)
      ensures requests == old(requests) && input == old(input)
    {
      polling := false;
      isWaitingForResponse := false;
      inFlight := None;
      viewerCalls := viewerCalls + GenerateViewerCalls(outcome);
      var reply := GenerateReply(outcome);
      ghost var shown := WithoutLoading(conversation.messages, false);
      conversation.RemoveLoading(false);
      AppendKeepsNone(shown, NewMessage(reply.0, reply.1, reply.2, conversation.messageIndex, conversation.created), Loading(false));
      conversation.AddMessage(reply.0, reply.1, reply.2);
    }

    /** The end of `addMessage` for a system message, once its text has been typed out.
        Typing outlives the request that produced the answer, so a new command may have
        put the bare loading element in the panel by then; the rebuild then throws at
        it. That can only happen while a command is pending. */
    method FinishTyping() returns (threw: bool)
      requires Valid()
      modifies conversation
      ensures Valid()
      ensures conversation.messages == Refreshed(old(conversation.messages), old(conversation.created))
      ensures threw <==> FirstBare(old(conversation.messages)) < |old(conversation.messages)|
      ensures threw ==> Generating()
      ensures conversation.messageIndex == old(conversation.messageIndex) && conversation.votes == old(conversation.votes)
    {
      if !Generating() {
        RefreshedKeepsNone(conversation.messages, conversation.created, Loading(false));
        NoneBareRunsThrough(conversation.messages);
      }
      threw := conversation.RefreshButtons();
    }

    /** `handleDesignSelection` up to the request: ignored while a request is pending;
        otherwise the counter restarts at 0, the conversation and the command box are
        emptied, the viewer reset and the loading element with content shown. */
    method SelectDesign(designType: string)
      requires Valid()
      modifies this, conversation
      ensures Valid()
      ensures old(isWaitingForResponse) ==>
        inFlight == old(inFlight) && requests == old(requests) && viewerCalls == old(viewerCalls) &&
        input == old(input) && conversation.messages == old(conversation.messages) &&
        conversation.messageIndex == old(conversation.messageIndex)
      ensures !old(isWaitingForResponse) ==>
        isWaitingForResponse && inFlight == Some(NewDesign(designType)) &&
        conversation.messages == [LoadingElement(true, old(conversation.created))] &&
        conversation.messageIndex == 0 && input == "" &&
        viewerCalls == old(viewerCalls) + [ResetViewerCall] && requests == old(requests) + [NewDesign(designType)]
      ensures polling == old(polling)
    {
      if isWaitingForResponse {
        return;
      }
      isWaitingForResponse := true;
      inFlight := Some(NewDesign(designType));
      input := "";
      viewerCalls := viewerCalls + [ResetViewerCall];
      requests := requests + [NewDesign(designType)];
      conversation.Clear();
      conversation.ShowLoading(true);
    }

    /** The end of the `/new_design` request: the loading element goes once an answer has
        arrived (a thrown request leaves it in the panel), then the backend's message (or
        a fallback) is shown as a generated answer, or an error; the waiting flag is
        always cleared. */
    method FinishDesignSelection(outcome: DesignOutcome)
      requires Valid() && inFlight.Some? && inFlight.value.NewDesign?
      modifies this, conversation
      ensures Valid()
      ensures !isWaitingForResponse && inFlight == None
      ensures var reply := DesignReply(old(inFlight).value.designType, outcome);
        conversation.messages ==
          (if outcome.DesignThrew? then old(conversation.messages) else WithoutLoading(old(conversation.messages), true)) +
          [NewMessage(reply.0, reply.1, reply.1 == System, old(conversation.messageIndex), old(conversation.created))]
      ensures viewerCalls == old(viewerCalls) + (if outcome.DesignOk? && outcome.hasModel then [UpdateModelCall] else [])
      ensures requests == old(requests) && input == old(input) && polling == old(polling)
    {
      var reply := DesignReply(inFlight.value.designType, outcome);
      ShowDesignReply(outcome.DesignThrew?, reply.0, reply.1);
      isWaitingForResponse := false;
      inFlight := None;
      viewerCalls := viewerCalls + if outcome.DesignOk? && outcome.hasModel then [UpdateModelCall] else [];
    }

    /** The panel side of the end of `handleDesignSelection`: the loading element goes
        unless `kept`, then the reply is shown. */
    method ShowDesignReply(kept: bool, text: string, t: MsgType)
      requires conversation.Valid() && (t == System || t == SystemError)
      requires NoneOfType(conversation.messages, Loading(false))
      modifies conversation
      ensures conversation.Valid() && NoneOfType(conversation.messages, Loading(false))
      ensures conversation.messages ==
        (if kept then old(conversation.messages) else WithoutLoading(old(conversation.messages), true)) +
        [NewMessage(text, t, t == System, old(conversation.messageIndex), old(conversation.created))]
    {
      var m := NewMessage(text, t, t == System, conversation.messageIndex, conversation.created);
      if kept {
        AppendKeepsNone(conversation.messages, m, Loading(false));
      } else {
        WithoutLoadingKeepsNone(conversation.messages, true, Loading(false));
        AppendKeepsNone(WithoutLoading(conversation.messages, true), m, Loading(false));
        conversation.RemoveLoading(true);
      }
      conversation.AddMessage(text, t, t == System);
    }

    /** A click on the rollback button of the message at `pos`: `handleRollback` returns
        at once while that button is loading; otherwise the button is put in its loading
        state and the request to roll back to the message's index is sent. */
    method BeginRollback(pos: nat) returns (sent: bool)
      requires Valid() && pos < |conversation.messages| && conversation.messages[pos].rollback
      modifies this, conversation
      ensures Valid()
      ensures sent <==> old(conversation.messages[pos].rollbackLoading).None?
      ensures sent ==>
        var m := old(conversation.messages[pos]);
        requests == old(requests) + [Rollback(m.index.value)] &&
        conversation.messages == old(conversation.messages)[pos := m.(rollbackLoading := Some(old(conversation.clicks)))] &&
        conversation.rollbacks == old(conversation.rollbacks) + [PendingRollback(m.id, m.index.value, old(conversation.clicks))]
      ensures !sent ==>
        requests == old(requests) && conversation.messages == old(conversation.messages) &&
        conversation.rollbacks == old(conversation.rollbacks)
      ensures viewerCalls == old(viewerCalls) && conversation.messageIndex == old(conversation.messageIndex)
      ensures isWaitingForResponse == old(isWaitingForResponse) && inFlight == old(inFlight)
    {
      sent := conversation.BeginRollback(pos);
      if sent {
        requests := requests + [Rollback(conversation.messages[pos].index.value)];
      }
    }

    /** The answer to the rollback click `conversation.rollbacks[k]`. On success the
        viewer is updated or reset as the answer says and every message after the target
        goes, from the panel as it is by then; a refused rollback only releases the button;
        a timed-out one is reported. Whatever the answer, the clicked button leaves its
        loading state, and the counter is kept. */
    method FinishRollback(k: nat, outcome: RollbackOutcome)
      requires Valid() && k < |conversation.rollbacks|
      modifies this, conversation
      ensures Valid()
      ensures var r := old(conversation.rollbacks[k]);
        conversation.messages ==
          Released(if outcome.RollbackOk? then Truncated(old(conversation.messages), r.target) else old(conversation.messages), r) +
          (if outcome.RollbackThrew? && Contains(outcome.errorMessage, "timed out")
           then [NewMessage(RollbackTimeout, SystemError, false, old(conversation.messageIndex), old(conversation.created))]
           else [])
      ensures conversation.rollbacks == old(conversation.rollbacks[..k] + conversation.rollbacks[k + 1..])
      ensures viewerCalls == old(viewerCalls) + (match outcome
        case RollbackOk(true, _) => [UpdateModelCall]
        case RollbackOk(false, true) => [ResetViewerCall]
        case _ => [])
      ensures requests == old(requests) && conversation.messageIndex == old(conversation.messageIndex)
      ensures isWaitingForResponse == old(isWaitingForResponse) && inFlight == old(inFlight)
    {
      viewerCalls := viewerCalls + match outcome
        case RollbackOk(true, _) => [UpdateModelCall]
        case RollbackOk(false, true) => [ResetViewerCall]
        case _ => [];
      var r := conversation.rollbacks[k];
      if !Generating() {
        TruncatedKeepsNone(conversation.messages, r.target, Loading(false));
        ReleasedKeepsNone(if outcome.RollbackOk? then Truncated(conversation.messages, r.target) else conversation.messages, r, Loading(false));
      }
      conversation.FinishRollback(k, outcome.RollbackOk?);
      if outcome.RollbackThrew? && Contains(outcome.errorMessage, "timed out") {
        if !Generating() {
          AppendKeepsNone(conversation.messages,
            NewMessage(RollbackTimeout, SystemError, false, conversation.messageIndex, conversation.created), Loading(false));
        }
        conversation.AddMessage(RollbackTimeout, SystemError, false);
      }
    }

    /** A click on a feedback button of the message at `pos`: the request is sent unless
        that button is already active or a request for the message is in flight. */
    method BeginFeedback(pos: nat, kind: FeedbackKind) returns (sent: bool)
      requires Valid() && pos < |conversation.messages| && conversation.messages[pos].feedback.Some?
      modifies this, conversation
      ensures Valid()
      ensures sent <==> Clickable(old(conversation.messages[pos].feedback.value), kind)
      ensures sent ==> requests == old(requests) + [SendFeedback(old(conversation.messages[pos].index).GetOr(0), FeedbackName(kind))]
      ensures sent ==>
        conversation.votes == old(conversation.votes) +
          [Vote(old(conversation.messages[pos].id), old(conversation.messages[pos].feedback.value.buttons), kind)]
      ensures !sent ==> requests == old(requests) && conversation.messages == old(conversation.messages)
      ensures isWaitingForResponse == old(isWaitingForResponse) && inFlight == old(inFlight)
    {
      sent := conversation.BeginFeedback(pos, kind);
      if sent {
        requests := requests + [SendFeedback(conversation.messages[pos].index.GetOr(0), FeedbackName(kind))];
      }
    }

    /** The settling of the feedback request `conversation.votes[k]`. */
    method FinishFeedback(k: nat, ok: bool)
      requires Valid() && k < |conversation.votes|
      modifies conversation
      ensures Valid()
      ensures conversation.messages == Voted(old(conversation.messages), old(conversation.votes[k]), ok)
      ensures conversation.votes == old(conversation.votes[..k] + conversation.votes[k + 1..])
      ensures conversation.messageIndex == old(conversation.messageIndex)
      ensures isWaitingForResponse == old(isWaitingForResponse) && inFlight == old(inFlight)
    {
      if !Generating() {
        VotedKeepsNone(conversation.messages, conversation.votes[k], ok, Loading(false));
      }
      conversation.FinishFeedback(k, ok);
    }

    /** `adjustTextareaHeight`, given the `scrollHeight` the box reports. */
    method AdjustTextareaHeight(scrollHeight: int)
      requires Valid()
      modifies this
      ensures Valid()
      ensures (inputHeight, inputOverflow) == TextareaLayout(input, scrollHeight)
      ensures input == old(input) && isWaitingForResponse == old(isWaitingForResponse) && inFlight == old(inFlight)
    {
      var layout := TextareaLayout(input, scrollHeight);
      inputHeight := layout.0;
      inputOverflow := layout.1;
    }

    /** `detectKeyboard` at window height `currentHeight`: the keyboard counts as visible
        exactly when the window lost more than 150 pixels; when it goes, a restore of the
        viewport height is scheduled. */
    method DetectKeyboard(currentHeight: int)
      requires Valid()
      modifies this
      ensures Valid()
      ensures isKeyboardVisible <==> baseViewportHeight - currentHeight > 150
      ensures viewportRestores == old(viewportRestores) + (if old(isKeyboardVisible) && !isKeyboardVisible then 1 else 0)
      ensures baseViewportHeight == old(baseViewportHeight) && appHeight == old(appHeight)
      ensures isWaitingForResponse == old(isWaitingForResponse) && inFlight == old(inFlight)
      ensures initialViewportHeight == old(initialViewportHeight) && scrollTimer == old(scrollTimer)
      ensures orientationTimers == old(orientationTimers) && focusInTimers == old(focusInTimers)
      ensures focusOutTimers == old(focusOutTimers) && touchTimers == old(touchTimers)
    {
      var heightDifference := baseViewportHeight - currentHeight;
      if heightDifference > 150 {
        if !isKeyboardVisible {
          isKeyboardVisible := true;
        }
      } else {
        if isKeyboardVisible {
          isKeyboardVisible := false;
          viewportRestores := viewportRestores + 1;
        }
      }
    }

    /** `setViewportHeight(force)`: ignored while the keyboard is visible unless forced;
        a forced update restores the base height. */
    method SetViewportHeight(currentHeight: int, force: bool)
      requires Valid()
      modifies this
      ensures Valid()
      ensures isKeyboardVisible && !force ==> appHeight == old(appHeight)
      ensures !(isKeyboardVisible && !force) ==> appHeight == Some(if force then baseViewportHeight else currentHeight)
      ensures isKeyboardVisible == old(isKeyboardVisible) && baseViewportHeight == old(baseViewportHeight)
      ensures viewportRestores == old(viewportRestores)
      ensures isWaitingForResponse == old(isWaitingForResponse) && inFlight == old(inFlight)
      ensures initialViewportHeight == old(initialViewportHeight) && scrollTimer == old(scrollTimer)
      ensures orientationTimers == old(orientationTimers) && focusInTimers == old(focusInTimers)
      ensures focusOutTimers == old(focusOutTimers) && touchTimers == old(touchTimers)
    {
      if isKeyboardVisible && !force {
        return;
      }
      appHeight := Some(if force then baseViewportHeight else currentHeight);
    }

    /** The `resize` listener: keyboard detection, then the height follows the window
        unless the keyboard is up. */
    method OnResize(currentHeight: int)
      requires Valid()
      modifies this
      ensures Valid()
      ensures isKeyboardVisible <==> baseViewportHeight - currentHeight > 150
      ensures isKeyboardVisible ==> appHeight == old(appHeight)
      ensures !isKeyboardVisible ==> appHeight == Some(currentHeight)
      ensures isWaitingForResponse == old(isWaitingForResponse) && inFlight == old(inFlight)
    {
      DetectKeyboard(currentHeight);
      if !isKeyboardVisible {
        SetViewportHeight(currentHeight, false);
      }
    }

    /** A restore scheduled by `detectKeyboard` firing: the base height is set again. */
    method FireViewportRestore(currentHeight: int)
      requires Valid() && viewportRestores > 0
      modifies this
      ensures Valid()
      ensures viewportRestores == old(viewportRestores) - 1
      ensures appHeight == Some(baseViewportHeight) && isKeyboardVisible == old(isKeyboardVisible)
      ensures isWaitingForResponse == old(isWaitingForResponse) && inFlight == old(inFlight)
    {
      viewportRestores := viewportRestores - 1;
      SetViewportHeight(currentHeight, true);
    }

    /** The `orientationchange` listener: a timeout is set. */
    method OnOrientationChange()
      requires Valid()
      modifies this
      ensures Valid() && orientationTimers == old(orientationTimers) + 1
      ensures appHeight == old(appHeight) && isKeyboardVisible == old(isKeyboardVisible)
      ensures baseViewportHeight == old(baseViewportHeight)
      ensures isWaitingForResponse == old(isWaitingForResponse) && inFlight == old(inFlight)
    {
      orientationTimers := orientationTimers + 1;
    }

    /** That timeout firing at window height `currentHeight`: the base height becomes the
        current one, the height is forced to it and the keyboard counts as hidden. */
    method FireOrientationTimer(currentHeight: int)
      requires Valid() && orientationTimers > 0
      modifies this
      ensures Valid() && orientationTimers == old(orientationTimers) - 1
      ensures baseViewportHeight == currentHeight && appHeight == Some(currentHeight) && !isKeyboardVisible
      ensures initialViewportHeight == old(initialViewportHeight) && viewportRestores == old(viewportRestores)
      ensures isWaitingForResponse == old(isWaitingForResponse) && inFlight == old(inFlight)
    {
      orientationTimers := orientationTimers - 1;
      baseViewportHeight := currentHeight;
      SetViewportHeight(currentHeight, true);
      isKeyboardVisible := false;
    }

    /** The `focusin` listener: the keyboard detection is scheduled. */
    method OnFocusIn()
      requires Valid()
      modifies this
      ensures Valid() && focusInTimers == old(focusInTimers) + 1
      ensures appHeight == old(appHeight) && isKeyboardVisible == old(isKeyboardVisible)
      ensures isWaitingForResponse == old(isWaitingForResponse) && inFlight == old(inFlight)
    {
      focusInTimers := focusInTimers + 1;
    }

    /** That timeout firing: `detectKeyboard` at the height the window has by then. */
    method FireFocusInTimer(currentHeight: int)
      requires Valid() && focusInTimers > 0
      modifies this
      ensures Valid() && focusInTimers == old(focusInTimers) - 1
      ensures isKeyboardVisible <==> baseViewportHeight - currentHeight > 150
      ensures viewportRestores == old(viewportRestores) + (if old(isKeyboardVisible) && !isKeyboardVisible then 1 else 0)
      ensures baseViewportHeight == old(baseViewportHeight) && appHeight == old(appHeight)
      ensures isWaitingForResponse == old(isWaitingForResponse) && inFlight == old(inFlight)
    {
      focusInTimers := focusInTimers - 1;
      DetectKeyboard(currentHeight);
    }

    /** The `focusout` listener: a timeout is set. */
    method OnFocusOut()
      requires Valid()
      modifies this
      ensures Valid() && focusOutTimers == old(focusOutTimers) + 1
      ensures appHeight == old(appHeight) && isKeyboardVisible == old(isKeyboardVisible)
      ensures isWaitingForResponse == old(isWaitingForResponse) && inFlight == old(inFlight)
    {
      focusOutTimers := focusOutTimers + 1;
    }

    /** That timeout firing: the keyboard counts as hidden and the height is forced back
        to the base height, whatever the window's height is. */
    method FireFocusOutTimer(currentHeight: int)
      requires Valid() && focusOutTimers > 0
      modifies this
      ensures Valid() && focusOutTimers == old(focusOutTimers) - 1
      ensures !isKeyboardVisible && appHeight == Some(baseViewportHeight)
      ensures baseViewportHeight == old(baseViewportHeight) && viewportRestores == old(viewportRestores)
      ensures isWaitingForResponse == old(isWaitingForResponse) && inFlight == old(inFlight)
    {
      focusOutTimers := focusOutTimers - 1;
      isKeyboardVisible := false;
      SetViewportHeight(currentHeight, true);
    }

    /** The `scroll` listener: unless the keyboard is visible, the pending timeout is
        replaced by a new one. */
    method OnScroll()
      requires Valid()
      modifies this
      ensures Valid()
      ensures scrollTimer == (old(scrollTimer) || !isKeyboardVisible)
      ensures isKeyboardVisible == old(isKeyboardVisible) && appHeight == old(appHeight)
      ensures isWaitingForResponse == old(isWaitingForResponse) && inFlight == old(inFlight)
    {
      if !isKeyboardVisible {
        scrollTimer := true;
      }
    }

    /** The `touchend` listener: unless the keyboard is visible, a timeout is set. */
    method OnTouchEnd()
      requires Valid()
      modifies this
      ensures Valid()
      ensures touchTimers == old(touchTimers) + (if isKeyboardVisible then 0 else 1)
      ensures isKeyboardVisible == old(isKeyboardVisible) && appHeight == old(appHeight)
      ensures isWaitingForResponse == old(isWaitingForResponse) && inFlight == old(inFlight)
    {
      if !isKeyboardVisible {
        touchTimers := touchTimers + 1;
      }
    }

    /** The scroll timeout firing: `handleViewportChange`. */
    method FireScrollTimer(currentHeight: int)
      requires Valid() && scrollTimer
      modifies this
      ensures Valid() && !scrollTimer
      ensures ViewportChanged(old(isKeyboardVisible), old(initialViewportHeight), currentHeight) ==>
        appHeight == Some(currentHeight) && baseViewportHeight == currentHeight && initialViewportHeight == currentHeight
      ensures !ViewportChanged(old(isKeyboardVisible), old(initialViewportHeight), currentHeight) ==>
        appHeight == old(appHeight) && baseViewportHeight == old(baseViewportHeight) &&
        initialViewportHeight == old(initialViewportHeight)
      ensures isKeyboardVisible == old(isKeyboardVisible)
      ensures isWaitingForResponse == old(isWaitingForResponse) && inFlight == old(inFlight)
    {
      scrollTimer := false;
      HandleViewportChange(currentHeight);
    }

    /** A touchend timeout firing: `handleViewportChange`. */
    method FireTouchTimer(currentHeight: int)
      requires Valid() && touchTimers > 0
      modifies this
      ensures Valid() && touchTimers == old(touchTimers) - 1
      ensures ViewportChanged(old(isKeyboardVisible), old(initialViewportHeight), currentHeight) ==>
        appHeight == Some(currentHeight) && baseViewportHeight == currentHeight && initialViewportHeight == currentHeight
      ensures !ViewportChanged(old(isKeyboardVisible), old(initialViewportHeight), currentHeight) ==>
        appHeight == old(appHeight) && baseViewportHeight == old(baseViewportHeight) &&
        initialViewportHeight == old(initialViewportHeight)
      ensures isKeyboardVisible == old(isKeyboardVisible)
      ensures isWaitingForResponse == old(isWaitingForResponse) && inFlight == old(inFlight)
    {
      touchTimers := touchTimers - 1;
      HandleViewportChange(currentHeight);
    }

    /** `handleViewportChange`: ignored while the keyboard is visible; a change of more
        than 50 pixels from the last height it took sets the height and makes the
        current height both the new reference and the new base. */
    method HandleViewportChange(currentHeight: int)
      requires Valid()
      modifies this
      ensures Valid()
      ensures ViewportChanged(old(isKeyboardVisible), old(initialViewportHeight), currentHeight) ==>
        appHeight == Some(currentHeight) && baseViewportHeight == currentHeight && initialViewportHeight == currentHeight
      ensures !ViewportChanged(old(isKeyboardVisible), old(initialViewportHeight), currentHeight) ==>
        appHeight == old(appHeight) && baseViewportHeight == old(baseViewportHeight) &&
        initialViewportHeight == old(initialViewportHeight)
      ensures isKeyboardVisible == old(isKeyboardVisible) && viewportRestores == old(viewportRestores)
      ensures scrollTimer == old(scrollTimer) && touchTimers == old(touchTimers)
      ensures isWaitingForResponse == old(isWaitingForResponse) && inFlight == old(inFlight)
    {
      if isKeyboardVisible {
        return;
      }
      if currentHeight - initialViewportHeight > 50 || initialViewportHeight - currentHeight > 50 {
        SetViewportHeight(currentHeight, false);
        initialViewportHeight := currentHeight;
        baseViewportHeight := currentHeight;
      }
    }
  }

  /** Whether `handleViewportChange` acts: the keyboard is hidden and the height moved by
      more than 50 pixels, either way, from the reference. */
  predicate ViewportChanged(keyboardVisible: bool, reference: int, currentHeight: int)
  {
    !keyboardVisible && (currentHeight - reference > 50 || reference - currentHeight > 50)
  }

  // ---------------------------------------------------------------- lemmas

  /** The wrapper's test takes a URL on another port of the same host for its own
      backend, because the origin is compared as a mere text prefix. */
  lemma OwnBackendAcceptsOtherPort()
    ensures IsOwnBackend("http://localhost:50001/api/config", "http://localhost:5000")
    ensures !IsOwnBackendCorrected("http://localhost:50001/api/config", "http://localhost:5000")
  {
    var url, origin := "http://localhost:50001/api/config", "http://localhost:5000";
    assert url[..4] == "http";
    assert url[..|origin|] == origin;
    assert url[|origin|] == '1';
  }

  /** With the corrected test, a request to another port of the same host does not carry
      the tab id, while one to the page's own API does. */
  lemma TabIdStaysOnOrigin(tabId: string)
    ensures TabIdHeader !in RequestHeaders("http://localhost:50001/api/config", "http://localhost:5000", map[], tabId)
    ensures RequestHeaders("/api/config", "http://localhost:5000", map[], tabId) == map[TabIdHeader := tabId]
  {
    OwnBackendAcceptsOtherPort();
    var rel := "/api/config";
    assert rel[0] == '/';
    assert rel[..4][0] == '/';
  }

  /** The corrected test agrees with the original on relative URLs and on URLs under the
      origin's own path, and accepts an absolute URL only when the origin is followed by
      the end of the URL or by a path, query or fragment. */
  lemma OwnBackendCorrectedMeaning(url: string, origin: string)
    ensures !StartsWith(url, "http") ==> IsOwnBackendCorrected(url, origin) && IsOwnBackend(url, origin)
    ensures StartsWith(url, origin + "/") ==> IsOwnBackendCorrected(url, origin)
    ensures IsOwnBackendCorrected(url, origin) ==> IsOwnBackend(url, origin)
    ensures IsOwnBackendCorrected(url, origin) && StartsWith(url, "http") ==>
      url == origin || (|url| > |origin| && url[..|origin|] == origin && EndsOrigin(url[|origin|]))
  {
    if StartsWith(url, origin + "/") {
      assert url[..|origin|] == (origin + "/")[..|origin|];
      assert url[|origin|] == (origin + "/")[|origin|];
    }
  }

  /** The command box never grows past 150 pixels, and the `overflow` class is set
      exactly when its content is taller than that. */
  lemma TextareaBounded(content: string, scrollHeight: int)
    ensures TextareaLayout(content, scrollHeight).0 <= MaxInputHeight
    ensures TextareaLayout(content, scrollHeight).0 >= SingleLineHeight || TextareaLayout(content, scrollHeight).0 == scrollHeight
    ensures TextareaLayout(content, scrollHeight).1 <==> scrollHeight > MaxInputHeight
  {
  }

  /** Fallback texts of a design selection: an underscore-free type appears as is, and a
      type with one underscore has it turned into a space. */
  lemma DesignFallbackOneUnderscore(a: string, b: string)
    requires '_' !in a && '_' !in b
    ensures NewDesignFallback(a + "_" + b) == "New " + a + " " + b + " design started."
  {
    var t := a + "_" + b;
    IndexOfPrefix(a, '_', "_" + b);
    assert t == a + ("_" + b);
    assert t[..|a|] == a && t[|a| + 1..] == b;
  }

  /** Only the first underscore is replaced: a type with two keeps the second. */
  lemma DesignFallbackSecondUnderscoreKept()
    ensures NewDesignFallback("a_b_c") == "New " + "a b_c" + " design started."
  {
    var t := "a_b_c";
    assert t[0] == 'a' && t[1] == '_';
    assert IndexOf(t, '_') == 1;
    assert t[..1] == "a" && t[2..] == "b_c";
    assert ReplaceFirst(t, '_', " ") == "a b_c";
  }
}
