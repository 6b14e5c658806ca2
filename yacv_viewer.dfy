/** The Build123d viewer component that shows the integrated YACV viewer in an iframe:
    its status bar, running code on the server and pointing the iframe at the viewer the
    server reports, the three built-in examples, clearing and destroying, and the global
    instance. */
module YacvViewer {
  import opened Wrappers
  import opened Text
  import opened Browser

  // ------------------------------------------------------------ status bar

  const NormalColor := "#5f6368"
  const ProcessingColor := "#1976d2"
  const SuccessColor := "#388e3c"
  const ErrorColor := "#d32f2f"

  /** The colour of a status type: the table's entry, or the `normal` colour for a type
      the table does not know. */
  function StatusColor(statusType: string): (c: string)
    ensures statusType == "normal" ==> c == NormalColor
    ensures statusType == "processing" ==> c == ProcessingColor
    ensures statusType == "success" ==> c == SuccessColor
    ensures statusType == "error" ==> c == ErrorColor
    ensures statusType !in {"processing", "success", "error"} ==> c == NormalColor
  {
    var colors := map["normal" := NormalColor, "processing" := ProcessingColor,
                      "success" := SuccessColor, "error" := ErrorColor];
    if statusType in colors then colors[statusType] else colors["normal"]
  }

  const ReadyText := "Ready - Load Build123d code to view CAD models"
  const ExecutingText := "Executing Build123d code..."
  const LoadingText := "Loading fresh YACV viewer..."
  const LoadedText := "YACV viewer loaded successfully"
  const IframeFailedText := "Iframe failed - use \"Open in New Window\" button"
  const SlowText := "Slow loading - try \"Open in New Window\""
  const CrossOriginText := "For best experience, use \"Open in New Window\""
  const ExecuteFailedText := "Failed to execute Build123d code"
  const DefaultServerPath := "/yacv/"
  /** The errors thrown when an element the viewer needs is missing. */
  const NullOnload := "Cannot set properties of null (setting 'onload')"
  const NullInnerHtml := "Cannot set properties of null (setting 'innerHTML')"
  const NullSrc := "Cannot set properties of null (setting 'src')"
  const BlankPage := "about:blank"

  // ------------------------------------------------------------- the server

  /** The JSON body of `/api/execute-build123d`: `success`, `yacv_url`, the length of
      `shown_objects` and `error`. */
  datatype ExecBody = ExecBody(success: bool, yacvUrl: Option<string>, shownObjects: Option<nat>, error: Option<string>)

  /** What the request came to: it threw, or a response arrived whose body is JSON or,
      when it is not, makes `response.json()` throw with `message`. */
  datatype ExecOutcome =
    | RequestThrew(message: string)
    | Responded(ok: bool, status: nat, body: Result<ExecBody, string>)

  /** The error message when running the code fails, or `None` when it succeeds. */
  function ExecError(outcome: ExecOutcome): (e: Option<string>)
    ensures e.None? <==> outcome.Responded? && outcome.ok && outcome.body.Ok? && outcome.body.value.success
    ensures outcome.RequestThrew? ==> e == Some(outcome.message)
    ensures outcome.Responded? && !outcome.ok ==> e == Some("HTTP error! status: " + DecimalString(outcome.status))
    ensures outcome.Responded? && outcome.ok && outcome.body.Err? ==> e == Some(outcome.body.error)
    ensures outcome.Responded? && outcome.ok && outcome.body.Ok? && !outcome.body.value.success ==>
      e == Some(Or(outcome.body.value.error, ExecuteFailedText))
  {
    match outcome
    case RequestThrew(m) => Some(m)
    case Responded(ok, status, body) =>
      if !ok then Some("HTTP error! status: " + DecimalString(status))
      else match body
        case Err(m) => Some(m)
        case Ok(b) => if b.success then None else Some(Or(b.error, ExecuteFailedText))
  }

  /** The cache-busting address the fresh iframe loads. */
  function IframeSource(serverUrl: string, timestamp: nat, randomId: string): (src: string)
    ensures StartsWith(src, serverUrl + "index.html?t=")
    ensures EndsWith(src, "&nocache=1")
  {
    var src := serverUrl + "index.html?t=" + DecimalString(timestamp) + "&r=" + randomId + "&nocache=1";
    assert src[..|serverUrl + "index.html?t="|] == serverUrl + "index.html?t=";
    assert src[|src| - |"&nocache=1"|..] == "&nocache=1";
    src
  }

  /** The status once the code ran: the number of objects shown, 0 when none is given. */
  function ConnectedText(shownObjects: Option<nat>): string
  {
    "Connected to integrated YACV - Objects: " + DecimalString(shownObjects.GetOr(0))
  }

  /** What the timer five seconds after a connection finds in the iframe. */
  datatype IframeCheck = IframeEmpty | IframeFilled | CrossOrigin

  const ExampleNames: set<string> := {"box_with_hole", "simple_bracket", "gear"}

  /** A table of built-in examples: one non-empty program for each of the three names. */
  predicate ExampleTable(examples: map<string, string>)
  {
    examples.Keys == ExampleNames && forall n :: n in examples ==> examples[n] != ""
  }

  class Viewer {
    /** The Build123d code of the built-in examples, by name. */
    const examples: map<string, string>
    var hasContainer: bool
    var containerCleared: bool
    var initialized: bool
    var currentCode: Option<string>
    var hasViewerElement: bool
    var iframeSrc: string
    var hasStatusBar: bool
    var statusText: string
    var statusColor: string
    var pollInterval: Option<nat>
    var clearedIntervals: seq<nat>
    var lastServerUrl: Option<string>
    var testButtonShown: bool
    var fallbackTimers: nat

    constructor (examples: map<string, string>)
      requires ExampleTable(examples)
      ensures this.examples == examples
      ensures !hasContainer && !containerCleared && !initialized && currentCode == None
      ensures !hasViewerElement && iframeSrc == "" && !hasStatusBar && statusText == "" && statusColor == ""
      ensures pollInterval == None && clearedIntervals == [] && lastServerUrl == None
      ensures !testButtonShown && fallbackTimers == 0
    {
      this.examples := examples;
      hasContainer := false;
      containerCleared := false;
      initialized := false;
      currentCode := None;
      hasViewerElement := false;
      iframeSrc := "";
      hasStatusBar := false;
      statusText := "";
      statusColor := "";
      pollInterval := None;
      clearedIntervals := [];
      lastServerUrl := None;
      testButtonShown := false;
      fallbackTimers := 0;
    }

    /** `updateStatus(message, type)`: nothing without a status bar. */
    method UpdateStatus(message: string, statusType: string)
      modifies this
      ensures hasStatusBar ==> statusText == message && statusColor == StatusColor(statusType)
      ensures !hasStatusBar ==> statusText == old(statusText) && statusColor == old(statusColor)
      ensures hasStatusBar == old(hasStatusBar) && hasViewerElement == old(hasViewerElement)
      ensures iframeSrc == old(iframeSrc) && initialized == old(initialized) && currentCode == old(currentCode)
      ensures pollInterval == old(pollInterval) && clearedIntervals == old(clearedIntervals)
      ensures lastServerUrl == old(lastServerUrl) && testButtonShown == old(testButtonShown)
      ensures fallbackTimers == old(fallbackTimers) && hasContainer == old(hasContainer)
      ensures containerCleared == old(containerCleared)
    {
      if !hasStatusBar {
        return;
      }
      statusText := message;
      statusColor := StatusColor(statusType);
    }

    /** `init(container)`: the viewer element is built in the container, a blank iframe
        above a status bar showing the Ready text, and the viewer is initialised. Without
        a container building fails, the viewer is not initialised and the error is
        passed on. */
    method Init(container: bool) returns (r: Result<(), string>)
      modifies this
      ensures hasContainer == container
      ensures r.Ok? <==> container
      ensures container ==>
        initialized && hasViewerElement && iframeSrc == BlankPage && hasStatusBar &&
        statusText == ReadyText && statusColor == NormalColor && containerCleared
      ensures !container ==>
        !initialized && r == Err(NullInnerHtml) &&
        hasViewerElement == old(hasViewerElement) && hasStatusBar == old(hasStatusBar)
      ensures pollInterval == old(pollInterval) && currentCode == old(currentCode)
    {
      hasContainer := container;
      if !container {
        initialized := false;
        return Err(NullInnerHtml);
      }
      containerCleared := true;
      hasViewerElement := true;
      iframeSrc := BlankPage;
      hasStatusBar := true;
      statusText := ReadyText;
      statusColor := NormalColor;
      initialized := true;
      r := Ok(());
    }

    /** `connectToYACVServer(serverUrl)`: the iframe is replaced by a fresh one loading
        the viewer under a cache-busting address, the status shows that it is loading, and
        a fallback check is scheduled. Without a viewer element this throws. */
    method ConnectToServer(serverUrl: string, timestamp: nat, randomId: string) returns (r: Result<(), string>)
      modifies this
      ensures r.Ok? <==> old(hasViewerElement)
      ensures r.Ok? ==>
        lastServerUrl == Some(serverUrl) && iframeSrc == IframeSource(serverUrl, timestamp, randomId) &&
        fallbackTimers == old(fallbackTimers) + 1 &&
        (hasStatusBar ==> statusText == LoadingText && statusColor == ProcessingColor)
      ensures r.Err? ==>
        r.error == NullOnload && lastServerUrl == Some(serverUrl) &&
        iframeSrc == old(iframeSrc) && fallbackTimers == old(fallbackTimers) &&
        statusText == old(statusText) && statusColor == old(statusColor)
      ensures hasStatusBar == old(hasStatusBar) && hasViewerElement == old(hasViewerElement)
      ensures initialized == old(initialized) && currentCode == old(currentCode)
      ensures pollInterval == old(pollInterval) && clearedIntervals == old(clearedIntervals)
      ensures testButtonShown == old(testButtonShown) && hasContainer == old(hasContainer)
    {
      lastServerUrl := Some(serverUrl);
      if !hasViewerElement {
        return Err(NullOnload);
      }
      iframeSrc := IframeSource(serverUrl, timestamp, randomId);
      UpdateStatus(LoadingText, "processing");
      fallbackTimers := fallbackTimers + 1;
      r := Ok(());
    }

    /** `executeBuild123dCode(code)`: the code is remembered and sent to the server.
        When it runs, the iframe is pointed at `yacv_url` (by default `/yacv/`) and the
        status names the number of objects shown; any failure shows `Error: <message>`
        and is passed on. */
    method ExecuteBuild123dCode(code: string, outcome: ExecOutcome, timestamp: nat, randomId: string)
      returns (r: Result<ExecBody, string>)
      modifies this
      ensures currentCode == Some(code)
      ensures r.Ok? ==>
        ExecError(outcome).None? && old(hasViewerElement) && r.value == outcome.body.value &&
        lastServerUrl == Some(Or(r.value.yacvUrl, DefaultServerPath)) &&
        iframeSrc == IframeSource(Or(r.value.yacvUrl, DefaultServerPath), timestamp, randomId) &&
        (hasStatusBar ==> statusText == ConnectedText(r.value.shownObjects) && statusColor == SuccessColor)
      ensures ExecError(outcome).Some? ==>
        r == Err(ExecError(outcome).value) && lastServerUrl == old(lastServerUrl) && iframeSrc == old(iframeSrc)
      ensures ExecError(outcome).None? && !old(hasViewerElement) ==>
        r == Err(NullOnload)
      ensures r.Err? && hasStatusBar ==> statusText == "Error: " + r.error && statusColor == ErrorColor
      ensures hasStatusBar == old(hasStatusBar) && hasViewerElement == old(hasViewerElement)
      ensures initialized == old(initialized) && pollInterval == old(pollInterval)
      ensures clearedIntervals == old(clearedIntervals) && hasContainer == old(hasContainer)
    {
      currentCode := Some(code);
      UpdateStatus(ExecutingText, "processing");
      var failure := ExecError(outcome);
      if failure.Some? {
        UpdateStatus("Error: " + failure.value, "error");
        return Err(failure.value);
      }
      r := ShowResult(outcome.body.value, timestamp, randomId);
    }

    /** The part of `executeBuild123dCode` after the server ran the code: the iframe is
        pointed at `yacv_url` (by default `/yacv/`) and the status names the number of
        objects shown; without a viewer element the connection throws and its error is
        shown and passed on. */
    method ShowResult(body: ExecBody, timestamp: nat, randomId: string) returns (r: Result<ExecBody, string>)
      modifies this
      ensures lastServerUrl == Some(Or(body.yacvUrl, DefaultServerPath))
      ensures r.Ok? <==> old(hasViewerElement)
      ensures r.Ok? ==>
        r.value == body && iframeSrc == IframeSource(Or(body.yacvUrl, DefaultServerPath), timestamp, randomId) &&
        (hasStatusBar ==> statusText == ConnectedText(body.shownObjects) && statusColor == SuccessColor)
      ensures r.Err? ==>
        r.error == NullOnload && iframeSrc == old(iframeSrc) &&
        (hasStatusBar ==> statusText == "Error: " + r.error && statusColor == ErrorColor)
      ensures hasStatusBar == old(hasStatusBar) && hasViewerElement == old(hasViewerElement)
      ensures initialized == old(initialized) && pollInterval == old(pollInterval) && currentCode == old(currentCode)
      ensures clearedIntervals == old(clearedIntervals) && hasContainer == old(hasContainer)
    {
      var url := Or(body.yacvUrl, DefaultServerPath);
      lastServerUrl := Some(url);
      var connected := ConnectToServer(url, timestamp, randomId);
      if connected.Err? {
        UpdateStatus("Error: " + connected.error, "error");
        return Err(connected.error);
      }
      UpdateStatus(ConnectedText(body.shownObjects), "success");
      r := Ok(body);
    }

    /** The iframe's `load` event. */
    method FireIframeLoad()
      modifies this
      ensures hasStatusBar ==> statusText == LoadedText && statusColor == SuccessColor
      ensures iframeSrc == old(iframeSrc) && testButtonShown == old(testButtonShown)
    {
      UpdateStatus(LoadedText, "success");
    }

    /** The iframe's `error` handler: the status suggests a new window and the test button
        (when the page has one) is shown. Browsers do not fire `error` on an iframe whose
        document fails to load (a refused connection or a blocked frame still fires
        `load`), so in practice this handler does not run; the five-second check below
        is what reports such failures. */
    method FireIframeError(hasTestButton: bool)
      modifies this
      ensures hasStatusBar ==> statusText == IframeFailedText && statusColor == ErrorColor
      ensures testButtonShown == (old(testButtonShown) || hasTestButton)
      ensures iframeSrc == old(iframeSrc)
    {
      UpdateStatus(IframeFailedText, "error");
      if hasTestButton {
        testButtonShown := true;
      }
    }

    /** The check five seconds after a connection: an empty iframe or one the page may
        not look into suggests opening a new window; a filled one changes nothing. */
    method FireFallbackTimer(check: IframeCheck, hasTestButton: bool)
      requires fallbackTimers > 0
      modifies this
      ensures fallbackTimers == old(fallbackTimers) - 1
      ensures check == IframeFilled ==>
        statusText == old(statusText) && statusColor == old(statusColor) && testButtonShown == old(testButtonShown)
      ensures check == IframeEmpty && hasStatusBar ==> statusText == SlowText && statusColor == ProcessingColor
      ensures check == CrossOrigin && hasStatusBar ==> statusText == CrossOriginText && statusColor == ProcessingColor
      ensures check != IframeFilled ==> testButtonShown == (old(testButtonShown) || hasTestButton)
      ensures iframeSrc == old(iframeSrc)
    {
      fallbackTimers := fallbackTimers - 1;
      if check == IframeFilled {
        return;
      }
      UpdateStatus(if check == IframeEmpty then SlowText else CrossOriginText, "processing");
      if hasTestButton {
        testButtonShown := true;
      }
    }

    /** `startServerPolling`: a running interval is cleared (and, as polling is switched
        off, none is started). */
    method StartServerPolling()
      modifies this
      ensures clearedIntervals == old(clearedIntervals) + (if old(pollInterval).Some? then [old(pollInterval).value] else [])
      ensures pollInterval == old(pollInterval)
    {
      if pollInterval.Some? {
        clearedIntervals := clearedIntervals + [pollInterval.value];
      }
    }

    /** `clearModel`: the iframe shows a blank page, polling stops and the status is back
        to Ready. Without a viewer element this throws before changing anything. */
    method ClearModel() returns (r: Result<(), string>)
      modifies this
      ensures r.Ok? <==> old(hasViewerElement)
      ensures r.Ok? ==>
        iframeSrc == BlankPage && pollInterval == None &&
        clearedIntervals == old(clearedIntervals) + (if old(pollInterval).Some? then [old(pollInterval).value] else []) &&
        (hasStatusBar ==> statusText == ReadyText && statusColor == NormalColor)
      ensures r.Err? ==>
        r.error == NullSrc &&
        iframeSrc == old(iframeSrc) && pollInterval == old(pollInterval) && statusText == old(statusText)
      ensures initialized == old(initialized) && lastServerUrl == old(lastServerUrl)
    {
      if !hasViewerElement {
        return Err(NullSrc);
      }
      iframeSrc := BlankPage;
      if pollInterval.Some? {
        clearedIntervals := clearedIntervals + [pollInterval.value];
        pollInterval := None;
      }
      UpdateStatus(ReadyText, "normal");
      r := Ok(());
    }

    /** `destroy`: polling stops, the container is emptied and the viewer is no longer
        initialised. */
    method Destroy()
      modifies this
      ensures !initialized && pollInterval == None
      ensures clearedIntervals == old(clearedIntervals) + (if old(pollInterval).Some? then [old(pollInterval).value] else [])
      ensures containerCleared == (old(containerCleared) || hasContainer)
      ensures hasContainer == old(hasContainer) && lastServerUrl == old(lastServerUrl)
    {
      if pollInterval.Some? {
        clearedIntervals := clearedIntervals + [pollInterval.value];
        pollInterval := None;
      }
      if hasContainer {
        containerCleared := true;
      }
      initialized := false;
    }

    /** `loadExample(name)` (by default `box_with_hole`): a built-in example runs as
        code; any other name fails with `Example '<name>' not found` and nothing runs. */
    method LoadExample(name: Option<string>, outcome: ExecOutcome, timestamp: nat, randomId: string)
      returns (r: Result<ExecBody, string>)
      requires ExampleTable(examples)
      modifies this
      ensures name.GetOr("box_with_hole") in ExampleNames ==>
        currentCode == Some(examples[name.GetOr("box_with_hole")])
      ensures name.GetOr("box_with_hole") !in ExampleNames ==>
        r == Err("Example '" + name.GetOr("box_with_hole") + "' not found") && currentCode == old(currentCode) &&
        statusText == old(statusText) && lastServerUrl == old(lastServerUrl)
      ensures r.Ok? ==> name.GetOr("box_with_hole") in ExampleNames && ExecError(outcome).None?
    {
      var n := name.GetOr("box_with_hole");
      if n in examples && examples[n] != "" {
        r := ExecuteBuild123dCode(examples[n], outcome, timestamp, randomId);
      } else {
        r := Err("Example '" + n + "' not found");
      }
    }
  }

  /** `initYACVBuild123dViewer(container)`: the previous global viewer, if any, is
      destroyed and a new one is made and initialised. */
  method InitGlobal(previous: Viewer?, examples: map<string, string>, container: bool)
    returns (viewer: Viewer, r: Result<(), string>)
    requires ExampleTable(examples)
    modifies previous
    ensures fresh(viewer) && viewer.examples == examples
    ensures previous != null ==> !previous.initialized && previous.pollInterval == None
    ensures r.Ok? <==> container
    ensures viewer.initialized <==> container
    ensures container ==> viewer.statusText == ReadyText && viewer.iframeSrc == BlankPage
  {
    if previous != null {
      previous.Destroy();
    }
    viewer := new Viewer(examples);
    r := viewer.Init(container);
  }

  // ---------------------------------------------------------------- lemmas

  /** Only the four known types have colours of their own; all others look normal. */
  lemma StatusColorTable(statusType: string)
    ensures StatusColor(statusType) == NormalColor <==> statusType !in {"processing", "success", "error"}
  {
  }

  /** The server path defaults to `/yacv/`, so the fresh iframe always loads some viewer
      page, and the one the server names when it names one. */
  lemma ServerPathChoice(body: ExecBody, timestamp: nat, randomId: string)
    ensures Truthy(body.yacvUrl) ==> StartsWith(IframeSource(Or(body.yacvUrl, DefaultServerPath), timestamp, randomId), body.yacvUrl.value)
    ensures !Truthy(body.yacvUrl) ==> StartsWith(IframeSource(Or(body.yacvUrl, DefaultServerPath), timestamp, randomId), DefaultServerPath)
  {
    var u := Or(body.yacvUrl, DefaultServerPath);
    var src := IframeSource(u, timestamp, randomId);
    assert StartsWith(src, u + "index.html?t=");
    assert src[..|u|] == (u + "index.html?t=")[..|u|];
  }
}
