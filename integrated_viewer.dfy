/** The integrated 3D viewer of the page: the Online3DViewer-based viewer's bookkeeping of
    which model URL was last loaded and when, the colour it applies to models, the 300 ms
    debounce of colour changes, and the loader that fetches the viewer library from three
    sources in turn. The viewer library itself is represented by the calls made to it:
    every `LoadModelFromUrlList` call is recorded in `loads`. */
module IntegratedViewer {
  import opened Wrappers
  import opened Text
  import opened Hex
  import opened Browser

  const DefaultColor := "#FF4500"
  /** A repeated load of the same base URL within this many milliseconds is skipped. */
  const ReloadWindow := 1000

  /** A colour chosen from two candidates in order of priority: the first when it is
      set and not empty, else the second when it is, else the default. The viewer is
      created with `PreferredColor(pending, selected)` (integrated_viewer.js:175); a
      backend model is loaded with `PreferredColor(selected, pending)` (line 934). */
  function PreferredColor(first: Option<string>, second: Option<string>): (c: string)
    ensures c != []
    ensures Truthy(first) ==> c == first.value
    ensures !Truthy(first) && Truthy(second) ==> c == second.value
    ensures !Truthy(first) && !Truthy(second) ==> c == DefaultColor
  {
    Or(OrOpt(first, second), DefaultColor)
  }

  /** `url.split('?')[0]`. */
  function BaseUrl(url: string): (b: string)
    ensures '?' !in b && StartsWith(url, b)
    ensures '?' !in url ==> b == url
  {
    FirstPiece(url, '?');
    Split(url, '?')[0]
  }

  /** The URL a backend model is loaded from: the page origin, the model's path and a
      cache-busting timestamp. */
  function ModelUrl(origin: string, path: string): string
  {
    origin + "/" + path
  }

  function Stamped(url: string, stamp: nat): (u: string)
    ensures u != []
  {
    url + "?t=" + DecimalString(stamp)
  }

  /** `lastModelLoadTime` is judged by its truthiness, so a time of 0 counts as no time. */
  predicate TimeTruthy(t: Option<int>)
  {
    t.Some? && t.value != 0
  }

  /** The two early returns of `updateAdvancedModel` for a model with a path: the exact
      timestamped URL was the last one loaded, or the same base URL was loaded less than
      a second ago. */
  predicate SkipsLoad(lastUrl: Option<string>, lastTime: Option<int>, url: string, stamped: string, now: int)
  {
    lastUrl == Some(stamped) ||
    (Truthy(lastUrl) && BaseUrl(url) == BaseUrl(lastUrl.value) &&
     TimeTruthy(lastTime) && now - lastTime.value < ReloadWindow)
  }

  /** The model description the backend sends; `hasGeometry` says whether it carries
      `vertices` and `faces`, which only the simple viewer uses. A missing `modelData`
      is a `ModelData` with neither path nor type. */
  datatype ModelData = ModelData(path: Option<string>, modelType: Option<string>, hasGeometry: bool)

  datatype Mode = Simple | Advanced

  /** The calls to the download handler, in order. */
  datatype DownloadCall = SetDownloadModel(data: ModelData) | ClearDownloadModel

  class IntegratedViewer {
    var mode: Mode
    var initialized: bool
    var isInitializing: bool
    /** Whether `advancedViewer` is set. */
    var hasAdvancedViewer: bool
    /** The colour `viewerConfig.defaultColor` was last parsed from (its channels are
        `ParseRgb` of it), `None` while `viewerConfig` is undefined. */
    var viewerColor: Option<string>
    var lastModelUrl: Option<string>
    var lastModelLoadTime: Option<int>
    var pendingColor: Option<string>
    /** The pending `colorUpdateTimeout`, holding the colour its callback will apply. */
    var colorTimer: Option<string>
    /** The URL lists passed to `LoadModelFromUrlList`, in order. */
    var loads: seq<seq<string>>
    var downloadCalls: seq<DownloadCall>
    const storage: LocalStorage

    /** A URL is recorded exactly when its load time is, and recorded URLs are non-empty;
        an advanced viewer always has a configured colour, and a colour timer is only set
        with an advanced viewer. */
    ghost predicate Valid()
      reads this
    {
      (lastModelUrl.Some? <==> lastModelLoadTime.Some?) &&
      (lastModelUrl.Some? ==> lastModelUrl.value != []) &&
      (hasAdvancedViewer ==> viewerColor.Some?) &&
      (colorTimer.Some? ==> hasAdvancedViewer && mode == Advanced) &&
      (isInitializing ==> mode == Advanced)
    }

    constructor (storage: LocalStorage)
      ensures Valid()
      ensures this.storage == storage
      ensures mode == Simple && !initialized && !isInitializing && !hasAdvancedViewer
      ensures viewerColor == None && lastModelUrl == None && lastModelLoadTime == None
      ensures pendingColor == None && colorTimer == None && loads == [] && downloadCalls == []
    {
      this.storage := storage;
      mode := Simple;
      initialized := false;
      isInitializing := false;
      hasAdvancedViewer := false;
      viewerColor := None;
      lastModelUrl := None;
      lastModelLoadTime := None;
      pendingColor := None;
      colorTimer := None;
      loads := [];
      downloadCalls := [];
    }

    /** The synchronous start of `init`: the advanced viewer is always chosen and colour
        updates are held off. */
    method BeginInit()
      requires Valid()
      modifies this
      ensures Valid()
      ensures mode == Advanced && isInitializing
      ensures initialized == old(initialized) && hasAdvancedViewer == old(hasAdvancedViewer)
      ensures viewerColor == old(viewerColor) && pendingColor == old(pendingColor)
      ensures lastModelUrl == old(lastModelUrl) && lastModelLoadTime == old(lastModelLoadTime)
      ensures colorTimer == old(colorTimer) && loads == old(loads) && downloadCalls == old(downloadCalls)
    {
      mode := Advanced;
      isInitializing := true;
    }

    /** The end of `init` once `initAdvancedViewer` has settled; `ok` says whether it
        succeeded. On success the viewer is created with the pending colour first. Either way colour
        updates are allowed again. */
    method FinishInit(ok: bool)
      requires Valid()
      modifies this
      ensures Valid()
      ensures !isInitializing && initialized == ok
      ensures ok ==>
        hasAdvancedViewer && viewerColor == Some(PreferredColor(old(pendingColor), storage.GetItem("selectedColor")))
      ensures !ok ==> hasAdvancedViewer == old(hasAdvancedViewer) && viewerColor == old(viewerColor)
      ensures mode == old(mode) && pendingColor == old(pendingColor)
      ensures lastModelUrl == old(lastModelUrl) && lastModelLoadTime == old(lastModelLoadTime)
      ensures colorTimer == old(colorTimer) && loads == old(loads) && downloadCalls == old(downloadCalls)
    {
      if ok {
        var color := PreferredColor(pendingColor, storage.GetItem("selectedColor"));
        viewerColor := Some(color);
        hasAdvancedViewer := true;
        initialized := true;
        isInitializing := false;
      } else {
        isInitializing := false;
        initialized := false;
      }
    }

    /** `updateAdvancedModel`: `origin` is `window.location.origin`; `stamp` and `now` are
        the two readings of `Date.now()` it takes. */
    method UpdateAdvancedModel(data: ModelData, origin: string, stamp: nat, now: nat)
      requires Valid()
      modifies this
      ensures Valid()
      ensures var url := ModelUrl(origin, data.path.GetOr(""));
        old(hasAdvancedViewer) && Truthy(data.path) &&
        !SkipsLoad(old(lastModelUrl), old(lastModelLoadTime), url, Stamped(url, stamp), now) ==>
        lastModelUrl == Some(Stamped(url, stamp)) && lastModelLoadTime == Some(now) &&
        pendingColor == None && loads == old(loads) + [[Stamped(url, stamp)]] &&
        viewerColor == Some(PreferredColor(storage.GetItem("selectedColor"), old(pendingColor)))
      ensures var url := ModelUrl(origin, data.path.GetOr(""));
        !old(hasAdvancedViewer) ||
        (Truthy(data.path) && SkipsLoad(old(lastModelUrl), old(lastModelLoadTime), url, Stamped(url, stamp), now)) ||
        (!Truthy(data.path) && data.modelType != Some("reset")) ==>
        lastModelUrl == old(lastModelUrl) && lastModelLoadTime == old(lastModelLoadTime) &&
        pendingColor == old(pendingColor) && loads == old(loads) && viewerColor == old(viewerColor)
      ensures old(hasAdvancedViewer) && !Truthy(data.path) && data.modelType == Some("reset") ==>
        lastModelUrl == None && lastModelLoadTime == None && loads == old(loads) + [[]] &&
        pendingColor == old(pendingColor) && viewerColor == old(viewerColor)
      ensures mode == old(mode) && initialized == old(initialized) && isInitializing == old(isInitializing)
      ensures hasAdvancedViewer == old(hasAdvancedViewer) && colorTimer == old(colorTimer)
      ensures downloadCalls == old(downloadCalls)
    {
      if !hasAdvancedViewer {
        return;
      }
      if Truthy(data.path) {
        var url := ModelUrl(origin, data.path.value);
        var stamped := Stamped(url, stamp);
        if SkipsLoad(lastModelUrl, lastModelLoadTime, url, stamped, now) {
          return;
        }
        LoadStamped(stamped, now);
      } else if data.modelType == Some("reset") {
        loads := loads + [[]];
        lastModelUrl := None;
        lastModelLoadTime := None;
      }
    }

    /** The load at the end of `updateAdvancedModel`: the URL and its time are recorded,
        the viewer's colour is set with the stored selection first, the URL is loaded and the
        pending colour is cleared. */
    method LoadStamped(stamped: string, now: nat)
      requires Valid() && hasAdvancedViewer && stamped != []
      modifies this
      ensures Valid()
      ensures lastModelUrl == Some(stamped) && lastModelLoadTime == Some(now)
      ensures pendingColor == None && loads == old(loads) + [[stamped]]
      ensures viewerColor == Some(PreferredColor(storage.GetItem("selectedColor"), old(pendingColor)))
      ensures mode == old(mode) && initialized == old(initialized) && isInitializing == old(isInitializing)
      ensures hasAdvancedViewer == old(hasAdvancedViewer) && colorTimer == old(colorTimer)
      ensures downloadCalls == old(downloadCalls)
    {
      lastModelUrl := Some(stamped);
      lastModelLoadTime := Some(now);
      var color := PreferredColor(storage.GetItem("selectedColor"), pendingColor);
      if viewerColor.Some? {
        viewerColor := Some(color);
      }
      loads := loads + [[stamped]];
      pendingColor := None;
    }

    /** `updateModel`: the advanced viewer's update (the simple viewer's is not part of
        this model), then the model handed to the download handler. */
    method UpdateModel(data: ModelData, origin: string, stamp: nat, now: nat)
      requires Valid()
      modifies this
      ensures Valid()
      ensures downloadCalls == old(downloadCalls) + [SetDownloadModel(data)]
      ensures old(mode) == Simple ==>
        lastModelUrl == old(lastModelUrl) && lastModelLoadTime == old(lastModelLoadTime) &&
        loads == old(loads) && pendingColor == old(pendingColor)
      ensures mode == old(mode) && hasAdvancedViewer == old(hasAdvancedViewer) && colorTimer == old(colorTimer)
    {
      if mode == Advanced {
        UpdateAdvancedModel(data, origin, stamp, now);
      }
      downloadCalls := downloadCalls + [SetDownloadModel(data)];
    }

    /** `clearModel`: with the advanced viewer, an empty load and both records of the last
        load forgotten; in every mode the download handler is cleared. */
    method ClearModel()
      requires Valid()
      modifies this
      ensures Valid()
      ensures old(mode) == Advanced && old(hasAdvancedViewer) ==>
        lastModelUrl == None && lastModelLoadTime == None && loads == old(loads) + [[]]
      ensures !(old(mode) == Advanced && old(hasAdvancedViewer)) ==>
        lastModelUrl == old(lastModelUrl) && lastModelLoadTime == old(lastModelLoadTime) && loads == old(loads)
      ensures downloadCalls == old(downloadCalls) + [ClearDownloadModel]
      ensures mode == old(mode) && hasAdvancedViewer == old(hasAdvancedViewer) && viewerColor == old(viewerColor)
      ensures pendingColor == old(pendingColor) && colorTimer == old(colorTimer)
      ensures initialized == old(initialized) && isInitializing == old(isInitializing)
    {
      if mode == Advanced && hasAdvancedViewer {
        loads := loads + [[]];
        lastModelUrl := None;
        lastModelLoadTime := None;
      }
      downloadCalls := downloadCalls + [ClearDownloadModel];
    }

    /** Whether `updateModelColor(color)` reaches the advanced viewer's branch. */
    predicate TakesColor()
      reads this
    {
      !isInitializing && mode == Advanced && hasAdvancedViewer
    }

    /** `updateModelColor`: ignored while initialising; with the advanced viewer the colour
        is stored, configured for later loads, and a 300 ms timer replacing any pending
        one is set to apply it. (The simple viewer's material update is not part of this
        model.) */
    method UpdateModelColor(color: string)
      requires Valid()
      modifies this, storage
      ensures Valid()
      ensures old(TakesColor()) ==>
        storage.items == old(storage.items)["selectedColor" := color] && colorTimer == Some(color) &&
        viewerColor == Some(color)
      ensures !old(TakesColor()) ==>
        storage.items == old(storage.items) && colorTimer == old(colorTimer) && viewerColor == old(viewerColor)
      ensures mode == old(mode) && initialized == old(initialized) && isInitializing == old(isInitializing)
      ensures hasAdvancedViewer == old(hasAdvancedViewer) && pendingColor == old(pendingColor)
      ensures lastModelUrl == old(lastModelUrl) && lastModelLoadTime == old(lastModelLoadTime)
      ensures loads == old(loads) && downloadCalls == old(downloadCalls)
    {
      if isInitializing {
        return;
      }
      if mode == Advanced && hasAdvancedViewer {
        storage.SetItem("selectedColor", color);
        if viewerColor.Some? {
          viewerColor := Some(color);
        }
        colorTimer := Some(color);
      }
    }

    /** `recreateAdvancedViewerWithColor`: a new viewer configured with `color`, loading
        `modelUrl` when there is one. It fails with a `TypeError` before touching anything
        but `pendingColor` when `viewerConfig` is still undefined; `thrown` says so. */
    method RecreateAdvancedViewerWithColor(color: string, modelUrl: Option<string>, now: nat)
      returns (thrown: bool)
      requires Valid()
      modifies this
      ensures Valid()
      ensures thrown <==> old(viewerColor).None?
      ensures thrown ==>
        pendingColor == Some(color) && hasAdvancedViewer == old(hasAdvancedViewer) &&
        viewerColor == old(viewerColor) && lastModelUrl == old(lastModelUrl) &&
        lastModelLoadTime == old(lastModelLoadTime) && loads == old(loads)
      ensures !thrown ==> pendingColor == None && hasAdvancedViewer && viewerColor == Some(color)
      ensures !thrown && Truthy(modelUrl) ==>
        lastModelUrl == modelUrl && lastModelLoadTime == Some(now) && loads == old(loads) + [[modelUrl.value]]
      ensures !thrown && !Truthy(modelUrl) ==>
        lastModelUrl == None && lastModelLoadTime == None && loads == old(loads)
      ensures mode == old(mode) && initialized == old(initialized) && isInitializing == old(isInitializing)
      ensures colorTimer == old(colorTimer) && downloadCalls == old(downloadCalls)
    {
      pendingColor := Some(color);
      if viewerColor.None? {
        return true;
      }
      viewerColor := Some(color);
      hasAdvancedViewer := true;
      if Truthy(modelUrl) {
        loads := loads + [[modelUrl.value]];
        lastModelUrl := modelUrl;
        lastModelLoadTime := Some(now);
      } else {
        lastModelUrl := None;
        lastModelLoadTime := None;
      }
      pendingColor := None;
      return false;
    }

    /** The debounce timer firing at time `now`: the viewer is recreated with the timer's
        colour and the last loaded URL, if any, and the timer handle is cleared. */
    method FireColorTimer(now: nat)
      requires Valid() && colorTimer.Some?
      modifies this
      ensures Valid()
      ensures colorTimer == None && pendingColor == None && hasAdvancedViewer
      ensures viewerColor == old(colorTimer)
      ensures old(lastModelUrl).Some? ==>
        lastModelUrl == old(lastModelUrl) && lastModelLoadTime == Some(now) &&
        loads == old(loads) + [[old(lastModelUrl).value]]
      ensures old(lastModelUrl).None? ==> lastModelUrl == None && lastModelLoadTime == None && loads == old(loads)
      ensures mode == old(mode) && initialized == old(initialized) && isInitializing == old(isInitializing)
      ensures downloadCalls == old(downloadCalls)
    {
      var color := colorTimer.value;
      var url := if Truthy(lastModelUrl) then lastModelUrl else None;
      var _ := RecreateAdvancedViewerWithColor(color, url, now);
      colorTimer := None;
    }

    /** `destroy` (the second of the class's two definitions, which is the one in effect). */
    method Destroy()
      requires Valid()
      modifies this
      ensures Valid()
      ensures !initialized
      ensures mode == old(mode) && isInitializing == old(isInitializing) && hasAdvancedViewer == old(hasAdvancedViewer)
      ensures viewerColor == old(viewerColor) && pendingColor == old(pendingColor) && colorTimer == old(colorTimer)
      ensures lastModelUrl == old(lastModelUrl) && lastModelLoadTime == old(lastModelLoadTime)
      ensures loads == old(loads) && downloadCalls == old(downloadCalls)
    {
      initialized := false;
    }
  }

  /** The page-wide `updateModelColor`: handed to the viewer once it is initialised,
      otherwise the colour is stored under both keys for when it is. */
  method GlobalUpdateModelColor(viewer: IntegratedViewer?, storage: LocalStorage, color: string)
    requires viewer != null ==> viewer.Valid() && viewer.storage == storage
    modifies viewer, storage
    ensures viewer != null ==> viewer.Valid()
    ensures (viewer == null || !old(viewer.initialized)) ==>
      storage.items == old(storage.items)["selectedColor" := color]["morfis_model_color" := color]
    ensures viewer != null && !old(viewer.initialized) ==>
      viewer.colorTimer == old(viewer.colorTimer) && viewer.viewerColor == old(viewer.viewerColor)
    ensures viewer != null && old(viewer.initialized) && old(viewer.TakesColor()) ==>
      storage.items == old(storage.items)["selectedColor" := color] && viewer.colorTimer == Some(color)
    ensures viewer != null && old(viewer.initialized) && !old(viewer.TakesColor()) ==>
      storage.items == old(storage.items) && viewer.colorTimer == old(viewer.colorTimer)
  {
    if viewer != null && viewer.initialized {
      viewer.UpdateModelColor(color);
    } else {
      storage.SetItem("selectedColor", color);
      storage.SetItem("morfis_model_color", color);
    }
  }

  // ------------------------------------------------------------ library loader

  /** The sources `loadOnline3DViewer` tries, in this order. */
  const CdnUrls: seq<string> := [
    "/static/js/libs/o3dv.min.js",
    "https://unpkg.com/online-3d-viewer@0.16.0/build/engine/o3dv.min.js",
    "https://cdn.jsdelivr.net/npm/online-3d-viewer@0.16.0/build/engine/o3dv.min.js"
  ]

  /** The promise `loadOnline3DViewer` returns; once settled it stays settled. */
  datatype LoadState = Pending | Resolved | Rejected(message: string)

  const AllFailed := "All CDN sources failed"

  /** The state behind `loadOnline3DViewer`'s promise. There is one script element: its
      `src` is set to the first source before it is inserted, which starts its one fetch.
      A script element fetches once, so setting `src` again later loads nothing and fires
      no further `load` or `error` event. The fields are the `src` last set, the index of
      the next source, every value `src` has been given, the source the element
      fetches, whether its one event has fired, and the one-second checks `onload`
      scheduled. */
  class LibraryLoader {
    var urlIndex: nat
    var scriptSrc: string
    var tried: seq<string>
    var fetched: string
    var fired: bool
    var state: LoadState
    var pendingChecks: nat

    /** The sources were given to `src` in order, each once. */
    ghost predicate Sources()
      reads this
    {
      1 <= urlIndex <= |CdnUrls| && tried == CdnUrls[..urlIndex] && scriptSrc == CdnUrls[urlIndex - 1]
    }

    /** Besides the order of the sources: only the first one is fetched; before its event
        nothing else has happened; `onload` schedules one check; and once the second
        source is set nothing more happens, so at most two sources are ever set and the
        promise is never rejected. */
    ghost predicate Valid()
      reads this
    {
      Sources() && fetched == CdnUrls[0] && urlIndex <= 2 && pendingChecks <= 1 &&
      (!fired ==> urlIndex == 1 && pendingChecks == 0 && state == Pending) &&
      (pendingChecks == 1 ==> urlIndex == 1 && state == Pending) &&
      (urlIndex == 2 ==> pendingChecks == 0 && state == Pending) &&
      !state.Rejected?
    }

    /** No event handler can run any more (the element's event has fired and no check
        is scheduled) and the promise is still pending: it never settles. */
    predicate Stuck()
      reads this
    {
      fired && pendingChecks == 0 && state == Pending
    }

    /** The promise's executor: the first source is set, then the element is inserted
        and fetches it. */
    constructor ()
      ensures Valid()
      ensures urlIndex == 1 && tried == [CdnUrls[0]] && scriptSrc == CdnUrls[0] && fetched == CdnUrls[0]
      ensures !fired && state == Pending && pendingChecks == 0
    {
      urlIndex := 1;
      scriptSrc := CdnUrls[0];
      tried := [CdnUrls[0]];
      fetched := CdnUrls[0];
      fired := false;
      state := Pending;
      pendingChecks := 0;
    }

    /** `tryNextUrl`: the next source is given to `src`, or the promise is rejected once
        none is left. */
    method TryNextUrl()
      requires Sources()
      modifies this
      ensures Sources()
      ensures old(urlIndex) < |CdnUrls| ==>
        urlIndex == old(urlIndex) + 1 && tried == old(tried) + [CdnUrls[old(urlIndex)]] && state == old(state)
      ensures old(urlIndex) >= |CdnUrls| ==>
        urlIndex == old(urlIndex) && tried == old(tried) &&
        state == (if old(state).Pending? then Rejected(AllFailed) else old(state))
      ensures fetched == old(fetched) && fired == old(fired) && pendingChecks == old(pendingChecks)
    {
      if urlIndex >= |CdnUrls| {
        if state.Pending? {
          state := Rejected(AllFailed);
        }
        return;
      }
      scriptSrc := CdnUrls[urlIndex];
      tried := tried + [CdnUrls[urlIndex]];
      assert tried == CdnUrls[..urlIndex + 1];
      urlIndex := urlIndex + 1;
    }

    /** `script.onerror`, for the one fetch the element makes: the second source is set,
        which fetches nothing, and the loader is stuck. */
    method OnError()
      requires Valid() && !fired
      modifies this
      ensures Valid() && Stuck()
      ensures urlIndex == 2 && tried == CdnUrls[..2] && scriptSrc == CdnUrls[1]
    {
      fired := true;
      TryNextUrl();
    }

    /** `script.onload`: a check is scheduled for one second later. */
    method OnLoad()
      requires Valid() && !fired
      modifies this
      ensures Valid()
      ensures fired && pendingChecks == 1
      ensures urlIndex == old(urlIndex) && tried == old(tried) && state == Pending
    {
      fired := true;
      pendingChecks := pendingChecks + 1;
    }

    /** The scheduled check firing; `ovDefined` says whether the library's `OV` global
        exists by then. Without it the second source is set, which fetches nothing, and
        the loader is stuck. */
    method FireCheck(ovDefined: bool)
      requires Valid() && pendingChecks > 0
      modifies this
      ensures Valid()
      ensures pendingChecks == 0
      ensures ovDefined ==> tried == old(tried) && state == Resolved
      ensures !ovDefined ==> tried == CdnUrls[..2] && Stuck()
    {
      pendingChecks := pendingChecks - 1;
      if ovDefined {
        state := Resolved;
      } else {
        TryNextUrl();
      }
    }
  }

  /** The local copy of the library fails to load: the loader is stuck with the promise
      pending, having set the first CDN as `src` without fetching it. */
  method LocalCopyFailureSticks() returns (state: LoadState, tried: seq<string>, stuck: bool)
    ensures state == Pending && stuck && tried == CdnUrls[..2]
  {
    var loader := new LibraryLoader();
    loader.OnError();
    return loader.state, loader.tried, loader.Stuck();
  }

  /** The loader as it is evidently meant: `tryNextUrl` inserts a fresh script element
      for each source, so every source is fetched and fires its own event. `current` is
      the source the newest element fetches, `fired` whether its event has fired. */
  class FreshScriptLoader {
    var urlIndex: nat
    var tried: seq<string>
    var current: Option<string>
    var fired: bool
    var state: LoadState
    var pendingChecks: nat

    /** The sources were fetched in order, each once, the newest element fetching the
        last one; the promise is rejected only after all three failed. */
    ghost predicate Valid()
      reads this
    {
      1 <= urlIndex <= |CdnUrls| && tried == CdnUrls[..urlIndex] &&
      (current.Some? ==> current.value == CdnUrls[urlIndex - 1]) &&
      (state.Rejected? ==> urlIndex == |CdnUrls|)
    }

    constructor ()
      ensures Valid()
      ensures urlIndex == 1 && tried == [CdnUrls[0]] && current == Some(CdnUrls[0])
      ensures !fired && state == Pending && pendingChecks == 0
    {
      urlIndex := 1;
      tried := [CdnUrls[0]];
      current := Some(CdnUrls[0]);
      fired := false;
      state := Pending;
      pendingChecks := 0;
    }

    /** `tryNextUrl`: a new element fetching the next source, or the rejection once none
        is left. */
    method TryNextUrl()
      requires Valid()
      modifies this
      ensures Valid()
      ensures old(urlIndex) < |CdnUrls| ==>
        urlIndex == old(urlIndex) + 1 && tried == old(tried) + [CdnUrls[old(urlIndex)]] &&
        current == Some(CdnUrls[old(urlIndex)]) && !fired && state == old(state)
      ensures old(urlIndex) >= |CdnUrls| ==>
        urlIndex == old(urlIndex) && tried == old(tried) && current == old(current) && fired == old(fired) &&
        state == (if old(state).Pending? then Rejected(AllFailed) else old(state))
      ensures pendingChecks == old(pendingChecks)
    {
      if urlIndex >= |CdnUrls| {
        if state.Pending? {
          state := Rejected(AllFailed);
        }
        return;
      }
      current := Some(CdnUrls[urlIndex]);
      fired := false;
      tried := tried + [CdnUrls[urlIndex]];
      assert tried == CdnUrls[..urlIndex + 1];
      urlIndex := urlIndex + 1;
    }

    /** The newest element's `error` event. */
    method OnError()
      requires Valid() && current.Some? && !fired
      modifies this
      ensures Valid()
      ensures old(urlIndex) < |CdnUrls| ==>
        tried == old(tried) + [CdnUrls[old(urlIndex)]] && current == Some(CdnUrls[old(urlIndex)]) &&
        !fired && state == old(state)
      ensures old(urlIndex) >= |CdnUrls| ==> fired && state == (if old(state).Pending? then Rejected(AllFailed) else old(state))
      ensures pendingChecks == old(pendingChecks)
    {
      fired := true;
      TryNextUrl();
    }

    /** The newest element's `load` event: a check is scheduled. */
    method OnLoad()
      requires Valid() && current.Some? && !fired
      modifies this
      ensures Valid()
      ensures fired && pendingChecks == old(pendingChecks) + 1
      ensures urlIndex == old(urlIndex) && tried == old(tried) && state == old(state)
    {
      fired := true;
      pendingChecks := pendingChecks + 1;
    }

    /** A scheduled check firing. */
    method FireCheck(ovDefined: bool)
      requires Valid() && pendingChecks > 0
      modifies this
      ensures Valid()
      ensures pendingChecks == old(pendingChecks) - 1
      ensures ovDefined ==> tried == old(tried) && state == (if old(state).Pending? then Resolved else old(state))
      ensures !ovDefined && old(urlIndex) < |CdnUrls| ==> tried == old(tried) + [CdnUrls[old(urlIndex)]] && state == old(state)
      ensures !ovDefined && old(urlIndex) >= |CdnUrls| ==>
        state == (if old(state).Pending? then Rejected(AllFailed) else old(state))
    {
      pendingChecks := pendingChecks - 1;
      if ovDefined {
        if state.Pending? {
          state := Resolved;
        }
      } else {
        TryNextUrl();
      }
    }
  }

  /** With a fresh element per source, a failing local copy leads to the first CDN,
      which loads: the promise is resolved. */
  method LocalCopyFailureRecoversCorrected() returns (state: LoadState, tried: seq<string>)
    ensures state == Resolved && tried == CdnUrls[..2]
  {
    var loader := new FreshScriptLoader();
    loader.OnError();
    loader.OnLoad();
    loader.FireCheck(true);
    return loader.state, loader.tried;
  }

  /** With a fresh element per source, three failures reject the promise with
      `All CDN sources failed`, after every source was fetched. */
  method AllSourcesFailCorrected() returns (state: LoadState, tried: seq<string>)
    ensures state == Rejected(AllFailed) && tried == CdnUrls
  {
    var loader := new FreshScriptLoader();
    loader.OnError();
    loader.OnError();
    loader.OnError();
    assert CdnUrls[..3] == CdnUrls;
    return loader.state, loader.tried;
  }

  // ---------------------------------------------------------------- lemmas

  /** Every call site's parsing of a valid `#RRGGBB` colour gives three channels in
      0..255. */
  lemma ValidColorChannels(color: string)
    requires IsHexColor(color)
    ensures ParseRgb(color).0.Some? && 0 <= ParseRgb(color).0.value <= 255
    ensures ParseRgb(color).1.Some? && 0 <= ParseRgb(color).1.value <= 255
    ensures ParseRgb(color).2.Some? && 0 <= ParseRgb(color).2.value <= 255
  {
    assert DigitValue(color[1]) < 16 && DigitValue(color[2]) < 16;
    assert DigitValue(color[3]) < 16 && DigitValue(color[4]) < 16;
    assert DigitValue(color[5]) < 16 && DigitValue(color[6]) < 16;
  }

  /** The two priorities pick different colours exactly when both a pending colour and a
      stored selection exist and they differ. */
  lemma ColorPrioritiesDiffer(pending: Option<string>, selected: Option<string>)
    ensures PreferredColor(pending, selected) != PreferredColor(selected, pending) <==>
      Truthy(pending) && Truthy(selected) && pending.value != selected.value
  {
  }

  /** Adding the timestamp does not change the base URL. */
  lemma BaseOfStamped(url: string, stamp: nat)
    ensures BaseUrl(Stamped(url, stamp)) == BaseUrl(url)
  {
    var tail := "?t=" + DecimalString(stamp);
    assert Stamped(url, stamp) == url + tail;
    FirstPiece(url, '?');
    FirstPiece(url + tail, '?');
    IndexOfAppend(url, tail, '?');
    var i := IndexOf(url, '?');
    assert (url + tail)[..i] == url[..i];
  }

  /** A second request for the same path less than a second after it was loaded is
      skipped, whatever its timestamp. */
  lemma RepeatWithinWindowSkipped(url: string, stamp1: nat, loadTime: nat, stamp2: nat, now: int)
    requires loadTime != 0 && now - loadTime < ReloadWindow
    ensures SkipsLoad(Some(Stamped(url, stamp1)), Some(loadTime), url, Stamped(url, stamp2), now)
  {
    BaseOfStamped(url, stamp1);
  }

  /** A request for the same path with a new timestamp, a second or more after the last
      load, is loaded. */
  lemma LaterRequestLoads(url: string, stamp1: nat, loadTime: nat, stamp2: nat, now: int)
    requires stamp1 != stamp2 && now - loadTime >= ReloadWindow
    ensures !SkipsLoad(Some(Stamped(url, stamp1)), Some(loadTime), url, Stamped(url, stamp2), now)
  {
    var a, b := Stamped(url, stamp1), Stamped(url, stamp2);
    if a == b {
      var n := |url| + 3;
      assert a[n..] == DecimalString(stamp1);
      assert b[n..] == DecimalString(stamp2);
      DecimalRoundTrip(stamp1);
      DecimalRoundTrip(stamp2);
      assert false;
    }
  }

  /** After a reset or a clear, nothing is skipped. */
  lemma ClearedNeverSkips(url: string, stamped: string, now: int)
    requires stamped != []
    ensures !SkipsLoad(None, None, url, stamped, now)
  {
  }

  /** Two different base URLs never suppress each other, however close in time. */
  lemma OtherModelLoads(lastUrl: string, loadTime: int, url: string, stamp: nat, now: int)
    requires BaseUrl(lastUrl) != BaseUrl(url)
    ensures !SkipsLoad(Some(lastUrl), Some(loadTime), url, Stamped(url, stamp), now)
  {
    BaseOfStamped(url, stamp);
  }
}
