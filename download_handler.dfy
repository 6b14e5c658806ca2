/** The download button of the viewer: it is enabled exactly while a model is known,
    and a click downloads the model, either as the file the server holds (`path`) or as
    an ASCII STL text generated from the model's vertices and faces. The STL text is
    modelled line by line with the numbers kept as values: the `toFixed(6)` formatting
    and the normalisation of each facet normal are not modelled. */
module DownloadHandler {
  import opened Wrappers
  import opened Text
  import opened Browser

  // ---------------------------------------------------------------- geometry

  datatype Vec = Vec(x: real, y: real, z: real)

  function Sub(a: Vec, b: Vec): Vec
  {
    Vec(a.x - b.x, a.y - b.y, a.z - b.z)
  }

  function Dot(a: Vec, b: Vec): real
  {
    a.x * b.x + a.y * b.y + a.z * b.z
  }

  /** The cross product `calculateNormal` takes of its two edges. */
  function Cross(a: Vec, b: Vec): (n: Vec)
    ensures Dot(n, a) == 0.0 && Dot(n, b) == 0.0
  {
    var n := Vec(a.y * b.z - a.z * b.y, a.z * b.x - a.x * b.z, a.x * b.y - a.y * b.x);
    assert Dot(n, a) == a.x * (a.y * b.z - a.z * b.y) + a.y * (a.z * b.x - a.x * b.z) + a.z * (a.x * b.y - a.y * b.x);
    assert Dot(n, b) == b.x * (a.y * b.z - a.z * b.y) + b.y * (a.z * b.x - a.x * b.z) + b.z * (a.x * b.y - a.y * b.x);
    n
  }

  /** The facet normal before it is scaled to unit length: the cross product of the edges
      from the first vertex to the second and to the third. */
  function RawNormal(v1: Vec, v2: Vec, v3: Vec): Vec
  {
    Cross(Sub(v2, v1), Sub(v3, v1))
  }

  // --------------------------------------------------------------- STL lines

  datatype StlLine =
    | SolidLine
    | FacetNormal(normal: Vec)
    | OuterLoop
    | VertexLine(vertex: Vec)
    | EndLoop
    | EndFacet
    | EndSolid

  /** Face index `f` names the three numbers of `vertices` from `3 * f` on; anything
      else reads `undefined`, whose `toFixed` throws. */
  predicate ValidRef(vertices: seq<real>, f: int)
  {
    0 <= f && 3 * f + 2 < |vertices|
  }

  function VertexAt(vertices: seq<real>, f: int): Vec
    requires ValidRef(vertices, f)
  {
    Vec(vertices[3 * f], vertices[3 * f + 1], vertices[3 * f + 2])
  }

  /** Faces the serialiser can write: whole triples of indices, every one naming a vertex. */
  predicate WellFormed(vertices: seq<real>, faces: seq<int>)
  {
    |faces| % 3 == 0 && forall k :: 0 <= k < |faces| ==> ValidRef(vertices, faces[k])
  }

  /** The seven lines of one facet. */
  function Facet(v1: Vec, v2: Vec, v3: Vec): seq<StlLine>
  {
    [FacetNormal(RawNormal(v1, v2, v3)), OuterLoop, VertexLine(v1), VertexLine(v2), VertexLine(v3), EndLoop, EndFacet]
  }

  /** The facets of the faces, one per index triple, in order. */
  function Facets(vertices: seq<real>, faces: seq<int>): seq<StlLine>
    requires WellFormed(vertices, faces)
    decreases |faces|
  {
    if faces == [] then []
    else
      var n := |faces|;
      Facets(vertices, faces[..n - 3]) +
      Facet(VertexAt(vertices, faces[n - 3]), VertexAt(vertices, faces[n - 2]), VertexAt(vertices, faces[n - 1]))
  }

  /** The whole STL text of a well-formed model. */
  function Stl(vertices: seq<real>, faces: seq<int>): seq<StlLine>
    requires WellFormed(vertices, faces)
  {
    [SolidLine] + Facets(vertices, faces) + [EndSolid]
  }

  /** Why `generateSTLContent` throws: a model without vertices or faces, or a face
      that reads an `undefined` vertex. */
  datatype StlError = MissingData | UndefinedVertex

  function StlErrorMessage(e: StlError): string
  {
    match e
    case MissingData => "Invalid model data: missing vertices or faces"
    case UndefinedVertex => "Cannot read properties of undefined (reading 'toFixed')"
  }

  /** `generateSTLContent`: the facet loop over the face indices, three at a time. */
  method GenerateStlContent(vertices: Option<seq<real>>, faces: Option<seq<int>>)
    returns (r: Result<seq<StlLine>, StlError>)
    ensures vertices.None? || faces.None? ==> r == Err(MissingData)
    ensures vertices.Some? && faces.Some? ==> (r.Ok? <==> WellFormed(vertices.value, faces.value))
    ensures vertices.Some? && faces.Some? && r.Err? ==> r.error == UndefinedVertex
    ensures r.Ok? ==>
      vertices.Some? && faces.Some? && WellFormed(vertices.value, faces.value) &&
      r.value == Stl(vertices.value, faces.value)
  {
    if vertices.None? || faces.None? {
      return Err(MissingData);
    }
    var vs, fs := vertices.value, faces.value;
    // the lines after `solid model`, built up facet by facet
    var body := [];
    var i := 0;
    while i < |fs|
      invariant i <= |fs| && i % 3 == 0
      invariant WellFormed(vs, fs[..i])
      invariant body == Facets(vs, fs[..i])
    {
      if !(i + 2 < |fs| && ValidRef(vs, fs[i]) && ValidRef(vs, fs[i + 1]) && ValidRef(vs, fs[i + 2])) {
        if i + 2 >= |fs| {
          assert |fs| % 3 != 0;
        } else {
          assert !ValidRef(vs, fs[i]) || !ValidRef(vs, fs[i + 1]) || !ValidRef(vs, fs[i + 2]);
        }
        return Err(UndefinedVertex);
      }
      var v1, v2, v3 := VertexAt(vs, fs[i]), VertexAt(vs, fs[i + 1]), VertexAt(vs, fs[i + 2]);
      body := body + Facet(v1, v2, v3);
      FacetsStep(vs, fs, i);
      i := i + 3;
    }
    assert fs[..i] == fs;
    return Ok([SolidLine] + body + [EndSolid]);
  }

  /** One more index triple read by the loop of `generateSTLContent` adds its facet. */
  lemma FacetsStep(vertices: seq<real>, faces: seq<int>, i: nat)
    requires i % 3 == 0 && i + 2 < |faces| && WellFormed(vertices, faces[..i])
    requires ValidRef(vertices, faces[i]) && ValidRef(vertices, faces[i + 1]) && ValidRef(vertices, faces[i + 2])
    ensures WellFormed(vertices, faces[..i + 3])
    ensures Facets(vertices, faces[..i + 3]) == Facets(vertices, faces[..i]) +
      Facet(VertexAt(vertices, faces[i]), VertexAt(vertices, faces[i + 1]), VertexAt(vertices, faces[i + 2]))
  {
    var next := faces[..i + 3];
    assert next[..i] == faces[..i];
    assert next[i] == faces[i] && next[i + 1] == faces[i + 1] && next[i + 2] == faces[i + 2];
    assert WellFormed(vertices, next) by {
      forall k | 0 <= k < |next| ensures ValidRef(vertices, next[k]) {
        if k < i {
          assert next[k] == faces[..i][k];
        }
      }
    }
    FacetsSnoc(vertices, next);
  }

  // ---------------------------------------------------------------- filenames

  /** `extractFilename`: `null` for a falsy path, else the text after its last `/`. */
  function ExtractFilename(path: Option<string>): (r: Option<string>)
    ensures r.None? <==> !Truthy(path)
    ensures r.Some? ==> '/' !in r.value
  {
    if !Truthy(path) then None
    else
      var parts := Split(path.value, '/');
      Some(parts[|parts| - 1])
  }

  /** The name a server file is saved under. */
  function DownloadName(path: Option<string>): string
  {
    Or(ExtractFilename(path), "model.step")
  }

  // ------------------------------------------------------------------ handler

  const NoModelMessage := "No model available for download"
  const SuccessMessage := "Model downloaded successfully!"
  const TimeoutMessage := "Download timed out. Please try again."
  const FailureMessage := "Failed to download model"
  const DownloadingText := "Downloading..."
  const DownloadText := "Download"
  const UnknownFormat := "Unknown model format"
  const StlFailurePrefix := "Failed to generate STL: "

  /** The model data handed over by the viewers; `vertices`/`faces` absent or present. */
  datatype ModelData = ModelData(path: Option<string>, vertices: Option<seq<real>>, faces: Option<seq<int>>)

  datatype Blob = ServerFile(url: string) | StlFile(lines: seq<StlLine>)

  datatype Download = Download(blob: Blob, filename: string)

  datatype Notice = Notice(message: string, kind: string)

  /** How the fetch of a server file ended: an answer with its `ok` flag and status, or a
      thrown error and its message. */
  datatype FetchOutcome = Fetched(ok: bool, status: nat) | FetchThrew(message: string)

  /** The error `downloadFromPath` rethrows for an inner error with message `m`. */
  function PathError(m: string): string
  {
    if Contains(m, "timed out") then "Download timed out: " + m else "Failed to download from path: " + m
  }

  /** The notice `handleDownload` shows for an error with message `m`. */
  function ErrorNotice(m: string): Notice
  {
    if Contains(m, "timed out") then Notice(TimeoutMessage, "error") else Notice(FailureMessage, "error")
  }

  /** The notice at the end of `handleDownload`: the success notice when nothing was
      thrown, else the notice for the error. */
  function DownloadNotice(error: Option<string>): (n: Notice)
    ensures n == Notice(SuccessMessage, "success") <==> error.None?
    ensures n in {Notice(SuccessMessage, "success"), Notice(TimeoutMessage, "error"), Notice(FailureMessage, "error")}
    ensures error.Some? ==> n == ErrorNotice(error.value)
    ensures error.Some? && Contains(error.value, "timed out") ==> n == Notice(TimeoutMessage, "error")
    ensures error.Some? && !Contains(error.value, "timed out") ==> n == Notice(FailureMessage, "error")
  {
    assert "success"[0] != "error"[0];
    if error.None? then Notice(SuccessMessage, "success") else ErrorNotice(error.value)
  }

  class DownloadHandler {
    /** Whether the page has a `downloadModelBtn`. */
    const hasButton: bool
    var currentModelData: Option<ModelData>
    var buttonDisabled: bool
    var buttonHidden: bool
    var buttonText: string
    var notifications: seq<Notice>
    /** The files handed to the browser, in order. */
    var downloads: seq<Download>

    /** The handler as built on page load: no model, and the button (if any) hidden. */
    constructor (hasButton: bool, buttonText: string, buttonDisabled: bool, buttonHidden: bool)
      ensures this.hasButton == hasButton && currentModelData == None
      ensures hasButton ==> this.buttonDisabled && this.buttonHidden
      ensures !hasButton ==> this.buttonDisabled == buttonDisabled && this.buttonHidden == buttonHidden
      ensures this.buttonText == buttonText && notifications == [] && downloads == []
    {
      this.hasButton := hasButton;
      currentModelData := None;
      this.buttonText := buttonText;
      notifications := [];
      downloads := [];
      if hasButton {
        this.buttonDisabled := true;
        this.buttonHidden := true;
      } else {
        this.buttonDisabled := buttonDisabled;
        this.buttonHidden := buttonHidden;
      }
    }

    /** `setButtonState`. */
    method SetButtonState(enabled: bool)
      modifies this
      ensures hasButton ==> buttonDisabled == !enabled && buttonHidden == !enabled
      ensures !hasButton ==> buttonDisabled == old(buttonDisabled) && buttonHidden == old(buttonHidden)
      ensures currentModelData == old(currentModelData) && buttonText == old(buttonText)
      ensures notifications == old(notifications) && downloads == old(downloads)
    {
      if hasButton {
        if enabled {
          buttonDisabled := false;
          buttonHidden := false;
        } else {
          buttonDisabled := true;
          buttonHidden := true;
        }
      }
    }

    /** `setCurrentModel`: the model is kept and the button shown exactly when there is one. */
    method SetCurrentModel(modelData: Option<ModelData>)
      modifies this
      ensures currentModelData == modelData
      ensures hasButton ==> (buttonDisabled <==> modelData.None?) && (buttonHidden <==> modelData.None?)
      ensures buttonText == old(buttonText) && notifications == old(notifications) && downloads == old(downloads)
    {
      currentModelData := modelData;
      SetButtonState(modelData.Some?);
    }

    /** `clearCurrentModel`. */
    method ClearCurrentModel()
      modifies this
      ensures currentModelData == None
      ensures hasButton ==> buttonDisabled && buttonHidden
      ensures buttonText == old(buttonText) && notifications == old(notifications) && downloads == old(downloads)
    {
      currentModelData := None;
      SetButtonState(false);
    }

    /** `handleDownload`, a click on the button; `origin` is `window.location.origin` and
        `fetch` the outcome of fetching a server file (used only for a model with a path).
        Without a model only an error is shown. Otherwise a path wins over vertices and
        faces, a model with neither fails with "Unknown model format", exactly one notice
        is shown, and the button ends enabled with its plain label whatever happened. */
    method HandleDownload(origin: string, fetch: FetchOutcome)
      requires hasButton
      modifies this
      ensures old(currentModelData).None? ==>
        notifications == old(notifications) + [Notice(NoModelMessage, "error")] &&
        downloads == old(downloads) && buttonText == old(buttonText) && buttonDisabled == old(buttonDisabled)
      ensures old(currentModelData).Some? ==>
        buttonText == DownloadText && !buttonDisabled && |notifications| == |old(notifications)| + 1 &&
        notifications[..|old(notifications)|] == old(notifications)
      ensures old(currentModelData).Some? && Truthy(old(currentModelData).value.path) ==>
        downloads == old(downloads) +
          (if fetch.Fetched? && fetch.ok
           then [Download(ServerFile(origin + "/" + old(currentModelData).value.path.value), DownloadName(old(currentModelData).value.path))]
           else [])
      ensures var m := old(currentModelData);
        m.Some? && !Truthy(m.value.path) && m.value.vertices.Some? && m.value.faces.Some? ==>
        downloads == old(downloads) +
          (if WellFormed(m.value.vertices.value, m.value.faces.value)
           then [Download(StlFile(Stl(m.value.vertices.value, m.value.faces.value)), "model.stl")]
           else [])
      ensures var m := old(currentModelData);
        m.Some? && !Truthy(m.value.path) && !(m.value.vertices.Some? && m.value.faces.Some?) ==>
        downloads == old(downloads) && notifications[|notifications| - 1] == Notice(FailureMessage, "error")
      ensures old(currentModelData).Some? ==>
        (notifications[|notifications| - 1] == Notice(SuccessMessage, "success") <==> |downloads| == |old(downloads)| + 1)
      ensures old(currentModelData).Some? ==>
        notifications[|notifications| - 1] in
          {Notice(SuccessMessage, "success"), Notice(TimeoutMessage, "error"), Notice(FailureMessage, "error")}
      ensures var m := old(currentModelData);
        m.Some? && Truthy(m.value.path) && fetch.FetchThrew? && Contains(fetch.message, "timed out") ==>
        notifications[|notifications| - 1] == Notice(TimeoutMessage, "error")
      ensures currentModelData == old(currentModelData) && buttonHidden == old(buttonHidden)
    {
      if currentModelData.None? {
        notifications := notifications + [Notice(NoModelMessage, "error")];
        return;
      }
      var model := currentModelData.value;
      buttonText := DownloadingText;
      buttonDisabled := true;
      var download, error := TryDownload(model, origin, fetch);
      if download.Some? {
        downloads := downloads + [download.value];
      }
      notifications := notifications + [DownloadNotice(error)];
      buttonText := DownloadText;
      buttonDisabled := false;
    }
  }

  /** The `try` block of `handleDownload`: a model path wins over vertices and faces,
      and a model with neither throws "Unknown model format". */
  method TryDownload(model: ModelData, origin: string, fetch: FetchOutcome)
    returns (download: Option<Download>, error: Option<string>)
    ensures download.Some? <==> error.None?
    ensures Truthy(model.path) ==>
      download == if fetch.Fetched? && fetch.ok
        then Some(Download(ServerFile(origin + "/" + model.path.value), DownloadName(model.path))) else None
    ensures !Truthy(model.path) && model.vertices.Some? && model.faces.Some? ==>
      download == if WellFormed(model.vertices.value, model.faces.value)
        then Some(Download(StlFile(Stl(model.vertices.value, model.faces.value)), "model.stl")) else None
    ensures !Truthy(model.path) && !(model.vertices.Some? && model.faces.Some?) ==>
      download == None && ErrorNotice(error.value) == Notice(FailureMessage, "error")
    ensures Truthy(model.path) && fetch.FetchThrew? && Contains(fetch.message, "timed out") ==>
      ErrorNotice(error.value) == Notice(TimeoutMessage, "error")
  {
    if Truthy(model.path) {
      download, error := DownloadFromPath(origin, model.path.value, fetch);
    } else if model.vertices.Some? && model.faces.Some? {
      download, error := DownloadAsStl(model.vertices.value, model.faces.value);
    } else {
      download, error := None, Some(UnknownFormat);
      NotContains(UnknownFormat, "timed out");
    }
  }

  /** `downloadFromPath`: a successful fetch hands the server file to the browser under
      the last segment of its path (or `model.step`); an HTTP error or a thrown error is
      rethrown through `PathError`, which keeps a timeout recognisable. */
  method DownloadFromPath(origin: string, path: string, fetch: FetchOutcome)
    returns (download: Option<Download>, error: Option<string>)
    ensures download.Some? <==> error.None?
    ensures download == if fetch.Fetched? && fetch.ok
      then Some(Download(ServerFile(origin + "/" + path), DownloadName(Some(path)))) else None
    ensures fetch.Fetched? && !fetch.ok ==> error == Some(PathError("HTTP error! status: " + DecimalString(fetch.status)))
    ensures fetch.FetchThrew? ==> error == Some(PathError(fetch.message))
    ensures fetch.FetchThrew? && Contains(fetch.message, "timed out") ==> Contains(error.value, "timed out")
  {
    var url := origin + "/" + path;
    match fetch {
      case Fetched(ok, status) =>
        if ok {
          download, error := Some(Download(ServerFile(url), DownloadName(Some(path)))), None;
        } else {
          download, error := None, Some(PathError("HTTP error! status: " + DecimalString(status)));
        }
      case FetchThrew(m) =>
        download, error := None, Some(PathError(m));
        if Contains(m, "timed out") {
          MentionsTimeout(m);
        }
    }
  }

  /** `downloadAsSTL`: the STL text of a well-formed model is handed to the browser as
      `model.stl`; a face naming a missing vertex fails with the generator's error. */
  method DownloadAsStl(vertices: seq<real>, faces: seq<int>)
    returns (download: Option<Download>, error: Option<string>)
    ensures download.Some? <==> error.None?
    ensures download == if WellFormed(vertices, faces)
      then Some(Download(StlFile(Stl(vertices, faces)), "model.stl")) else None
    ensures error.Some? ==> error.value == StlFailurePrefix + StlErrorMessage(UndefinedVertex)
  {
    var stl := GenerateStlContent(Some(vertices), Some(faces));
    if stl.Ok? {
      download, error := Some(Download(StlFile(stl.value), "model.stl")), None;
    } else {
      download, error := None, Some(StlFailurePrefix + StlErrorMessage(stl.error));
    }
  }

  // ---------------------------------------------------------------- lemmas

  /** A timed-out fetch is rethrown with a message that still says so. */
  lemma MentionsTimeout(m: string)
    requires Contains(m, "timed out")
    ensures PathError(m) == "Download timed out: " + m
    ensures Contains(PathError(m), "timed out")
  {
    var e := "Download timed out: " + m;
    assert e[9..][..9] == "timed out";
  }

  /** The normal of a facet is orthogonal to both of its edges. */
  lemma NormalOrthogonal(v1: Vec, v2: Vec, v3: Vec)
    ensures Dot(RawNormal(v1, v2, v3), Sub(v2, v1)) == 0.0
    ensures Dot(RawNormal(v1, v2, v3), Sub(v3, v1)) == 0.0
  {
  }

  /** The faces without their last triple are still well formed. */
  lemma InitWellFormed(vertices: seq<real>, faces: seq<int>)
    requires WellFormed(vertices, faces) && faces != []
    ensures WellFormed(vertices, faces[..|faces| - 3])
  {
    var init := faces[..|faces| - 3];
    forall j | 0 <= j < |init| ensures ValidRef(vertices, init[j]) {
      assert init[j] == faces[j];
    }
  }

  /** The facets have seven lines per index triple. */
  lemma {:induction false} FacetsLength(vertices: seq<real>, faces: seq<int>)
    requires WellFormed(vertices, faces)
    ensures |Facets(vertices, faces)| == 7 * (|faces| / 3)
    decreases |faces|
  {
    if faces != [] {
      InitWellFormed(vertices, faces);
      FacetsLength(vertices, faces[..|faces| - 3]);
    }
  }

  /** Block `k` of the facets is the facet of the vertices named by indices `3k`,
      `3k+1` and `3k+2`. */
  lemma {:induction false} FacetBlock(vertices: seq<real>, faces: seq<int>, k: nat)
    requires WellFormed(vertices, faces) && k < |faces| / 3
    ensures |Facets(vertices, faces)| == 7 * (|faces| / 3)
    ensures Facets(vertices, faces)[7 * k..7 * k + 7] ==
      Facet(VertexAt(vertices, faces[3 * k]), VertexAt(vertices, faces[3 * k + 1]), VertexAt(vertices, faces[3 * k + 2]))
    decreases |faces|
  {
    var n := |faces|;
    var init := faces[..n - 3];
    FacetsSnoc(vertices, faces);
    FacetsLength(vertices, faces);
    FacetsLength(vertices, init);
    TripleStep(n, k);
    var block := Facet(VertexAt(vertices, faces[3 * k]), VertexAt(vertices, faces[3 * k + 1]), VertexAt(vertices, faces[3 * k + 2]));
    var front := Facets(vertices, init);
    var last := Facet(VertexAt(vertices, faces[n - 3]), VertexAt(vertices, faces[n - 2]), VertexAt(vertices, faces[n - 1]));
    if k < |init| / 3 {
      FacetBlock(vertices, init, k);
      SameTriple(vertices, faces, init, k);
    }
    BlockOfSnoc(Facets(vertices, faces), front, last, (n - 3) / 3, k, block);
  }

  /** `Facets` unfolded once: the facets of all but the last triple, then its facet. */
  lemma FacetsSnoc(vertices: seq<real>, faces: seq<int>)
    requires WellFormed(vertices, faces) && faces != []
    ensures WellFormed(vertices, faces[..|faces| - 3])
    ensures Facets(vertices, faces) == Facets(vertices, faces[..|faces| - 3]) +
      Facet(VertexAt(vertices, faces[|faces| - 3]), VertexAt(vertices, faces[|faces| - 2]), VertexAt(vertices, faces[|faces| - 1]))
  {
    InitWellFormed(vertices, faces);
  }

  /** Dropping the last triple of `n` indices leaves one block fewer; an earlier block is
      a block of what is left, and the only other block is the last. */
  lemma TripleStep(n: nat, k: nat)
    requires n % 3 == 0 && k < n / 3
    ensures n >= 3 && (n - 3) % 3 == 0 && (n - 3) / 3 == n / 3 - 1
    ensures k < (n - 3) / 3 ==> 3 * k + 2 < n - 3
    ensures k >= (n - 3) / 3 ==> 3 * k == n - 3
    ensures 7 * (n / 3) == 7 * ((n - 3) / 3) + 7
    ensures k < (n - 3) / 3 ==> 7 * k + 7 <= 7 * ((n - 3) / 3)
  {
  }

  /** An earlier triple reads the same vertices from the faces and from all but their
      last triple. */
  lemma SameTriple(vertices: seq<real>, faces: seq<int>, init: seq<int>, k: nat)
    requires WellFormed(vertices, faces) && WellFormed(vertices, init)
    requires |init| <= |faces| && init == faces[..|init|] && 3 * k + 2 < |init|
    ensures Facet(VertexAt(vertices, init[3 * k]), VertexAt(vertices, init[3 * k + 1]), VertexAt(vertices, init[3 * k + 2])) ==
      Facet(VertexAt(vertices, faces[3 * k]), VertexAt(vertices, faces[3 * k + 1]), VertexAt(vertices, faces[3 * k + 2]))
  {
    assert init[3 * k] == faces[3 * k] && init[3 * k + 1] == faces[3 * k + 1] && init[3 * k + 2] == faces[3 * k + 2];
  }

  /** Block `k` of seven-line blocks after appending one more block: an earlier block
      comes from the front, the new last block is the appended one. */
  lemma BlockOfSnoc<T>(whole: seq<T>, front: seq<T>, last: seq<T>, m: nat, k: nat, block: seq<T>)
    requires whole == front + last && |front| == 7 * m && |last| == 7 && k <= m
    requires k < m ==> front[7 * k..7 * k + 7] == block
    requires k == m ==> last == block
    ensures whole[7 * k..7 * k + 7] == block
  {
    if k < m {
      assert whole[7 * k..7 * k + 7] == front[7 * k..7 * k + 7];
    } else {
      assert whole[7 * k..7 * k + 7] == last;
    }
  }

  /** The STL text opens with `solid model`, closes with `endsolid model`, and has one
      facet of three vertex lines per index triple in between. */
  lemma StlShape(vertices: seq<real>, faces: seq<int>)
    requires WellFormed(vertices, faces)
    ensures |Stl(vertices, faces)| == 2 + 7 * (|faces| / 3)
    ensures Stl(vertices, faces)[0] == SolidLine && Stl(vertices, faces)[|Stl(vertices, faces)| - 1] == EndSolid
    ensures forall k :: 0 <= k < |faces| / 3 ==>
      Stl(vertices, faces)[7 * k + 3] == VertexLine(VertexAt(vertices, faces[3 * k])) &&
      Stl(vertices, faces)[7 * k + 4] == VertexLine(VertexAt(vertices, faces[3 * k + 1])) &&
      Stl(vertices, faces)[7 * k + 5] == VertexLine(VertexAt(vertices, faces[3 * k + 2]))
  {
    FacetsLength(vertices, faces);
    var body := Facets(vertices, faces);
    forall k | 0 <= k < |faces| / 3
      ensures Stl(vertices, faces)[7 * k + 3] == VertexLine(VertexAt(vertices, faces[3 * k]))
      ensures Stl(vertices, faces)[7 * k + 4] == VertexLine(VertexAt(vertices, faces[3 * k + 1]))
      ensures Stl(vertices, faces)[7 * k + 5] == VertexLine(VertexAt(vertices, faces[3 * k + 2]))
    {
      FacetBlock(vertices, faces, k);
      assert body[7 * k + 2] == body[7 * k..7 * k + 7][2];
      assert body[7 * k + 3] == body[7 * k..7 * k + 7][3];
      assert body[7 * k + 4] == body[7 * k..7 * k + 7][4];
    }
  }

  /** The file name of a path is its last segment: it ends the path and is either all of
      it or follows a `/`. A path ending in `/` (or no path) saves as `model.step`. */
  lemma FilenameIsLastSegment(path: string)
    requires path != ""
    ensures var name := ExtractFilename(Some(path)).value;
      '/' !in name && EndsWith(path, name) && (|name| < |path| ==> path[|path| - |name| - 1] == '/')
    ensures path[|path| - 1] == '/' ==> DownloadName(Some(path)) == "model.step"
    ensures DownloadName(None) == "model.step" && DownloadName(Some("")) == "model.step"
  {
    LastPiece(path, '/');
  }
}
