/** How the server stores a model the CAD backend sends (hex text plus a format name)
    and which Content-Type it serves the stored file with. */
module AppModelData {
  import opened Wrappers
  import opened Text
  import opened Hex
  import opened PyValues

  /** The model description returned to the browser, `{"type": ..., "path": ...}`,
      together with the bytes written to that path. */
  datatype ModelInfo = ModelInfo(modelType: string, path: string, contents: seq<byte>)

  /** `.lower()` on a value that is not a string raises outside the handler's `try`. */
  datatype FormatError = FormatNotText

  const SaveDir := "static/cadmodels"

  predicate HasNoUpper(s: string)
  {
    forall i :: 0 <= i < |s| ==> !('A' <= s[i] <= 'Z')
  }

  /** The format, defaulting to `stl` when absent or empty, and lower-cased. */
  function NormaliseFormat(format: Option<Value>): (r: Result<string, FormatError>)
    ensures r.Err? <==> !IsNone(format) && !format.value.Str?
    ensures r.Ok? ==> HasNoUpper(r.value)
    ensures (IsNone(format) || format == Some(Str(""))) ==> r == Ok("stl")
    ensures format.Some? && format.value.Str? && format.value.s != [] ==> r == Ok(Lower(format.value.s))
  {
    if IsNone(format) || format == Some(Str("")) then Ok("stl")
    else if format.value.Str? then Ok(Lower(format.value.s))
    else Err(FormatNotText)
  }

  /** The file extension for a normalised format. */
  function Extension(format: string): (e: string)
    ensures e == ".step" || e == ".stl"
    ensures e == ".step" <==> format == "step"
  {
    if format == "step" then ".step" else ".stl"
  }

  /** `os.path.join(save_dir, f"model{ext}")`. */
  function ModelPath(format: string): (p: string)
    ensures StartsWith(p, SaveDir + "/model")
    ensures EndsWith(p, Extension(format))
  {
    SaveDir + "/model" + Extension(format)
  }

  /** `process_model_data`. `stored` says whether writing the file succeeded and the file
      exists afterwards; a failure there, a missing payload and a payload that is not hex
      all give `None`. */
  function ProcessModelData(data: Option<Value>, format: Option<Value>, stored: bool):
    (r: Result<Option<ModelInfo>, FormatError>)
    ensures r.Err? <==> NormaliseFormat(format).Err?
    ensures r.Ok? && r.value.Some? <==>
      r.Ok? && Truthy(data) && data.value.Str? && PyFromHex(data.value.s).Some? && stored
    ensures r.Ok? && r.value.Some? ==>
      var info := r.value.value;
      Ok(info.modelType) == NormaliseFormat(format) &&
      Some(info.contents) == PyFromHex(data.value.s) &&
      (EndsWith(info.path, ".step") <==> info.modelType == "step") &&
      info.path == ModelPath(info.modelType)
  {
    match NormaliseFormat(format)
    case Err(e) => Err(e)
    case Ok(fmt) =>
      if !Truthy(data) || !data.value.Str? then Ok(None)
      else
        match PyFromHex(data.value.s)
        case None => Ok(None)
        case Some(bytes) =>
          var path := ModelPath(fmt);
          if !stored then Ok(None) else
          assert EndsWith(path, ".step") ==> fmt == "step" by {
            if fmt != "step" {
              assert path == "static/cadmodels/model.stl";
              assert path[|path| - 5..] == "l.stl";
            }
          }
          Ok(Some(ModelInfo(fmt, path, bytes)))
  }

  /** The Content-Type `serve_cad_file` sets, chosen by the case-insensitive suffix. */
  function ContentType(filename: string): (t: string)
    ensures t in {"application/step", "application/sla", "application/octet-stream"}
  {
    var name := Lower(filename);
    if EndsWith(name, ".step") || EndsWith(name, ".stp") then "application/step"
    else if EndsWith(name, ".stl") then "application/sla"
    else "application/octet-stream"
  }

  // ---------------------------------------------------------------- lemmas

  /** The Content-Type does not depend on the case of the file name. */
  lemma ContentTypeCaseInsensitive(filename: string)
    ensures ContentType(Lower(filename)) == ContentType(filename)
  {
    assert Lower(Lower(filename)) == Lower(filename);
  }

  /** Suffix by suffix, in the order the handler tests them. */
  lemma ContentTypeBySuffix(filename: string)
    ensures EndsWith(Lower(filename), ".step") || EndsWith(Lower(filename), ".stp") ==>
      ContentType(filename) == "application/step"
    ensures EndsWith(Lower(filename), ".stl") ==> ContentType(filename) == "application/sla"
    ensures ContentType(filename) == "application/octet-stream" <==>
      !EndsWith(Lower(filename), ".step") && !EndsWith(Lower(filename), ".stp") && !EndsWith(Lower(filename), ".stl")
  {
    var n := Lower(filename);
    if EndsWith(n, ".stl") {
      assert n[|n| - 3..] == "stl";
      assert !EndsWith(n, ".step") by { assert n[|n| - 1] == 'l'; }
      assert !EndsWith(n, ".stp") by { assert n[|n| - 1] == 'l'; }
    }
  }

  /** The file a stored model is written to is served as STEP exactly when the model's
      format is `step`, and as STL otherwise. */
  lemma StoredModelServedAs(format: string)
    ensures ContentType("model" + Extension(format)) ==
      if format == "step" then "application/step" else "application/sla"
  {
    var name := "model" + Extension(format);
    var n := Lower(name);
    if format == "step" {
      assert n == "model.step";
      assert n[|n| - 5..] == ".step";
    } else {
      assert n == "model.stl";
      assert n[|n| - 4..] == ".stl";
      assert n[|n| - 5..] == "l.stl";
      assert n[|n| - 4..] != ".stp";
    }
  }

  /** A payload produced by hex-encoding some non-empty bytes is stored exactly, whatever
      the format's case. */
  lemma HexPayloadStored(bytes: seq<byte>, format: Option<Value>)
    requires bytes != [] && NormaliseFormat(format).Ok?
    ensures ProcessModelData(Some(Str(ToHex(bytes))), format, true).Ok?
    ensures ProcessModelData(Some(Str(ToHex(bytes))), format, true).value.Some?
    ensures ProcessModelData(Some(Str(ToHex(bytes))), format, true).value.value.contents == bytes
  {
    FromHexToHex(bytes);
  }
}
