/** The measuring tool of the 3D viewer: a two-click machine that turns pairs of picked
    points into measurements. With the viewer's Three.js scene, camera and renderer it
    draws markers, a line and a distance label into a measurement group; without them it
    falls back to screen-space markers laid over the viewer. Raycasting, rendering and
    the pixel arithmetic of the overlay are not modelled: a click arrives with the world
    point the raycast (or its estimate) produced and the screen point it was made at. */
module MeasureTool {
  import opened Wrappers

  datatype Point = Point(x: real, y: real, z: real)

  /** A click position relative to the viewer's box, in pixels. */
  datatype ScreenPoint = ScreenPoint(x: real, y: real)

  function SquaredDistance(p: Point, q: Point): (d: real)
    ensures d >= 0.0
  {
    (p.x - q.x) * (p.x - q.x) + (p.y - q.y) * (p.y - q.y) + (p.z - q.z) * (p.z - q.z)
  }

  // ------------------------------------------------------------------- labels

  datatype Unit = Millimetres | Centimetres | Metres

  /** The unit `createDistanceLabel` writes for a distance `d`. */
  function UnitOf(d: real): (u: Unit)
    ensures u == Millimetres <==> d < 0.01
    ensures u == Centimetres <==> 0.01 <= d < 1.0
    ensures u == Metres <==> d >= 1.0
  {
    if d < 0.01 then Millimetres else if d < 1.0 then Centimetres else Metres
  }

  /** The number shown before the unit: the distance scaled to it. */
  function Shown(d: real): (v: real)
  {
    match UnitOf(d)
    case Millimetres => d * 1000.0
    case Centimetres => d * 100.0
    case Metres => d
  }

  /** The same choice made from the squared distance, which the model can compute
      without a square root: `d < t` exactly when `d * d < t * t` for non-negative `d`. */
  function UnitOfSquared(sq: real): (u: Unit)
  {
    if sq < 0.0001 then Millimetres else if sq < 1.0 then Centimetres else Metres
  }

  // ------------------------------------------------------------------ objects

  const Green := 0x00ff00
  const Red := 0xff0000

  /** A child of the measurement group. */
  datatype SceneObject =
    | PointMarker(at: Point, color: int)
    | MeasurementLine(from: Point, to: Point)
    | DistanceLabel(from: Point, to: Point, unit: Unit)

  /** A fallback element appended to the viewer box; `id` tells apart elements that
      would otherwise look the same. */
  datatype OverlayElement =
    | FallbackMarker(id: nat, at: ScreenPoint, color: string)
    | FallbackLabel(id: nat, from: ScreenPoint, to: ScreenPoint)

  datatype Measurement = Measurement(points: seq<Point>, objects: seq<SceneObject>)

  datatype FallbackMeasurement = FallbackMeasurement(points: seq<ScreenPoint>, elements: seq<OverlayElement>)

  /** `currentMeasurement` when it is not `null`: one of the two kinds of measurement. */
  datatype Current =
    | Pending3D(m: Measurement)
    | PendingFallback(f: FallbackMeasurement)

  /** A measurement after its first click: one point and its green marker. */
  predicate Started(m: Measurement)
  {
    |m.points| == 1 && m.objects == [PointMarker(m.points[0], Green)]
  }

  /** A completed measurement: two points and exactly four objects, the first marker, the
      second marker, the line between them and the label with the unit of their distance. */
  predicate Complete(m: Measurement)
  {
    |m.points| == 2 &&
    m.objects == [PointMarker(m.points[0], Green), PointMarker(m.points[1], Red),
                  MeasurementLine(m.points[0], m.points[1]),
                  DistanceLabel(m.points[0], m.points[1], UnitOfSquared(SquaredDistance(m.points[0], m.points[1])))]
  }

  predicate FallbackStarted(f: FallbackMeasurement)
  {
    |f.points| == 1 && |f.elements| == 1 && f.elements[0].FallbackMarker? &&
    f.elements[0].at == f.points[0] && f.elements[0].color == "#00ff00"
  }

  /** A completed fallback measurement: two points and exactly three elements, the two
      markers and the label between them. */
  predicate FallbackComplete(f: FallbackMeasurement)
  {
    |f.points| == 2 && |f.elements| == 3 &&
    f.elements[0].FallbackMarker? && f.elements[0].at == f.points[0] && f.elements[0].color == "#00ff00" &&
    f.elements[1].FallbackMarker? && f.elements[1].at == f.points[1] && f.elements[1].color == "#ff0000" &&
    f.elements[2].FallbackLabel? && f.elements[2].from == f.points[0] && f.elements[2].to == f.points[1]
  }

  function Members(s: seq<OverlayElement>): set<OverlayElement>
  {
    set e | e in s
  }

  /** Every element of the given fallback measurements. */
  function ElementsOf(ms: seq<FallbackMeasurement>): (r: set<OverlayElement>)
    ensures forall i, e :: 0 <= i < |ms| && e in ms[i].elements ==> e in r
    ensures forall e :: e in r ==> exists i :: 0 <= i < |ms| && e in ms[i].elements
  {
    if ms == [] then {} else ElementsOf(ms[..|ms| - 1]) + Members(ms[|ms| - 1].elements)
  }

  const Idle := "Measure"
  const FirstPrompt := "Click 1st Point"
  const SecondPrompt := "Click 2nd Point"

  class MeasureTool {
    var isActive: bool
    /** Which Three.js objects were found when the tool was built. */
    const hasScene: bool
    const hasCamera: bool
    const hasRenderer: bool
    const fallbackMode: bool
    var currentMeasurement: Option<Current>
    var measurements: seq<Measurement>
    /** `fallbackMeasurements`, which exists only in fallback mode. */
    var fallbackMeasurements: Option<seq<FallbackMeasurement>>
    /** The children of the measurement group (empty in fallback mode, where there is
        no group), and the objects removed from it and disposed. */
    var group: seq<SceneObject>
    var disposed: seq<SceneObject>
    /** The fallback elements currently attached to the viewer box. */
    var attached: set<OverlayElement>
    var nextId: nat
    /** The measure button's label and classes. */
    var buttonText: string
    var buttonClasses: set<string>

    /** Fallback mode is on exactly when one of the scene, camera and renderer is missing;
        a pending measurement has one point and is of the mode's kind; completed
        measurements have their full set of objects. */
    ghost predicate Valid()
      reads this
    {
      (fallbackMode <==> !(hasScene && hasCamera && hasRenderer)) &&
      (fallbackMode <==> fallbackMeasurements.Some?) &&
      (fallbackMode ==> measurements == [] && group == []) &&
      (currentMeasurement.Some? && currentMeasurement.value.Pending3D? ==>
        !fallbackMode && Started(currentMeasurement.value.m)) &&
      (currentMeasurement.Some? && currentMeasurement.value.PendingFallback? ==>
        fallbackMode && FallbackStarted(currentMeasurement.value.f)) &&
      (forall i :: 0 <= i < |measurements| ==> Complete(measurements[i])) &&
      (fallbackMeasurements.Some? ==>
        forall i :: 0 <= i < |fallbackMeasurements.value| ==> FallbackComplete(fallbackMeasurements.value[i]))
    }

    /** The tool as built over a viewer in which the given Three.js objects were found. */
    constructor (hasScene: bool, hasCamera: bool, hasRenderer: bool, buttonText: string)
      ensures Valid()
      ensures fallbackMode <==> !(hasScene && hasCamera && hasRenderer)
      ensures !isActive && currentMeasurement == None && measurements == []
      ensures fallbackMeasurements == if fallbackMode then Some([]) else None
      ensures group == [] && disposed == [] && attached == {} && nextId == 0
      ensures this.buttonText == buttonText && buttonClasses == {}
    {
      this.hasScene := hasScene;
      this.hasCamera := hasCamera;
      this.hasRenderer := hasRenderer;
      fallbackMode := !(hasScene && hasCamera && hasRenderer);
      isActive := false;
      currentMeasurement := None;
      measurements := [];
      fallbackMeasurements := if !(hasScene && hasCamera && hasRenderer) then Some([]) else None;
      group := [];
      disposed := [];
      attached := {};
      nextId := 0;
      this.buttonText := buttonText;
      buttonClasses := {};
    }

    /** `toggle`: the tool switches on or off, and any half-made measurement is dropped
        either way (its first marker stays where it was drawn). */
    method Toggle()
      requires Valid()
      modifies this
      ensures Valid()
      ensures isActive == !old(isActive) && currentMeasurement == None
      ensures isActive ==> buttonText == FirstPrompt && buttonClasses == old(buttonClasses) - {"active"} + {"measuring"}
      ensures !isActive ==> buttonText == Idle && buttonClasses == old(buttonClasses) - {"measuring", "active"}
      ensures measurements == old(measurements) && fallbackMeasurements == old(fallbackMeasurements)
      ensures group == old(group) && attached == old(attached) && disposed == old(disposed)
    {
      isActive := !isActive;
      if isActive {
        buttonClasses := buttonClasses + {"measuring"};
        buttonClasses := buttonClasses - {"active"};
        buttonText := FirstPrompt;
        currentMeasurement := None;
      } else {
        buttonClasses := buttonClasses - {"measuring", "active"};
        buttonText := Idle;
        currentMeasurement := None;
      }
    }

    /** A click on the viewer: ignored while the tool is off. In fallback mode, or when
        one of the Three.js objects is missing, it goes to the fallback path; otherwise it
        needs an element to measure against (`hasTarget`) and adds the picked point. */
    method Click(hasTarget: bool, picked: Point, screen: ScreenPoint)
      requires Valid()
      modifies this
      ensures Valid()
      ensures !old(isActive) || (!fallbackMode && !hasTarget) ==>
        currentMeasurement == old(currentMeasurement) && measurements == old(measurements) &&
        fallbackMeasurements == old(fallbackMeasurements) && group == old(group) && attached == old(attached)
      ensures isActive == old(isActive) && disposed == old(disposed)
      ensures old(isActive) && fallbackMode ==> measurements == old(measurements) && group == old(group)
      ensures old(isActive) && !fallbackMode && hasTarget ==>
        fallbackMeasurements == old(fallbackMeasurements) && attached == old(attached)
      ensures old(isActive) && !fallbackMode && hasTarget && old(currentMeasurement) == None ==>
        currentMeasurement == Some(Pending3D(Measurement([picked], [PointMarker(picked, Green)])))
      ensures old(isActive) && !fallbackMode && hasTarget && old(currentMeasurement).Some? ==>
        currentMeasurement == None && |measurements| == |old(measurements)| + 1 &&
        measurements[..|old(measurements)|] == old(measurements) &&
        measurements[|old(measurements)|].points == old(currentMeasurement).value.m.points + [picked]
    {
      if !isActive {
        return;
      }
      if fallbackMode {
        FallbackClick(screen);
        return;
      }
      if !(hasScene && hasCamera && hasRenderer) {
        assert false;
      }
      if !hasTarget {
        return;
      }
      AddMeasurementPoint(picked);
    }

    /** `addMeasurementPoint`: the first point starts a measurement with a green marker;
        the second adds a red marker, the line and the label, files the measurement in
        `measurements` and leaves no measurement pending. */
    method AddMeasurementPoint(point: Point)
      requires Valid() && !fallbackMode
      modifies this
      ensures Valid()
      ensures old(currentMeasurement) == None ==>
        currentMeasurement == Some(Pending3D(Measurement([point], [PointMarker(point, Green)]))) &&
        measurements == old(measurements) && group == old(group) + [PointMarker(point, Green)] &&
        buttonText == SecondPrompt
      ensures old(currentMeasurement).Some? ==>
        var first := old(currentMeasurement).value.m.points[0];
        var objects := [PointMarker(point, Red), MeasurementLine(first, point),
                        DistanceLabel(first, point, UnitOfSquared(SquaredDistance(first, point)))];
        currentMeasurement == None &&
        measurements == old(measurements) + [Measurement([first, point], [PointMarker(first, Green)] + objects)] &&
        group == old(group) + objects && buttonText == FirstPrompt
      ensures isActive == old(isActive) && fallbackMeasurements == old(fallbackMeasurements)
      ensures attached == old(attached) && disposed == old(disposed) && buttonClasses == old(buttonClasses)
    {
      if currentMeasurement == None {
        var marker := PointMarker(point, Green);
        group := group + [marker];
        currentMeasurement := Some(Pending3D(Measurement([point], [marker])));
        buttonText := SecondPrompt;
      } else {
        var m := currentMeasurement.value.m;
        var first := m.points[0];
        assert m.points == [first];
        var marker := PointMarker(point, Red);
        var line := MeasurementLine(first, point);
        var caption := DistanceLabel(first, point, UnitOfSquared(SquaredDistance(first, point)));
        group := group + [marker, line, caption];
        assert m.objects == [PointMarker(first, Green)];
        var done := Measurement(m.points + [point], m.objects + [marker, line, caption]);
        assert done.points == [first, point];
        assert done.objects == [PointMarker(first, Green)] + [marker, line, caption];
        assert Complete(done);
        measurements := measurements + [done];
        currentMeasurement := None;
        buttonText := FirstPrompt;
      }
    }

    /** `handleFallbackClick`: the same two-click machine in screen space, filing
        completed measurements of three elements in `fallbackMeasurements`. */
    method FallbackClick(screen: ScreenPoint)
      requires Valid() && fallbackMode
      modifies this
      ensures Valid()
      ensures old(currentMeasurement) == None ==>
        currentMeasurement == Some(PendingFallback(FallbackMeasurement([screen], [FallbackMarker(old(nextId), screen, "#00ff00")]))) &&
        fallbackMeasurements == old(fallbackMeasurements) &&
        attached == old(attached) + {FallbackMarker(old(nextId), screen, "#00ff00")} &&
        nextId == old(nextId) + 1 && buttonText == SecondPrompt
      ensures old(currentMeasurement).Some? ==>
        var f := old(currentMeasurement).value.f;
        var marker := FallbackMarker(old(nextId), screen, "#ff0000");
        var caption := FallbackLabel(old(nextId) + 1, f.points[0], screen);
        currentMeasurement == None &&
        fallbackMeasurements ==
          Some(old(fallbackMeasurements).value + [FallbackMeasurement(f.points + [screen], f.elements + [marker, caption])]) &&
        attached == old(attached) + {marker, caption} && nextId == old(nextId) + 2 && buttonText == FirstPrompt
      ensures isActive == old(isActive) && measurements == old(measurements) && group == old(group)
      ensures disposed == old(disposed) && buttonClasses == old(buttonClasses)
    {
      if currentMeasurement == None {
        var marker := FallbackMarker(nextId, screen, "#00ff00");
        nextId := nextId + 1;
        attached := attached + {marker};
        currentMeasurement := Some(PendingFallback(FallbackMeasurement([screen], [marker])));
        buttonText := SecondPrompt;
      } else {
        var f := currentMeasurement.value.f;
        var marker := FallbackMarker(nextId, screen, "#ff0000");
        var caption := FallbackLabel(nextId + 1, f.points[0], screen);
        nextId := nextId + 2;
        attached := attached + {marker, caption};
        var done := FallbackMeasurement(f.points + [screen], f.elements + [marker, caption]);
        assert FallbackComplete(done);
        fallbackMeasurements := Some(fallbackMeasurements.value + [done]);
        currentMeasurement := None;
        buttonText := FirstPrompt;
      }
    }

    /** `clearMeasurements`: the measurement group is drained one child at a time, the
        elements of every filed fallback measurement are detached, and no measurement is
        left, pending or filed. */
    method ClearMeasurements()
      requires Valid()
      modifies this
      ensures Valid()
      ensures group == [] && disposed == old(disposed) + old(group)
      ensures measurements == [] && currentMeasurement == None
      ensures fallbackMeasurements == if fallbackMode then Some([]) else None
      ensures attached == old(attached) - (if fallbackMode then ElementsOf(old(fallbackMeasurements).value) else {})
      ensures isActive == old(isActive) && buttonText == old(buttonText) && nextId == old(nextId)
    {
      if !fallbackMode {
        group, disposed := DrainGroup(group, disposed);
      }
      if fallbackMeasurements.Some? {
        attached := DetachAll(attached, fallbackMeasurements.value);
        fallbackMeasurements := Some([]);
      }
      measurements := [];
      currentMeasurement := None;
    }
  }

  /** The drain loop of `clearMeasurements`: the first child of the group is removed and
      disposed until none is left, so every child is disposed, in order. */
  method DrainGroup(group: seq<SceneObject>, disposed: seq<SceneObject>) returns (children: seq<SceneObject>, gone: seq<SceneObject>)
    ensures children == [] && gone == disposed + group
  {
    children, gone := group, disposed;
    while |children| > 0
      invariant |children| <= |group|
      invariant children == group[|group| - |children|..]
      invariant gone == disposed + group[..|group| - |children|]
    {
      var child := children[0];
      children := children[1..];
      gone := gone + [child];
    }
    assert group[..|group|] == group;
  }

  /** The elements of one fallback measurement detached from the viewer box, each one
      only when it is still attached. */
  method DetachElements(attached: set<OverlayElement>, elements: seq<OverlayElement>) returns (left: set<OverlayElement>)
    ensures left == attached - Members(elements)
  {
    left := attached;
    for j := 0 to |elements|
      invariant left == attached - Members(elements[..j])
    {
      if elements[j] in left {
        left := left - {elements[j]};
      }
      assert elements[..j + 1] == elements[..j] + [elements[j]];
    }
    assert elements[..|elements|] == elements;
  }

  /** The elements of every filed fallback measurement detached from the viewer box. */
  method DetachAll(attached: set<OverlayElement>, ms: seq<FallbackMeasurement>) returns (left: set<OverlayElement>)
    ensures left == attached - ElementsOf(ms)
  {
    left := attached;
    for i := 0 to |ms|
      invariant left == attached - ElementsOf(ms[..i])
    {
      left := DetachElements(left, ms[i].elements);
      assert ms[..i + 1][..i] == ms[..i];
    }
    assert ms[..|ms|] == ms;
  }

  // ---------------------------------------------------------------- lemmas

  /** For a non-negative distance the unit chosen from its square is the unit the caption
      would choose from the distance itself. */
  lemma UnitFromSquare(d: real)
    requires d >= 0.0
    ensures UnitOfSquared(d * d) == UnitOf(d)
  {
    if d < 0.01 {
      assert d * d <= d * 0.01;
      assert d * 0.01 < 0.0001;
    } else {
      assert d * d >= 0.01 * d >= 0.0001;
      if d < 1.0 {
        assert d * d < d * 1.0;
      } else {
        assert d * d >= d;
      }
    }
  }

  /** The number in front of the unit: under 10 millimetres, from 1 up to (not including)
      100 centimetres, or at least 1 metre. */
  lemma ShownRange(d: real)
    requires d >= 0.0
    ensures UnitOf(d) == Millimetres ==> 0.0 <= Shown(d) < 10.0
    ensures UnitOf(d) == Centimetres ==> 1.0 <= Shown(d) < 100.0
    ensures UnitOf(d) == Metres ==> Shown(d) >= 1.0
  {
  }
}
