/** The colour handling of the simple Three.js viewer: the stored colour (purple by
    default), its split into channels with 32-bit shifts and masks, the "emissive" colour
    packed from a third of each channel, the current model it is applied to, and the reset
    of the viewer. Geometry, lighting, camera and rendering are not modelled. */
module ThreeViewer {
  import opened Wrappers
  import opened Browser
  import opened Hex

  const DefaultColor := "#9146FF"
  const ColorKey := "morfis_model_color"


  // --------------------------------------------------------- 32-bit integers

  const Two32 := 0x1_0000_0000
  const Two31 := 0x8000_0000

  /** JavaScript's ToInt32, which the shift operators apply first; `NaN` (`None`)
      becomes 0. */
  function ToInt32(h: Option<int>): (r: int)
    ensures -Two31 <= r < Two31
    ensures h.Some? && 0 <= h.value < Two31 ==> r == h.value
  {
    if h.None? then 0
    else
      var m := h.value % Two32;
      if m >= Two31 then m - Two32 else m
  }

  /** `(h >> shift) & 255`: an arithmetic shift (a floor division, also for negative
      values) and the low eight bits of the two's-complement result. */
  function ChannelOf(h: Option<int>, shift: nat): (v: int)
    ensures 0 <= v <= 255
  {
    (ToInt32(h) / Pow2(shift)) % 256
  }

  function Pow2(n: nat): (p: nat)
    ensures p >= 1
  {
    if n == 0 then 1 else 2 * Pow2(n - 1)
  }

  /** JavaScript's `|` on non-negative integers, bit by bit from the lowest. */
  function BitOr(a: nat, b: nat): (r: nat)
    decreases a + b
  {
    if a == 0 then b
    else if b == 0 then a
    else 2 * BitOr(a / 2, b / 2) + (if a % 2 == 1 || b % 2 == 1 then 1 else 0)
  }

  /** `(a << 16) | (b << 8) | c` for values below 256, where no shift leaves 32 bits. */
  function Pack(a: nat, b: nat, c: nat): (v: nat)
    requires a < 256 && b < 256 && c < 256
  {
    BitOr(BitOr(a * Pow2(16), b * Pow2(8)), c)
  }

  /** The emissive colour of a colour value: `Math.floor` of a third of each channel,
      packed back together. */
  function Emissive(h: Option<int>): (e: int)
    ensures 0 <= e < 0x100_0000
  {
    var r, g, b := ChannelOf(h, 16), ChannelOf(h, 8), ChannelOf(h, 0);
    PackIsSum(r / 3, g / 3, b / 3);
    Pack(r / 3, g / 3, b / 3)
  }

  /** `parseInt(color.replace(/^#/, ''), 16)`. */
  function ColorValue(color: string): Option<int>
  {
    ParseHexNumber(color)
  }

  // ----------------------------------------------------------------- models

  /** A mesh material, by the colour text it was made from: its `color` and `emissive`
      are the values the source computes from that text (`ColorHex`, `EmissiveHex`). */
  datatype Material = Material(colorText: string)

  function ColorHex(m: Material): Option<int>
  {
    ColorValue(m.colorText)
  }

  function EmissiveHex(m: Material): (e: int)
    ensures 0 <= e < 0x100_0000
  {
    Emissive(ColorHex(m))
  }

  /** A model's `material`: absent, a single material or an array of them. */
  datatype Materials = NoMaterial | Single(m: Material) | Many(ms: seq<Material>)

  datatype Shape = StlMesh(path: string) | Cube

  /** A mesh in the scene; `id` tells apart meshes made from the same data. */
  datatype Model = Model(id: nat, shape: Shape, materials: Materials)

  /** The scene once the model (if any) is removed from it. */
  function Without(scene: set<nat>, m: Option<Model>): (r: set<nat>)
    ensures r <= scene
    ensures m.Some? ==> m.value.id !in r
    ensures forall i :: i in scene && (m.None? || i != m.value.id) ==> i in r
  {
    if m.Some? then scene - {m.value.id} else scene
  }

  /** An STL load started by `updateModel`, with the colours it captured. */
  datatype PendingLoad = PendingLoad(path: string, paint: Material)

  /** The colours of a forEach over an array of materials. */
  method RecolorAll(ms: seq<Material>, paint: Material) returns (r: seq<Material>)
    ensures |r| == |ms|
    ensures forall i :: 0 <= i < |r| ==> r[i] == paint
  {
    r := [];
    for i := 0 to |ms|
      invariant |r| == i
      invariant forall j :: 0 <= j < i ==> r[j] == paint
    {
      r := r + [paint];
    }
  }

  /** The module's globals: `currentModel`, the meshes in the scene, the STL loads whose
      callbacks have not run yet, and how often the camera was reset. */
  class Viewer {
    const storage: LocalStorage
    var currentModel: Option<Model>
    var scene: set<nat>
    var pending: seq<PendingLoad>
    var nextId: nat
    var cameraResets: nat

    constructor (storage: LocalStorage)
      ensures this.storage == storage
      ensures currentModel == None && scene == {}
      ensures pending == [] && nextId == 0 && cameraResets == 0
    {
      this.storage := storage;
      currentModel := None;
      scene := {};
      pending := [];
      nextId := 0;
      cameraResets := 0;
    }

    /** `updateModel(modelData)`: the current mesh leaves the scene (it stays current
        until a new one is made), the colours are taken from storage, and an STL model is
        loaded in the background while anything else is shown as a cube at once. */
    method UpdateModel(modelType: string, path: string)
      modifies this
      ensures modelType == "stl" ==>
        pending == old(pending) + [PendingLoad(path, Material(StoredColor()))] &&
        currentModel == old(currentModel) && scene == Without(old(scene), old(currentModel)) &&
        nextId == old(nextId)
      ensures modelType != "stl" ==>
        currentModel == Some(Model(old(nextId), Cube, Single(Material(StoredColor())))) &&
        scene == Without(old(scene), old(currentModel)) + {old(nextId)} &&
        pending == old(pending) && nextId == old(nextId) + 1
      ensures cameraResets == old(cameraResets)
    {
      scene := Without(scene, currentModel);
      var paint := Material(StoredColor());
      if modelType == "stl" {
        pending := pending + [PendingLoad(path, paint)];
      } else {
        currentModel := Some(Model(nextId, Cube, Single(paint)));
        scene := scene + {nextId};
        nextId := nextId + 1;
      }
    }

    /** The colour `updateModel` reads from storage: the stored one, or the default
        when none is stored. */
    function StoredColor(): (c: string)
      reads storage
      ensures !Truthy(storage.GetItem(ColorKey)) ==> c == DefaultColor
      ensures Truthy(storage.GetItem(ColorKey)) ==> c == storage.items[ColorKey]
    {
      Or(storage.GetItem(ColorKey), DefaultColor)
    }

    /** The callback of the `k`-th pending STL load: the mesh becomes current, joins the
        scene and the camera is reset. */
    method FireStlLoaded(k: nat)
      requires k < |pending|
      modifies this
      ensures var p := old(pending[k]);
        currentModel == Some(Model(old(nextId), StlMesh(p.path), Single(p.paint))) &&
        scene == old(scene) + {old(nextId)} && nextId == old(nextId) + 1
      ensures pending == old(pending[..k]) + old(pending[k + 1..]) && cameraResets == old(cameraResets) + 1
    {
      var p := pending[k];
      currentModel := Some(Model(nextId, StlMesh(p.path), Single(p.paint)));
      scene := scene + {nextId};
      nextId := nextId + 1;
      pending := pending[..k] + pending[k + 1..];
      cameraResets := cameraResets + 1;
    }

    /** `resetViewer`: no current model, and the camera back at its start. */
    method ResetViewer()
      modifies this
      ensures currentModel == None
      ensures scene == Without(old(scene), old(currentModel))
      ensures cameraResets == old(cameraResets) + 1 && pending == old(pending) && nextId == old(nextId)
    {
      scene := Without(scene, currentModel);
      currentModel := None;
      cameraResets := cameraResets + 1;
    }

    /** `updateModelColor(color)`: nothing without a current model; otherwise the colour
        and its emissive colour are set on its material, or on every one of its materials. */
    method UpdateModelColor(color: string)
      modifies this
      ensures old(currentModel).None? ==> currentModel == None
      ensures old(currentModel).Some? ==>
        var m := old(currentModel).value;
        var paint := Material(color);
        currentModel.Some? && currentModel.value.id == m.id && currentModel.value.shape == m.shape &&
        match m.materials
        case NoMaterial => currentModel.value.materials == NoMaterial
        case Single(_) => currentModel.value.materials == Single(paint)
        case Many(ms) =>
          currentModel.value.materials.Many? && |currentModel.value.materials.ms| == |ms| &&
          forall i :: 0 <= i < |ms| ==> currentModel.value.materials.ms[i] == paint
      ensures scene == old(scene) && pending == old(pending) && nextId == old(nextId)
      ensures cameraResets == old(cameraResets)
    {
      if currentModel.None? {
        return;
      }
      var m := currentModel.value;
      var paint := Material(color);
      match m.materials {
        case NoMaterial =>
        case Single(_) =>
          currentModel := Some(m.(materials := Single(paint)));
        case Many(ms) =>
          var painted := RecolorAll(ms, paint);
          currentModel := Some(m.(materials := Many(painted)));
      }
    }
  }

  // ---------------------------------------------------------------- lemmas

  /** The default purple and the emissive colour made from it. */
  lemma DefaultColorValue()
    ensures ColorHex(Material(DefaultColor)) == Some(0x9146FF)
    ensures EmissiveHex(Material(DefaultColor)) == 0x301755
  {
    var c := DefaultColor;
    assert IsHexColor(c) by {
      assert AllHex(c[1..]) by { assert c[1..] == "9146FF"; }
    }
    assert Channel(c, 1) == 0x91 && Channel(c, 3) == 0x46 && Channel(c, 5) == 0xFF;
    assert ColorValue(c) == Some(0x9146FF);
    var h := Some(0x9146FF);
    ChannelsOfColorValue(0x9146FF);
    assert ChannelOf(h, 16) == 0x91 && ChannelOf(h, 8) == 0x46 && ChannelOf(h, 0) == 0xFF;
    PackIsSum(0x30, 0x17, 0x55);
  }

  /** Or-ing a value with one whose bits all lie below the value's lowest set bit adds them. */
  lemma {:induction false} OrOfShifted(q: nat, b: nat, k: nat)
    requires b < Pow2(k)
    ensures BitOr(q * Pow2(k), b) == q * Pow2(k) + b
    decreases k
  {
    if k > 0 && q != 0 && b != 0 {
      var a := q * Pow2(k - 1);
      assert q * Pow2(k) == 2 * a;
      OrOfShifted(q, b / 2, k - 1);
      assert BitOr(2 * a, b) == 2 * BitOr(a, b / 2) + b % 2;
    }
  }

  lemma PackIsSum(a: nat, b: nat, c: nat)
    requires a < 256 && b < 256 && c < 256
    ensures Pack(a, b, c) == a * 65536 + b * 256 + c
    ensures Pack(a, b, c) < 0x100_0000
  {
    Pow2Values();
    PackArith(a, b, c);
    OrOfShifted(a, b * 256, 16);
    OrOfShifted(a * 256 + b, c, 8);
  }

  /** The arithmetic behind `PackIsSum`: the middle byte fits below the top one, the top
      two bytes shifted by eight bits are the sum of their shifts, and all three fit in
      24 bits. */
  lemma PackArith(a: nat, b: nat, c: nat)
    requires a < 256 && b < 256 && c < 256
    ensures b * 256 < 65536
    ensures (a * 256 + b) * 256 == a * 65536 + b * 256
    ensures a * 65536 + b * 256 + c < 0x100_0000
  {
    assert b * 256 <= 255 * 256;
    assert a * 65536 <= 255 * 65536;
  }

  lemma Pow2Values()
    ensures Pow2(0) == 1 && Pow2(8) == 256 && Pow2(16) == 65536
  {
  }

  /** For a colour value that fits in 24 bits, the three channels are its three bytes. */
  lemma ChannelsOfColorValue(h: int)
    requires 0 <= h < 0x100_0000
    ensures ChannelOf(Some(h), 16) == h / 65536
    ensures ChannelOf(Some(h), 8) == (h / 256) % 256
    ensures ChannelOf(Some(h), 0) == h % 256
    ensures h == 65536 * ChannelOf(Some(h), 16) + 256 * ChannelOf(Some(h), 8) + ChannelOf(Some(h), 0)
  {
    Pow2Values();
  }

  /** A `#RRGGBB` colour is split into its red, green and blue channels. */
  lemma ChannelsOfHexColor(color: string)
    requires IsHexColor(color)
    ensures ChannelOf(ColorValue(color), 16) == Channel(color, 1)
    ensures ChannelOf(ColorValue(color), 8) == Channel(color, 3)
    ensures ChannelOf(ColorValue(color), 0) == Channel(color, 5)
  {
    ChannelBound(color, 1);
    ChannelBound(color, 3);
    ChannelBound(color, 5);
    ChannelsOfBytes(ColorValue(color).value, Channel(color, 1), Channel(color, 3), Channel(color, 5));
  }

  lemma ChannelBound(color: string, k: nat)
    requires IsHexColor(color) && 1 <= k <= 5
    ensures Channel(color, k) < 256
  {
    assert DigitValue(color[k]) < 16 && DigitValue(color[k + 1]) < 16;
  }

  /** The channels of the value made of three bytes are those bytes. */
  lemma ChannelsOfBytes(h: int, r: nat, g: nat, b: nat)
    requires r < 256 && g < 256 && b < 256 && h == 65536 * r + 256 * g + b
    ensures ChannelOf(Some(h), 16) == r && ChannelOf(Some(h), 8) == g && ChannelOf(Some(h), 0) == b
  {
    BytesOfSum(r, g, b);
    ChannelsOfColorValue(h);
  }

  lemma BytesOfSum(r: nat, g: nat, b: nat)
    requires r < 256 && g < 256 && b < 256
    ensures (65536 * r + 256 * g + b) / 65536 == r
    ensures ((65536 * r + 256 * g + b) / 256) % 256 == g
    ensures (65536 * r + 256 * g + b) % 256 == b
  {
    var h := 65536 * r + 256 * g + b;
    DivBy(h, 65536, r, 256 * g + b);
    DivBy(h, 256, 256 * r + g, b);
    DivBy(256 * r + g, 256, r, g);
  }

  /** The quotient and remainder of a division are the only ones that fit. */
  lemma DivBy(n: int, d: int, q: int, m: int)
    requires 0 <= m < d && n == q * d + m
    ensures n / d == q && n % d == m
  {
    var q', m' := n / d, n % d;
    assert (q - q') * d == m' - m;
    if q > q' {
      MulAtLeast(q - q', d);
    } else if q < q' {
      MulAtLeast(q' - q, d);
    }
  }

  lemma MulAtLeast(k: int, d: int)
    requires k >= 1 && d > 0
    ensures k * d >= d
  {
  }

  /** The emissive colour holds a third (rounded down) of each channel, so no channel is
      brighter than the colour's own. */
  lemma EmissiveChannels(h: Option<int>)
    ensures ChannelOf(Some(Emissive(h)), 16) == ChannelOf(h, 16) / 3 <= ChannelOf(h, 16)
    ensures ChannelOf(Some(Emissive(h)), 8) == ChannelOf(h, 8) / 3 <= ChannelOf(h, 8)
    ensures ChannelOf(Some(Emissive(h)), 0) == ChannelOf(h, 0) / 3 <= ChannelOf(h, 0)
  {
    var r, g, b := ChannelOf(h, 16) / 3, ChannelOf(h, 8) / 3, ChannelOf(h, 0) / 3;
    PackIsSum(r, g, b);
    var e := Emissive(h);
    assert e == r * 65536 + g * 256 + b;
    ChannelsOfColorValue(e);
  }
}
