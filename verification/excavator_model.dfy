/**
 The 3-D excavator: on every frame the machine's look is decided from the
 telemetry (red and shaking on a thermal hazard, orange while derated,
 green otherwise), and the battery parts of the scene are tinted with it
 while every part remembers the colour it was loaded with.
 */
module ExcavatorModel {
  import opened Js
  import opened Strings
  import opened Feed
  import Dashboard

  /** Hex colours written to the battery materials. */
  const HexRed := 0xff0000
  const HexOrange := 0xffa500
  const HexGreen := 0x00ff00

  /** `telemetry?.is_derated === true`: only the boolean true counts here,
      unlike the truthy test the page and the panels use. */
  predicate Derated(t: Option<Telemetry>)
  {
    t.Some? && IsTrue(t.value.isDerated)
  }

  /** The frame's look: the battery colour and whether the machine shakes. */
  datatype Look = Look(colour: int, shake: bool)

  function LookFor(t: Option<Telemetry>): (l: Look)
    ensures l.shake <==> HighRisk(t) && !Derated(t)
    ensures l.colour == HexRed <==> HighRisk(t) && !Derated(t)
    ensures l.colour == HexOrange <==> Derated(t)
    ensures l.colour == HexGreen <==> !HighRisk(t) && !Derated(t)
  {
    if HighRisk(t) && !Derated(t) then Look(HexRed, true)
    else if Derated(t) then Look(HexOrange, false)
    else Look(HexGreen, false)
  }

  /** Only the red look shakes: every frame that shakes is red, and a
      derated machine never shakes whatever its risk. */
  lemma ShakeOnlyWhenRed(t: Option<Telemetry>)
    ensures LookFor(t).shake <==> LookFor(t).colour == HexRed
    ensures Derated(t) ==> !LookFor(t).shake
  {
  }

  /** The scene's position. */
  datatype Position = Position(x: real, y: real, z: real)

  /** The position written this frame, with `rx` and `ry` the two
      `Math.random()` draws: a shaking frame puts x and y within 0.05 of the
      origin and keeps z; a calm frame puts the scene back at the origin. */
  function NextPosition(p: Position, shake: bool, rx: real, ry: real): (r: Position)
    requires 0.0 <= rx < 1.0 && 0.0 <= ry < 1.0
    ensures shake ==> -0.05 <= r.x < 0.05 && -0.05 <= r.y < 0.05 && r.z == p.z
    ensures !shake ==> r == Position(0.0, 0.0, 0.0)
  {
    if shake then p.(x := (rx - 0.5) * 0.1, y := (ry - 0.5) * 0.1)
    else Position(0.0, 0.0, 0.0)
  }

  /** One object of the loaded scene: whether it is a mesh with a material,
      its current material colour, and the original colour it stored. */
  datatype Part = Part(name: string, isMesh: bool, hasMaterial: bool, colour: int, original: Option<int>)

  /** A battery part: a lower-cased name containing "battery". */
  predicate IsBattery(p: Part)
  {
    Contains(Lower(p.name), "battery")
  }

  /** What one traversal does to one part. Battery meshes store their
      colour the first time and then show the frame's colour; any other mesh
      that has an original colour is restored to it. */
  function Shade(p: Part, active: int): (r: Part)
    ensures r.name == p.name && r.isMesh == p.isMesh && r.hasMaterial == p.hasMaterial
    ensures !(p.isMesh && p.hasMaterial) ==> r == p
    ensures p.isMesh && p.hasMaterial && IsBattery(p) ==> r.colour == active
    ensures p.isMesh && p.hasMaterial && IsBattery(p) && p.original.None? ==> r.original == Some(p.colour)
    ensures p.original.Some? ==> r.original == p.original
    ensures !IsBattery(p) ==> r.original == p.original
    ensures !IsBattery(p) && p.original.None? ==> r == p
    ensures p.isMesh && p.hasMaterial && !IsBattery(p) && p.original.Some? ==> r.colour == p.original.value
  {
    if !(p.isMesh && p.hasMaterial) then p
    else if IsBattery(p) then
      var stored := if p.original.Some? then p.original else Some(p.colour);
      p.(original := stored, colour := active)
    else if p.original.Some? then p.(colour := p.original.value)
    else p
  }

  /** `scene.traverse`: every part shaded in turn. */
  function Traverse(parts: seq<Part>, active: int): (r: seq<Part>)
    ensures |r| == |parts|
    decreases |parts|
  {
    if |parts| == 0 then []
    else [Shade(parts[0], active)] + Traverse(parts[1..], active)
  }

  /** Shading a part twice with the same colour is shading it once. */
  lemma ShadeIdempotent(p: Part, active: int)
    ensures Shade(Shade(p, active), active) == Shade(p, active)
  {
  }

  /** Rendering the same look frame after frame changes nothing after the first. */
  lemma {:induction false} TraverseIdempotent(parts: seq<Part>, active: int)
    ensures Traverse(Traverse(parts, active), active) == Traverse(parts, active)
    decreases |parts|
  {
    if |parts| > 0 {
      var once := Traverse(parts, active);
      assert once[1..] == Traverse(parts[1..], active);
      TraverseIdempotent(parts[1..], active);
      ShadeIdempotent(parts[0], active);
    }
  }

  /** The traversal shades each part on its own: the part at position `i`
      comes out as shading that part alone would leave it. */
  lemma {:induction false} TraverseAt(parts: seq<Part>, active: int, i: int)
    requires 0 <= i < |parts|
    ensures Traverse(parts, active)[i] == Shade(parts[i], active)
    decreases |parts|
  {
    if i > 0 {
      TraverseAt(parts[1..], active, i - 1);
      assert Traverse(parts, active)[1..] == Traverse(parts[1..], active);
    }
  }

  /** What one frame does to the whole scene: every battery mesh shows the
      frame's colour, no stored original is ever overwritten, and a part
      that is not a battery and has no original is left exactly as it was. */
  lemma TraverseEffects(parts: seq<Part>, active: int)
    ensures forall i :: 0 <= i < |parts| ==> Traverse(parts, active)[i].name == parts[i].name
    ensures forall i :: 0 <= i < |parts| && parts[i].isMesh && parts[i].hasMaterial && IsBattery(parts[i]) ==>
      Traverse(parts, active)[i].colour == active
    ensures forall i :: 0 <= i < |parts| && parts[i].original.Some? ==>
      Traverse(parts, active)[i].original == parts[i].original
    ensures forall i :: 0 <= i < |parts| && !IsBattery(parts[i]) && parts[i].original.None? ==>
      Traverse(parts, active)[i] == parts[i]
  {
    forall i | 0 <= i < |parts| ensures Traverse(parts, active)[i] == Shade(parts[i], active) {
      TraverseAt(parts, active, i);
    }
  }

  /** The colour a battery mesh was loaded with is remembered through any
      sequence of looks: after one frame and then another, the part still
      holds its load-time colour as its original and shows the latest look. */
  lemma OriginalSurvivesFrames(parts: seq<Part>, first: int, second: int, i: int)
    requires 0 <= i < |parts|
    requires parts[i].isMesh && parts[i].hasMaterial && IsBattery(parts[i]) && parts[i].original.None?
    ensures Traverse(Traverse(parts, first), second)[i].original == Some(parts[i].colour)
    ensures Traverse(Traverse(parts, first), second)[i].colour == second
  {
    TraverseAt(parts, first, i);
    TraverseAt(Traverse(parts, first), second, i);
  }

  /** The page and the excavator read `is_derated` differently: a machine
      that reports the flag as 1 with a high risk is shown on the page with the
      cooling banner, while the excavator shakes in red. */
  lemma DeratedFlagDisagreement(t: Telemetry)
    requires t.isDerated == Num(1.0) && t.risk > 50.0
    ensures Dashboard.BannerFor(Some(t), true) == Dashboard.Derating
    ensures LookFor(Some(t)) == Look(HexRed, true)
  {
  }
}
