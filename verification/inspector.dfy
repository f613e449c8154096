/**
 * The object inspector over a field of twenty random boxes: building the
 * boxes and their records, the click that restores the previous selection
 * and highlights the nearest box hit, and the scale pulse a hit starts.
 */
module CubeInspector {
  import opened Geometry

  const CubeCount: nat := 20
  /** `Math.random()` calls per box: size (3), colour (3), position (3), rotation (2). */
  const DrawsPerCube: nat := 11

  /** Fill colour of the selected box. */
  const Highlight: int := 0xffff00
  /** Emissive tint of the selected box. */
  const Glow: int := 0xff6600
  /** Emissive of every box that is not selected. */
  const NoGlow: int := 0x000000

  const StartScale: real := 1.0
  const EndScale: real := 1.2
  /** Length of the pulse in milliseconds. */
  const Duration: real := 300.0

  datatype Option<T> = None | Some(value: T)

  /**
   * A material colour as the program writes it: a random RGB triple at
   * construction, or a hex code passed to `setHex`.
   */
  datatype Color = Rgb(r: real, g: real, b: real) | Hex(code: int)

  datatype Size = Size(width: real, height: real, depth: real)

  /** What the click handler reads and writes on a box's mesh. */
  datatype Mesh = Mesh(color: Color, emissive: Color, scale: real, position: Vec3)

  /** The record kept per box; `mesh` is the box's index in the box list. */
  datatype CubeData = CubeData(mesh: nat, originalColor: Color, position: Vec3, size: Size)

  /** A value `Math.random()` can return. */
  predicate IsRandom(u: real) { 0.0 <= u < 1.0 }

  // ---------------------------------------------------------------- construction

  /**
   * The record of box `i`, built from its eleven draws; when every draw is
   * a `Math.random()` value, its size, position and colour are in range.
   */
  function Generated(rand: seq<real>, i: nat): (d: CubeData)
    requires i < CubeCount && |rand| == CubeCount * DrawsPerCube
    ensures d.mesh == i
    ensures (forall k :: 0 <= k < |rand| ==> IsRandom(rand[k])) ==> InRange(d)
  {
    var o := i * DrawsPerCube;
    CubeData(i,
             Rgb(rand[o + 3], rand[o + 4], rand[o + 5]),
             Vec3((rand[o + 6] - 0.5) * 40.0, (rand[o + 7] - 0.5) * 20.0, (rand[o + 8] - 0.5) * 40.0),
             Size(rand[o] * 3.0 + 1.0, rand[o + 1] * 3.0 + 1.0, rand[o + 2] * 3.0 + 1.0))
  }

  /** A new box: its record's colour and position, no glow, natural size. */
  function Fresh(d: CubeData): (m: Mesh)
    ensures ShowsOriginal(m, d) && !IsHighlighted(m)
    ensures m.scale == StartScale && m.position == d.position
  {
    Mesh(d.originalColor, Hex(NoGlow), StartScale, d.position)
  }

  /** The ranges the random draws put a box's size, position and colour in. */
  predicate InRange(d: CubeData)
  {
    && 1.0 <= d.size.width < 4.0 && 1.0 <= d.size.height < 4.0 && 1.0 <= d.size.depth < 4.0
    && -20.0 <= d.position.x < 20.0 && -10.0 <= d.position.y < 10.0 && -20.0 <= d.position.z < 20.0
    && d.originalColor.Rgb?
    && IsRandom(d.originalColor.r) && IsRandom(d.originalColor.g) && IsRandom(d.originalColor.b)
  }

  /**
   * The construction loop: twenty boxes and their records, record `i`
   * pointing at box `i`, every box showing its original colour.
   */
  method BuildCubes(rand: seq<real>) returns (cubes: seq<Mesh>, cubeData: seq<CubeData>)
    requires |rand| == CubeCount * DrawsPerCube
    requires forall k :: 0 <= k < |rand| ==> IsRandom(rand[k])
    ensures |cubes| == CubeCount && |cubeData| == CubeCount
    ensures forall i :: 0 <= i < CubeCount ==>
              cubeData[i] == Generated(rand, i) && cubes[i] == Fresh(cubeData[i])
    ensures forall i :: 0 <= i < CubeCount ==> cubeData[i].mesh == i && InRange(cubeData[i])
    ensures Consistent(cubes, cubeData, None)
  {
    cubes, cubeData := [], [];
    var i := 0;
    while i < CubeCount
      invariant 0 <= i <= CubeCount
      invariant |cubes| == i && |cubeData| == i
      invariant forall j :: 0 <= j < i ==>
                  cubeData[j] == Generated(rand, j) && cubes[j] == Fresh(cubeData[j])
      invariant forall j :: 0 <= j < i ==> InRange(cubeData[j])
    {
      var o := i * DrawsPerCube;
      var width := rand[o] * 3.0 + 1.0;
      var height := rand[o + 1] * 3.0 + 1.0;
      var depth := rand[o + 2] * 3.0 + 1.0;
      var color := Rgb(rand[o + 3], rand[o + 4], rand[o + 5]);
      var position := Vec3((rand[o + 6] - 0.5) * 40.0, (rand[o + 7] - 0.5) * 20.0, (rand[o + 8] - 0.5) * 40.0);
      var cube := Mesh(color, Hex(NoGlow), StartScale, position);
      cubes := cubes + [cube];
      cubeData := cubeData + [CubeData(i, color, position, Size(width, height, depth))];
      i := i + 1;
    }
  }

  // ---------------------------------------------------------------- selection

  predicate IsHighlighted(m: Mesh)
  {
    m.color == Hex(Highlight) && m.emissive == Hex(Glow)
  }

  predicate ShowsOriginal(m: Mesh, d: CubeData)
  {
    m.color == d.originalColor && m.emissive == Hex(NoGlow)
  }

  /**
   * The selection invariant: record `i` belongs to box `i` and holds a
   * random colour; the selected box, if any, is highlighted; every other
   * box shows its original colour without glow.
   */
  predicate Consistent(cubes: seq<Mesh>, cubeData: seq<CubeData>, selected: Option<nat>)
  {
    && |cubes| == |cubeData|
    && (forall i :: 0 <= i < |cubeData| ==> cubeData[i].mesh == i && cubeData[i].originalColor.Rgb?)
    && (selected.Some? ==> selected.value < |cubes| && IsHighlighted(cubes[selected.value]))
    && (forall i :: 0 <= i < |cubes| && selected != Some(i) ==> ShowsOriginal(cubes[i], cubeData[i]))
  }

  /** `cubeData.find(d => d.mesh === mesh)`: the first record of the box. */
  function Find(cubeData: seq<CubeData>, mesh: nat): (r: Option<nat>)
    ensures r.Some? ==> r.value < |cubeData| && cubeData[r.value].mesh == mesh
    ensures r.Some? ==> forall k :: 0 <= k < r.value ==> cubeData[k].mesh != mesh
    ensures r.None? ==> forall k :: 0 <= k < |cubeData| ==> cubeData[k].mesh != mesh
  {
    if |cubeData| == 0 then None
    else if cubeData[0].mesh == mesh then Some(0)
    else match Find(cubeData[1..], mesh)
      case None => None
      case Some(k) => Some(k + 1)
  }

  /** When record `i` belongs to box `i`, looking up a box finds its own record. */
  lemma FindOwnRecord(cubeData: seq<CubeData>, mesh: nat)
    requires forall i :: 0 <= i < |cubeData| ==> cubeData[i].mesh == i
    requires mesh < |cubeData|
    ensures Find(cubeData, mesh) == Some(mesh)
  {
    var r := Find(cubeData, mesh);
    assert cubeData[mesh].mesh == mesh;
    assert r.Some?;
    assert cubeData[r.value].mesh == r.value;
  }

  /**
   * The first step of every click: the previously selected box gets its
   * record's colour back and loses its glow; its scale is left alone.
   */
  function Restore(cubes: seq<Mesh>, cubeData: seq<CubeData>, previous: Option<nat>): (r: seq<Mesh>)
    requires previous.Some? ==> previous.value < |cubes|
    ensures |r| == |cubes|
    ensures forall i :: 0 <= i < |cubes| && previous != Some(i) ==> r[i] == cubes[i]
    ensures forall i :: 0 <= i < |cubes| ==>
              r[i].scale == cubes[i].scale && r[i].position == cubes[i].position
    ensures previous.Some? && previous.value < |cubeData|
            && (forall i :: 0 <= i < |cubeData| ==> cubeData[i].mesh == i) ==>
              ShowsOriginal(r[previous.value], cubeData[previous.value])
  {
    match previous
    case None => cubes
    case Some(s) =>
      match Find(cubeData, s)
      case None => cubes
      case Some(k) =>
        cubes[s := cubes[s].(color := cubeData[k].originalColor, emissive := Hex(NoGlow))]
  }

  /** Box `s` takes the highlight colour and glow. */
  function Select(cubes: seq<Mesh>, s: nat): (r: seq<Mesh>)
    requires s < |cubes|
    ensures |r| == |cubes| && IsHighlighted(r[s])
    ensures r[s].scale == cubes[s].scale && r[s].position == cubes[s].position
    ensures forall i :: 0 <= i < |cubes| && i != s ==> r[i] == cubes[i]
  {
    cubes[s := cubes[s].(color := Hex(Highlight), emissive := Hex(Glow))]
  }

  /** Box `s` is drawn at uniform scale `v`. */
  function SetScale(cubes: seq<Mesh>, s: nat, v: real): (r: seq<Mesh>)
    requires s < |cubes|
    ensures |r| == |cubes| && r[s].scale == v
    ensures r[s].color == cubes[s].color && r[s].emissive == cubes[s].emissive
    ensures forall i :: 0 <= i < |cubes| && i != s ==> r[i] == cubes[i]
  {
    cubes[s := cubes[s].(scale := v)]
  }

  /** Restoring the selection leaves every box showing its original colour. */
  lemma RestoreClearsSelection(cubes: seq<Mesh>, cubeData: seq<CubeData>, selected: Option<nat>)
    requires Consistent(cubes, cubeData, selected)
    ensures Consistent(Restore(cubes, cubeData, selected), cubeData, None)
  {
  }

  /** Highlighting one box of an unselected field selects exactly that box. */
  lemma SelectKeepsConsistent(cubes: seq<Mesh>, cubeData: seq<CubeData>, s: nat)
    requires Consistent(cubes, cubeData, None)
    requires s < |cubes|
    ensures Consistent(Select(cubes, s), cubeData, Some(s))
  {
  }

  /** At most one box is highlighted, and it is the selected one. */
  lemma AtMostOneHighlighted(cubes: seq<Mesh>, cubeData: seq<CubeData>, selected: Option<nat>, i: nat)
    requires Consistent(cubes, cubeData, selected)
    requires i < |cubes| && IsHighlighted(cubes[i])
    ensures selected == Some(i)
  {
  }

  /** Selecting a box and then restoring it gives back exactly the boxes before. */
  lemma RestoreUndoesSelect(cubes: seq<Mesh>, cubeData: seq<CubeData>, s: nat)
    requires Consistent(cubes, cubeData, None)
    requires s < |cubes|
    ensures Restore(Select(cubes, s), cubeData, Some(s)) == cubes
  {
  }

  /**
   * Restoring the selected box and highlighting it again changes nothing:
   * no highlight is ever taken for an original colour.
   */
  lemma ReselectIsIdempotent(cubes: seq<Mesh>, cubeData: seq<CubeData>, s: nat)
    requires Consistent(cubes, cubeData, Some(s))
    ensures Select(Restore(cubes, cubeData, Some(s)), s) == cubes
  {
    var r := Select(Restore(cubes, cubeData, Some(s)), s);
    assert r[s] == cubes[s];
    assert forall i :: 0 <= i < |cubes| ==> r[i] == cubes[i];
  }

  // ---------------------------------------------------------------- pulse

  /** `Math.min(elapsed / duration, 1)`. */
  function Progress(elapsed: real): (p: real)
    ensures p <= 1.0
    ensures 0.0 <= elapsed ==> 0.0 <= p
    ensures p == 1.0 <==> elapsed >= Duration
    ensures elapsed < Duration ==> p == elapsed / Duration
  {
    Min(elapsed / Duration, 1.0)
  }

  /**
   * The pulse's scale at progress `p`: up from the start scale to the end
   * scale over the first half, back down over the second.
   */
  function PulseScale(p: real): (s: real)
    ensures 0.0 <= p <= 1.0 ==> StartScale <= s <= EndScale
    ensures p == 0.0 ==> s == StartScale
    ensures p == 0.5 ==> s == EndScale
    ensures p == 1.0 ==> s == StartScale
  {
    if p < 0.5 then
      StartScale + (EndScale - StartScale) * (p * 2.0)
    else
      EndScale - (EndScale - StartScale) * ((p - 0.5) * 2.0)
  }

  /** The two branches form one triangle: the scale is 1 + 0.2 (1 - |2p - 1|). */
  lemma PulseIsTriangle(p: real)
    ensures PulseScale(p) == StartScale + (EndScale - StartScale) * (1.0 - Abs(2.0 * p - 1.0))
  {
  }

  /**
   * The scale changes by at most 0.4 per unit of progress anywhere, so the
   * two branches meet without a jump at 0.5.
   */
  lemma PulseIsContinuous(p: real, q: real)
    ensures Abs(PulseScale(p) - PulseScale(q)) <= 0.4 * Abs(p - q)
  {
  }

  /** The pulse rises and falls symmetrically. */
  lemma PulseIsSymmetric(p: real)
    ensures PulseScale(p) == PulseScale(1.0 - p)
  {
  }

  /** Once the duration has passed, the box is back at the start scale. */
  lemma PulseEndsAtRest(elapsed: real)
    requires elapsed >= Duration
    ensures PulseScale(Progress(elapsed)) == StartScale
  {
  }

  // ---------------------------------------------------------------- state

  /**
   * The inspector's state: the boxes, their records (never written after
   * construction), the selected box, whether a pulse frame is scheduled
   * and when the current pulse started, the normalised click position and
   * the last record sent to the information panel.
   */
  class Inspector {
    var cubes: seq<Mesh>
    const cubeData: seq<CubeData>
    var selectedCube: Option<nat>
    /** A pulse frame is scheduled and not yet run. */
    var framePending: bool
    var startTime: real
    var mouse: Device
    /** The argument of the last `updateUI` call; `None` for null. */
    var shown: Option<CubeData>

    ghost predicate Valid()
      reads this
    {
      Consistent(cubes, cubeData, selectedCube)
    }

    constructor (rand: seq<real>)
      requires |rand| == CubeCount * DrawsPerCube
      requires forall k :: 0 <= k < |rand| ==> IsRandom(rand[k])
      ensures Valid()
      ensures |cubes| == CubeCount
      ensures forall i :: 0 <= i < CubeCount ==>
                cubeData[i] == Generated(rand, i) && cubes[i] == Fresh(cubeData[i])
      ensures selectedCube == None && !framePending && shown == None
    {
      var c, d := BuildCubes(rand);
      cubes, cubeData := c, d;
      selectedCube := None;
      framePending := false;
      startTime := 0.0;
      mouse := Device(0.0, 0.0);
      shown := None;
    }

    /**
     * One run of the pulse callback at time `now`. The box it scales is
     * whichever is selected when it runs; with none selected the call
     * fails (`fault`) and schedules nothing more.
     */
    method AnimatePulse(now: real) returns (fault: bool)
      requires Valid()
      modifies this`cubes, this`framePending
      ensures Valid()
      ensures selectedCube == None ==> fault && cubes == old(cubes) && !framePending
      ensures selectedCube.Some? ==>
                !fault
                && cubes == SetScale(old(cubes), selectedCube.value, PulseScale(Progress(now - startTime)))
                && framePending == (Progress(now - startTime) < 1.0)
    {
      var elapsed := now - startTime;
      var progress := Progress(elapsed);
      var scale;
      if progress < 0.5 {
        scale := StartScale + (EndScale - StartScale) * (progress * 2.0);
      } else {
        scale := EndScale - (EndScale - StartScale) * ((progress - 0.5) * 2.0);
      }
      if selectedCube == None {
        fault, framePending := true, false;
        return;
      }
      fault := false;
      cubes := SetScale(cubes, selectedCube.value, scale);
      framePending := progress < 1.0;
    }

    /** The host runs the scheduled pulse frame, if there is one. */
    method PulseFrame(now: real) returns (fault: bool)
      requires Valid()
      modifies this`cubes, this`framePending
      ensures Valid()
      ensures !old(framePending) ==> !fault && cubes == old(cubes) && !framePending
      ensures old(framePending) && selectedCube == None ==>
                fault && cubes == old(cubes) && !framePending
      ensures old(framePending) && selectedCube.Some? ==>
                !fault
                && cubes == SetScale(old(cubes), selectedCube.value, PulseScale(Progress(now - startTime)))
                && framePending == (Progress(now - startTime) < 1.0)
    {
      fault := false;
      if framePending {
        fault := AnimatePulse(now);
      }
    }

    /**
     * A click: normalise the pointer, restore the previous selection, then
     * either highlight the nearest box hit, report its record and restart
     * the pulse, or clear the selection and report nothing. `hits` are the
     * boxes the ray meets, nearest first.
     */
    method Click(clientX: real, clientY: real, width: real, height: real, hits: seq<nat>, now: real)
      requires Valid()
      requires width > 0.0 && height > 0.0
      requires forall k :: 0 <= k < |hits| ==> hits[k] < |cubes|
      modifies this
      ensures Valid()
      ensures mouse == ToDevice(clientX, clientY, width, height)
      ensures hits == [] ==>
                selectedCube == None && shown == None
                && cubes == Restore(old(cubes), cubeData, old(selectedCube))
                && framePending == old(framePending) && startTime == old(startTime)
      ensures hits != [] ==>
                selectedCube == Some(hits[0]) && shown == Some(cubeData[hits[0]])
                && cubes == SetScale(Select(Restore(old(cubes), cubeData, old(selectedCube)), hits[0]),
                                     hits[0], StartScale)
                && framePending && startTime == now
    {
      mouse := Device((clientX / width) * 2.0 - 1.0, -(clientY / height) * 2.0 + 1.0);
      RestoreClearsSelection(cubes, cubeData, selectedCube);
      cubes := Restore(cubes, cubeData, selectedCube);
      if |hits| > 0 {
        var s := hits[0];
        FindOwnRecord(cubeData, s);
        SelectKeepsConsistent(cubes, cubeData, s);
        selectedCube := Some(s);
        var data := Find(cubeData, s);
        if data.Some? {
          cubes := Select(cubes, s);
          shown := Some(cubeData[data.value]);
          startTime := now;
          framePending := false;
          var fault := AnimatePulse(now);
        }
      } else {
        selectedCube := None;
        shown := None;
      }
    }
  }

  /**
   * Clicking the same box again, after a pulse frame has moved its scale,
   * leaves the boxes exactly as the first click left them.
   */
  method ClickSameCubeTwice(ins: Inspector, x: real, y: real, width: real, height: real, s: nat,
                            t1: real, t2: real)
    requires ins.Valid()
    requires width > 0.0 && height > 0.0 && s < |ins.cubes|
    modifies ins
    ensures ins.Valid() && ins.selectedCube == Some(s)
    ensures ins.cubes == SetScale(Select(Restore(old(ins.cubes), ins.cubeData, old(ins.selectedCube)), s), s, StartScale)
  {
    ins.Click(x, y, width, height, [s], t1);
    ghost var once := ins.cubes;
    var fault := ins.PulseFrame(t2);
    ghost var pulsed := ins.cubes;
    ReselectIsIdempotent(pulsed, ins.cubeData, s);
    ins.Click(x, y, width, height, [s], t2);
    assert ins.cubes == SetScale(pulsed, s, StartScale);
    assert forall i :: 0 <= i < |once| ==> ins.cubes[i] == once[i];
  }

  /**
   * A miss while a pulse is still running leaves its frame scheduled; the
   * frame then finds no selected box and fails.
   */
  method MissDuringPulse(ins: Inspector, x: real, y: real, width: real, height: real, s: nat,
                         t0: real, t1: real, t2: real) returns (fault: bool)
    requires ins.Valid()
    requires width > 0.0 && height > 0.0 && s < |ins.cubes|
    modifies ins
    ensures fault
  {
    ins.Click(x, y, width, height, [s], t0);
    ins.Click(x, y, width, height, [], t1);
    fault := ins.PulseFrame(t2);
  }
}
