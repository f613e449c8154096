/**
 * The hand-written orbit controls of the campus view: a drag machine that
 * steers two target angles, a per-frame easing of the live angles toward
 * them, wheel zoom, the click that recolours the main building and the key
 * that toggles the lights.
 */
module Rectorate {
  import opened Geometry

  /** Radians of rotation per pixel of drag. */
  const RotationSpeed: real := 0.005
  /** Fraction of the remaining gap the live angles cover each frame. */
  const EasingFactor: real := 0.05
  /** Distance of the camera from the point (0, CameraLift, 0) it orbits. */
  const Radius: real := 80.0
  /** Height added to the camera's orbit position. */
  const CameraLift: real := 25.0
  /** Clock advance per frame. */
  const TimeStep: real := 0.01
  /** Largest colour a hex code can name. */
  const MaxHex: int := 0xFFFFFF

  /** `Math.max(lo, Math.min(hi, v))`: `v` pulled into [lo, hi]. */
  function Clamp(v: real, lo: real, hi: real): (r: real)
    requires lo <= hi
    ensures lo <= r <= hi
    ensures lo <= v <= hi ==> r == v
    ensures v < lo ==> r == lo
    ensures hi < v ==> r == hi
  {
    Max(lo, Min(hi, v))
  }

  /** The clamped value is the point of [lo, hi] nearest to `v`. */
  lemma ClampIsNearest(v: real, lo: real, hi: real, w: real)
    requires lo <= hi && lo <= w <= hi
    ensures Abs(Clamp(v, lo, hi) - v) <= Abs(w - v)
  {
  }

  /**
   * One frame of easing: the live angle moves 5% of the way to the target.
   * The remaining gap shrinks to exactly 95% of what it was, and the new
   * value lies between the old value and the target (no overshoot).
   */
  function Ease(current: real, target: real): (r: real)
    ensures target - r == (1.0 - EasingFactor) * (target - current)
    ensures current <= target ==> current <= r <= target
    ensures target <= current ==> target <= r <= current
  {
    current + (target - current) * EasingFactor
  }

  /** Easing keeps an angle inside any interval that holds both it and its target. */
  lemma EaseStaysInside(current: real, target: real, lo: real, hi: real)
    requires lo <= current <= hi && lo <= target <= hi
    ensures lo <= Ease(current, target) <= hi
  {
  }

  /** The live angle after `n` frames with a fixed target. */
  function EaseFrames(current: real, target: real, n: nat): real
    decreases n
  {
    if n == 0 then current else EaseFrames(Ease(current, target), target, n - 1)
  }

  function Pow(a: real, n: nat): real
  {
    if n == 0 then 1.0 else a * Pow(a, n - 1)
  }

  lemma {:induction false} PowBounds(a: real, n: nat)
    requires 0.0 <= a <= 1.0
    ensures 0.0 <= Pow(a, n) <= 1.0
    ensures Pow(a, n + 1) <= Pow(a, n)
  {
    if n > 0 {
      PowBounds(a, n - 1);
    }
    var p := Pow(a, n);
    assert Pow(a, n + 1) == a * p;
    MulNonneg(a, p);
    MulMono(a, 1.0, p);
    assert a * p <= 1.0 * p;
    assert 1.0 * p == p;
  }

  lemma {:induction false} PowAdd(a: real, m: nat, n: nat)
    ensures Pow(a, m + n) == Pow(a, m) * Pow(a, n)
  {
    if m > 0 {
      PowAdd(a, m - 1, n);
      assert Pow(a, m + n) == a * Pow(a, m - 1 + n);
    }
  }

  lemma {:induction false} PowMul(a: real, m: nat, n: nat)
    ensures Pow(a, m * n) == Pow(Pow(a, m), n)
  {
    if n > 0 {
      var k := m * (n - 1);
      PowMul(a, m, n - 1);
      assert m * n == m + k;
      PowAdd(a, m, k);
      calc {
        Pow(a, m * n);
        Pow(a, m + k);
        Pow(a, m) * Pow(a, k);
        Pow(a, m) * Pow(Pow(a, m), n - 1);
        Pow(Pow(a, m), n);
      }
    }
  }

  lemma {:induction false} PowMono(a: real, b: real, n: nat)
    requires 0.0 <= a <= b
    ensures 0.0 <= Pow(a, n) <= Pow(b, n)
  {
    if n > 0 {
      PowMono(a, b, n - 1);
      var x, y := Pow(a, n - 1), Pow(b, n - 1);
      MulMono(a, b, x);
      MulMono(x, y, b);
      assert b * x <= b * y;
    }
  }

  /**
   * After `n` frames toward a fixed target the gap is 0.95^n of the
   * starting gap.
   */
  lemma {:induction false} EaseFramesGap(current: real, target: real, n: nat)
    ensures target - EaseFrames(current, target, n)
            == Pow(1.0 - EasingFactor, n) * (target - current)
    decreases n
  {
    if n > 0 {
      var next := Ease(current, target);
      EaseFramesGap(next, target, n - 1);
      var q, p := 1.0 - EasingFactor, Pow(1.0 - EasingFactor, n - 1);
      var g := target - current;
      assert target - next == q * g;
      MulRegroup(p, q, g);
      calc {
        target - EaseFrames(current, target, n);
        target - EaseFrames(next, target, n - 1);
        p * (target - next);
        p * (q * g);
        (q * p) * g;
        Pow(q, n) * g;
      }
    }
  }

  /**
   * Repeated easing approaches a fixed target monotonically and never
   * crosses it.
   */
  lemma EaseFramesApproach(current: real, target: real, n: nat)
    ensures Abs(target - EaseFrames(current, target, n + 1))
            <= Abs(target - EaseFrames(current, target, n))
    ensures current <= target ==> current <= EaseFrames(current, target, n) <= target
    ensures target <= current ==> target <= EaseFrames(current, target, n) <= current
  {
    var q := 1.0 - EasingFactor;
    EaseFramesGap(current, target, n);
    EaseFramesGap(current, target, n + 1);
    PowBounds(q, n);
    ShrunkGap(current, target, EaseFrames(current, target, n), Pow(q, n));
    ShrunkGap(current, target, EaseFrames(current, target, n + 1), Pow(q, n + 1));
  }

  /** A gap scaled by a factor in [0, 1] keeps its sign and does not grow. */
  lemma ShrunkGap(current: real, target: real, e: real, k: real)
    requires 0.0 <= k <= 1.0
    requires target - e == k * (target - current)
    ensures Abs(target - e) == k * Abs(target - current)
    ensures current <= target ==> current <= e <= target
    ensures target <= current ==> target <= e <= current
  {
    var g, x := target - current, target - e;
    ScaledBetween(g, x, k);
    ScaledAbs(g, x, k);
  }

  /** `x` is the fraction `k` of `g`: it has the sign of `g` and is no larger. */
  lemma ScaledBetween(g: real, x: real, k: real)
    requires 0.0 <= k <= 1.0 && x == k * g
    ensures 0.0 <= g ==> 0.0 <= x <= g
    ensures g < 0.0 ==> g <= x <= 0.0
  {
    if 0.0 <= g {
      FractionBetween(k, g);
    } else {
      FractionBetween(k, -g);
      MulNegate(k, g);
    }
  }

  /** The size of the fraction `k` of `g` is the fraction `k` of the size of `g`. */
  lemma ScaledAbs(g: real, x: real, k: real)
    requires 0.0 <= k && x == k * g
    ensures Abs(x) == k * Abs(g)
  {
    if 0.0 <= g {
      MulNonneg(k, g);
      assert Abs(g) == g && Abs(x) == x;
    } else {
      MulNonneg(k, -g);
      MulNegate(k, g);
      assert Abs(g) == -g && Abs(x) == -x;
    }
  }

  /** A fraction in [0, 1] of a non-negative real lies between zero and it. */
  lemma FractionBetween(k: real, g: real)
    requires 0.0 <= k <= 1.0 && 0.0 <= g
    ensures 0.0 <= k * g <= g
  {
    MulNonneg(k, g);
    MulNonneg(1.0 - k, g);
    assert g - k * g == (1.0 - k) * g;
  }

  /** Regrouping a product of three reals. */
  lemma MulRegroup(p: real, q: real, g: real)
    ensures p * (q * g) == (q * p) * g
  {
  }

  lemma MulNegate(k: real, g: real)
    ensures k * -g == -(k * g)
  {
  }

  /** Fourteen frames at least halve the gap: 0.95^14 < 0.5. */
  lemma PowFourteen()
    ensures Pow(1.0 - EasingFactor, 14) < 0.5
  {
    var q := 1.0 - EasingFactor;
    assert q == 0.95;
    PowAdd(q, 7, 7);
    PowAdd(q, 4, 3);
    PowAdd(q, 2, 2);
    PowAdd(q, 2, 1);
    assert Pow(q, 2) == 0.9025;
    assert Pow(q, 4) == 0.9025 * 0.9025;
  }

  /**
   * From a gap of at most one radian the live angle is within 0.001 of
   * its target after 140 frames.
   */
  lemma EaseConverges(current: real, target: real)
    requires Abs(target - current) <= 1.0
    ensures Abs(target - EaseFrames(current, target, 140)) < 0.001
  {
    var q := 1.0 - EasingFactor;
    EaseFramesGap(current, target, 140);
    PowMul(q, 14, 10);
    PowFourteen();
    PowBounds(q, 14);
    PowMono(Pow(q, 14), 0.5, 10);
    assert Pow(0.5, 10) < 0.001;
    var p := Pow(q, 140);
    assert 0.0 <= p < 0.001;
    var g := target - current;
    assert target - EaseFrames(current, target, 140) == p * g;
    if g >= 0.0 {
      MulNonneg(p, g);
      MulMono(g, 1.0, p);
      assert g * p <= 1.0 * p;
      assert 1.0 * p == p;
      assert 0.0 <= p * g <= p;
    } else {
      var h := -g;
      MulNegate(p, g);
      MulNonneg(p, h);
      MulMono(h, 1.0, p);
      assert h * p <= 1.0 * p;
      assert 1.0 * p == p;
      assert 0.0 <= p * h <= p;
    }
  }

  /** A sine and cosine value of one angle: s^2 + c^2 = 1. */
  predicate OnUnitCircle(s: real, c: real)
  {
    s * s + c * c == 1.0
  }

  /** The algebra behind `Orbit`'s distances, for the sines and cosines of both angles. */
  lemma OrbitDistance(sy: real, cy: real, sx: real, cx: real)
    ensures OnUnitCircle(sy, cy) ==>
              (Radius * sy * cx) * (Radius * sy * cx) + (Radius * cy * cx) * (Radius * cy * cx)
              == (Radius * Radius) * (cx * cx)
    ensures OnUnitCircle(sy, cy) && OnUnitCircle(sx, cx) ==>
              (Radius * sy * cx) * (Radius * sy * cx) + (Radius * cy * cx) * (Radius * cy * cx)
              + (Radius * sx) * (Radius * sx) == Radius * Radius
  {
    var u := cx * cx;
    assert (Radius * sy * cx) * (Radius * sy * cx) == (Radius * Radius) * u * (sy * sy);
    assert (Radius * cy * cx) * (Radius * cy * cx) == (Radius * Radius) * u * (cy * cy);
    assert (Radius * sx) * (Radius * sx) == (Radius * Radius) * (sx * sx);
    assert (Radius * Radius) * u * (sy * sy) + (Radius * Radius) * u * (cy * cy)
           == (Radius * Radius) * u * (sy * sy + cy * cy);
  }

  /** `Math.random() * 0xffffff` handed to `setHex`, which drops the fraction. */
  function RandomHex(random: real): (h: int)
    requires 0.0 <= random < 1.0
    ensures 0 <= h < MaxHex
    ensures h as real <= random * MaxHex as real < h as real + 1.0
  {
    (random * MaxHex as real).Floor
  }

  /** The keys that toggle the lights. */
  predicate IsLightKey(key: string)
  {
    key == "l" || key == "L"
  }

  /** Light intensities for the switch position: directional 0.8 / 0.2, point 1.5 / 0. */
  function DirectionalLevel(on: bool): real { if on then 0.8 else 0.2 }
  function PointLevel(on: bool): real { if on then 1.5 else 0.0 }

  /** The factor one wheel event scales the camera position by. */
  function ZoomFactor(deltaY: real): (f: real)
    ensures f > 0.0
    ensures deltaY > 0.0 ==> f > 1.0
    ensures deltaY <= 0.0 ==> f < 1.0
  {
    if deltaY > 0.0 then 1.1 else 0.9
  }

  /**
   * The controller state that the campus view's handlers and frame loop
   * share: drag flag, last pointer position, target and live angles, the
   * camera position, the light switch and the main building's colour.
   */
  class Controls {
    /** Elevation limit, pi/3. */
    const limit: real
    /** The sine and cosine the camera formula uses. */
    const sin: real -> real
    const cos: real -> real

    var isMouseDown: bool
    var mouseX: real
    var mouseY: real
    var targetRotationX: real
    var targetRotationY: real
    var currentRotationX: real
    var currentRotationY: real
    var cameraPosition: Vec3
    /** Device coordinates of the last click. */
    var pointer: Device
    var mainBuildingColor: int
    var lightsOn: bool
    var directionalIntensity: real
    var pointIntensity: real
    var time: real

    /** Elevation stays within the limit; the directional light follows the switch. */
    ghost predicate Valid()
      reads this
    {
      && limit > 0.0
      && -limit <= targetRotationX <= limit
      && -limit <= currentRotationX <= limit
      && directionalIntensity == DirectionalLevel(lightsOn)
      && 0 <= mainBuildingColor <= MaxHex
    }

    /**
     * Camera position on the orbit for elevation `rx` and azimuth `ry`.
     * Where sine and cosine lie on the unit circle, the camera is Radius
     * from the orbit's centre (0, CameraLift, 0) and Radius * |cos rx|
     * from the vertical axis.
     */
    function Orbit(rx: real, ry: real): (r: Vec3)
      ensures OnUnitCircle(sin(ry), cos(ry)) ==>
                r.x * r.x + r.z * r.z == (Radius * Radius) * (cos(rx) * cos(rx))
      ensures OnUnitCircle(sin(rx), cos(rx)) && OnUnitCircle(sin(ry), cos(ry)) ==>
                SqDist(r, Vec3(0.0, CameraLift, 0.0)) == Radius * Radius
      ensures r.y - CameraLift == Radius * sin(rx)
    {
      OrbitDistance(sin(ry), cos(ry), sin(rx), cos(rx));
      Vec3(Radius * sin(ry) * cos(rx), Radius * sin(rx) + CameraLift, Radius * cos(ry) * cos(rx))
    }

    constructor (limit: real, sin: real -> real, cos: real -> real)
      requires limit > 0.0
      ensures Valid()
      ensures this.limit == limit && this.sin == sin && this.cos == cos
      ensures !isMouseDown && mouseX == 0.0 && mouseY == 0.0
      ensures targetRotationX == 0.0 && targetRotationY == 0.0
      ensures currentRotationX == 0.0 && currentRotationY == 0.0
      ensures cameraPosition == Vec3(50.0, 35.0, 50.0)
      ensures mainBuildingColor == MaxHex
      ensures lightsOn && directionalIntensity == 0.8 && pointIntensity == 1.5
      ensures time == 0.0
    {
      this.limit, this.sin, this.cos := limit, sin, cos;
      isMouseDown, mouseX, mouseY := false, 0.0, 0.0;
      targetRotationX, targetRotationY := 0.0, 0.0;
      currentRotationX, currentRotationY := 0.0, 0.0;
      cameraPosition := Vec3(50.0, 35.0, 50.0);
      pointer := Device(0.0, 0.0);
      mainBuildingColor := MaxHex;
      lightsOn, directionalIntensity, pointIntensity := true, 0.8, 1.5;
      time := 0.0;
    }

    /** Pressing the button starts a drag from the pointer's position. */
    method MouseDown(clientX: real, clientY: real)
      requires Valid()
      modifies this`isMouseDown, this`mouseX, this`mouseY
      ensures Valid()
      ensures isMouseDown && mouseX == clientX && mouseY == clientY
    {
      isMouseDown := true;
      mouseX := clientX;
      mouseY := clientY;
    }

    /** Releasing the button ends any drag, whatever the state was. */
    method MouseUp()
      requires Valid()
      modifies this`isMouseDown
      ensures Valid()
      ensures !isMouseDown
    {
      isMouseDown := false;
    }

    /**
     * While dragging, the pointer's movement turns the target angles;
     * the elevation target is clamped to the limit, the azimuth is not.
     * Without a drag nothing changes.
     */
    method MouseMove(clientX: real, clientY: real)
      requires Valid()
      modifies this`mouseX, this`mouseY, this`targetRotationX, this`targetRotationY
      ensures Valid()
      ensures -limit <= targetRotationX <= limit
      ensures !isMouseDown ==>
                mouseX == old(mouseX) && mouseY == old(mouseY)
                && targetRotationX == old(targetRotationX)
                && targetRotationY == old(targetRotationY)
      ensures isMouseDown ==>
                mouseX == clientX && mouseY == clientY
                && targetRotationY == old(targetRotationY) + (clientX - old(mouseX)) * RotationSpeed
                && targetRotationX == Clamp(old(targetRotationX) + (clientY - old(mouseY)) * RotationSpeed, -limit, limit)
    {
      if !isMouseDown {
        return;
      }
      var deltaX := clientX - mouseX;
      var deltaY := clientY - mouseY;
      mouseX := clientX;
      mouseY := clientY;
      targetRotationY := targetRotationY + deltaX * RotationSpeed;
      targetRotationX := targetRotationX + deltaY * RotationSpeed;
      targetRotationX := Clamp(targetRotationX, -limit, limit);
    }

    /** A wheel event scales the camera position; the angles stay as they are. */
    method Wheel(deltaY: real)
      requires Valid()
      modifies this`cameraPosition
      ensures Valid()
      ensures cameraPosition == Scale(old(cameraPosition), ZoomFactor(deltaY))
    {
      cameraPosition := Scale(cameraPosition, if deltaY > 0.0 then 1.1 else 0.9);
    }

    /**
     * One animation frame: the clock advances and drives the point light,
     * each live angle eases toward its target, and the camera is put back
     * on its orbit, replacing whatever position a zoom had left.
     */
    method Tick()
      requires Valid()
      modifies this`time, this`pointIntensity, this`currentRotationX, this`currentRotationY, this`cameraPosition
      ensures Valid()
      ensures time == old(time) + TimeStep
      ensures pointIntensity == 1.5 + sin(time * 3.0) * 0.4
      ensures currentRotationX == Ease(old(currentRotationX), targetRotationX)
      ensures currentRotationY == Ease(old(currentRotationY), targetRotationY)
      ensures cameraPosition == Orbit(currentRotationX, currentRotationY)
    {
      time := time + TimeStep;
      pointIntensity := 1.5 + sin(time * 3.0) * 0.4;
      EaseStaysInside(currentRotationX, targetRotationX, -limit, limit);
      currentRotationX := currentRotationX + (targetRotationX - currentRotationX) * 0.05;
      currentRotationY := currentRotationY + (targetRotationY - currentRotationY) * 0.05;
      cameraPosition := Vec3(Radius * sin(currentRotationY) * cos(currentRotationX),
                             Radius * sin(currentRotationX) + CameraLift,
                             Radius * cos(currentRotationY) * cos(currentRotationX));
    }

    /**
     * A click is normalised against the canvas rectangle; when the ray hits
     * any part of the building, the main building takes a random colour.
     * `hits` are the intersected parts, nearest first.
     */
    method Click(clientX: real, clientY: real, left: real, top: real, width: real, height: real,
                 hits: seq<nat>, random: real)
      requires Valid()
      requires width > 0.0 && height > 0.0
      requires 0.0 <= random < 1.0
      modifies this`pointer, this`mainBuildingColor
      ensures Valid()
      ensures pointer == ToDevice(clientX - left, clientY - top, width, height)
      ensures hits == [] ==> mainBuildingColor == old(mainBuildingColor)
      ensures hits != [] ==> mainBuildingColor == RandomHex(random)
    {
      pointer := Device(((clientX - left) / width) * 2.0 - 1.0, -((clientY - top) / height) * 2.0 + 1.0);
      if |hits| > 0 {
        var randomColor := random * 0xffffff as real;
        mainBuildingColor := randomColor.Floor;
      }
    }

    /** 'l' or 'L' flips the light switch and sets both lights to match it. */
    method KeyPress(key: string)
      requires Valid()
      modifies this`lightsOn, this`directionalIntensity, this`pointIntensity
      ensures Valid()
      ensures !IsLightKey(key) ==>
                lightsOn == old(lightsOn)
                && directionalIntensity == old(directionalIntensity)
                && pointIntensity == old(pointIntensity)
      ensures IsLightKey(key) ==>
                lightsOn == !old(lightsOn)
                && directionalIntensity == DirectionalLevel(lightsOn)
                && pointIntensity == PointLevel(lightsOn)
    {
      if key == "l" || key == "L" {
        lightsOn := !lightsOn;
        directionalIntensity := if lightsOn then 0.8 else 0.2;
        pointIntensity := if lightsOn then 1.5 else 0.0;
      }
    }
  }

  /** Two presses of the light key restore the switch and the directional light. */
  method PressTwice(c: Controls, key: string)
    requires c.Valid()
    modifies c
    ensures c.Valid()
    ensures c.lightsOn == old(c.lightsOn)
    ensures c.directionalIntensity == old(c.directionalIntensity)
  {
    c.KeyPress(key);
    c.KeyPress(key);
  }

  /** A zoom followed by a frame leaves the camera where the frame alone would put it. */
  method ZoomThenFrame(c: Controls, deltaY: real)
    requires c.Valid()
    modifies c
    ensures c.Valid()
    ensures c.currentRotationX == Ease(old(c.currentRotationX), old(c.targetRotationX))
    ensures c.currentRotationY == Ease(old(c.currentRotationY), old(c.targetRotationY))
    ensures c.cameraPosition == c.Orbit(c.currentRotationX, c.currentRotationY)
  {
    c.Wheel(deltaY);
    c.Tick();
  }
}
