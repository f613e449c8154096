/**
 * Points in space, the pointer-to-device mapping and the small real
 * arithmetic shared by both controllers.
 */
module Geometry {

  function Min(a: real, b: real): real { if a <= b then a else b }
  function Max(a: real, b: real): real { if a >= b then a else b }
  function Abs(a: real): real { if a >= 0.0 then a else -a }

  /** The product of two non-negative reals is non-negative. */
  lemma MulNonneg(a: real, b: real)
    requires 0.0 <= a && 0.0 <= b
    ensures 0.0 <= a * b
  {
  }

  /** Multiplying by a non-negative real keeps an inequality. */
  lemma MulMono(a: real, b: real, c: real)
    requires a <= b && 0.0 <= c
    ensures a * c <= b * c
  {
    MulNonneg(b - a, c);
    assert b * c - a * c == (b - a) * c;
  }

  /** Scaling both factors of a square scales it by the squared factor. */
  lemma SquareScale(a: real, f: real)
    ensures (a * f) * (a * f) == (f * f) * (a * a)
  {
  }

  /** A point or direction in scene space (three.js `Vector3`). */
  datatype Vec3 = Vec3(x: real, y: real, z: real)

  /** Normalised device coordinates: both axes run over [-1, 1], y grows upward. */
  datatype Device = Device(x: real, y: real)

  /** A pixel position inside a viewport: origin top-left, y grows downward. */
  datatype Pixel = Pixel(x: real, y: real)

  const Origin: Vec3 := Vec3(0.0, 0.0, 0.0)

  /** The squared distance between two points. */
  function SqDist(a: Vec3, b: Vec3): real
  {
    (a.x - b.x) * (a.x - b.x) + (a.y - b.y) * (a.y - b.y) + (a.z - b.z) * (a.z - b.z)
  }

  /**
   * `multiplyScalar`: every component multiplied by `f`, so the squared
   * distance from the origin is multiplied by f^2.
   */
  function Scale(p: Vec3, f: real): (r: Vec3)
    ensures SqDist(r, Origin) == (f * f) * SqDist(p, Origin)
  {
    SquareScale(p.x, f);
    SquareScale(p.y, f);
    SquareScale(p.z, f);
    Vec3(p.x * f, p.y * f, p.z * f)
  }

  /** Scaling twice is scaling once by the product of the factors. */
  lemma ScaleTwice(p: Vec3, f: real, g: real)
    ensures Scale(Scale(p, f), g) == Scale(p, f * g)
  {
  }

  /**
   * A pointer position measured from the viewport's top-left corner,
   * normalised to device coordinates with the y axis flipped.
   */
  function ToDevice(px: real, py: real, width: real, height: real): (d: Device)
    requires width > 0.0 && height > 0.0
    ensures 0.0 <= px <= width && 0.0 <= py <= height ==>
              -1.0 <= d.x <= 1.0 && -1.0 <= d.y <= 1.0
    ensures px == width / 2.0 && py == height / 2.0 ==> d == Device(0.0, 0.0)
    ensures px == 0.0 ==> d.x == -1.0
    ensures px == width ==> d.x == 1.0
    ensures py == 0.0 ==> d.y == 1.0
    ensures py == height ==> d.y == -1.0
  {
    FractionBounds(px, width);
    FractionBounds(py, height);
    Device((px / width) * 2.0 - 1.0, -(py / height) * 2.0 + 1.0)
  }

  /** The pixel a device point stands for; the inverse of `ToDevice`. */
  function ToPixel(d: Device, width: real, height: real): (p: Pixel)
    requires width > 0.0 && height > 0.0
    ensures -1.0 <= d.x <= 1.0 && -1.0 <= d.y <= 1.0 ==>
              0.0 <= p.x <= width && 0.0 <= p.y <= height
  {
    var fx, fy := (d.x + 1.0) / 2.0, (1.0 - d.y) / 2.0;
    ProductBounds(fx, width);
    ProductBounds(fy, height);
    Pixel(fx * width, fy * height)
  }

  /** A part of a positive whole is a fraction in [0, 1]. */
  lemma FractionBounds(a: real, w: real)
    requires w > 0.0
    ensures 0.0 <= a <= w ==> 0.0 <= a / w <= 1.0
    ensures a / w * w == a
  {
    var t := a / w;
    assert t * w == a;
  }

  /** A fraction in [0, 1] of a positive whole lies between zero and the whole. */
  lemma ProductBounds(t: real, w: real)
    requires w > 0.0
    ensures 0.0 <= t <= 1.0 ==> 0.0 <= t * w <= w
  {
    if 0.0 <= t <= 1.0 {
      assert t * w >= 0.0;
      assert w - t * w == (1.0 - t) * w >= 0.0;
    }
  }

  /** Multiplying by a positive whole and dividing by it again cancel out. */
  lemma CancelProduct(t: real, w: real)
    requires w > 0.0
    ensures t * w / w == t
  {
  }

  /** Normalising loses nothing: the pixel comes back from its device point. */
  lemma PixelRoundTrip(px: real, py: real, width: real, height: real)
    requires width > 0.0 && height > 0.0
    ensures ToPixel(ToDevice(px, py, width, height), width, height) == Pixel(px, py)
  {
  }

  /** Every device point is reached, from exactly the pixel `ToPixel` names. */
  lemma DeviceRoundTrip(d: Device, width: real, height: real)
    requires width > 0.0 && height > 0.0
    ensures var p := ToPixel(d, width, height); ToDevice(p.x, p.y, width, height) == d
  {
    var p := ToPixel(d, width, height);
    CancelProduct((d.x + 1.0) / 2.0, width);
    CancelProduct((1.0 - d.y) / 2.0, height);
  }
}
