/** The collaborators the simulation core consumes but does not implement:
    trigonometry, the pixel-mask overlap test, the sprite rectangle test and
    the optional crash sound.  They are handed to the core as one `Env`
    value, so no property of them is assumed anywhere in the model. */
module Environment {

  datatype Option<T> = None | Some(value: T)

  /** A pixel coordinate (waypoints and mask overlap points are integer pairs). */
  type Point = (int, int)

  /** The two car bitmaps; a car's collision mask is built from its bitmap. */
  datatype Sprite = RedCar | GreenCar

  /** The two static track masks. */
  datatype Mask = TrackBorder | FinishLine

  datatype Env = Env(
    // sine and cosine of an angle given in degrees
    sinDeg: real -> real,
    cosDeg: real -> real,
    // the arc tangent of a ratio, converted to degrees
    atanDeg: real -> real,
    // overlap of a track mask with a car's mask placed at an integer offset:
    // None, or the first overlapping pixel in mask coordinates
    overlap: (Mask, Sprite, int, int) -> Option<Point>,
    // whether the computer car's bounding rectangle, with its top-left corner
    // at the given position, contains the given point
    rectContains: (real, real, Point) -> bool,
    // whether the crash sound could be loaded at start-up
    soundLoaded: bool)

  function Min(a: real, b: real): real { if b < a then b else a }

  function Max(a: real, b: real): real { if b > a then b else a }

  function Abs(a: real): real { if a < 0.0 then -a else a }

  /** Conversion of a float to an integer by truncation toward zero, as the
      mask offset computation does (main.py:101). */
  function Trunc(r: real): (n: int)
    ensures 0.0 <= r ==> n as real <= r < n as real + 1.0
    ensures r < 0.0 ==> n as real - 1.0 < r <= n as real
  {
    if r >= 0.0 then r.Floor else -((-r).Floor)
  }

  /** Truncation differs from flooring below zero. */
  lemma TruncIsNotFloor()
    ensures Trunc(-0.5) == 0 && (-0.5).Floor == -1
  {
  }
}
