/** The head movement that drives the melody (AudioEngine.tsx:655-679).  The
    source measures `movement = Math.sqrt(dx*dx + dy*dy)` and derives
    `intensity = Math.min(1.0, movement / 40)`; this model keeps the squared
    movement `d2` and decides every comparison on intensity exactly, by
    squaring both sides (the square root is monotone on non-negative reals). */
module Motion {

  datatype Motion = Motion(d2: real, direction: int, vertical: int)

  /** `direction = dx > 0 ? 1 : -1`, `vertical = dy > 0 ? 1 : -1`. */
  predicate ValidMotion(m: Motion)
  {
    m.d2 >= 0.0 && (m.direction == 1 || m.direction == -1) && (m.vertical == 1 || m.vertical == -1)
  }

  /** The motion of a nose displacement (dx, dy). */
  function FromDelta(dx: real, dy: real): (m: Motion)
    ensures ValidMotion(m)
    ensures m.direction > 0 <==> dx > 0.0
    ensures m.vertical > 0 <==> dy > 0.0
  {
    Motion(dx * dx + dy * dy, if dx > 0.0 then 1 else -1, if dy > 0.0 then 1 else -1)
  }

  /** `intensity > t`: for t < 1 this is `sqrt(d2) / 40 > t`, that is `d2 > (40 t)^2`. */
  predicate IntensityExceeds(d2: real, t: real)
    requires 0.0 <= t < 1.0
    ensures IntensityExceeds(d2, t) ==> d2 > 0.0
    ensures d2 >= 1600.0 ==> IntensityExceeds(d2, t)
  {
    assert t * t <= t * 1.0;
    d2 > 1600.0 * t * t
  }

  /** `Math.random() < intensity * 0.4` for a draw `u >= 0`: at full intensity
      (d2 >= 1600) the bound is 0.4, below it the bound is sqrt(d2) / 100. */
  predicate EvolveDraw(u: real, d2: real)
    ensures EvolveDraw(u, d2) ==> u < 0.4
    ensures 0.0 <= u && d2 <= 0.0 ==> !EvolveDraw(u, d2)
  {
    if d2 >= 1600.0 then u < 0.4 else 10000.0 * u * u < d2
  }

  /** `Math.floor(intensity * 10)` = min(10, floor(sqrt(d2) / 4)): the largest
      t <= 10 with 16 t^2 <= d2 (counted down from 10). */
  function IntensityTenths(d2: real): (t: nat)
    ensures t <= 10
  {
    TenthsFrom(d2, 10)
  }

  function TenthsFrom(d2: real, k: nat): (t: nat)
    ensures t <= k
    ensures t == 0 || 16.0 * (t * t) as real <= d2
    ensures t == k || d2 < 16.0 * ((t + 1) * (t + 1)) as real
    decreases k
  {
    if k == 0 || 16.0 * (k * k) as real <= d2 then k else TenthsFrom(d2, k - 1)
  }

  /** Stronger movement never yields fewer tenths of intensity. */
  lemma TenthsMonotone(a: real, b: real)
    requires a <= b
    ensures IntensityTenths(a) <= IntensityTenths(b)
  {
  }
}
