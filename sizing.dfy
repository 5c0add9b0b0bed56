/** The arithmetic of the animator's measure step: how the container box is
    rounded, how the device pixel ratio is clamped, how large the backing
    buffer is, and how many particles the visible area receives. */
module Sizing {

  /** A box dimension as the layout reports it: never negative. */
  type Extent = v: real | v >= 0.0

  /** The pixel ratio is never taken above this (performance cap). */
  const MaxPixelRatio: real := 2.0

  /** The population never drops below this many particles. */
  const MinParticles: nat := 10

  /** Density is expressed in particles per this many square CSS pixels. */
  const AreaUnit: real := 10000.0

  /** `Math.ceil` of a measured box dimension: the least whole pixel count
      that covers it. */
  function Measure(v: Extent): (n: nat)
    ensures n as real - 1.0 < v <= n as real
  {
    if v.Floor as real == v then v.Floor else v.Floor + 1
  }

  /** `Math.min(devicePixelRatio || 1, 2)`: a zero (falsy) ratio counts as 1,
      and the result is capped at MaxPixelRatio. */
  function PixelRatio(deviceRatio: real): (s: real)
    ensures s <= MaxPixelRatio
    ensures deviceRatio > 0.0 ==> s > 0.0
    ensures deviceRatio == 0.0 ==> s == 1.0
    ensures deviceRatio != 0.0 && deviceRatio <= MaxPixelRatio ==> s == deviceRatio
    ensures deviceRatio > MaxPixelRatio ==> s == MaxPixelRatio
  {
    var ratio := if deviceRatio != 0.0 then deviceRatio else 1.0;
    if ratio < MaxPixelRatio then ratio else MaxPixelRatio
  }

  /** `Math.max(1, Math.floor(dim * scale))`: the backing-buffer size along
      one axis. It is at least 1, is the whole part of `dim * scale` whenever
      that is at least 1, and is 1 whenever `dim * scale` is below 2. */
  function BackingSize(dim: nat, scale: real): (n: int)
    ensures n >= 1
    ensures dim as real * scale >= 1.0 ==>
              n as real <= dim as real * scale < n as real + 1.0
    ensures dim as real * scale < 2.0 ==> n == 1
  {
    var f := (dim as real * scale).Floor;
    if f > 1 then f else 1
  }

  /** The unclamped population `(area / 10000) * density`. */
  function Target(width: nat, height: nat, density: real): real
  {
    (width * height) as real / AreaUnit * density
  }

  /** `Math.max(10, Math.floor((area / 10000) * density))`. The result is
      never below MinParticles, is exactly MinParticles when the density is
      not positive or the area is empty, and otherwise is the whole part of
      the target whenever that reaches MinParticles. */
  function ParticleCount(width: nat, height: nat, density: real): (n: nat)
    ensures n >= MinParticles
    ensures density <= 0.0 || width * height == 0 ==> n == MinParticles
    ensures Target(width, height, density) >= MinParticles as real ==>
              n as real <= Target(width, height, density) < n as real + 1.0
    ensures Target(width, height, density) < MinParticles as real + 1.0 ==>
              n == MinParticles
  {
    var q := Target(width, height, density);
    assert density <= 0.0 ==> q <= 0.0 by {
      var area := (width * height) as real / AreaUnit;
      assert area >= 0.0;
      assert q == area * density;
    }
    var f := q.Floor;
    if f > MinParticles then f else MinParticles
  }

  /** A larger container never receives fewer particles: the population
      grows with the visible area, whatever the density. */
  lemma ParticleCountMonotone(width: nat, height: nat, width': nat, height': nat, density: real)
    requires width <= width' && height <= height'
    ensures ParticleCount(width, height, density) <= ParticleCount(width', height', density)
  {
    if density <= 0.0 {
      return;
    }
    var area, area' := width * height, width' * height';
    assert area <= area' by {
      assert width * height <= width' * height;
      assert width' * height <= width' * height';
    }
    var q, q' := area as real / AreaUnit, area' as real / AreaUnit;
    assert q * density <= q' * density by {
      assert (q' - q) * density >= 0.0;
    }
    assert Target(width, height, density) <= Target(width', height', density);
  }

  /** The About section mounts the animator with density 0.38; on a
      1000 by 1000 container that seeds 38 flakes. */
  lemma AboutSectionPopulation()
    ensures ParticleCount(1000, 1000, 0.38) == 38
  {
  }
}
