/** The animator itself: the state one mounted background owns (the logical
    surface size, the backing-buffer size, the pixel-ratio transform and the
    particle array) and the operations that change it: measure-and-reseed on
    every container resize, and one frame of the render loop. */
module AnimatedBackground {
  import opened Optional
  import opened Sizing
  import opened Particles

  /** The container's box as `getBoundingClientRect` reports it. */
  datatype Box = Box(width: Extent, height: Extent)

  /** The `density` prop when the caller leaves it undefined. */
  const DefaultDensity: real := 0.12
  /** A canvas element's backing buffer before anything sizes it. */
  const InitialBufferWidth: int := 300
  const InitialBufferHeight: int := 150

  class Animator {
    /** The props the effect captured; a change of `mode` or `density`
        restarts the effect, that is, builds a new Animator. */
    const mode: Mode
    const density: real
    const colors: Option<seq<string>>

    /** The logical surface size in CSS pixels (the closure's `width` and
        `height`). */
    var width: nat
    var height: nat
    /** The scale last passed to `setTransform`. */
    var pixelRatio: real
    /** `canvas.width` and `canvas.height`. */
    var bufferWidth: int
    var bufferHeight: int
    /** `particlesRef.current`. */
    var particles: array<Particle>

    /** The sizing part of the invariant. */
    ghost predicate SurfaceValid()
      reads this
    {
      bufferWidth >= 1 && bufferHeight >= 1 && pixelRatio <= MaxPixelRatio
    }

    /** Every particle belongs to the animator's mode and keeps that mode's
        between-frames invariant. */
    ghost predicate Valid()
      reads this, particles
    {
      && SurfaceValid()
      && forall i :: 0 <= i < particles.Length ==>
           WellFormed(mode, Palette(colors), width, height, particles[i])
    }

    /** Setting up the effect: the props with their defaults applied, a zero
        surface and an empty population, before the first `resize()`. */
    constructor (mode: Option<Mode>, density: Option<real>, colors: Option<seq<string>>)
      ensures Valid()
      ensures this.mode == (if mode.Some? then mode.value else Stars)
      ensures this.density == (if density.Some? then density.value else DefaultDensity)
      ensures this.colors == colors
      ensures width == 0 && height == 0 && pixelRatio == 1.0
      ensures bufferWidth == InitialBufferWidth && bufferHeight == InitialBufferHeight
      ensures fresh(particles) && particles.Length == 0
    {
      this.mode := if mode.Some? then mode.value else Stars;
      this.density := if density.Some? then density.value else DefaultDensity;
      this.colors := colors;
      width, height := 0, 0;
      pixelRatio := 1.0;
      bufferWidth, bufferHeight := InitialBufferWidth, InitialBufferHeight;
      particles := new Particle[0];
    }

    /** `resize`: with no parent element nothing changes; otherwise the
        surface is re-measured, the backing buffer and the transform follow
        the clamped pixel ratio, and the whole population is replaced by a
        fresh array sized for the new area (no old particle survives).
        `deviceRatio` is `window.devicePixelRatio`; `rng` supplies the
        `Math.random()` results the reseed draws. */
    method Resize(parent: Option<Box>, deviceRatio: real, rng: nat -> real)
      requires Valid() && UnitStream(rng)
      modifies this
      ensures Valid()
      ensures parent.None? ==> unchanged(this)
      ensures parent.Some? ==>
        && width == Measure(parent.value.width)
        && height == Measure(parent.value.height)
        && pixelRatio == PixelRatio(deviceRatio)
        && bufferWidth == BackingSize(width, pixelRatio)
        && bufferHeight == BackingSize(height, pixelRatio)
        && fresh(particles)
        && particles.Length == ParticleCount(width, height, density)
        && forall i :: 0 <= i < particles.Length ==>
             particles[i] == SeedParticle(mode, colors, width, height, rng, i)
    {
      if parent.None? {
        return;
      }
      var rect := parent.value;
      width := Measure(rect.width);
      height := Measure(rect.height);
      var dpr := PixelRatio(deviceRatio);
      bufferWidth := BackingSize(width, dpr);
      bufferHeight := BackingSize(height, dpr);
      pixelRatio := dpr;
      InitParticles(rng);
    }

    /** `initParticles`: `particlesRef.current` becomes a new array of
        `ParticleCount` particles, the `i`-th seeded from its own draws. */
    method InitParticles(rng: nat -> real)
      requires SurfaceValid() && UnitStream(rng)
      modifies this`particles
      ensures Valid()
      ensures fresh(particles)
      ensures particles.Length == ParticleCount(width, height, density)
      ensures forall i :: 0 <= i < particles.Length ==>
                particles[i] == SeedParticle(mode, colors, width, height, rng, i)
    {
      var count := ParticleCount(width, height, density);
      var seeded := new Particle[count];
      for i := 0 to count
        invariant forall j :: 0 <= j < i ==> seeded[j] == SeedParticle(mode, colors, width, height, rng, j)
      {
        seeded[i] := SeedParticle(mode, colors, width, height, rng, i);
      }
      particles := seeded;
    }

    /** `renderSnow`: every flake moves in place by one `SnowStep`, with
        `rng(i)` the `Math.random()` value flake `i` would draw on wrapping;
        the array keeps its length and the invariant, and the frame draws
        one dot per flake at its new position. */
    method StepSnow(rng: nat -> real) returns (dots: seq<Dot>)
      requires Valid() && mode == Snow && UnitStream(rng)
      modifies particles
      ensures Valid()
      ensures forall i :: 0 <= i < particles.Length ==>
                particles[i] == SnowStep(old(particles[i]), width, height, rng(i))
      ensures |dots| == particles.Length
      ensures forall i :: 0 <= i < |dots| ==> dots[i] == SnowDot(particles[i])
    {
      dots := [];
      for i := 0 to particles.Length
        invariant forall j :: 0 <= j < particles.Length ==>
                    WellFormed(mode, Palette(colors), width, height, particles[j])
        invariant forall j :: 0 <= j < i ==>
                    particles[j] == SnowStep(old(particles[j]), width, height, rng(j))
        invariant forall j :: i <= j < particles.Length ==> particles[j] == old(particles[j])
        invariant |dots| == i
        invariant forall j :: 0 <= j < i ==> dots[j] == SnowDot(particles[j])
      {
        var p := SnowStep(particles[i], width, height, rng(i));
        particles[i] := p;
        dots := dots + [SnowDot(p)];
      }
    }

    /** `renderStars`: every star advances its phase in place by one
        `StarStep`; each is drawn in white with alpha `Alpha(sin(phase))`,
        which stays within [0.4, 1]. */
    method StepStars(sin: real -> real) returns (dots: seq<Dot>)
      requires Valid() && mode == Stars && SineLike(sin)
      modifies particles
      ensures Valid()
      ensures forall i :: 0 <= i < particles.Length ==> particles[i] == StarStep(old(particles[i]))
      ensures |dots| == particles.Length
      ensures forall i :: 0 <= i < |dots| ==>
                dots[i] == StarDot(particles[i], sin(particles[i].phase))
                && 0.4 <= dots[i].alpha <= 1.0
    {
      dots := [];
      for i := 0 to particles.Length
        invariant forall j :: 0 <= j < particles.Length ==>
                    WellFormed(mode, Palette(colors), width, height, particles[j])
        invariant forall j :: 0 <= j < i ==> particles[j] == StarStep(old(particles[j]))
        invariant forall j :: i <= j < particles.Length ==> particles[j] == old(particles[j])
        invariant |dots| == i
        invariant forall j :: 0 <= j < i ==>
                    dots[j] == StarDot(particles[j], sin(particles[j].phase))
                    && 0.4 <= dots[j].alpha <= 1.0
      {
        var p := StarStep(particles[i]);
        particles[i] := p;
        dots := dots + [StarDot(p, sin(p.phase))];
      }
    }

    /** `loop`: one frame runs the snow routine in snow mode and the star
        routine otherwise. */
    method Frame(sin: real -> real, rng: nat -> real) returns (dots: seq<Dot>)
      requires Valid() && SineLike(sin) && UnitStream(rng)
      modifies particles
      ensures Valid()
      ensures |dots| == particles.Length
      ensures mode == Snow ==> forall i :: 0 <= i < particles.Length ==>
                particles[i] == SnowStep(old(particles[i]), width, height, rng(i))
      ensures mode == Stars ==> forall i :: 0 <= i < particles.Length ==>
                particles[i] == StarStep(old(particles[i]))
    {
      if mode == Snow {
        dots := StepSnow(rng);
      } else {
        dots := StepStars(sin);
      }
    }
  }
}
