/** The particle records of the animator, how a fresh population is drawn,
    and what one frame does to a single particle. */
module Particles {
  import opened Optional

  /** The visual style, fixed for the lifetime of one animator. */
  datatype Mode = Stars | Snow

  /** One particle. A star twinkles in place; a flake falls and drifts. */
  datatype Particle =
    | Star(x: real, y: real, r: real, twinkle: real, phase: real)
    | Flake(x: real, y: real, r: real, vy: real, vx: real, opacity: real, color: string)

  /** One filled circle as a frame draws it: where, how large, with which
      global alpha and which fill style. */
  datatype Dot = Dot(x: real, y: real, r: real, alpha: real, fill: string)

  const DefaultColor: string := "#ffffff"
  const StarFill: string := "#fff"
  /** The double nearest to pi, as `Math.PI`. */
  const Pi: real := 3.141592653589793
  /** Horizontal slack past either edge before a flake wraps around. */
  const Margin: real := 5.0
  /** How many `Math.random()` calls seeding one particle makes. */
  const SnowDraws: nat := 7
  const StarDraws: nat := 5

  /** A stand-in for successive `Math.random()` results: every value in [0,1). */
  ghost predicate UnitStream(rng: nat -> real)
  {
    forall n: nat :: 0.0 <= rng(n) < 1.0
  }

  /** A stand-in for `Math.sin`: every value in [-1,1]. */
  ghost predicate SineLike(sin: real -> real)
  {
    forall t: real :: -1.0 <= sin(t) <= 1.0
  }

  /** `v` could have been drawn by `random(lo, hi)` with `lo <= hi`: it lies in
      the half-open range, or equals `lo` when the range is empty. */
  predicate Drawn(v: real, lo: real, hi: real)
  {
    lo <= v && (v < hi || v == lo)
  }

  /** A positive span scaled by a value in [0,1) stays inside [0, span). */
  lemma ShrinkPositive(u: real, d: real)
    requires 0.0 <= u < 1.0 && d > 0.0
    ensures 0.0 <= u * d < d
  {
  }

  /** `Math.random() * d`, with `u` the value `Math.random()` returned: a
      point of the half-open span [0, d) when `d` is positive. */
  function Scale(u: real, d: real): (s: real)
    requires 0.0 <= u < 1.0
    ensures d > 0.0 ==> 0.0 <= s < d
    ensures d == 0.0 ==> s == 0.0
  {
    if d > 0.0 then ShrinkPositive(u, d); u * d else u * d
  }

  /** `random(min, max) = Math.random() * (max - min) + min`, with `u` the
      value `Math.random()` returned. */
  function Random(u: real, lo: real, hi: real): (v: real)
    requires 0.0 <= u < 1.0
    ensures lo <= hi ==> Drawn(v, lo, hi)
  {
    Scale(u, hi - lo) + lo
  }

  /** `colors && colors.length > 0 ? colors : ['#ffffff']`. */
  function Palette(colors: Option<seq<string>>): (palette: seq<string>)
    ensures |palette| > 0
    ensures colors.None? || colors.value == [] ==> palette == [DefaultColor]
    ensures colors.Some? && colors.value != [] ==> palette == colors.value
  {
    if colors.Some? && |colors.value| > 0 then colors.value else [DefaultColor]
  }

  /** `Math.floor(Math.random() * palette.length)`: always a valid index. */
  function PaletteIndex(u: real, n: nat): (k: nat)
    requires 0.0 <= u < 1.0 && n > 0
    ensures k < n
  {
    Scale(u, n as real).Floor
  }

  /** `p.color || '#ffffff'`: an empty color falls back to white. */
  function FillColor(c: string): (f: string)
    ensures f != ""
    ensures c == "" ==> f == DefaultColor
    ensures c != "" ==> f == c
  {
    if c == "" then DefaultColor else c
  }

  /** `0.4 + 0.6 * (0.5 + 0.5 * s)` with `s = Math.sin(phase)`: an opacity
      that spans [0.4, 1] exactly as `s` spans [-1, 1]. */
  function Alpha(s: real): (a: real)
    ensures -1.0 <= s <= 1.0 ==> 0.4 <= a <= 1.0
    ensures s == 1.0 ==> a == 1.0
    ensures s == -1.0 ==> a == 0.4
  {
    0.4 + 0.6 * (0.5 + 0.5 * s)
  }

  // ---------------------------------------------------------------------
  // What a particle may look like

  /** The fields a flake gets once at seeding and keeps for ever. */
  predicate FlakeFixed(p: Particle, palette: seq<string>)
  {
    && p.Flake?
    && Drawn(p.r, 0.8, 2.2)
    && Drawn(p.vy, 0.3, 1.2)
    && Drawn(p.vx, -0.3, 0.3)
    && Drawn(p.opacity, 0.4, 0.9)
    && p.color in palette
  }

  /** Where a flake may be between frames: within the horizontal slack, and
      with its top edge not below the visible area. */
  predicate FlakeInView(p: Particle, width: nat, height: nat)
    requires p.Flake?
  {
    -Margin <= p.x <= width as real + Margin && p.y - p.r <= height as real
  }

  /** A star: fixed size, twinkle rate and position inside the surface. */
  predicate StarFixed(p: Particle, width: nat, height: nat)
  {
    && p.Star?
    && Drawn(p.x, 0.0, width as real)
    && Drawn(p.y, 0.0, height as real)
    && Drawn(p.r, 0.5, 1.8)
    && Drawn(p.twinkle, 0.005, 0.02)
    && p.phase >= 0.0
  }

  /** The invariant every particle of a `mode` animator keeps between frames. */
  predicate WellFormed(mode: Mode, palette: seq<string>, width: nat, height: nat, p: Particle)
  {
    match mode
    case Snow => FlakeFixed(p, palette) && FlakeInView(p, width, height)
    case Stars => StarFixed(p, width, height)
  }

  // ---------------------------------------------------------------------
  // Seeding

  /** The `i`-th flake of a fresh snow population; it consumes
      `rng(7i) .. rng(7i + 6)` in the order `Math.random()` is called for it:
      color, x, y, r, vy, vx, opacity. */
  function SeedFlake(colors: Option<seq<string>>, width: nat, height: nat, rng: nat -> real, i: nat): (p: Particle)
    requires UnitStream(rng)
    ensures FlakeFixed(p, Palette(colors))
    ensures Drawn(p.x, 0.0, width as real) && Drawn(p.y, -(height as real), height as real)
    ensures FlakeInView(p, width, height)
    ensures colors.None? || colors.value == [] ==> p.color == DefaultColor
  {
    var b := i * SnowDraws;
    var palette := Palette(colors);
    var color := palette[PaletteIndex(rng(b), |palette|)];
    Flake(
      x := Random(rng(b + 1), 0.0, width as real),
      y := Random(rng(b + 2), -(height as real), height as real),
      r := Random(rng(b + 3), 0.8, 2.2),
      vy := Random(rng(b + 4), 0.3, 1.2),
      vx := Random(rng(b + 5), -0.3, 0.3),
      opacity := Random(rng(b + 6), 0.4, 0.9),
      color := color)
  }

  /** The `i`-th star of a fresh population; it consumes
      `rng(5i) .. rng(5i + 4)`: x, y, r, twinkle, phase. */
  function SeedStar(width: nat, height: nat, rng: nat -> real, i: nat): (p: Particle)
    requires UnitStream(rng)
    ensures StarFixed(p, width, height)
    ensures Drawn(p.phase, 0.0, 2.0 * Pi)
  {
    var b := i * StarDraws;
    Star(
      x := Random(rng(b), 0.0, width as real),
      y := Random(rng(b + 1), 0.0, height as real),
      r := Random(rng(b + 2), 0.5, 1.8),
      twinkle := Random(rng(b + 3), 0.005, 0.02),
      phase := Random(rng(b + 4), 0.0, Pi * 2.0))
  }

  /** The callback of `new Array(count).fill(0).map(...)`: a flake in snow
      mode, a star otherwise. Every seeded particle already satisfies the
      between-frames invariant. */
  function SeedParticle(mode: Mode, colors: Option<seq<string>>, width: nat, height: nat, rng: nat -> real, i: nat): (p: Particle)
    requires UnitStream(rng)
    ensures WellFormed(mode, Palette(colors), width, height, p)
    ensures mode == Snow <==> p.Flake?
  {
    if mode == Snow then SeedFlake(colors, width, height, rng, i) else SeedStar(width, height, rng, i)
  }

  // ---------------------------------------------------------------------
  // One frame, one particle

  /** A flake wraps to the top when, after falling, its top edge is below
      the visible area. */
  predicate Wrapped(p: Particle, height: nat)
    requires p.Flake?
  {
    p.y + p.vy - p.r > height as real
  }

  /** The horizontal wraps: the left-edge test runs first, sending a flake
      more than Margin past the left edge to the right slack; the right-edge
      test then runs on that result, sending one more than Margin past the
      right edge to the left slack. */
  function WrapX(x: real, width: nat): (x': real)
    ensures -Margin <= x' <= width as real + Margin
    ensures x < -Margin ==> x' == width as real + Margin
    ensures x > width as real + Margin ==> x' == -Margin
    ensures -Margin <= x <= width as real + Margin ==> x' == x
  {
    var x1 := if x < -Margin then width as real + Margin else x;
    if x1 > width as real + Margin then -Margin else x1
  }

  /** The body of the `renderSnow` loop for one flake, with `u` the value
      `Math.random()` returns if the flake wraps. Only `x` and `y` change; a
      flake that did not wrap has fallen by `vy`; a wrapped one restarts
      just above the top at a fresh column; the horizontal wraps send a
      flake that drifted past the slack to the opposite side. */
  function SnowStep(p: Particle, width: nat, height: nat, u: real): (q: Particle)
    requires p.Flake?
    requires 0.0 <= u < 1.0
    ensures q.Flake?
    ensures q.r == p.r && q.vy == p.vy && q.vx == p.vx && q.opacity == p.opacity && q.color == p.color
    ensures p.r >= 0.0 ==> FlakeInView(q, width, height)
    ensures Wrapped(p, height) ==> q.y == -p.r && Drawn(q.x, 0.0, width as real)
    ensures !Wrapped(p, height) ==> q.y == p.y + p.vy
    ensures !Wrapped(p, height) && p.vy > 0.0 ==> q.y > p.y
    ensures !Wrapped(p, height) && p.x + p.vx < -Margin ==> q.x == width as real + Margin
    ensures !Wrapped(p, height) && p.x + p.vx > width as real + Margin ==> q.x == -Margin
    ensures !Wrapped(p, height) && -Margin <= p.x + p.vx <= width as real + Margin ==> q.x == p.x + p.vx
  {
    if p.y + p.vy - p.r > height as real then
      Flake(WrapX(Scale(u, width as real), width), -p.r, p.r, p.vy, p.vx, p.opacity, p.color)
    else
      Flake(WrapX(p.x + p.vx, width), p.y + p.vy, p.r, p.vy, p.vx, p.opacity, p.color)
  }

  /** The body of the `renderStars` loop for one star: only the phase
      moves, by the star's twinkle rate. */
  function StarStep(p: Particle): (q: Particle)
    requires p.Star?
    ensures q.Star?
    ensures q.x == p.x && q.y == p.y && q.r == p.r && q.twinkle == p.twinkle
    ensures q.phase - p.phase == p.twinkle
  {
    Star(p.x, p.y, p.r, p.twinkle, p.phase + p.twinkle)
  }

  /** What `renderSnow` draws for a flake after moving it. */
  function SnowDot(p: Particle): (d: Dot)
    requires p.Flake?
    ensures d.x == p.x && d.y == p.y && d.r == p.r && d.alpha == p.opacity
    ensures d.fill != "" && (p.color != "" ==> d.fill == p.color)
    ensures p.color == "" ==> d.fill == DefaultColor
  {
    Dot(p.x, p.y, p.r, p.opacity, FillColor(p.color))
  }

  /** What `renderStars` draws for a star after advancing it, with `s` the
      sine of its new phase. */
  function StarDot(p: Particle, s: real): (d: Dot)
    requires p.Star?
    ensures d.x == p.x && d.y == p.y && d.r == p.r && d.fill == StarFill
    ensures -1.0 <= s <= 1.0 ==> 0.4 <= d.alpha <= 1.0
  {
    Dot(p.x, p.y, p.r, Alpha(s), StarFill)
  }

  // ---------------------------------------------------------------------
  // Many frames

  /** A flake after one snow frame per value of `us` (the wrap draws). */
  function SnowFrames(p: Particle, width: nat, height: nat, us: seq<real>): (q: Particle)
    requires p.Flake?
    requires forall k :: 0 <= k < |us| ==> 0.0 <= us[k] < 1.0
    ensures q.Flake?
    decreases |us|
  {
    if us == [] then p else SnowFrames(SnowStep(p, width, height, us[0]), width, height, us[1..])
  }

  /** Any number of snow frames keep a flake's seeded fields and keep it in
      view: no flake ever escapes or changes size, speed, opacity or color. */
  lemma {:induction false} SnowFramesKeepFlake(p: Particle, palette: seq<string>, width: nat, height: nat, us: seq<real>)
    requires FlakeFixed(p, palette) && FlakeInView(p, width, height)
    requires forall k :: 0 <= k < |us| ==> 0.0 <= us[k] < 1.0
    ensures FlakeFixed(SnowFrames(p, width, height, us), palette)
    ensures FlakeInView(SnowFrames(p, width, height, us), width, height)
    ensures SnowFrames(p, width, height, us).(x := p.x, y := p.y) == p
    decreases |us|
  {
    if us != [] {
      var q := SnowStep(p, width, height, us[0]);
      SnowFramesKeepFlake(q, palette, width, height, us[1..]);
    }
  }

  /** A star after `n` star frames. */
  function StarFrames(p: Particle, n: nat): (q: Particle)
    requires p.Star?
    ensures q.Star?
  {
    if n == 0 then p else StarStep(StarFrames(p, n - 1))
  }

  /** After `n` frames a star sits where it was seeded, and its phase has
      advanced by exactly `n` twinkle increments. */
  lemma {:induction false} StarFramesAdvancePhase(p: Particle, n: nat)
    requires p.Star?
    ensures StarFrames(p, n) == p.(phase := p.phase + n as real * p.twinkle)
  {
    if n > 0 {
      StarFramesAdvancePhase(p, n - 1);
      assert (n - 1) as real * p.twinkle + p.twinkle == n as real * p.twinkle;
    }
  }

  /** Star frames keep the star invariant, so a star never leaves the
      surface and its alpha stays within [0.4, 1] frame after frame. */
  lemma {:induction false} StarFramesKeepStar(p: Particle, width: nat, height: nat, n: nat)
    requires StarFixed(p, width, height)
    ensures StarFixed(StarFrames(p, n), width, height)
  {
    if n > 0 {
      StarFramesKeepStar(p, width, height, n - 1);
    }
  }
}
