# Animated particle background, modelled in Dafny

This project models the canvas particle animator of the portfolio site
(`AnimatedBackground.tsx`). A mounted animator owns a drawing surface and a
population of particles. It is configured by a `mode` (`stars` or `snow`), a
`density` (particles per 10,000 square CSS pixels, default 0.12) and, for
snow, an optional colour palette. On every container resize it re-measures
the container, sizes the backing buffer for the device pixel ratio (capped at
2), and reseeds the whole population. Each display frame then advances every
particle in place. Stars only twinkle. Snowflakes fall, drift and wrap around
the edges.

The model has four modules:

- `Optional` (`optional.dfy`): the `Option` type for props that may be
  undefined and for the parent element, which may be missing.
- `Sizing` (`sizing.dfy`): the pure arithmetic of the measure step. It covers
  the ceiling-rounded box size, the clamped pixel ratio, the backing-buffer
  size and the particle count.
- `Particles` (`particles.dfy`): the particle record as a datatype with a
  `Star` and a `Flake` variant. It holds the `random(min, max)` helper, the
  seeding of the `i`-th particle, and the body of each render loop for one
  particle (`SnowStep`, `StarStep`). It also holds the dot each frame draws
  and lemmas about many frames in a row.
- `AnimatedBackground` (`animator.dfy`): the class `Animator`. Its fields are
  the closure's `width` and `height`, the canvas buffer size, the transform
  scale and `particlesRef.current` as an `array<Particle>`. Its methods are
  `Resize`, `InitParticles`, `StepSnow`, `StepStars` and `Frame`. `Valid()`
  says that every particle belongs to the animator's mode and keeps that
  mode's between-frame invariant. Every method preserves it.

Inputs from the browser are parameters:

- `Math.random()` is a stream `rng: nat -> real` whose every value lies in
  [0,1). Seeding snow particle `i` reads `rng(7i)` to `rng(7i+6)` in the
  source's call order: colour, x, y, r, vy, vx, opacity. Seeding star `i`
  reads `rng(5i)` to `rng(5i+4)`: x, y, r, twinkle, phase. In a snow frame,
  `rng(i)` is the value flake `i` draws if it wraps.
- `Math.sin` is a function `sin: real -> real` whose every value lies in
  [-1,1].
- The container box is a `Box` of two non-negative reals, and
  `window.devicePixelRatio` is a real.

Coordinates are `real`s. Measured sizes are `nat`s, because they are
ceilings of non-negative lengths.

Three details of the code are modelled exactly as written, although a
reading of the component's purpose might suggest otherwise:

- The backing buffer is `max(1, floor(dim * ratio))`. It uses the floor, not
  the ceiling.
- A flake wraps to the top when `y - r > height`, that is, when its top edge
  (not its bottom edge) has passed the bottom of the surface.
- Seeded positions lie in half-open ranges such as [0, width). They are not
  closed ranges.

## Model

| member | source | states |
|---|---|---|
| `Sizing.Measure` | nexus-portals-showcase-main/src/components/AnimatedBackground.tsx:30-31 | the measured size is the least whole number of pixels covering the box |
| `Sizing.PixelRatio` | nexus-portals-showcase-main/src/components/AnimatedBackground.tsx:32 | the ratio used never exceeds 2; a zero (falsy) device ratio becomes 1; ratios up to 2 pass through; larger ones are capped at 2 |
| `Sizing.BackingSize` | nexus-portals-showcase-main/src/components/AnimatedBackground.tsx:33-34 | each backing-buffer dimension is at least 1, is the whole part of `dim * ratio` once that reaches 1, and is 1 below 2 |
| `Sizing.ParticleCount` | nexus-portals-showcase-main/src/components/AnimatedBackground.tsx:44-45 | the population is at least 10; exactly 10 for a non-positive density or an empty area; otherwise the whole part of `area / 10000 * density` once that reaches 10 |
| `Sizing.ParticleCountMonotone` | nexus-portals-showcase-main/src/components/AnimatedBackground.tsx:44-45 | for any density, a container that is no smaller in either dimension never gets fewer particles |
| `Sizing.AboutSectionPopulation` | nexus-portals-showcase-main/src/components/AboutSection.tsx:121-125 | the About section's density 0.38 on a 1000 by 1000 container seeds 38 particles |
| `Particles.Scale` | nexus-portals-showcase-main/src/components/AnimatedBackground.tsx:92 | `Math.random() * d` lies in [0, d) for a positive `d` and is 0 for `d = 0` |
| `Particles.Random` | nexus-portals-showcase-main/src/components/AnimatedBackground.tsx:41 | `random(lo, hi)` lies in the half-open range [lo, hi), or equals `lo` when the range is empty |
| `Particles.Palette` | nexus-portals-showcase-main/src/components/AnimatedBackground.tsx:48 | the palette is never empty; it is `['#ffffff']` when colours are absent or empty, and the given colours otherwise |
| `Particles.PaletteIndex` | nexus-portals-showcase-main/src/components/AnimatedBackground.tsx:49 | the drawn colour index is always a valid index into the palette |
| `Particles.SeedFlake` | nexus-portals-showcase-main/src/components/AnimatedBackground.tsx:47-58 | a seeded flake has x in [0,width), y in [-height,height), r in [0.8,2.2), vy in [0.3,1.2), vx in [-0.3,0.3), opacity in [0.4,0.9), a colour from the palette (white when no colours are given), and already satisfies the between-frame bounds |
| `Particles.SeedStar` | nexus-portals-showcase-main/src/components/AnimatedBackground.tsx:60-67 | a seeded star has x in [0,width), y in [0,height), r in [0.5,1.8), twinkle in [0.005,0.02) and phase in [0, 2*pi) |
| `Particles.SeedParticle` | nexus-portals-showcase-main/src/components/AnimatedBackground.tsx:46-68 | a particle is a flake exactly in snow mode, and every seeded particle satisfies its mode's invariant |
| `Particles.WrapX` | nexus-portals-showcase-main/src/components/AnimatedBackground.tsx:94-95 | after the two horizontal wraps x lies in [-5, width+5]; left of -5 goes to width+5, right of width+5 goes to -5, anything else is kept |
| `Particles.SnowStep` | nexus-portals-showcase-main/src/components/AnimatedBackground.tsx:87-95 | one snow frame changes only x and y; afterwards -5 <= x <= width+5 and y - r <= height; a flake whose top edge passed the bottom gets y = -r and a new x in [0,width); otherwise y grew by vy (strictly, for positive vy) and x follows the horizontal wraps |
| `Particles.StarStep` | nexus-portals-showcase-main/src/components/AnimatedBackground.tsx:74-75 | one star frame leaves x, y, r and twinkle alone and advances phase by exactly twinkle |
| `Particles.Alpha` | nexus-portals-showcase-main/src/components/AnimatedBackground.tsx:76 | for a sine value in [-1,1] the alpha lies in [0.4, 1.0], reaching 1.0 at 1 and 0.4 at -1 |
| `Particles.FillColor` | nexus-portals-showcase-main/src/components/AnimatedBackground.tsx:97 | the fill style is the flake's own colour when that is non-empty and `'#ffffff'` when it is empty, so it is never empty |
| `Particles.SnowDot` | nexus-portals-showcase-main/src/components/AnimatedBackground.tsx:96-100 | a flake is drawn at its position and radius with its own opacity, filled with its colour, or with `'#ffffff'` when its colour is empty |
| `Particles.StarDot` | nexus-portals-showcase-main/src/components/AnimatedBackground.tsx:73-80 | a star is drawn in white at its position and radius with alpha in [0.4, 1.0] |
| `Particles.SnowFramesKeepFlake` | nexus-portals-showcase-main/src/components/AnimatedBackground.tsx:87-95 | after any number of snow frames a flake keeps its r, vy, vx, opacity and colour, and stays within -5 <= x <= width+5 and y - r <= height |
| `Particles.StarFramesAdvancePhase` | nexus-portals-showcase-main/src/components/AnimatedBackground.tsx:74-75 | after n star frames a star is where it was, with phase advanced by exactly n * twinkle |
| `Particles.StarFramesKeepStar` | nexus-portals-showcase-main/src/components/AnimatedBackground.tsx:74-75 | any number of star frames keep a star's seeded position, radius and twinkle ranges |
| `AnimatedBackground.Animator.constructor` | nexus-portals-showcase-main/src/components/AnimatedBackground.tsx:12-24 | mode defaults to stars and density to 0.12; the surface starts at 0 by 0 with an empty population |
| `AnimatedBackground.Animator.Resize` | nexus-portals-showcase-main/src/components/AnimatedBackground.tsx:26-39 | with no parent nothing changes; otherwise width, height, pixel ratio and buffer size follow the sizing rules, and the population is a fresh array of `ParticleCount` newly seeded particles, so no old particle survives |
| `AnimatedBackground.Animator.InitParticles` | nexus-portals-showcase-main/src/components/AnimatedBackground.tsx:43-69 | the particle array is replaced by a fresh one of `ParticleCount(width, height, density)` seeded particles, and the invariant holds |
| `AnimatedBackground.Animator.StepSnow` | nexus-portals-showcase-main/src/components/AnimatedBackground.tsx:85-103 | each flake becomes `SnowStep` of its old value in place; the length and the invariant are kept; one dot is drawn per flake |
| `AnimatedBackground.Animator.StepStars` | nexus-portals-showcase-main/src/components/AnimatedBackground.tsx:71-83 | each star becomes `StarStep` of its old value in place; the invariant is kept; each is drawn with alpha in [0.4, 1.0] |
| `AnimatedBackground.Animator.Frame` | nexus-portals-showcase-main/src/components/AnimatedBackground.tsx:105-112 | a frame applies the snow step in snow mode and the star step otherwise, drawing one dot per particle |

## Left out

- Canvas drawing: `clearRect`, `beginPath`, `arc`, `fill`, `canvas.style` and the reset of `globalAlpha`. A frame instead returns the dots it would draw, with their position, radius, alpha and fill style.
- Scheduling and lifecycle: `requestAnimationFrame`, `cancelAnimationFrame`, the `ResizeObserver`, the effect's teardown and its `[mode, density]` dependency list. A restart is a new `Animator`.
- The early returns when the canvas or its 2D context is missing (lines 18-21). In that case no animator exists.
- `particlesRef` outlives an effect restart. If a restarted effect's first `resize` found no parent, the previous mode's particles would remain. The constructor starts from an empty array instead, because the restarted `resize` always finds the parent it observes.
- Floating point: coordinates are exact reals. IEEE-754 rounding, `NaN` and infinities are not modelled, so only 0 counts as a falsy `devicePixelRatio`.
- The distributions of `Math.random` and the function `Math.sin` are not modelled. Both are bounded inputs.
- The order of `Math.random` calls in a snow frame: flake `i` reads `rng(i)` instead of the next unread value of one shared stream. Both are arbitrary values in [0,1).
- Particles.Random: states its range only when `lo <= hi`, because every call in the source passes such a range.
