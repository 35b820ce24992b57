/**
 * The decorative particle background: the theme table, the spawning of a
 * particle from random draws, the per-frame update (move, bounce off the
 * canvas edge, flicker the opacity within [0.1, 0.7]) and the canvas
 * lifecycle (mount, resize, theme change, unmount). Drawing the shapes and
 * scheduling frames belong to the browser and are not modelled; every
 * `Math.random()` result is an input in [0, 1).
 */
module Particles {
  import D = Dynasties

  datatype Shape = Star | Cloud | Petal

  /** The palette and particle shape of a theme. */
  datatype ThemeConfig = ThemeConfig(colors: seq<string>, particleType: Shape)

  /** The palette used for any theme key the table does not list. */
  const DefaultTheme: ThemeConfig := ThemeConfig(["#FFD700", "#87CEEB", "#FFB6C1"], Star)

  /** The theme keys with a palette of their own. */
  const KnownThemes: set<string> := {"qin", "han", "tang", "song", "yuan", "ming", "qing"}

  /** `getThemeConfig`: the palette and shape of each era, the default palette otherwise. */
  function GetThemeConfig(theme: string): (c: ThemeConfig)
    ensures |c.colors| == 3
    ensures theme !in KnownThemes ==> c == DefaultTheme
    ensures theme in KnownThemes ==> c != DefaultTheme
  {
    match theme
    case "qin" => ThemeConfig(["#FFD700", "#FFA500", "#FF6347"], Star)
    case "han" => ThemeConfig(["#FFD700", "#FFFF00", "#FFA500"], Star)
    case "tang" => ThemeConfig(["#FF69B4", "#FFB6C1", "#FFC0CB"], Petal)
    case "song" => ThemeConfig(["#87CEEB", "#B0E0E6", "#E0F6FF"], Cloud)
    case "yuan" => ThemeConfig(["#4169E1", "#6495ED", "#87CEFA"], Star)
    case "ming" => ThemeConfig(["#DC143C", "#FF6347", "#FFB6C1"], Petal)
    case "qing" => ThemeConfig(["#9370DB", "#BA55D3", "#DDA0DD"], Star)
    case _ => DefaultTheme
  }

  /** Every era of the table gets its own palette; the `'default'` key gets the fallback of stars. */
  lemma ErasHaveThemes(i: nat)
    requires i < |D.Table|
    ensures GetThemeConfig(D.Table[i].id) != DefaultTheme
    ensures GetThemeConfig("default") == DefaultTheme && DefaultTheme.particleType == Star
  {
    assert D.Table[i].id in KnownThemes;
  }

  datatype Particle = Particle(
    x: real, y: real, vx: real, vy: real, size: real, opacity: real,
    particleType: Shape, color: string)

  /** The seven `Math.random()` results one particle is spawned from. */
  datatype Draws = Draws(x: real, y: real, vx: real, vy: real, size: real, opacity: real, color: real)

  predicate Unit(r: real) {
    0.0 <= r < 1.0
  }

  predicate ValidDraws(d: Draws) {
    Unit(d.x) && Unit(d.y) && Unit(d.vx) && Unit(d.vy) && Unit(d.size) && Unit(d.opacity) && Unit(d.color)
  }

  /** A draw `r` in [0, 1) scales `n` into [0, n], and into [0, n) when `n` is positive. */
  lemma Scale(r: real, n: nat)
    requires Unit(r)
    ensures 0.0 <= r * n as real <= n as real
    ensures n > 0 ==> r * n as real < n as real
  {
    assert n as real - r * n as real == (1.0 - r) * n as real;
  }

  /** `Math.random() * n`: a coordinate on a canvas side of `n` pixels. */
  function Spread(r: real, n: nat): (x: real)
    requires Unit(r)
    ensures 0.0 <= x <= n as real
    ensures n > 0 ==> x < n as real
  {
    var x := r * n as real;
    Scale(r, n);
    assert n > 0 ==> x < n as real;
    x
  }

  /** `Math.floor(Math.random() * colors.length)`: an index into the palette. */
  function PaletteIndex(r: real, n: nat): (k: nat)
    requires Unit(r) && n > 0
    ensures k < n
  {
    var c := Spread(r, n);
    assert c.Floor as real <= c;
    c.Floor
  }

  /** `createParticle`, with the draws of `Math.random()` as inputs. */
  function CreateParticle(width: nat, height: nat, cfg: ThemeConfig, d: Draws): (p: Particle)
    requires ValidDraws(d) && |cfg.colors| > 0
    ensures 0.0 <= p.x <= width as real && (width > 0 ==> p.x < width as real)
    ensures 0.0 <= p.y <= height as real && (height > 0 ==> p.y < height as real)
    ensures -0.25 <= p.vx < 0.25 && -0.25 <= p.vy < 0.25
    ensures 1.0 <= p.size < 4.0
    ensures 0.2 <= p.opacity < 0.7
    ensures p.particleType == cfg.particleType
    ensures p.color in cfg.colors
  {
    Particle(
      Spread(d.x, width),
      Spread(d.y, height),
      (d.vx - 0.5) * 0.5,
      (d.vy - 0.5) * 0.5,
      d.size * 3.0 + 1.0,
      d.opacity * 0.5 + 0.2,
      cfg.particleType,
      cfg.colors[PaletteIndex(d.color, |cfg.colors|)])
  }

  function Clamp(lo: real, hi: real, v: real): (r: real)
    requires lo <= hi
    ensures lo <= r <= hi
    ensures lo <= v <= hi ==> r == v
  {
    if v < lo then lo else if v > hi then hi else v
  }

  /**
   * One particle's share of a frame: move by the velocity, negate a velocity
   * component whose coordinate left [0, bound] (the position is not pulled
   * back), and nudge the opacity by `(r - 0.5) * 0.01`, clamped to [0.1, 0.7].
   */
  function Step(p: Particle, width: nat, height: nat, r: real): (q: Particle)
    ensures 0.1 <= q.opacity <= 0.7
    ensures q.size == p.size && q.particleType == p.particleType && q.color == p.color
  {
    var x := p.x + p.vx;
    var y := p.y + p.vy;
    var vx := if x < 0.0 || x > width as real then -p.vx else p.vx;
    var vy := if y < 0.0 || y > height as real then -p.vy else p.vy;
    var opacity := Clamp(0.1, 0.7, p.opacity + (r - 0.5) * 0.01);
    Particle(x, y, vx, vy, p.size, opacity, p.particleType, p.color)
  }

  /** The move, the reflection condition on each axis, and that a position is never clamped. */
  lemma StepMovesAndBounces(p: Particle, width: nat, height: nat, r: real)
    ensures Step(p, width, height, r).x == p.x + p.vx && Step(p, width, height, r).y == p.y + p.vy
    ensures Step(p, width, height, r).vx == -p.vx <==>
              (p.vx == 0.0 || p.x + p.vx < 0.0 || p.x + p.vx > width as real)
    ensures Step(p, width, height, r).vy == -p.vy <==>
              (p.vy == 0.0 || p.y + p.vy < 0.0 || p.y + p.vy > height as real)
    ensures Step(p, width, height, r).vx == p.vx || Step(p, width, height, r).vx == -p.vx
    ensures Step(p, width, height, r).vy == p.vy || Step(p, width, height, r).vy == -p.vy
  {
  }

  function Abs(v: real): real {
    if v < 0.0 then -v else v
  }

  /**
   * A coordinate is at most one step (its speed) outside [0, bound], and
   * when it is outside, its velocity points back in.
   */
  predicate InEnvelope(x: real, v: real, bound: real) {
    -Abs(v) <= x <= bound + Abs(v) && (x < 0.0 ==> v > 0.0) && (x > bound ==> v < 0.0)
  }

  predicate Contained(p: Particle, width: nat, height: nat) {
    InEnvelope(p.x, p.vx, width as real) && InEnvelope(p.y, p.vy, height as real)
  }

  /** One axis of the bounce keeps the envelope. */
  lemma AxisKeepsEnvelope(x: real, v: real, bound: real)
    requires bound >= 0.0 && InEnvelope(x, v, bound)
    ensures var x' := x + v;
            var v' := if x' < 0.0 || x' > bound then -v else v;
            InEnvelope(x', v', bound)
  {
  }

  /** On a fixed canvas a step keeps a contained particle contained. */
  lemma StepKeepsContained(p: Particle, width: nat, height: nat, r: real)
    requires Contained(p, width, height)
    ensures Contained(Step(p, width, height, r), width, height)
  {
    AxisKeepsEnvelope(p.x, p.vx, width as real);
    AxisKeepsEnvelope(p.y, p.vy, height as real);
  }

  /** A freshly spawned particle lies on the canvas, so it is contained. */
  lemma SpawnedContained(width: nat, height: nat, cfg: ThemeConfig, d: Draws)
    requires ValidDraws(d) && |cfg.colors| > 0
    ensures Contained(CreateParticle(width, height, cfg, d), width, height)
  {
  }

  /** The particle after one frame per opacity draw in `rs`, on a canvas that keeps its size. */
  function Run(p: Particle, width: nat, height: nat, rs: seq<real>): Particle
    decreases |rs|
  {
    if rs == [] then p else Run(Step(p, width, height, rs[0]), width, height, rs[1..])
  }

  /**
   * However many frames pass, a contained particle stays within one step of
   * the canvas and, after at least one frame, its opacity is in [0.1, 0.7].
   */
  lemma {:induction false} RunStaysContained(p: Particle, width: nat, height: nat, rs: seq<real>)
    requires Contained(p, width, height)
    ensures Contained(Run(p, width, height, rs), width, height)
    ensures rs != [] || 0.1 <= p.opacity <= 0.7 ==> 0.1 <= Run(p, width, height, rs).opacity <= 0.7
    decreases |rs|
  {
    if rs != [] {
      StepKeepsContained(p, width, height, rs[0]);
      RunStaysContained(Step(p, width, height, rs[0]), width, height, rs[1..]);
    }
  }

  /**
   * A particle on the canvas that crosses the left edge in a frame turns there,
   * and the next frame brings it back to where it started, still heading right.
   */
  lemma BounceAtLeftEdge(p: Particle, width: nat, height: nat, r1: real, r2: real)
    requires 0.0 <= p.x <= width as real && p.x + p.vx < 0.0
    ensures Step(p, width, height, r1).x == p.x + p.vx && Step(p, width, height, r1).vx == -p.vx
    ensures Step(Step(p, width, height, r1), width, height, r2).x == p.x
    ensures Step(Step(p, width, height, r1), width, height, r2).vx == -p.vx
  {
  }

  /** The number of particles a theme spawns. */
  const PopulationSize: nat := 50

  /** `Array.from({ length: 50 }, () => createParticle(canvas, themeConfig))`. */
  method Populate(width: nat, height: nat, cfg: ThemeConfig, draws: seq<Draws>) returns (a: array<Particle>)
    requires |draws| == PopulationSize && |cfg.colors| > 0
    requires forall i :: 0 <= i < |draws| ==> ValidDraws(draws[i])
    ensures fresh(a) && a.Length == PopulationSize
    ensures forall i :: 0 <= i < a.Length ==> a[i] == CreateParticle(width, height, cfg, draws[i])
  {
    var p0 := CreateParticle(width, height, cfg, draws[0]);
    a := new Particle[PopulationSize](_ => p0);
    for i := 0 to PopulationSize
      invariant forall k :: 0 <= k < i ==> a[k] == CreateParticle(width, height, cfg, draws[k])
    {
      a[i] := CreateParticle(width, height, cfg, draws[i]);
    }
  }

  /** The canvas of one mounted background: its size, theme, particles and pending frame. */
  class ParticleCanvas {
    var width: nat
    var height: nat
    var theme: ThemeConfig
    var particles: array<Particle>
    /** A frame is requested; false once unmounted (the frame is cancelled and the listener removed). */
    var active: bool

    /**
     * The effect on mount: size the canvas to the window, resolve the theme
     * and spawn the population. The first `animate()` call is the first `Tick`.
     */
    constructor Mount(themeKey: string, innerWidth: nat, innerHeight: nat, draws: seq<Draws>)
      requires |draws| == PopulationSize
      requires forall i :: 0 <= i < |draws| ==> ValidDraws(draws[i])
      ensures width == innerWidth && height == innerHeight && active
      ensures theme == GetThemeConfig(themeKey)
      ensures particles.Length == PopulationSize && fresh(particles)
      ensures forall i :: 0 <= i < particles.Length ==>
                particles[i] == CreateParticle(innerWidth, innerHeight, theme, draws[i])
    {
      width, height := innerWidth, innerHeight;
      theme := GetThemeConfig(themeKey);
      active := true;
      var a := Populate(innerWidth, innerHeight, GetThemeConfig(themeKey), draws);
      particles := a;
    }

    /** One frame of `animate`: every particle takes one step against the current canvas size. */
    method Tick(rs: seq<real>)
      requires |rs| == particles.Length
      modifies particles
      ensures !active ==> particles[..] == old(particles[..])
      ensures active ==> forall i :: 0 <= i < particles.Length ==>
                particles[i] == Step(old(particles[i]), width, height, rs[i])
    {
      if !active {
        return;
      }
      var i := 0;
      while i < particles.Length
        invariant 0 <= i <= particles.Length
        invariant forall k :: 0 <= k < i ==> particles[k] == Step(old(particles[k]), width, height, rs[k])
        invariant forall k :: i <= k < particles.Length ==> particles[k] == old(particles[k])
      {
        particles[i] := Step(particles[i], width, height, rs[i]);
        i := i + 1;
      }
    }

    /** `resizeCanvas`: the canvas takes the window size; the particles stay where they are. */
    method Resize(innerWidth: nat, innerHeight: nat)
      modifies this
      ensures particles == old(particles) && theme == old(theme) && active == old(active)
      ensures active ==> width == innerWidth && height == innerHeight
      ensures !active ==> width == old(width) && height == old(height)
    {
      if active {
        width, height := innerWidth, innerHeight;
      }
    }

    /**
     * A new theme key re-runs the effect: the old frame and listener are
     * dropped, the canvas is resized and a whole new population is spawned.
     * Called after `Unmount`, it stands for a fresh mount of the canvas.
     */
    method ChangeTheme(themeKey: string, innerWidth: nat, innerHeight: nat, draws: seq<Draws>)
      requires |draws| == PopulationSize
      requires forall i :: 0 <= i < |draws| ==> ValidDraws(draws[i])
      modifies this
      ensures width == innerWidth && height == innerHeight && active
      ensures theme == GetThemeConfig(themeKey)
      ensures particles.Length == PopulationSize && fresh(particles)
      ensures forall i :: 0 <= i < particles.Length ==>
                particles[i] == CreateParticle(innerWidth, innerHeight, theme, draws[i])
    {
      width, height := innerWidth, innerHeight;
      theme := GetThemeConfig(themeKey);
      active := true;
      particles := Populate(innerWidth, innerHeight, theme, draws);
    }

    /** The effect's cleanup: cancel the pending frame and stop listening to resizes. */
    method Unmount()
      modifies this`active
      ensures !active
    {
      active := false;
    }
  }
}
