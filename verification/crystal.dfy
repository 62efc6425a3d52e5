/**
 * A skill crystal: its size, glow and particle cloud are derived from the
 * skill level (1 to 10), and each frame it bobs, spins and pulses.
 */
module Crystal {
  import opened Numeric
  import opened Geometry

  /** A skill level on the 1–10 scale (the scale's ends are not enforced by the data type). */
  predicate ValidLevel(level: int) {
    1 <= level <= 10
  }

  /** The cone's height: 1 plus three tenths of the level. */
  function Height(level: int): (r: real)
    ensures 0 <= level <= 10 ==> 1.0 <= r <= 4.0
    ensures ValidLevel(level) ==> 1.3 <= r
  {
    1.0 + ((level as real) / 10.0) * 3.0
  }

  /** The glow intensity: 0.2 plus eight hundredths of the level. */
  function Glow(level: int): (r: real)
    ensures 0 <= level <= 10 ==> 0.2 <= r <= 1.0
    ensures ValidLevel(level) ==> 0.28 <= r
  {
    ((level as real) / 10.0) * 0.8 + 0.2
  }

  /** A better skill gives a strictly taller and strictly brighter crystal. */
  lemma LevelMonotone(a: int, b: int)
    requires a < b
    ensures Height(a) < Height(b)
    ensures Glow(a) < Glow(b)
  {
  }

  /** The number of particles: five per level. */
  function ParticleCount(level: int): int {
    level * 5
  }

  /** The length of the particle position buffer: fifteen per level. */
  function ParticleBufferLength(level: int): int {
    level * 15
  }

  /** The particle buffer holds exactly three coordinates for every particle. */
  lemma ParticleBufferFits(level: int)
    ensures ParticleBufferLength(level) == 3 * ParticleCount(level)
  {
  }

  /** One particle coordinate, `(random - 0.5) * 4`, for a random draw `u` in `[0, 1)`. */
  function ParticleCoordinate(u: real): (r: real)
    requires 0.0 <= u < 1.0
    ensures -2.0 <= r < 2.0
  {
    (u - 0.5) * 4.0
  }

  /** The particle buffer for a level, from one random draw per coordinate. */
  function ParticleBuffer(level: int, draws: seq<real>): (r: seq<real>)
    requires level >= 0 && |draws| == ParticleBufferLength(level)
    requires forall i :: 0 <= i < |draws| ==> 0.0 <= draws[i] < 1.0
    ensures |r| == 3 * ParticleCount(level)
    ensures forall i :: 0 <= i < |r| ==> -2.0 <= r[i] < 2.0
  {
    seq(|draws|, i requires 0 <= i < |draws| && 0.0 <= draws[i] < 1.0 => ParticleCoordinate(draws[i]))
  }

  /** What one animation frame sets: the group's height and yaw and the emissive intensity. */
  datatype Pose = Pose(y: real, yaw: real, emissive: real)

  /**
   * A frame at elapsed time `time`, given `Math.sin(time * 1.5 + x)` as
   * `bob` and `Math.sin(time * 2)` as `pulse`: the crystal floats 0.1 around
   * its base height, turns 0.3 rad per second and pulses between 60 % and
   * 100 % of its glow.
   */
  function Animate(base: Vec3, level: int, time: real, bob: real, pulse: real): (r: Pose)
    requires -1.0 <= bob <= 1.0 && -1.0 <= pulse <= 1.0
    ensures base.y - 0.1 <= r.y <= base.y + 0.1
    ensures r.yaw == time * 0.3
    ensures ValidLevel(level) ==> 0.6 * Glow(level) <= r.emissive <= Glow(level)
  {
    Pose(base.y + bob * 0.1, time * 0.3, Pulse(Glow(level), pulse))
  }

  /** The glow scaled by `0.8 + 0.2 * pulse`: between 60 % and 100 % of the glow. */
  function Pulse(glow: real, pulse: real): (r: real)
    requires -1.0 <= pulse <= 1.0
    ensures glow >= 0.0 ==> 0.6 * glow <= r <= glow
  {
    assert glow >= 0.0 ==> 0.6 * glow <= glow * (0.8 + pulse * 0.2) <= glow by {
      if glow >= 0.0 {
        PulseRange(glow, 0.8 + pulse * 0.2);
      }
    }
    glow * (0.8 + pulse * 0.2)
  }

  /** A pulsing crystal never goes dark: its emissive intensity stays at least 0.168. */
  lemma NeverDark(base: Vec3, level: int, time: real, bob: real, pulse: real)
    requires ValidLevel(level) && -1.0 <= bob <= 1.0 && -1.0 <= pulse <= 1.0
    ensures Animate(base, level, time, bob, pulse).emissive >= 0.168
  {
  }

  lemma PulseRange(glow: real, factor: real)
    requires glow >= 0.0 && 0.6 <= factor <= 1.0
    ensures 0.6 * glow <= glow * factor <= glow
  {
    ScaleDown(glow, factor);
    NonNegativeProduct(glow, factor - 0.6);
    assert glow * (factor - 0.6) == glow * factor - glow * 0.6;
  }
}
