/** Shared records of the game: positions, transforms, velocities, sprite sizes,
    the crate-wide configuration constants and the abstraction of the f32
    transcendental functions the enemy flight code calls. */
module Components {

  /** A pair of f32 values, as the `(f32, f32)` tuples of a formation. */
  datatype Vec2 = Vec2(x: real, y: real)

  /** Bevy's `Vec3` translation or scale. */
  datatype Vec3 = Vec3(x: real, y: real, z: real)

  /** The only two rotations the core ever builds: the default one and
      `Quat::from_rotation_x(PI)`, used to flip the enemy laser sprite. */
  datatype Rotation = Identity | HalfTurnAboutX

  datatype Transform = Transform(translation: Vec3, rotation: Rotation, scale: Vec3)

  /** The `Velocity` component: a direction, each axis normally in [-1, 1]. */
  datatype Velocity = Velocity(x: real, y: real)

  /** The `SpriteSize` component: nominal unscaled width and height. */
  datatype SpriteSize = SpriteSize(w: real, h: real)

  /** The `Movable` component. */
  datatype Movable = Movable(autoDespawn: bool)

  /** The crate-root constants the two core files import. */
  datatype Config = Config(
    enemyMax: nat,             // ENEMY_MAX
    timeStep: real,            // TIME_STEP, seconds per frame
    baseSpeed: real,           // BASE_SPEED, units per second
    spriteScale: real,         // SPRITE_SCALE
    playerSize: SpriteSize,    // PLAYER_SIZE
    enemySize: SpriteSize,     // ENEMY_SIZE
    enemyLaserSize: SpriteSize // ENEMY_LASER_SIZE
  )

  /** `f32::cos`, `f32::sqrt` and `std::f32::consts::PI`, taken as parameters. */
  datatype Math = Math(cos: real -> real, sqrt: real -> real, pi: real)

  /** `x * x`, kept behind a name so that facts about squares are stated once. */
  function Square(x: real): real {
    x * x
  }

  /** What the model relies on: PI is positive and `sqrt` is the
      non-negative square root on non-negative arguments. Nothing is
      assumed of `cos`. */
  ghost predicate ValidMath(m: Math) {
    m.pi > 0.0 &&
    forall v :: 0.0 <= v ==> 0.0 <= m.sqrt(v) && Square(m.sqrt(v)) == v
  }

  /** `f32::min` and `f32::max` (no NaN in the model). */
  function Min(a: real, b: real): real {
    if a <= b then a else b
  }

  function Max(a: real, b: real): real {
    if a >= b then a else b
  }

  /** A product of two positive reals is positive. */
  lemma MulPositive(a: real, b: real, p: real)
    requires 0.0 < a && 0.0 < b && p == a * b
    ensures 0.0 < p
  {
  }

  /** A product of two non-negative reals is non-negative. */
  lemma MulNonNegative(a: real, b: real, p: real)
    requires 0.0 <= a && 0.0 <= b && p == a * b
    ensures 0.0 <= p
  {
    if 0.0 < a && 0.0 < b { MulPositive(a, b, p); }
  }

  /** Squares are non-negative, and positive away from zero. */
  lemma SquareSign(x: real)
    ensures 0.0 <= Square(x)
    ensures x != 0.0 ==> 0.0 < Square(x)
  {
    if 0.0 < x {
      MulPositive(x, x, Square(x));
    } else if x < 0.0 {
      MulPositive(-x, -x, Square(x));
    }
  }

  /** Squaring is strictly increasing on the non-negative reals. */
  lemma SquareIncreasing(a: real, b: real)
    requires 0.0 <= a < b
    ensures Square(a) < Square(b)
  {
    MulPositive(b - a, b + a, Square(b) - Square(a));
  }

  /** The square root is determined by its two defining properties. */
  lemma SqrtUnique(m: Math, v: real, s: real)
    requires ValidMath(m)
    requires 0.0 <= v && 0.0 <= s && Square(s) == v
    ensures m.sqrt(v) == s
  {
    var t := m.sqrt(v);
    assert 0.0 <= t && Square(t) == v;
    if t < s {
      SquareIncreasing(t, s);
    } else if s < t {
      SquareIncreasing(s, t);
    }
  }
}
