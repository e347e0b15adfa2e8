/** The enemy rules of src/enemy/mod.rs: the capped spawn, the per-frame
    homing/orbit flight step with its lock-on gate, and enemy fire. */
module EnemySystems {
  import opened Components

  /** The `Formation` component (declared in the formation submodule): the
      spawn point, the centre and semi-axes of the flight path, its current
      phase and its speed. */
  datatype Formation = Formation(start: Vec2, pivot: Vec2, radius: Vec2, angle: real, speed: real)

  /** What the formation maker guarantees and the flight step needs: both
      semi-axes positive, since the step divides by the smaller one. */
  predicate ValidFormation(f: Formation) {
    f.radius.x > 0.0 && f.radius.y > 0.0
  }

  /** An entity carrying `Enemy`, a `Transform`, a `Formation` and a `SpriteSize`. */
  datatype EnemyEntity = EnemyEntity(transform: Transform, formation: Formation, size: SpriteSize)

  datatype Origin = FromPlayer | FromEnemy

  /** An entity carrying `Laser`, its origin tag, `SpriteSize`, `Movable`,
      `Velocity` and a `Transform`. */
  datatype Laser = Laser(transform: Transform, size: SpriteSize, origin: Origin, movable: Movable, velocity: Velocity)

  // ---------------------------------------------------------------------------
  // Spawn

  /** The counter after one run of the spawn system. */
  function NextCount(count: nat, enemyMax: nat): (r: nat)
    ensures count < enemyMax ==> r == count + 1
    ensures enemyMax <= count ==> r == count
    ensures count <= enemyMax ==> r <= enemyMax
  {
    if count < enemyMax then count + 1 else count
  }

  /** The enemy the spawn system creates for a fresh formation. */
  function SpawnedEnemy(cfg: Config, f: Formation): (e: EnemyEntity)
    ensures e.transform.translation == Vec3(f.start.x, f.start.y, 10.0)
    ensures e.transform.scale == Vec3(cfg.spriteScale, cfg.spriteScale, 1.0)
    ensures e.transform.rotation == Identity
    ensures e.formation == f && e.size == cfg.enemySize
  {
    EnemyEntity(Transform(Vec3(f.start.x, f.start.y, 10.0), Identity,
                          Vec3(cfg.spriteScale, cfg.spriteScale, 1.0)),
                f, cfg.enemySize)
  }

  /** The counter after `n` runs of the spawn system. */
  function CountAfterRuns(count: nat, enemyMax: nat, n: nat): nat
    decreases n
  {
    if n == 0 then count else CountAfterRuns(NextCount(count, enemyMax), enemyMax, n - 1)
  }

  /** Repeated spawning fills the population up to the cap and then stops. */
  lemma {:induction false} CountAfterRunsClosedForm(count: nat, enemyMax: nat, n: nat)
    ensures CountAfterRuns(count, enemyMax, n)
            == if enemyMax <= count then count
               else if count + n <= enemyMax then count + n else enemyMax
    decreases n
  {
    if n > 0 {
      CountAfterRunsClosedForm(NextCount(count, enemyMax), enemyMax, n - 1);
    }
  }

  /** From any count within the cap, no number of spawn runs exceeds it. */
  lemma CountStaysBounded(count: nat, enemyMax: nat, n: nat)
    requires count <= enemyMax
    ensures CountAfterRuns(count, enemyMax, n) <= enemyMax
  {
    CountAfterRunsClosedForm(count, enemyMax, n);
  }

  // ---------------------------------------------------------------------------
  // Flight step

  /** `dir`: 1 (counter clockwise) when the formation starts left of centre, else -1. */
  function Direction(f: Formation): (dir: real)
    ensures dir == 1.0 || dir == -1.0
    ensures dir == 1.0 <==> f.start.x < 0.0
  {
    if f.start.x < 0.0 then 1.0 else -1.0
  }

  /** The farthest an enemy may move in one frame: `TIME_STEP * speed`. */
  function MaxDistance(cfg: Config, f: Formation): real {
    cfg.timeStep * f.speed
  }

  /** The next formation phase, advanced by the arc `speed * TIME_STEP` over
      a quarter of the smaller semi-axis' circumference. */
  function CandidateAngle(cfg: Config, m: Math, f: Formation): (a: real)
    requires ValidMath(m) && ValidFormation(f)
    ensures 0.0 < cfg.timeStep && 0.0 < f.speed ==>
              (a > f.angle <==> f.start.x < 0.0) && (a < f.angle <==> 0.0 <= f.start.x)
    ensures cfg.timeStep == 0.0 || f.speed == 0.0 ==> a == f.angle
  {
    var quarter := Min(f.radius.x, f.radius.y) * m.pi / 2.0;
    assert quarter > 0.0;
    var step := Direction(f) * f.speed * cfg.timeStep / quarter;
    assert 0.0 < cfg.timeStep && 0.0 < f.speed ==> (step > 0.0 <==> Direction(f) == 1.0) by {
      if 0.0 < cfg.timeStep && 0.0 < f.speed {
        var base := f.speed * cfg.timeStep / quarter;
        assert base > 0.0;
        assert step == Direction(f) * base;
      }
    }
    f.angle + step
  }

  /** The point of the flight path for phase `angle`. Both axes use the cosine,
      as the source does, so every target lies on one straight line through
      the pivot, with slope `radius.y / radius.x`. */
  function Target(m: Math, f: Formation, angle: real): (t: Vec2)
    ensures (t.x - f.pivot.x) * f.radius.y == (t.y - f.pivot.y) * f.radius.x
  {
    var c := m.cos(angle);
    assert (f.radius.x * c) * f.radius.y == (f.radius.y * c) * f.radius.x;
    Vec2(f.radius.x * c + f.pivot.x, f.radius.y * c + f.pivot.y)
  }

  /** Euclidean length of `(dx, dy)`: `(dx * dx + dy * dy).sqrt()`. */
  function Distance(m: Math, dx: real, dy: real): (d: real)
    requires ValidMath(m)
    ensures 0.0 <= d && Square(d) == Square(dx) + Square(dy)
    ensures d == 0.0 <==> dx == 0.0 && dy == 0.0
  {
    RootOfSumOfSquares(m, dx, dy);
    m.sqrt(Square(dx) + Square(dy))
  }

  lemma RootOfSumOfSquares(m: Math, dx: real, dy: real)
    requires ValidMath(m)
    ensures 0.0 <= m.sqrt(Square(dx) + Square(dy))
    ensures Square(m.sqrt(Square(dx) + Square(dy))) == Square(dx) + Square(dy)
    ensures m.sqrt(Square(dx) + Square(dy)) == 0.0 <==> dx == 0.0 && dy == 0.0
  {
    SquareSign(dx);
    SquareSign(dy);
    var v := Square(dx) + Square(dy);
    var t := m.sqrt(v);
    assert 0.0 <= t && Square(t) == v;
    if dx == 0.0 && dy == 0.0 {
      SqrtUnique(m, 0.0, 0.0);
    }
  }

  /** `distance_ratio`: the fraction of the remaining distance covered this
      frame, 0 when the enemy already sits on its target. */
  function Ratio(maxDistance: real, distance: real): (r: real)
    ensures distance == 0.0 ==> r == 0.0
    ensures distance != 0.0 ==> r * distance == maxDistance
    ensures 0.0 <= maxDistance && 0.0 <= distance ==> 0.0 <= r
    ensures 0.0 < distance <= maxDistance ==> 1.0 <= r
    ensures 0.0 <= maxDistance < distance ==> r < 1.0
  {
    if distance == 0.0 then 0.0
    else
      var r := maxDistance / distance;
      assert r * distance == maxDistance;
      RatioBounds(maxDistance, distance, r);
      r
  }

  /** What `r * distance == maxDistance` says about the size of `r`. */
  lemma RatioBounds(maxDistance: real, distance: real, r: real)
    requires distance != 0.0 && r * distance == maxDistance
    ensures 0.0 <= maxDistance && 0.0 < distance ==> 0.0 <= r
    ensures 0.0 < distance <= maxDistance ==> 1.0 <= r
    ensures 0.0 <= maxDistance < distance ==> r < 1.0
  {
    if 0.0 < distance {
      if r < 0.0 {
        MulPositive(-r, distance, -r * distance);
      }
      if r < 1.0 {
        MulPositive(1.0 - r, distance, (1.0 - r) * distance);
        assert (1.0 - r) * distance == distance - r * distance;
      }
      if 1.0 < r {
        MulPositive(r - 1.0, distance, (r - 1.0) * distance);
        assert (r - 1.0) * distance == r * distance - distance;
      }
    }
  }

  /** One axis of the move: step from `org` toward `dst` by `ratio` of the
      gap, then clamp so the target is never passed. */
  function ClampedStep(org: real, dst: real, ratio: real): (p: real)
    ensures 0.0 <= ratio ==> Min(org, dst) <= p <= Max(org, dst)
    ensures 1.0 <= ratio ==> p == dst
    ensures 0.0 <= ratio <= 1.0 ==> p == org - (org - dst) * ratio
    ensures ratio == 0.0 || org == dst ==> p == org
  {
    var delta := org - dst;
    var moved := delta * ratio;
    var p := org - moved;
    StepSigns(delta, ratio, moved, delta - moved);
    if delta > 0.0 then Max(p, dst) else Min(p, dst)
  }

  /** The signs of the step `delta * ratio` and of the gap it leaves,
      `delta * (1 - ratio)`, for a gap `delta`. */
  lemma StepSigns(delta: real, ratio: real, moved: real, left: real)
    requires moved == delta * ratio && left == delta - moved
    ensures 0.0 <= ratio ==> (0.0 < delta ==> 0.0 <= moved) && (delta <= 0.0 ==> moved <= 0.0)
    ensures 0.0 <= ratio <= 1.0 ==> (0.0 < delta ==> 0.0 <= left) && (delta <= 0.0 ==> left <= 0.0)
    ensures 1.0 <= ratio ==> (0.0 < delta ==> left <= 0.0) && (delta <= 0.0 ==> 0.0 <= left)
  {
    assert left == delta * (1.0 - ratio);
    if 0.0 < delta && 0.0 < ratio { MulPositive(delta, ratio, moved); }
    if delta < 0.0 && 0.0 < ratio { MulPositive(-delta, ratio, -moved); }
    if 0.0 < delta && ratio < 1.0 { MulPositive(delta, 1.0 - ratio, left); }
    if delta < 0.0 && ratio < 1.0 { MulPositive(-delta, 1.0 - ratio, -left); }
    if 0.0 < delta && 1.0 < ratio { MulPositive(delta, ratio - 1.0, -left); }
    if delta < 0.0 && 1.0 < ratio { MulPositive(-delta, ratio - 1.0, left); }
  }

  /** The target this frame: the path point at the candidate phase. */
  function TargetOf(cfg: Config, m: Math, e: EnemyEntity): Vec2
    requires ValidMath(m) && ValidFormation(e.formation)
  {
    Target(m, e.formation, CandidateAngle(cfg, m, e.formation))
  }

  /** The distance from the enemy's position to this frame's target. */
  function DistanceToTarget(cfg: Config, m: Math, e: EnemyEntity): real
    requires ValidMath(m) && ValidFormation(e.formation)
  {
    var t := TargetOf(cfg, m, e);
    Distance(m, e.transform.translation.x - t.x, e.transform.translation.y - t.y)
  }

  /** The lock-on gate: close enough to the path to start orbiting. */
  predicate LockedOn(cfg: Config, m: Math, e: EnemyEntity)
    requires ValidMath(m) && ValidFormation(e.formation)
  {
    DistanceToTarget(cfg, m, e) < MaxDistance(cfg, e.formation) * e.formation.speed / 20.0
  }

  /** One frame of `enemy_move_system` for one enemy. */
  function StepEnemy(cfg: Config, m: Math, e: EnemyEntity): (r: EnemyEntity)
    requires ValidMath(m) && ValidFormation(e.formation)
    // only translation x/y and the formation's phase are written
    ensures r.transform.translation.z == e.transform.translation.z
    ensures r.transform.rotation == e.transform.rotation
    ensures r.transform.scale == e.transform.scale && r.size == e.size
    ensures r.formation.(angle := e.formation.angle) == e.formation
    // the phase advances exactly when the enemy is locked on
    ensures LockedOn(cfg, m, e) ==> r.formation.angle == CandidateAngle(cfg, m, e.formation)
    ensures !LockedOn(cfg, m, e) ==> r.formation.angle == e.formation.angle
  {
    var f := e.formation;
    var pos := e.transform.translation;
    var t := TargetOf(cfg, m, e);
    var ratio := Ratio(MaxDistance(cfg, f), DistanceToTarget(cfg, m, e));
    var x := ClampedStep(pos.x, t.x, ratio);
    var y := ClampedStep(pos.y, t.y, ratio);
    var newAngle := if LockedOn(cfg, m, e) then CandidateAngle(cfg, m, f) else f.angle;
    e.(transform := e.transform.(translation := pos.(x := x, y := y)),
       formation := f.(angle := newAngle))
  }

  /** With a non-negative time step and speed, the move never overshoots the
      target on either axis. */
  lemma StepNeverOvershoots(cfg: Config, m: Math, e: EnemyEntity)
    requires ValidMath(m) && ValidFormation(e.formation)
    requires 0.0 <= cfg.timeStep && 0.0 <= e.formation.speed
    ensures var t := TargetOf(cfg, m, e);
            var pos := e.transform.translation;
            var r := StepEnemy(cfg, m, e).transform.translation;
            Min(pos.x, t.x) <= r.x <= Max(pos.x, t.x) && Min(pos.y, t.y) <= r.y <= Max(pos.y, t.y)
  {
    MulNonNegative(cfg.timeStep, e.formation.speed, MaxDistance(cfg, e.formation));
  }

  /** An enemy already on its target stays put. */
  lemma StepAtTarget(cfg: Config, m: Math, e: EnemyEntity)
    requires ValidMath(m) && ValidFormation(e.formation)
    requires DistanceToTarget(cfg, m, e) == 0.0
    ensures StepEnemy(cfg, m, e).transform.translation == e.transform.translation
  {
  }

  /** Scaling both offsets by `k` scales the distance by `k`. */
  lemma DistanceScales(m: Math, dx: real, dy: real, k: real, sx: real, sy: real)
    requires ValidMath(m) && 0.0 <= k && sx == dx * k && sy == dy * k
    ensures Distance(m, sx, sy) == Distance(m, dx, dy) * k
  {
    var d := Distance(m, dx, dy);
    var dk := d * k;
    if 0.0 < d && 0.0 < k { MulPositive(d, k, dk); }
    SquareOfProduct(d, k, dk);
    SquareOfProduct(dx, k, sx);
    SquareOfProduct(dy, k, sy);
    SumScales(Square(dx), Square(dy), Square(k), Square(sx), Square(sy));
    SquareSign(sx);
    SquareSign(sy);
    SqrtUnique(m, Square(sx) + Square(sy), dk);
  }

  lemma SquareOfProduct(a: real, k: real, p: real)
    requires p == a * k
    ensures Square(p) == Square(a) * Square(k)
  {
  }

  lemma SumScales(a: real, b: real, c: real, ac: real, bc: real)
    requires ac == a * c && bc == b * c
    ensures ac + bc == (a + b) * c
  {
  }

  /** An unclamped step toward the target leaves the fraction `1 - ratio` of the gap. */
  lemma PartialStep(org: real, dst: real, ratio: real)
    requires 0.0 <= ratio <= 1.0
    ensures ClampedStep(org, dst, ratio) - dst == (org - dst) * (1.0 - ratio)
  {
    assert (org - dst) * (1.0 - ratio) == (org - dst) - (org - dst) * ratio;
  }

  /** An unclamped step toward the target on both axes shrinks the distance
      by the factor `1 - ratio`. */
  lemma PartialStepGap(m: Math, px: real, py: real, tx: real, ty: real, ratio: real)
    requires ValidMath(m) && 0.0 <= ratio <= 1.0
    ensures Distance(m, ClampedStep(px, tx, ratio) - tx, ClampedStep(py, ty, ratio) - ty)
            == Distance(m, px - tx, py - ty) * (1.0 - ratio)
  {
    PartialStep(px, tx, ratio);
    PartialStep(py, ty, ratio);
    DistanceScales(m, px - tx, py - ty, 1.0 - ratio,
                   ClampedStep(px, tx, ratio) - tx, ClampedStep(py, ty, ratio) - ty);
  }

  lemma RemainingGap(d: real, ratio: real, maxD: real)
    requires ratio * d == maxD
    ensures d * (1.0 - ratio) == d - maxD
  {
  }

  /** Moving from `(px, py)` toward `(tx, ty)` by at most `maxD` leaves a gap
      of the old distance less `maxD`, or none. */
  lemma StepShrinksGap(m: Math, px: real, py: real, tx: real, ty: real, maxD: real)
    requires ValidMath(m) && 0.0 <= maxD
    ensures var d := Distance(m, px - tx, py - ty);
            var ratio := Ratio(maxD, d);
            Distance(m, ClampedStep(px, tx, ratio) - tx, ClampedStep(py, ty, ratio) - ty)
              == Max(0.0, d - maxD)
  {
    if Distance(m, px - tx, py - ty) <= maxD {
      StepReachesTarget(m, px, py, tx, ty, maxD);
    } else {
      StepApproachesTarget(m, px, py, tx, ty, maxD);
    }
  }

  /** A target within reach is reached. */
  lemma StepReachesTarget(m: Math, px: real, py: real, tx: real, ty: real, maxD: real)
    requires ValidMath(m) && 0.0 <= maxD && Distance(m, px - tx, py - ty) <= maxD
    ensures var ratio := Ratio(maxD, Distance(m, px - tx, py - ty));
            ClampedStep(px, tx, ratio) == tx && ClampedStep(py, ty, ratio) == ty
  {
    var d := Distance(m, px - tx, py - ty);
    if d == 0.0 {
      assert px == tx && py == ty;
    }
  }

  /** A target out of reach comes exactly `maxD` closer. */
  lemma StepApproachesTarget(m: Math, px: real, py: real, tx: real, ty: real, maxD: real)
    requires ValidMath(m) && 0.0 <= maxD < Distance(m, px - tx, py - ty)
    ensures var d := Distance(m, px - tx, py - ty);
            var ratio := Ratio(maxD, d);
            Distance(m, ClampedStep(px, tx, ratio) - tx, ClampedStep(py, ty, ratio) - ty) == d - maxD
  {
    var d := Distance(m, px - tx, py - ty);
    var ratio := Ratio(maxD, d);
    PartialStepGap(m, px, py, tx, ty, ratio);
    RemainingGap(d, ratio, maxD);
  }

  /** The distance does not depend on the sign of the offsets. */
  lemma DistanceSymmetric(m: Math, dx: real, dy: real, ndx: real, ndy: real)
    requires ValidMath(m) && ndx == -dx && ndy == -dy
    ensures Distance(m, ndx, ndy) == Distance(m, dx, dy)
  {
    assert Square(ndx) == Square(dx);
    assert Square(ndy) == Square(dy);
  }

  /** An unclamped step travels the fraction `ratio` of the way to the target. */
  lemma PartialTravel(org: real, dst: real, ratio: real)
    requires 0.0 <= ratio <= 1.0
    ensures ClampedStep(org, dst, ratio) - org == (dst - org) * ratio
  {
    assert (dst - org) * ratio == -((org - dst) * ratio);
  }

  /** Going for a target out of reach travels exactly `maxD`. */
  lemma FarStepTravel(m: Math, px: real, py: real, tx: real, ty: real, maxD: real)
    requires ValidMath(m) && 0.0 <= maxD < Distance(m, px - tx, py - ty)
    ensures var ratio := Ratio(maxD, Distance(m, px - tx, py - ty));
            Distance(m, ClampedStep(px, tx, ratio) - px, ClampedStep(py, ty, ratio) - py) == maxD
  {
    var d := Distance(m, px - tx, py - ty);
    var ratio := Ratio(maxD, d);
    PartialTravel(px, tx, ratio);
    PartialTravel(py, ty, ratio);
    DistanceScales(m, tx - px, ty - py, ratio,
                   ClampedStep(px, tx, ratio) - px, ClampedStep(py, ty, ratio) - py);
    DistanceSymmetric(m, px - tx, py - ty, tx - px, ty - py);
  }

  /** Going for a target within reach travels exactly the distance to it. */
  lemma NearStepTravel(m: Math, px: real, py: real, tx: real, ty: real, maxD: real)
    requires ValidMath(m) && 0.0 <= maxD && Distance(m, px - tx, py - ty) <= maxD
    ensures var ratio := Ratio(maxD, Distance(m, px - tx, py - ty));
            Distance(m, ClampedStep(px, tx, ratio) - px, ClampedStep(py, ty, ratio) - py)
              == Distance(m, px - tx, py - ty)
  {
    StepReachesTarget(m, px, py, tx, ty, maxD);
    DistanceSymmetric(m, px - tx, py - ty, tx - px, ty - py);
  }

  /** One step travels the distance to the target or `maxD`, whichever is less. */
  lemma StepTravel(m: Math, px: real, py: real, tx: real, ty: real, maxD: real)
    requires ValidMath(m) && 0.0 <= maxD
    ensures var d := Distance(m, px - tx, py - ty);
            var ratio := Ratio(maxD, d);
            Distance(m, ClampedStep(px, tx, ratio) - px, ClampedStep(py, ty, ratio) - py)
              == Min(d, maxD)
  {
    if Distance(m, px - tx, py - ty) <= maxD {
      NearStepTravel(m, px, py, tx, ty, maxD);
    } else {
      FarStepTravel(m, px, py, tx, ty, maxD);
    }
  }

  /** With a non-negative time step and speed, an enemy moves by the distance
      to its target or by `TIME_STEP * speed`, whichever is less: never farther
      than one frame allows, in any direction. */
  lemma StepTravelsAtMostMaxDistance(cfg: Config, m: Math, e: EnemyEntity)
    requires ValidMath(m) && ValidFormation(e.formation)
    requires 0.0 <= cfg.timeStep && 0.0 <= e.formation.speed
    ensures var pos := e.transform.translation;
            var r := StepEnemy(cfg, m, e).transform.translation;
            Distance(m, r.x - pos.x, r.y - pos.y)
              == Min(DistanceToTarget(cfg, m, e), MaxDistance(cfg, e.formation))
  {
    var t := TargetOf(cfg, m, e);
    var pos := e.transform.translation;
    var maxD := MaxDistance(cfg, e.formation);
    MulNonNegative(cfg.timeStep, e.formation.speed, maxD);
    StepTravel(m, pos.x, pos.y, t.x, t.y, maxD);
  }

  /** While not locked on, the phase stays fixed, so the next frame aims at the
      same target, and the enemy has come `TIME_STEP * speed` closer to it
      (or reached it). */
  lemma HomingProgress(cfg: Config, m: Math, e: EnemyEntity)
    requires ValidMath(m) && ValidFormation(e.formation)
    requires 0.0 <= cfg.timeStep && 0.0 <= e.formation.speed
    requires !LockedOn(cfg, m, e)
    ensures StepEnemy(cfg, m, e).formation == e.formation
    ensures TargetOf(cfg, m, StepEnemy(cfg, m, e)) == TargetOf(cfg, m, e)
    ensures DistanceToTarget(cfg, m, StepEnemy(cfg, m, e))
            == Max(0.0, DistanceToTarget(cfg, m, e) - MaxDistance(cfg, e.formation))
  {
    var t := TargetOf(cfg, m, e);
    var pos := e.transform.translation;
    var maxD := MaxDistance(cfg, e.formation);
    assert 0.0 <= maxD;
    StepShrinksGap(m, pos.x, pos.y, t.x, t.y, maxD);
  }

  /** The flight of one enemy over `n` frames. */
  function Flight(cfg: Config, m: Math, e: EnemyEntity, n: nat): (r: EnemyEntity)
    requires ValidMath(m) && ValidFormation(e.formation)
    // over any number of frames only translation x/y and the phase change
    ensures r.formation.(angle := e.formation.angle) == e.formation
    ensures r.transform.translation.z == e.transform.translation.z
    ensures r.transform.rotation == e.transform.rotation
    ensures r.transform.scale == e.transform.scale && r.size == e.size
    decreases n
  {
    if n == 0 then e else Flight(cfg, m, StepEnemy(cfg, m, e), n - 1)
  }

  /** The enemy stays outside the lock-on gate during its first `n` frames. */
  predicate Homing(cfg: Config, m: Math, e: EnemyEntity, n: nat)
    requires ValidMath(m) && ValidFormation(e.formation)
    decreases n
  {
    n == 0 || (!LockedOn(cfg, m, e) && Homing(cfg, m, StepEnemy(cfg, m, e), n - 1))
  }

  /** The gap left after `n` frames that each close up to `maxD` of it. */
  function GapAfter(d0: real, maxD: real, n: nat): real
    decreases n
  {
    if n == 0 then d0 else GapAfter(Max(0.0, d0 - maxD), maxD, n - 1)
  }

  /** `n` such frames close `n * maxD` of the gap, or all of it. */
  lemma {:induction false} GapAfterClosedForm(d0: real, maxD: real, n: nat)
    requires 0.0 <= d0 && 0.0 <= maxD
    ensures GapAfter(d0, maxD, n) == Max(0.0, d0 - (n as real) * maxD)
    decreases n
  {
    if n > 0 {
      GapAfterClosedForm(Max(0.0, d0 - maxD), maxD, n - 1);
      var a := ((n - 1) as real) * maxD;
      assert 0.0 <= a;
      assert a + maxD == (n as real) * maxD;
    }
  }

  /** An enemy that has not locked on during `n` frames keeps its formation
      and has closed in on its fixed target by `TIME_STEP * speed` per frame. */
  lemma {:induction false} HomingFlight(cfg: Config, m: Math, e: EnemyEntity, n: nat)
    requires ValidMath(m) && ValidFormation(e.formation)
    requires 0.0 <= cfg.timeStep && 0.0 <= e.formation.speed
    requires Homing(cfg, m, e, n)
    ensures Flight(cfg, m, e, n).formation == e.formation
    ensures DistanceToTarget(cfg, m, Flight(cfg, m, e, n))
            == GapAfter(DistanceToTarget(cfg, m, e), MaxDistance(cfg, e.formation), n)
    decreases n
  {
    if n > 0 {
      HomingProgress(cfg, m, e);
      HomingFlight(cfg, m, StepEnemy(cfg, m, e), n - 1);
    }
  }

  /** With positive speed, an enemy locks on within frames `0 .. n` once
      `n * TIME_STEP * speed` covers its initial distance to the target. */
  lemma {:induction false} EventuallyLocksOn(cfg: Config, m: Math, e: EnemyEntity, n: nat)
    requires ValidMath(m) && ValidFormation(e.formation)
    requires 0.0 < cfg.timeStep && 0.0 < e.formation.speed
    requires DistanceToTarget(cfg, m, e) <= (n as real) * MaxDistance(cfg, e.formation)
    ensures !Homing(cfg, m, e, n + 1)
    decreases n
  {
    var maxD := MaxDistance(cfg, e.formation);
    MulPositive(cfg.timeStep, e.formation.speed, maxD);
    GapClosesWithinBudget(DistanceToTarget(cfg, m, e), maxD, n);
    LocksOnOnceGapCloses(cfg, m, e, n);
  }

  /** A budget of `n * maxD` is enough for `n` frames to close the gap. */
  lemma GapClosesWithinBudget(d0: real, maxD: real, n: nat)
    requires 0.0 <= d0 && 0.0 <= maxD && d0 <= (n as real) * maxD
    ensures GapAfter(d0, maxD, n) == 0.0
  {
    GapAfterClosedForm(d0, maxD, n);
  }

  /** If `n` frames of approach would close the gap, the enemy cannot stay
      outside the lock-on gate for `n + 1` frames. */
  lemma {:induction false} LocksOnOnceGapCloses(cfg: Config, m: Math, e: EnemyEntity, n: nat)
    requires ValidMath(m) && ValidFormation(e.formation)
    requires 0.0 < cfg.timeStep && 0.0 < e.formation.speed
    requires GapAfter(DistanceToTarget(cfg, m, e), MaxDistance(cfg, e.formation), n) == 0.0
    ensures !Homing(cfg, m, e, n + 1)
    decreases n
  {
    if n == 0 {
      BelowPositiveGate(DistanceToTarget(cfg, m, e), cfg.timeStep, e.formation.speed,
                        MaxDistance(cfg, e.formation));
    } else if !LockedOn(cfg, m, e) {
      HomingProgress(cfg, m, e);
      LocksOnOnceGapCloses(cfg, m, StepEnemy(cfg, m, e), n - 1);
    }
  }

  /** A zero distance is below the gate `TIME_STEP * speed * speed / 20` of a moving enemy. */
  lemma BelowPositiveGate(d: real, timeStep: real, speed: real, maxD: real)
    requires 0.0 < timeStep && 0.0 < speed && maxD == timeStep * speed
    requires d == 0.0
    ensures d < maxD * speed / 20.0
  {
    MulPositive(timeStep, speed, maxD);
    MulPositive(maxD, speed, maxD * speed);
  }

  // ---------------------------------------------------------------------------
  // Fire

  /** The laser one enemy drops: 15 units below it, in front of the
      background, flipped to point down, falling, and despawned off screen. */
  function EnemyLaser(cfg: Config, e: EnemyEntity): (l: Laser)
    ensures l.transform.translation
              == Vec3(e.transform.translation.x, e.transform.translation.y - 15.0, 0.0)
    ensures l.transform.rotation == HalfTurnAboutX
    ensures l.transform.scale == Vec3(cfg.spriteScale, cfg.spriteScale, 1.0)
    ensures l.velocity == Velocity(0.0, -1.0)
    ensures l.movable.autoDespawn && l.origin == FromEnemy && l.size == cfg.enemyLaserSize
  {
    var pos := e.transform.translation;
    Laser(Transform(Vec3(pos.x, pos.y - 15.0, 0.0), HalfTurnAboutX,
                    Vec3(cfg.spriteScale, cfg.spriteScale, 1.0)),
          cfg.enemyLaserSize, FromEnemy, Movable(true), Velocity(0.0, -1.0))
  }

  /** The lasers one run of `enemy_fire_system` spawns, in query order:
      exactly one per enemy, each dropped by the enemy at the same index. */
  function FiredLasers(cfg: Config, es: seq<EnemyEntity>): (ls: seq<Laser>)
    ensures |ls| == |es|
    ensures forall i :: 0 <= i < |es| ==> ls[i] == EnemyLaser(cfg, es[i])
  {
    if es == [] then [] else [EnemyLaser(cfg, es[0])] + FiredLasers(cfg, es[1..])
  }

  /** Firing over two groups of enemies is firing over each in turn. */
  lemma {:induction false} FiredLasersAppend(cfg: Config, a: seq<EnemyEntity>, b: seq<EnemyEntity>)
    ensures FiredLasers(cfg, a + b) == FiredLasers(cfg, a) + FiredLasers(cfg, b)
  {
    if a != [] {
      assert (a + b)[1..] == a[1..] + b;
      FiredLasersAppend(cfg, a[1..], b);
    }
  }

  /** One more enemy adds its own laser at the end. */
  lemma FiredLasersSnoc(cfg: Config, es: seq<EnemyEntity>, e: EnemyEntity)
    ensures FiredLasers(cfg, es + [e]) == FiredLasers(cfg, es) + [EnemyLaser(cfg, e)]
  {
    FiredLasersAppend(cfg, es, [e]);
    assert FiredLasers(cfg, [e]) == [EnemyLaser(cfg, e)];
  }

  // ---------------------------------------------------------------------------
  // The systems, over the world's enemy population

  class EnemyWorld {
    const cfg: Config
    /** The `EnemyCount` resource. */
    var enemyCount: nat
    /** The entities tagged `Enemy`, in query order. */
    var enemies: seq<EnemyEntity>
    /** The laser entities spawned so far. */
    var lasers: seq<Laser>

    /** The counter tracks the population, which the cap bounds, and every
        formation has positive semi-axes. */
    ghost predicate Valid()
      reads this
    {
      enemyCount == |enemies| <= cfg.enemyMax &&
      forall i :: 0 <= i < |enemies| ==> ValidFormation(enemies[i].formation)
    }

    constructor (cfg: Config)
      ensures Valid() && this.cfg == cfg
      ensures enemyCount == 0 && enemies == [] && lasers == []
    {
      this.cfg := cfg;
      enemyCount := 0;
      enemies := [];
      lasers := [];
    }

    /** `enemy_spawn_system`, with the formation maker's output as input. */
    method SpawnEnemy(f: Formation)
      requires Valid() && ValidFormation(f)
      modifies this`enemyCount, this`enemies
      ensures Valid()
      ensures enemyCount == NextCount(old(enemyCount), cfg.enemyMax)
      ensures enemies == if old(enemyCount) < cfg.enemyMax
                         then old(enemies) + [SpawnedEnemy(cfg, f)] else old(enemies)
    {
      if enemyCount < cfg.enemyMax {
        enemies := enemies + [SpawnedEnemy(cfg, f)];
        enemyCount := enemyCount + 1;
      }
    }

    /** `enemy_move_system`: one flight step for every enemy. */
    method MoveEnemies(m: Math)
      requires Valid() && ValidMath(m)
      modifies this`enemies
      ensures Valid()
      ensures |enemies| == |old(enemies)|
      ensures forall i :: 0 <= i < |enemies| ==> enemies[i] == StepEnemy(cfg, m, old(enemies)[i])
    {
      var i := 0;
      while i < |enemies|
        invariant 0 <= i <= |enemies| == |old(enemies)|
        invariant Valid()
        invariant forall k :: 0 <= k < i ==> enemies[k] == StepEnemy(cfg, m, old(enemies)[k])
        invariant forall k :: i <= k < |enemies| ==> enemies[k] == old(enemies)[k]
      {
        enemies := enemies[i := StepEnemy(cfg, m, enemies[i])];
        i := i + 1;
      }
    }

    /** `enemy_fire_system`: every enemy drops one laser. */
    method FireEnemyLasers()
      requires Valid()
      modifies this`lasers
      ensures Valid()
      ensures lasers == old(lasers) + FiredLasers(cfg, enemies)
    {
      var i := 0;
      while i < |enemies|
        invariant 0 <= i <= |enemies|
        invariant lasers == old(lasers) + FiredLasers(cfg, enemies[..i])
      {
        FiredLasersSnoc(cfg, enemies[..i], enemies[i]);
        assert enemies[..i + 1] == enemies[..i] + [enemies[i]];
        lasers := lasers + [EnemyLaser(cfg, enemies[i])];
        i := i + 1;
      }
      assert enemies[..i] == enemies;
    }
  }
}
