/** The player rules of src/player.rs: the start position, the per-frame
    integration of the velocity, and the left/right keyboard control. */
module PlayerSystems {
  import opened Components

  /** An entity carrying `Player`, a `Transform` and a `Velocity`. */
  datatype PlayerEntity = PlayerEntity(transform: Transform, velocity: Velocity)

  /** The player `player_spawn_system` creates in a window of height `winH`:
      centred horizontally, its scaled sprite resting 5 units above the
      bottom edge of the window, and at rest. */
  function SpawnedPlayer(cfg: Config, winH: real): (p: PlayerEntity)
    ensures p.transform.translation.x == 0.0 && p.transform.translation.z == 10.0
    ensures p.transform.translation.y - cfg.playerSize.h / 2.0 * cfg.spriteScale == -winH / 2.0 + 5.0
    ensures p.transform.rotation == Identity
    ensures p.transform.scale == Vec3(cfg.spriteScale, cfg.spriteScale, 1.0)
    ensures p.velocity == Velocity(0.0, 0.0)
  {
    var bottom := -winH / 2.0;
    PlayerEntity(Transform(Vec3(0.0, bottom + cfg.playerSize.h / 2.0 * cfg.spriteScale + 5.0, 10.0),
                           Identity, Vec3(cfg.spriteScale, cfg.spriteScale, 1.0)),
                 Velocity(0.0, 0.0))
  }

  /** The distance one unit of velocity covers in a frame: `TIME_STEP * BASE_SPEED`. */
  function FrameSpeed(cfg: Config): real {
    cfg.timeStep * cfg.baseSpeed
  }

  /** One frame of `player_movement_system` for one player. */
  function Integrated(cfg: Config, p: PlayerEntity): (r: PlayerEntity)
    ensures r.transform.translation.x - p.transform.translation.x == p.velocity.x * FrameSpeed(cfg)
    ensures r.transform.translation.y - p.transform.translation.y == p.velocity.y * FrameSpeed(cfg)
    ensures r.transform.translation.z == p.transform.translation.z
    ensures r.transform.rotation == p.transform.rotation && r.transform.scale == p.transform.scale
    ensures r.velocity == p.velocity
    ensures p.velocity == Velocity(0.0, 0.0) ==> r == p
  {
    var t := p.transform.translation;
    var x := t.x + p.velocity.x * cfg.timeStep * cfg.baseSpeed;
    var y := t.y + p.velocity.y * cfg.timeStep * cfg.baseSpeed;
    p.(transform := p.transform.(translation := t.(x := x, y := y)))
  }

  /** Reversing the velocity for one frame undoes a frame of movement. */
  lemma ReverseUndoesMove(cfg: Config, p: PlayerEntity)
    ensures var q := Integrated(cfg, p);
            var back := q.(velocity := Velocity(-p.velocity.x, -p.velocity.y));
            Integrated(cfg, back).transform == p.transform
  {
    var q := Integrated(cfg, p);
    var back := q.(velocity := Velocity(-p.velocity.x, -p.velocity.y));
    assert -p.velocity.x * FrameSpeed(cfg) == -(p.velocity.x * FrameSpeed(cfg));
    assert -p.velocity.y * FrameSpeed(cfg) == -(p.velocity.y * FrameSpeed(cfg));
  }

  /** The player after `n` frames of movement. */
  function Moved(cfg: Config, p: PlayerEntity, n: nat): PlayerEntity
    decreases n
  {
    if n == 0 then p else Moved(cfg, Integrated(cfg, p), n - 1)
  }

  /** `n * c`, one step at a time. */
  lemma ScaledStep(c: real, n: nat)
    requires 0 < n
    ensures ((n - 1) as real) * c + c == (n as real) * c
  {
  }

  /** The player moves in a straight line at constant speed: after `n` frames
      it is displaced by `n` times one frame's displacement. */
  lemma {:induction false} MovedClosedForm(cfg: Config, p: PlayerEntity, n: nat)
    ensures Moved(cfg, p, n).velocity == p.velocity
    ensures Moved(cfg, p, n).transform.translation.x
            == p.transform.translation.x + (n as real) * (p.velocity.x * FrameSpeed(cfg))
    ensures Moved(cfg, p, n).transform.translation.y
            == p.transform.translation.y + (n as real) * (p.velocity.y * FrameSpeed(cfg))
    ensures Moved(cfg, p, n).transform.translation.z == p.transform.translation.z
    decreases n
  {
    if n > 0 {
      var q := Integrated(cfg, p);
      MovedClosedForm(cfg, q, n - 1);
      var cx, cy := p.velocity.x * FrameSpeed(cfg), p.velocity.y * FrameSpeed(cfg);
      assert q.transform.translation.x == p.transform.translation.x + cx;
      assert q.transform.translation.y == p.transform.translation.y + cy;
      ScaledStep(cx, n);
      ScaledStep(cy, n);
    }
  }

  /** The horizontal velocity the keyboard selects: Left wins over Right. */
  function KeyVelocityX(left: bool, right: bool): (v: real)
    ensures v == -1.0 || v == 0.0 || v == 1.0
    ensures v == -1.0 <==> left
    ensures v == 1.0 <==> !left && right
    ensures v == 0.0 <==> !left && !right
  {
    if left then -1.0 else if right then 1.0 else 0.0
  }

  /** The velocity after a key event, given the one before. */
  function Steered(p: PlayerEntity, left: bool, right: bool): (r: PlayerEntity)
    ensures r.transform == p.transform && r.velocity.y == p.velocity.y
    ensures r.velocity.x == KeyVelocityX(left, right)
  {
    p.(velocity := p.velocity.(x := KeyVelocityX(left, right)))
  }

  /** With a positive frame speed, the next frame after a key event moves the
      player left while Left is held, right while only Right is held, and not
      horizontally when neither is. */
  lemma SteeringMovesPlayer(cfg: Config, p: PlayerEntity, left: bool, right: bool)
    requires 0.0 < FrameSpeed(cfg)
    ensures var x0 := p.transform.translation.x;
            var x1 := Integrated(cfg, Steered(p, left, right)).transform.translation.x;
            (x1 < x0 <==> left) && (x0 < x1 <==> !left && right) && (x1 == x0 <==> !left && !right)
  {
    var s := FrameSpeed(cfg);
    var v := KeyVelocityX(left, right);
    assert v * s == if left then -s else if right then s else 0.0;
  }

  // ---------------------------------------------------------------------------
  // The systems, over the world's player entities

  class PlayerWorld {
    const cfg: Config
    /** The entities tagged `Player`, in query order. */
    var players: seq<PlayerEntity>

    constructor (cfg: Config)
      ensures this.cfg == cfg && players == []
    {
      this.cfg := cfg;
      players := [];
    }

    /** `player_spawn_system`, for a window of height `winH`. */
    method SpawnPlayer(winH: real)
      modifies this`players
      ensures players == old(players) + [SpawnedPlayer(cfg, winH)]
    {
      players := players + [SpawnedPlayer(cfg, winH)];
    }

    /** `player_movement_system`: one frame of movement for every player. */
    method MovePlayers()
      modifies this`players
      ensures |players| == |old(players)|
      ensures forall i :: 0 <= i < |players| ==> players[i] == Integrated(cfg, old(players)[i])
    {
      var i := 0;
      while i < |players|
        invariant 0 <= i <= |players| == |old(players)|
        invariant forall k :: 0 <= k < i ==> players[k] == Integrated(cfg, old(players)[k])
        invariant forall k :: i <= k < |players| ==> players[k] == old(players)[k]
      {
        players := players[i := Integrated(cfg, players[i])];
        i := i + 1;
      }
    }

    /** `player_keyboard_event_system`: steers the player only when there is
        exactly one; with none or several, nothing changes. */
    method KeyboardEvent(left: bool, right: bool)
      modifies this`players
      ensures |old(players)| == 1 ==> players == [Steered(old(players)[0], left, right)]
      ensures |old(players)| != 1 ==> players == old(players)
    {
      if |players| == 1 {
        players := [Steered(players[0], left, right)];
      }
    }
  }
}
