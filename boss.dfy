/** The boss: it takes its threat state from the brain, moves its bullets and hits the player
    with them, and every two seconds launches a new volley and says something. */
module Boss {
  import opened Settings
  import opened Utils
  import opened AttackPatterns
  import opened AiBrain
  import opened Player

  /** The hp a bullet takes from the player on contact. */
  const ContactDamage: int := 10
  /** Seconds between two volleys. */
  const AttackCooldown: real := 2.0
  /** Seconds a line of dialogue stays up. */
  const DialogueDuration: real := 2.0
  /** How fast the spiral turns, in radians per second. */
  const RotationSpeed: real := 2.0

  /** The boss's lines for each threat state, under the state's name. */
  const Dialogues: map<string, seq<string>> := map[
    "tranquilo" := ["Facilito causa 😏", "Muévete ps jaja", "Ta' suave"],
    "furioso" := ["¡Ya me picaste mano! 😤", "¡Ahora sí! 💢", "¡Te voy a atrapar!"],
    "enajenado" := ["¡TE VOY A QUEBRAR! 💀", "¡MUEREEE! 🔥", "¡YA FUE!"]
  ]

  /** The lines of a state: every state has three. */
  function Quips(st: ThreatState): (q: seq<string>)
    ensures st.Name() in Dialogues && |q| == 3
  {
    Dialogues[st.Name()]
  }

  // ---------------------------------------------------------------------------
  // Bullets against the player

  /** Whether the bullet, after its step, is alive and touches the square `target`. */
  predicate Strikes(b: Bullet, geo: Geometry, target: Rect) {
    var n := b.Updated(geo);
    n.active && geo.collide(n.GetRect(), target)
  }

  /** Whether the bullet, after its step, is alive and does not touch `target`. */
  predicate Survives(b: Bullet, geo: Geometry, target: Rect) {
    var n := b.Updated(geo);
    n.active && !geo.collide(n.GetRect(), target)
  }

  /** One frame of the boss's bullets against the player's square `target`, in list order:
      each bullet takes its step; a dead one is dropped; an alive one touching the player
      hits for `ContactDamage` and is dropped; the others stay. The result is the bullets
      kept and the player's vitals after the hits. */
  function Swept(bs: seq<Bullet>, geo: Geometry, target: Rect, v: Vitals): (r: (seq<Bullet>, Vitals))
    ensures |r.0| <= |bs|
    ensures forall b | b in r.0 :: b.active
    decreases |bs|
  {
    if bs == [] then ([], v)
    else
      var (kept, w) := Swept(bs[..|bs| - 1], geo, target, v);
      var b := bs[|bs| - 1].Updated(geo);
      if !b.active then (kept, w)
      else if geo.collide(b.GetRect(), target) then (kept, Hit(w, ContactDamage).0)
      else (kept + [b], w)
  }

  /** The bullets kept are exactly the stepped bullets that are alive and miss the player. */
  lemma {:induction false} SweptMembers(bs: seq<Bullet>, geo: Geometry, target: Rect, v: Vitals)
    ensures forall b :: b in Swept(bs, geo, target, v).0 <==>
      exists k :: 0 <= k < |bs| && Survives(bs[k], geo, target) && b == bs[k].Updated(geo)
    decreases |bs|
  {
    if bs != [] {
      var n := |bs| - 1;
      var front := bs[..n];
      SweptMembers(front, geo, target, v);
      forall b
        ensures b in Swept(bs, geo, target, v).0 <==>
          exists k :: 0 <= k < |bs| && Survives(bs[k], geo, target) && b == bs[k].Updated(geo)
      {
        if b in Swept(bs, geo, target, v).0 {
          if b in Swept(front, geo, target, v).0 {
            var k :| 0 <= k < |front| && Survives(front[k], geo, target) && b == front[k].Updated(geo);
            assert bs[k] == front[k];
          } else {
            assert Survives(bs[n], geo, target) && b == bs[n].Updated(geo);
          }
        }
        if exists k :: 0 <= k < |bs| && Survives(bs[k], geo, target) && b == bs[k].Updated(geo) {
          var k :| 0 <= k < |bs| && Survives(bs[k], geo, target) && b == bs[k].Updated(geo);
          if k < n {
            assert front[k] == bs[k];
          }
        }
      }
    }
  }

  /** Whatever number of bullets touch the player in one frame, at most one hit lands: the
      first one makes the player invulnerable and absorbs the rest. The player's vitals end
      as after a single hit when some bullet strikes, and unchanged otherwise. */
  lemma {:induction false} SweptDamage(bs: seq<Bullet>, geo: Geometry, target: Rect, v: Vitals)
    ensures Swept(bs, geo, target, v).1 ==
      if exists k :: 0 <= k < |bs| && Strikes(bs[k], geo, target) then Hit(v, ContactDamage).0 else v
    decreases |bs|
  {
    if bs != [] {
      var n := |bs| - 1;
      var front := bs[..n];
      SweptDamage(front, geo, target, v);
      HitsAbsorbedWhileInvulnerable(v, ContactDamage, ContactDamage);
      if exists k :: 0 <= k < |front| && Strikes(front[k], geo, target) {
        var k :| 0 <= k < |front| && Strikes(front[k], geo, target);
        assert bs[k] == front[k];
      }
      if exists k :: 0 <= k < |bs| && Strikes(bs[k], geo, target) {
        var k :| 0 <= k < |bs| && Strikes(bs[k], geo, target);
        if k < n {
          assert front[k] == bs[k];
        }
      }
    }
  }

  /** Extending the list by one bullet extends the sweep by that bullet's step. */
  lemma {:induction false} SweptSnoc(bs: seq<Bullet>, b: Bullet, geo: Geometry, target: Rect, v: Vitals)
    ensures var (kept, w) := Swept(bs, geo, target, v);
      var n := b.Updated(geo);
      Swept(bs + [b], geo, target, v) ==
        if !n.active then (kept, w)
        else if geo.collide(n.GetRect(), target) then (kept, Hit(w, ContactDamage).0)
        else (kept + [n], w)
  {
    assert (bs + [b])[..|bs + [b]| - 1] == bs;
  }

  /** Sweeping a list joined from two sweeps the first part, then the second against the
      vitals the first left: the survivors keep their order and each bullet is kept or dropped
      on its own. */
  lemma {:induction false} SweptAppend(a: seq<Bullet>, b: seq<Bullet>, geo: Geometry, target: Rect, v: Vitals)
    ensures var (ka, va) := Swept(a, geo, target, v);
      var (kb, vb) := Swept(b, geo, target, va);
      Swept(a + b, geo, target, v) == (ka + kb, vb)
    decreases |b|
  {
    if b == [] {
      var (ka, va) := Swept(a, geo, target, v);
      assert a + b == a;
      assert Swept(b, geo, target, va) == ([], va);
      assert ka + [] == ka;
    } else {
      var n := |b| - 1;
      assert (a + b)[..|a + b| - 1] == a + b[..n];
      assert (a + b)[|a + b| - 1] == b[n];
      SweptAppend(a, b[..n], geo, target, v);
      var (ka, va) := Swept(a, geo, target, v);
      var (kp, vp) := Swept(b[..n], geo, target, va);
      var x := b[n].Updated(geo);
      assert Swept(b, geo, target, va) ==
        if !x.active then (kp, vp)
        else if geo.collide(x.GetRect(), target) then (kp, Hit(vp, ContactDamage).0)
        else (kp + [x], vp);
      assert Swept(a + b, geo, target, v) ==
        if !x.active then (ka + kp, vp)
        else if geo.collide(x.GetRect(), target) then (ka + kp, Hit(vp, ContactDamage).0)
        else ((ka + kp) + [x], vp);
      assert (ka + kp) + [x] == ka + (kp + [x]);
    }
  }

  // ---------------------------------------------------------------------------
  // Volleys

  /** The pattern speed of a state: the base bullet speed times the state's multiplier. */
  function VolleySpeed(st: ThreatState): real {
    (BulletBaseSpeed as real) * Config(st).speedMult
  }

  /** The candidate volleys of a state, in the source's order, from a boss at (bossX, bossY)
      against a player at (px, py) expected at `predicted`. */
  function Candidates(st: ThreatState, bossX: int, bossY: int, rotation: real, px: int, py: int,
                      predicted: (int, int), draw: nat -> real, geo: Geometry): (c: seq<seq<Bullet>>)
    ensures |c| == (if st == Enajenado then 3 else 2)
  {
    var speed := VolleySpeed(st);
    var color := Config(st).color;
    var x := bossX as real;
    var y := bossY as real;
    match st
    case Tranquilo =>
      [CircleBurstSpec(x, y, 8, speed, color), AimedShotSpec(x, y, px as real, py as real, speed, color, geo)]
    case Furioso =>
      [SpiralSpec(x, y, 12, speed, rotation, color),
       AimedShotSpec(x, y, predicted.0 as real, predicted.1 as real, speed * 1.5, color, geo)]
    case Enajenado =>
      [CircleBurstSpec(x, y, 20, speed, color), RandomSpraySpec(x, y, 30, speed, color, draw),
       WallSpec((ArenaX + ArenaWidth / 2) as real, ArenaY as real, true, 10, speed, 30.0, color)]
  }

  /** The volley the random choice `pick` selects among the candidates. */
  function Volley(st: ThreatState, bossX: int, bossY: int, rotation: real, px: int, py: int,
                  predicted: (int, int), pick: nat, draw: nat -> real, geo: Geometry): seq<Bullet>
  {
    var c := Candidates(st, bossX, bossY, rotation, px, py, predicted, draw, geo);
    c[pick % |c|]
  }

  /** What each choice launches: tranquilo a burst of 8 or one shot at the player; furioso a
      spiral of 12 turned by the boss's rotation or one shot, half again as fast, at where
      the brain expects the player; enajenado a burst of 20, a spray of 30 or a horizontal
      wall of 10 falling from the arena's top edge. Every bullet is alive, of the standard
      size and in the state's colour. */
  lemma {:induction false} VolleyKinds(st: ThreatState, bossX: int, bossY: int, rotation: real, px: int, py: int,
                                       predicted: (int, int), pick: nat, draw: nat -> real, geo: Geometry)
    ensures var r := Volley(st, bossX, bossY, rotation, px, py, predicted, pick, draw, geo);
      var x := bossX as real;
      var y := bossY as real;
      var speed := VolleySpeed(st);
      && (forall k :: 0 <= k < |r| ==> r[k].active && r[k].size == BulletSize && r[k].color == Config(st).color)
      && (st == Tranquilo && pick % 2 == 0 ==> |r| == 8 && Uniform(r, x, y, speed, Green))
      && (st == Tranquilo && pick % 2 == 1 ==>
            |r| == 1 && Uniform(r, x, y, speed, Green) && r[0].angle == geo.atan2(py as real - y, px as real - x))
      && (st == Furioso && pick % 2 == 0 ==>
            |r| == 12 && Uniform(r, x, y, speed, Yellow) && r[0].angle == rotation)
      && (st == Furioso && pick % 2 == 1 ==>
            |r| == 1 && Uniform(r, x, y, speed * 1.5, Yellow) &&
            r[0].angle == geo.atan2(predicted.1 as real - y, predicted.0 as real - x))
      && (st == Enajenado && pick % 3 == 0 ==> |r| == 20 && Uniform(r, x, y, speed, Red))
      && (st == Enajenado && pick % 3 == 1 ==> |r| == 30 && Uniform(r, x, y, speed, Red))
      && (st == Enajenado && pick % 3 == 2 ==>
            |r| == 10 && r[5].x == 400.0 && (forall k :: 0 <= k < |r| ==> r[k].y == 150.0 && r[k].speed == speed))
  {
    var x := bossX as real;
    var y := bossY as real;
    var speed := VolleySpeed(st);
    var color := Config(st).color;
    match st
    case Tranquilo =>
      CircleBurstShape(x, y, 8, speed, color);
      AimedShotShape(x, y, px as real, py as real, speed, color, geo);
    case Furioso =>
      SpiralIsRotatedBurst(x, y, 12, speed, rotation, color);
      CircleBurstShape(x, y, 12, speed, color);
      AimedShotShape(x, y, predicted.0 as real, predicted.1 as real, speed * 1.5, color, geo);
    case Enajenado =>
      CircleBurstShape(x, y, 20, speed, color);
      RandomSprayShape(x, y, 30, speed, color, draw);
      WallShape((ArenaX + ArenaWidth / 2) as real, ArenaY as real, true, 10, speed, 30.0, color);
  }

  // ---------------------------------------------------------------------------
  // The boss's state and one frame of it, as values

  /** The fields of the boss that change. */
  datatype BossState = BossState(hp: int, state: ThreatState, bullets: seq<Bullet>, attackTimer: real,
                                 rotation: real, currentDialogue: string, dialogueTimer: real)
  {
    /** The attack timer runs from 0 up to the cooldown, the bullets are alive, and the
        dialogue timer never exceeds the time a line stays up. */
    predicate Valid() {
      && 0.0 <= attackTimer < AttackCooldown
      && (forall b | b in bullets :: b.active)
      && dialogueTimer <= DialogueDuration
    }
  }

  /** The player's square as the boss's bullets see it. */
  function PlayerRect(px: int, py: int): Rect {
    Rect(px as real, py as real, PlayerSize as real, PlayerSize as real)
  }

  /** The start of a frame: the rotation advances and the threat state is decided. */
  function Turned(b: BossState, profile: Profile, playerHp: int, dt: real): BossState {
    b.(rotation := b.rotation + dt * RotationSpeed, state := Decided(profile, playerHp, b.hp))
  }

  /** The attack timer runs; on reaching the cooldown the chosen volley is launched, the
      timer restarts and a line of the state is chosen and shown. */
  function Attacked(b: BossState, bossX: int, bossY: int, profile: Profile, px: int, py: int, dt: real,
                    geo: Geometry, pick: nat, quip: nat, draw: nat -> real): BossState {
    var timer := b.attackTimer + dt;
    if timer >= AttackCooldown then
      var volley := Volley(b.state, bossX, bossY, b.rotation, px, py,
                           Predicted(profile.preferredDirection, px, py), pick, draw, geo);
      b.(bullets := b.bullets + volley, attackTimer := 0.0,
         currentDialogue := Quips(b.state)[quip % 3], dialogueTimer := DialogueDuration)
    else b.(attackTimer := timer)
  }

  /** The end of a frame: a line still up counts down. */
  function DialogueTicked(b: BossState, dt: real): BossState {
    if b.dialogueTimer > 0.0 then b.(dialogueTimer := b.dialogueTimer - dt) else b
  }

  /** One frame of the boss at (bossX, bossY), given the brain's profile and the player at
      (px, py) with `pv` as vitals; the second result is the player's vitals after the
      bullets. */
  function BossFrame(b: BossState, bossX: int, bossY: int, profile: Profile, pv: Vitals, px: int, py: int,
                     dt: real, geo: Geometry, pick: nat, quip: nat, draw: nat -> real): (BossState, Vitals)
  {
    var t := Turned(b, profile, pv.hp, dt);
    var (kept, v) := Swept(t.bullets, geo, PlayerRect(px, py), pv);
    (DialogueTicked(Attacked(t.(bullets := kept), bossX, bossY, profile, px, py, dt, geo, pick, quip, draw), dt), v)
  }

  /** A volley has at most 30 bullets, all alive. */
  lemma {:induction false} VolleyAlive(st: ThreatState, bossX: int, bossY: int, rotation: real, px: int, py: int,
                                       predicted: (int, int), pick: nat, draw: nat -> real, geo: Geometry)
    ensures var r := Volley(st, bossX, bossY, rotation, px, py, predicted, pick, draw, geo);
      |r| <= 30 && forall b | b in r :: b.active
  {
    VolleyKinds(st, bossX, bossY, rotation, px, py, predicted, pick, draw, geo);
  }

  /** Nothing in a frame of the boss changes its own hp. */
  lemma {:induction false} BossFrameKeepsHp(b: BossState, bossX: int, bossY: int, profile: Profile, pv: Vitals,
                                            px: int, py: int, dt: real, geo: Geometry, pick: nat, quip: nat,
                                            draw: nat -> real)
    ensures BossFrame(b, bossX, bossY, profile, pv, px, py, dt, geo, pick, quip, draw).0.hp == b.hp
  {
  }

  /** A frame keeps the boss's state valid for any non-negative frame time. */
  lemma {:induction false} BossFrameKeepsValid(b: BossState, bossX: int, bossY: int, profile: Profile, pv: Vitals,
                                               px: int, py: int, dt: real, geo: Geometry, pick: nat, quip: nat,
                                               draw: nat -> real)
    requires b.Valid() && dt >= 0.0
    ensures BossFrame(b, bossX, bossY, profile, pv, px, py, dt, geo, pick, quip, draw).0.Valid()
  {
    var t := Turned(b, profile, pv.hp, dt);
    var kept := Swept(t.bullets, geo, PlayerRect(px, py), pv).0;
    var a := Attacked(t.(bullets := kept), bossX, bossY, profile, px, py, dt, geo, pick, quip, draw);
    VolleyAlive(t.state, bossX, bossY, t.rotation, px, py, Predicted(profile.preferredDirection, px, py), pick, draw, geo);
    assert a.Valid();
  }

  /** The rules of a frame: the boss's hp never changes; the threat state is decided on the
      player's hp before this frame's hits; the volley comes exactly when the attack timer
      reaches the cooldown, and only then a new line is chosen among the state's three and
      shown for two seconds, counted down already in this frame; the rotation grows by 2 per
      second. The player's vitals are those of at most one bullet hit. */
  lemma {:induction false} BossFrameRules(b: BossState, bossX: int, bossY: int, profile: Profile, pv: Vitals,
                                          px: int, py: int, dt: real, geo: Geometry, pick: nat, quip: nat,
                                          draw: nat -> real)
    ensures var (r, v) := BossFrame(b, bossX, bossY, profile, pv, px, py, dt, geo, pick, quip, draw);
      var attacks := b.attackTimer + dt >= AttackCooldown;
      var kept := Swept(b.bullets, geo, PlayerRect(px, py), pv).0;
      && r.hp == b.hp
      && r.state == Decided(profile, pv.hp, b.hp)
      && r.rotation == b.rotation + 2.0 * dt
      && (attacks ==> r.currentDialogue in Quips(r.state) && r.dialogueTimer == 2.0 - dt && r.attackTimer == 0.0 &&
                      r.bullets == kept + Volley(r.state, bossX, bossY, r.rotation, px, py,
                                                 Predicted(profile.preferredDirection, px, py), pick, draw, geo))
      && (!attacks ==> r.currentDialogue == b.currentDialogue && r.bullets == kept &&
                       r.attackTimer == b.attackTimer + dt)
      && |kept| <= |r.bullets| <= |b.bullets| + (if attacks then 30 else 0)
      && (v == pv || v == Hit(pv, ContactDamage).0)
  {
    var t := Turned(b, profile, pv.hp, dt);
    var kept := Swept(t.bullets, geo, PlayerRect(px, py), pv).0;
    VolleyAlive(t.state, bossX, bossY, t.rotation, px, py, Predicted(profile.preferredDirection, px, py), pick, draw, geo);
    SweptDamage(b.bullets, geo, PlayerRect(px, py), pv);
    assert Quips(t.state)[quip % 3] in Quips(t.state);
  }

  class Boss {
    const x: int
    const y: int
    var hp: int
    const maxHp: int := BossHp
    var state: ThreatState
    const ai: AIBrain

    var bullets: seq<Bullet>
    var attackTimer: real
    const attackCooldown: real := AttackCooldown
    var rotation: real

    const dialogues: map<string, seq<string>> := Dialogues
    var currentDialogue: string
    var dialogueTimer: real

    /** The boss's changing fields as one value. */
    ghost function State(): BossState
      reads this
    {
      BossState(hp, state, bullets, attackTimer, rotation, currentDialogue, dialogueTimer)
    }

    ghost predicate Valid()
      reads this
    {
      State().Valid()
    }

    /** A boss at (x, y) with full hp, calm, without bullets or words. */
    constructor (x: int, y: int, ai: AIBrain)
      ensures this.x == x && this.y == y && this.ai == ai
      ensures State() == BossState(BossHp, Tranquilo, [], 0.0, 0.0, "", 0.0)
      ensures Valid()
    {
      this.x := x;
      this.y := y;
      hp := BossHp;
      state := Tranquilo;
      this.ai := ai;
      bullets := [];
      attackTimer := 0.0;
      rotation := 0.0;
      currentDialogue := "";
      dialogueTimer := 0.0;
    }

    /** One frame against `player`: the boss's new state and the player's vitals are those
        of `BossFrame`; nothing else of the player changes. `pick` and `quip` are the random
        choices of volley and line, `draw` the uniform draws of a spray. */
    method Update(dt: real, player: Player, geo: Geometry, pick: nat, quip: nat, draw: nat -> real)
      requires Valid() && player.Valid() && dt >= 0.0
      modifies this, player
      ensures Valid() && player.Valid()
      ensures var (r, v) := BossFrame(old(State()), x, y, ai.playerData, old(player.State().vitals),
                                      player.x, player.y, dt, geo, pick, quip, draw);
        State() == r && player.State() == old(player.State()).(vitals := v)
    {
      ghost var b0 := State();
      ghost var p0 := player.State();
      rotation := rotation + dt * RotationSpeed;
      state := ai.DecideBossState(player.hp, hp, dialogueTimer);
      ghost var t := State();
      assert t == Turned(b0, ai.playerData, p0.vitals.hp, dt);
      SweepBullets(player, geo);
      ghost var k := State();
      TickAttack(player, dt, pick, quip, draw, geo);
      ghost var a := State();
      if dialogueTimer > 0.0 {
        dialogueTimer := dialogueTimer - dt;
      }
      assert State() == DialogueTicked(a, dt);
      BossFrameKeepsValid(b0, x, y, ai.playerData, p0.vitals, player.x, player.y, dt, geo, pick, quip, draw);
    }

    /** Moves every bullet, drops the dead ones and those that hit the player, who takes
        the damage; the result is `Swept` of the old bullets. */
    method SweepBullets(player: Player, geo: Geometry)
      requires player.Valid()
      modifies this`bullets, player
      ensures player.Valid()
      ensures var (kept, v) := Swept(old(bullets), geo, PlayerRect(player.x, player.y), old(player.State().vitals));
        bullets == kept && player.State() == old(player.State()).(vitals := v)
    {
      ghost var p0 := player.State();
      var snapshot := bullets;
      var target := player.GetRect();
      var kept: seq<Bullet> := [];
      var i := 0;
      while i < |snapshot|
        invariant 0 <= i <= |snapshot|
        invariant player.Valid()
        invariant (kept, player.State().vitals) == Swept(snapshot[..i], geo, target, p0.vitals)
        invariant player.State() == p0.(vitals := player.State().vitals)
      {
        var bullet := snapshot[i].Updated(geo);
        SweptSnoc(snapshot[..i], snapshot[i], geo, target, p0.vitals);
        if !bullet.active {
        } else if geo.collide(bullet.GetRect(), player.GetRect()) {
          var _ := player.TakeDamage(ContactDamage);
        } else {
          kept := kept + [bullet];
        }
        assert snapshot[..i + 1] == snapshot[..i] + [snapshot[i]];
        i := i + 1;
      }
      assert snapshot[..i] == snapshot;
      bullets := kept;
    }

    /** Runs the attack timer and, on reaching the cooldown, attacks and speaks. */
    method TickAttack(player: Player, dt: real, pick: nat, quip: nat, draw: nat -> real, geo: Geometry)
      modifies this`bullets, this`attackTimer, this`currentDialogue, this`dialogueTimer
      ensures State() == Attacked(old(State()), x, y, ai.playerData, player.x, player.y, dt, geo, pick, quip, draw)
    {
      attackTimer := attackTimer + dt;
      if attackTimer >= attackCooldown {
        Attack(player, pick, draw, geo);
        attackTimer := 0.0;
        ShowDialogue(quip);
      }
    }

    /** Launches the volley of the current state chosen by `pick`: all candidates are built,
        as in the source, and one is appended to the bullets. */
    method Attack(player: Player, pick: nat, draw: nat -> real, geo: Geometry)
      modifies this`bullets
      ensures bullets == old(bullets) + Volley(state, x, y, rotation, player.x, player.y,
                                               Predicted(ai.playerData.preferredDirection, player.x, player.y),
                                               pick, draw, geo)
    {
      var speed := (BulletBaseSpeed as real) * Config(state).speedMult;
      var color := Config(state).color;
      var (predX, predY) := ai.GetPredictedPosition(player.x, player.y);
      var candidates: seq<seq<Bullet>>;
      if state == Tranquilo {
        var burst := CircleBurst(x as real, y as real, 8, speed, color);
        var shot := AimedShot(x as real, y as real, player.x as real, player.y as real, speed, color, geo);
        candidates := [burst, shot];
      } else if state == Furioso {
        var spiral := Spiral(x as real, y as real, 12, speed, rotation, color);
        var shot := AimedShot(x as real, y as real, predX as real, predY as real, speed * 1.5, color, geo);
        candidates := [spiral, shot];
      } else {
        var burst := CircleBurst(x as real, y as real, 20, speed, color);
        var spray := RandomSpray(x as real, y as real, 30, speed, color, draw);
        var wall := Wall((ArenaX + ArenaWidth / 2) as real, ArenaY as real, true, 10, speed, 30.0, color);
        candidates := [burst, spray, wall];
      }
      assert candidates == Candidates(state, x, y, rotation, player.x, player.y, (predX, predY), draw, geo);
      bullets := bullets + candidates[pick % |candidates|];
    }

    /** Picks line `quip` (modulo three) of the current state and shows it for two seconds. */
    method ShowDialogue(quip: nat)
      modifies this`currentDialogue, this`dialogueTimer
      ensures currentDialogue == Quips(state)[quip % 3] && currentDialogue in Quips(state)
      ensures dialogueTimer == DialogueDuration
    {
      var lines := dialogues[state.Name()];
      currentDialogue := lines[quip % |lines|];
      dialogueTimer := DialogueDuration;
    }
  }
}
