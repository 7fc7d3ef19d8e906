/** The player: movement inside the arena, the dodge tally the AI learns from, damage with an
    invulnerability window, and the attack mode that dodging unlocks (shots and a
    once-per-activation special attack). */
module Player {
  import opened Settings
  import opened Utils
  import AttackPatterns

  // ---------------------------------------------------------------------------
  // Values

  /** The four dodge directions, in the order in which the tally lists them. */
  datatype Direction = Left | Right | Up | Down {
    function Name(): string {
      match this
      case Left => "left"
      case Right => "right"
      case Up => "up"
      case Down => "down"
    }
  }

  /** Dodges counted per direction. */
  datatype Dodges = Dodges(left: int, right: int, up: int, down: int) {
    function Count(d: Direction): int {
      match d
      case Left => left
      case Right => right
      case Up => up
      case Down => down
    }

    function Total(): int {
      left + right + up + down
    }
  }

  const NoDodges: Dodges := Dodges(0, 0, 0, 0)

  /** Constants the player relies on that the game's settings do not define; they are given
      when the player is created. */
  datatype Tuning = Tuning(specialAttackDamage: int, bulletSpeed: real, bulletDamage: int,
                           specialAttackDodges: int, specialAttackWindow: real,
                           shootCooldown: real, cyan: Color, gold: Color)
  {
    predicate Valid() {
      specialAttackDamage > 0 && bulletSpeed > 0.0 && bulletDamage > 0 &&
      specialAttackDodges > 0 && specialAttackWindow > 0.0 && shootCooldown > 0.0
    }
  }

  /** The keys held during a frame: an arrow key or its letter twin (A, D, W, S), fire
      (Z or space) and the special attack (X). */
  datatype Keys = Keys(left: bool, right: bool, up: bool, down: bool, fire: bool, special: bool)

  /** A movement vector in pixels per frame. */
  datatype Move = Move(dx: int, dy: int)

  /** Whether any movement key is held. */
  predicate Moved(keys: Keys) {
    keys.left || keys.right || keys.up || keys.down
  }

  /** The movement the held keys ask for; opposite keys cancel out. */
  function Movement(keys: Keys, speed: int): (m: Move)
    requires speed > 0
    ensures m.dx < 0 <==> keys.left && !keys.right
    ensures m.dx > 0 <==> keys.right && !keys.left
    ensures m.dy < 0 <==> keys.up && !keys.down
    ensures m.dy > 0 <==> keys.down && !keys.up
    ensures -speed <= m.dx <= speed && -speed <= m.dy <= speed
  {
    Move((if keys.left then -speed else 0) + (if keys.right then speed else 0),
         (if keys.up then -speed else 0) + (if keys.down then speed else 0))
  }

  /** The dodge bookkeeping: counts per direction, their total, the meter that unlocks the
      attack mode, and the last movement vector. */
  datatype Tally = Tally(dodges: Dodges, total: int, forSpecial: int, last: Move)

  /** One frame of dodge counting: only a movement that differs from the previous one counts,
      once per axis on which it moves. */
  function RecordDodges(t: Tally, keys: Keys, speed: int): Tally
    requires speed > 0
  {
    if !Moved(keys) then t else RecordMove(t, Movement(keys, speed))
  }

  /** The tally after a frame that moved by `m`: a change of movement counts once per axis on
      which `m` moves, and `m` becomes the last movement. */
  function RecordMove(t: Tally, m: Move): Tally {
    if m == t.last then t
    else
      var d := t.dodges;
      var gain := (if m.dx != 0 then 1 else 0) + (if m.dy != 0 then 1 else 0);
      Tally(Dodges(d.left + (if m.dx < 0 then 1 else 0), d.right + (if m.dx > 0 then 1 else 0),
                   d.up + (if m.dy < 0 then 1 else 0), d.down + (if m.dy > 0 then 1 else 0)),
            t.total + gain, t.forSpecial + gain, m)
  }

  /** Dodge counts never decrease; they change only on a frame with movement that differs
      from the last one; at most one of left/right and one of up/down grows, each by one;
      the total and the meter grow by exactly what the four counts gained; the last movement
      is the new one whenever a key is held. */
  lemma {:induction false} DodgeCounting(t: Tally, keys: Keys, speed: int)
    requires speed > 0
    ensures var t' := RecordDodges(t, keys, speed);
      var m := Movement(keys, speed);
      (forall d: Direction :: t.dodges.Count(d) <= t'.dodges.Count(d) <= t.dodges.Count(d) + 1) &&
      (t'.dodges != t.dodges ==> Moved(keys) && m != t.last) &&
      (t'.dodges.left == t.dodges.left || t'.dodges.right == t.dodges.right) &&
      (t'.dodges.up == t.dodges.up || t'.dodges.down == t.dodges.down) &&
      t'.total - t.total == t'.dodges.Total() - t.dodges.Total() == t'.forSpecial - t.forSpecial &&
      t'.last == (if Moved(keys) then m else t.last)
  {
    var t' := RecordDodges(t, keys, speed);
    forall d: Direction
      ensures t.dodges.Count(d) <= t'.dodges.Count(d) <= t.dodges.Count(d) + 1
    {
      if Moved(keys) && Movement(keys, speed) != t.last {
        match d
        case Left =>
        case Right =>
        case Up =>
        case Down =>
      }
    }
  }

  /** The state damage acts on. */
  datatype Vitals = Vitals(hp: int, hitsTaken: int, invulnerable: bool, invulnTimer: real)

  /** Taking `amount` of damage; the flag tells whether the hit brought hp to zero. */
  function Hit(v: Vitals, amount: int): (r: (Vitals, bool))
    ensures v.invulnerable ==> r == (v, false)
    ensures !v.invulnerable ==>
      r.0.hitsTaken == v.hitsTaken + 1 && r.0.invulnerable && r.0.invulnTimer == 0.0 &&
      r.0.hp >= 0 && (r.0.hp == v.hp - amount || (r.0.hp == 0 && v.hp - amount <= 0))
    ensures r.1 <==> !v.invulnerable && r.0.hp == 0
  {
    if v.invulnerable then (v, false)
    else
      var hp := v.hp - amount;
      if hp <= 0 then (Vitals(0, v.hitsTaken + 1, true, 0.0), true)
      else (Vitals(hp, v.hitsTaken + 1, true, 0.0), false)
  }

  /** Within the invulnerability window every further hit is absorbed. */
  lemma {:induction false} HitsAbsorbedWhileInvulnerable(v: Vitals, first: int, second: int)
    ensures Hit(Hit(v, first).0, second) == (Hit(v, first).0, false)
  {
  }

  /** The invulnerability timer runs while invulnerable and ends the window after `duration`. */
  function InvulnerabilityAfter(v: Vitals, dt: real, duration: real): (r: Vitals)
    ensures r.hp == v.hp && r.hitsTaken == v.hitsTaken
    ensures !v.invulnerable ==> r == v
    ensures v.invulnerable ==>
      if v.invulnTimer + dt >= duration then !r.invulnerable && r.invulnTimer == 0.0
      else r.invulnerable && r.invulnTimer == v.invulnTimer + dt
  {
    if !v.invulnerable then v
    else if v.invulnTimer + dt >= duration then v.(invulnerable := false, invulnTimer := 0.0)
    else v.(invulnTimer := v.invulnTimer + dt)
  }

  /** A window of 1.0 after a hit: a second hit 0.5 later is absorbed, one 1.1 later lands. */
  lemma {:induction false} InvulnerabilityScenario(v: Vitals)
    requires !v.invulnerable && v.hp > 20
    ensures var hit := Hit(v, 10).0;
      var half := InvulnerabilityAfter(hit, 0.5, 1.0);
      Hit(half, 10).0 == half &&
      var later := InvulnerabilityAfter(InvulnerabilityAfter(hit, 0.5, 1.0), 0.6, 1.0);
      Hit(later, 10).0.hp == v.hp - 20
  {
  }

  /** The attack-mode part of the state. */
  datatype ModeState = ModeState(attackMode: bool, timer: real, forSpecial: int, canUseSpecial: bool)

  /** One frame of the attack mode: enter it when the meter reaches `threshold`, run its timer,
      and leave it (the flag) once the timer reaches `window`. */
  function AttackModeAfter(m: ModeState, threshold: int, window: real, dt: real): (ModeState, bool) {
    var a := if m.forSpecial >= threshold && !m.attackMode then ModeState(true, 0.0, m.forSpecial, true) else m;
    if a.attackMode then
      if a.timer + dt >= window then (ModeState(false, 0.0, 0, false), true)
      else (a.(timer := a.timer + dt), false)
    else (a, false)
  }

  /** The attack mode starts when the meter reaches the threshold outside attack mode (timer
      from 0, special available); it ends exactly when its timer reaches the window (meter
      emptied, special gone); at rest it stays at rest and keeps the meter below the threshold;
      in it the timer is below the window. */
  lemma {:induction false} AttackModeRules(m: ModeState, threshold: int, window: real, dt: real)
    requires threshold > 0 && window > 0.0
    ensures var (r, expired) := AttackModeAfter(m, threshold, window, dt);
      var entering := !m.attackMode && m.forSpecial >= threshold;
      var running := m.attackMode || entering;
      var elapsed := (if entering then 0.0 else m.timer) + dt;
      (expired <==> running && elapsed >= window) &&
      (expired ==> r == ModeState(false, 0.0, 0, false)) &&
      (running && !expired ==> r.attackMode && r.timer == elapsed && r.forSpecial == m.forSpecial &&
                               r.canUseSpecial == (entering || m.canUseSpecial)) &&
      (!running ==> r == m && m.forSpecial < threshold) &&
      (r.attackMode ==> r.timer < window) &&
      (!r.attackMode ==> r.forSpecial < threshold || r == m)
  {
  }

  // ---------------------------------------------------------------------------
  // The player's shots and shockwaves

  /** The whole window, edges included, is where a player's shot stays alive. */
  predicate InWindow(x: real, y: real) {
    !(x < 0.0 || x > Width as real || y < 0.0 || y > Height as real)
  }

  /** A shot of the player: position, heading (radians), speed in pixels per frame, radius,
      colour, whether it is alive, and the damage it carries. */
  datatype PlayerBullet = PlayerBullet(x: real, y: real, angle: real, speed: real, size: int,
                                       color: Color, active: bool, damage: int)
  {
    /** One step along the heading; a shot that leaves the window is dead for good, and
        nothing but the position and the flag changes. */
    function Updated(geo: Geometry): (b: PlayerBullet)
      ensures b.x == x + geo.cos(angle) * speed && b.y == y + geo.sin(angle) * speed
      ensures b.active <==> active && InWindow(b.x, b.y)
      ensures b.(x := x, y := y, active := active) == this
    {
      var nx := x + geo.cos(angle) * speed;
      var ny := y + geo.sin(angle) * speed;
      this.(x := nx, y := ny, active := active && !(nx < 0.0 || nx > Width as real || ny < 0.0 || ny > Height as real))
    }

    /** The collision box without a sprite: the square of side twice the radius centred on
        the shot. */
    function Box(): (r: Rect)
      ensures r.width == r.height == 2.0 * size as real
      ensures r.left + r.width / 2.0 == x && r.top + r.height / 2.0 == y
    {
      Rect(x - size as real, y - size as real, (size * 2) as real, (size * 2) as real)
    }
  }

  /** A new shot: the player's speed, damage and colour, radius 12, alive. */
  function NewBullet(x: real, y: real, angle: real, tuning: Tuning): (b: PlayerBullet)
    ensures b.x == x && b.y == y && b.angle == angle && b.active && b.size == 12
    ensures b.speed == tuning.bulletSpeed && b.damage == tuning.bulletDamage && b.color == tuning.cyan
  {
    PlayerBullet(x, y, angle, tuning.bulletSpeed, 12, tuning.cyan, true, tuning.bulletDamage)
  }

  /** The shots after one step each, the dead ones dropped and the rest kept in their order. */
  function Flight(bs: seq<PlayerBullet>, geo: Geometry): (r: seq<PlayerBullet>)
    ensures |r| <= |bs|
    ensures forall b | b in r :: b.active
  {
    if bs == [] then []
    else
      var n := |bs| - 1;
      var b := bs[n].Updated(geo);
      Flight(bs[..n], geo) + (if b.active then [b] else [])
  }

  /** A shot survives the step exactly when its stepped self is alive: every survivor is the
      step of a listed shot, and every listed shot whose step is alive survives. */
  lemma {:induction false} FlightMembers(bs: seq<PlayerBullet>, geo: Geometry)
    ensures forall b :: b in Flight(bs, geo) <==>
      exists j :: 0 <= j < |bs| && b == bs[j].Updated(geo) && b.active
  {
    if bs != [] {
      var n := |bs| - 1;
      FlightMembers(bs[..n], geo);
      forall b | b in Flight(bs, geo)
        ensures exists j :: 0 <= j < |bs| && b == bs[j].Updated(geo) && b.active
      {
        if b !in Flight(bs[..n], geo) {
          assert b == bs[n].Updated(geo);
        } else {
          var j :| 0 <= j < n && b == bs[..n][j].Updated(geo) && b.active;
          assert bs[..n][j] == bs[j];
        }
      }
      forall b | exists j :: 0 <= j < |bs| && b == bs[j].Updated(geo) && b.active
        ensures b in Flight(bs, geo)
      {
        var j :| 0 <= j < |bs| && b == bs[j].Updated(geo) && b.active;
        if j < n {
          assert bs[..n][j] == bs[j];
        }
      }
    }
  }

  /** Stepping a list joined from two steps each part. */
  lemma {:induction false} FlightAppend(a: seq<PlayerBullet>, b: seq<PlayerBullet>, geo: Geometry)
    ensures Flight(a + b, geo) == Flight(a, geo) + Flight(b, geo)
    decreases |b|
  {
    if b != [] {
      var n := |b| - 1;
      assert (a + b)[..|a + b| - 1] == a + b[..n];
      assert (a + b)[|a + b| - 1] == b[n];
      FlightAppend(a, b[..n], geo);
    } else {
      assert a + b == a;
    }
  }

  const SpecialStartRadius: real := 20.0
  const SpecialMaxRadius: real := 200.0
  const SpecialExpansionSpeed: real := 300.0

  /** The shockwave of the special attack: its centre, radius, growth, damage, whether it is
      alive, and whether it has already hit. */
  datatype SpecialAttack = SpecialAttack(x: int, y: int, radius: real, maxRadius: real,
                                         expansionSpeed: real, damage: int, active: bool, hasHit: bool)
  {
    /** The wave grows by its expansion speed per second and dies once it reaches its
        largest radius; nothing else changes. */
    function Updated(dt: real): (s: SpecialAttack)
      ensures s.radius == radius + expansionSpeed * dt
      ensures s.active <==> active && s.radius < maxRadius
      ensures s.(radius := radius, active := active) == this
    {
      var r := radius + expansionSpeed * dt;
      this.(radius := r, active := if r >= maxRadius then false else active)
    }
  }

  /** A new shockwave: radius 20 growing by 300 per second up to 200, the special's damage,
      alive and not yet hit. */
  function NewSpecial(x: int, y: int, tuning: Tuning): (s: SpecialAttack)
    ensures s.x == x && s.y == y && s.radius == 20.0 && s.maxRadius == 200.0
    ensures s.expansionSpeed == 300.0 && s.damage == tuning.specialAttackDamage && s.active && !s.hasHit
  {
    SpecialAttack(x, y, SpecialStartRadius, SpecialMaxRadius, SpecialExpansionSpeed,
                  tuning.specialAttackDamage, true, false)
  }

  /** The shockwaves after one step each, the spent ones dropped and the rest kept in order. */
  function Spread(ss: seq<SpecialAttack>, dt: real): (r: seq<SpecialAttack>)
    ensures |r| <= |ss|
    ensures forall s | s in r :: s.active
  {
    if ss == [] then []
    else
      var n := |ss| - 1;
      var s := ss[n].Updated(dt);
      Spread(ss[..n], dt) + (if s.active then [s] else [])
  }

  /** A wave survives the step exactly when its grown self is alive. */
  lemma {:induction false} SpreadMembers(ss: seq<SpecialAttack>, dt: real)
    ensures forall s :: s in Spread(ss, dt) <==>
      exists j :: 0 <= j < |ss| && s == ss[j].Updated(dt) && s.active
  {
    if ss != [] {
      var n := |ss| - 1;
      SpreadMembers(ss[..n], dt);
      forall s | s in Spread(ss, dt)
        ensures exists j :: 0 <= j < |ss| && s == ss[j].Updated(dt) && s.active
      {
        if s !in Spread(ss[..n], dt) {
          assert s == ss[n].Updated(dt);
        } else {
          var j :| 0 <= j < n && s == ss[..n][j].Updated(dt) && s.active;
          assert ss[..n][j] == ss[j];
        }
      }
      forall s | exists j :: 0 <= j < |ss| && s == ss[j].Updated(dt) && s.active
        ensures s in Spread(ss, dt)
      {
        var j :| 0 <= j < |ss| && s == ss[j].Updated(dt) && s.active;
        if j < n {
          assert ss[..n][j] == ss[j];
        }
      }
    }
  }

  /** A wave after `n` steps of `dt` each. */
  function Grow(s: SpecialAttack, dt: real, n: nat): SpecialAttack {
    if n == 0 then s else Grow(s, dt, n - 1).Updated(dt)
  }

  /** With frames of a fixed positive length, a new shockwave's radius after `n` frames is
      20 + 300 * dt * n, and it is still alive exactly while that radius is below 200. */
  lemma {:induction false} ShockwaveLifetime(x: int, y: int, tuning: Tuning, dt: real, n: nat)
    requires dt > 0.0
    ensures Grow(NewSpecial(x, y, tuning), dt, n).radius == 20.0 + 300.0 * dt * n as real
    ensures Grow(NewSpecial(x, y, tuning), dt, n).active <==> 20.0 + 300.0 * dt * n as real < 200.0
  {
    if n > 0 {
      ShockwaveLifetime(x, y, tuning, dt, n - 1);
      var s := Grow(NewSpecial(x, y, tuning), dt, n - 1);
      assert s.maxRadius == 200.0 && s.expansionSpeed == 300.0 by {
        GrowKeepsShape(NewSpecial(x, y, tuning), dt, n - 1);
      }
      assert 300.0 * dt * (n - 1) as real + 300.0 * dt == 300.0 * dt * n as real;
      assert 300.0 * dt * (n - 1) as real <= 300.0 * dt * n as real;
    }
  }

  /** Growing changes only the radius and the flag. */
  lemma {:induction false} GrowKeepsShape(s: SpecialAttack, dt: real, n: nat)
    ensures Grow(s, dt, n).(radius := s.radius, active := s.active) == s
  {
    if n > 0 {
      GrowKeepsShape(s, dt, n - 1);
    }
  }

  // ---------------------------------------------------------------------------
  // The player's state and one frame of it, as values

  /** How long a hit keeps the player invulnerable, in seconds. */
  const InvulnDuration: real := 1.0

  /** Everything about the player that a frame changes. `specialsThisActivation` counts the
      special attacks cast since the attack mode was last entered. */
  datatype PlayerState = PlayerState(
    x: int, y: int, vitals: Vitals, tally: Tally,
    attackMode: bool, attackModeTimer: real, canUseSpecial: bool,
    shootCooldown: real, shotsFired: int,
    bullets: seq<PlayerBullet>, specialAttacks: seq<SpecialAttack>,
    specialsThisActivation: nat)
  {
    function Mode(): ModeState {
      ModeState(attackMode, attackModeTimer, tally.forSpecial, canUseSpecial)
    }

    /** What every frame keeps: counts that add up, a meter below the threshold and no shots
        outside the attack mode, a running window shorter than its length, at most one
        special per activation, and only live shots and shockwaves in the lists. */
    predicate Valid(tuning: Tuning) {
      Sound(tuning) && (!attackMode ==> tally.forSpecial < tuning.specialAttackDodges)
    }

    /** The invariant without its bound on the meter, which moving may break until the
        attack-mode step of the same frame restores it. */
    predicate Sound(tuning: Tuning) {
      && tuning.Valid()
      && vitals.hp >= 0
      && tally.dodges.left >= 0 && tally.dodges.right >= 0 && tally.dodges.up >= 0 && tally.dodges.down >= 0
      && tally.total == tally.dodges.left + tally.dodges.right + tally.dodges.up + tally.dodges.down
      && 0 <= tally.forSpecial <= tally.total
      && shootCooldown >= 0.0
      && (canUseSpecial ==> attackMode)
      && (!attackMode ==> attackModeTimer == 0.0)
      && (attackMode ==> attackModeTimer < tuning.specialAttackWindow)
      && (!vitals.invulnerable ==> vitals.invulnTimer == 0.0)
      && specialsThisActivation + (if canUseSpecial then 1 else 0) <= 1
      && (!attackMode ==> bullets == [])
      && (forall b | b in bullets :: b.active)
      && (forall s | s in specialAttacks :: s.active)
    }
  }

  /** The shot fired from where the player stands: straight up from the centre of its square. */
  function ShotFrom(s: PlayerState, tuning: Tuning): PlayerBullet {
    NewBullet((s.x + PlayerSize / 2) as real, (s.y + PlayerSize / 2) as real, -AttackPatterns.Pi / 2.0, tuning)
  }

  /** The shockwave cast from where the player stands: centred on its square. */
  function WaveFrom(s: PlayerState, tuning: Tuning): SpecialAttack {
    NewSpecial(s.x + PlayerSize / 2, s.y + PlayerSize / 2, tuning)
  }

  /** Reading the movement keys: dodge counting, then the move clamped to the arena. */
  function Steered(s: PlayerState, keys: Keys): PlayerState {
    var m := Movement(keys, PlayerSpeed);
    s.(x := Clamp(s.x + m.dx, ArenaX, ArenaX + ArenaWidth - PlayerSize),
       y := Clamp(s.y + m.dy, ArenaY, ArenaY + ArenaHeight - PlayerSize),
       tally := RecordDodges(s.tally, keys, PlayerSpeed))
  }

  /** The attack-mode step of `AttackModeAfter` applied to the state; leaving the mode clears
      the shots and entering it restarts the count of specials. The flag tells whether the
      mode ended. */
  function ModeTicked(s: PlayerState, tuning: Tuning, dt: real): (PlayerState, bool) {
    var (m, expired) := AttackModeAfter(s.Mode(), tuning.specialAttackDodges, tuning.specialAttackWindow, dt);
    var entered := !s.attackMode && s.tally.forSpecial >= tuning.specialAttackDodges;
    (s.(attackMode := m.attackMode, attackModeTimer := m.timer, canUseSpecial := m.canUseSpecial,
        tally := s.tally.(forSpecial := m.forSpecial),
        bullets := if expired then [] else s.bullets,
        specialsThisActivation := if entered then 0 else s.specialsThisActivation),
     expired)
  }

  function InvulnTicked(s: PlayerState, dt: real): PlayerState {
    s.(vitals := InvulnerabilityAfter(s.vitals, dt, InvulnDuration))
  }

  /** The cooldown once this frame's time is taken off, never below 0. */
  function Cooled(s: PlayerState, dt: real): real {
    if s.shootCooldown - dt > 0.0 then s.shootCooldown - dt else 0.0
  }

  /** The frame shoots: attack mode, fire held, cooldown over. */
  predicate Shoots(s: PlayerState, dt: real, keys: Keys) {
    s.attackMode && keys.fire && Cooled(s, dt) <= 0.0
  }

  /** The frame casts the special: attack mode, special key held, special still available. */
  predicate Casts(s: PlayerState, keys: Keys) {
    s.attackMode && keys.special && s.canUseSpecial
  }

  /** The shooting step: the cooldown runs down, a shot restarts it, a cast spends the
      special. */
  function Fired(s: PlayerState, tuning: Tuning, dt: real, keys: Keys): PlayerState {
    var fired := Shoots(s, dt, keys);
    var cast := Casts(s, keys);
    s.(shootCooldown := if fired then tuning.shootCooldown else Cooled(s, dt),
       shotsFired := s.shotsFired + (if fired then 1 else 0),
       bullets := s.bullets + (if fired then [ShotFrom(s, tuning)] else []),
       canUseSpecial := s.canUseSpecial && !cast,
       specialAttacks := s.specialAttacks + (if cast then [WaveFrom(s, tuning)] else []),
       specialsThisActivation := s.specialsThisActivation + (if cast then 1 else 0))
  }

  function Advanced(s: PlayerState, dt: real, geo: Geometry): PlayerState {
    s.(bullets := Flight(s.bullets, geo), specialAttacks := Spread(s.specialAttacks, dt))
  }

  /** One frame of the player: steering, the attack mode, invulnerability, shooting, then the
      shots and shockwaves advance. */
  function Frame(s: PlayerState, tuning: Tuning, dt: real, keys: Keys, geo: Geometry): PlayerState {
    var s1 := Steered(s, keys);
    var s2 := ModeTicked(s1, tuning, dt).0;
    var s3 := InvulnTicked(s2, dt);
    Advanced(Fired(s3, tuning, dt, keys), dt, geo)
  }

  /** A frame keeps the player's invariant. */
  lemma {:induction false} FrameKeepsValid(s: PlayerState, tuning: Tuning, dt: real, keys: Keys, geo: Geometry)
    requires s.Valid(tuning)
    ensures Frame(s, tuning, dt, keys, geo).Valid(tuning)
  {
    var s1 := Steered(s, keys);
    SteeredSound(s, tuning, keys);
    var s2 := ModeTicked(s1, tuning, dt).0;
    ModeTickedValid(s1, tuning, dt);
    var s3 := InvulnTicked(s2, dt);
    assert s3.Valid(tuning);
    var s4 := Fired(s3, tuning, dt, keys);
    assert s4.Valid(tuning);
    assert Frame(s, tuning, dt, keys, geo) == Advanced(s4, dt, geo);
  }

  lemma {:induction false} SteeredSound(s: PlayerState, tuning: Tuning, keys: Keys)
    requires s.Valid(tuning)
    ensures Steered(s, keys).Sound(tuning)
  {
    DodgeCounting(s.tally, keys, PlayerSpeed);
  }

  lemma {:induction false} ModeTickedValid(s: PlayerState, tuning: Tuning, dt: real)
    requires s.Sound(tuning)
    ensures ModeTicked(s, tuning, dt).0.Valid(tuning)
  {
    AttackModeRules(s.Mode(), tuning.specialAttackDodges, tuning.specialAttackWindow, dt);
  }

  /** The attack mode a frame runs with: `AttackModeAfter` applied to the meter as the
      frame's movement left it; the flag tells whether the mode ran out. */
  function ModeOfFrame(s: PlayerState, tuning: Tuning, dt: real, keys: Keys): (ModeState, bool) {
    var t := RecordDodges(s.tally, keys, PlayerSpeed);
    AttackModeAfter(s.Mode().(forSpecial := t.forSpecial), tuning.specialAttackDodges, tuning.specialAttackWindow, dt)
  }

  /** Movement: the player moves by what the keys ask for, clamped to the arena, so it ends
      every frame inside the arena; the dodge counts and the last movement follow
      `RecordDodges`. */
  lemma {:induction false} FrameMovement(s: PlayerState, tuning: Tuning, dt: real, keys: Keys, geo: Geometry)
    ensures var r := Frame(s, tuning, dt, keys, geo);
      var m := Movement(keys, PlayerSpeed);
      var t := RecordDodges(s.tally, keys, PlayerSpeed);
      && r.x == Clamp(s.x + m.dx, ArenaX, ArenaX + ArenaWidth - PlayerSize)
      && r.y == Clamp(s.y + m.dy, ArenaY, ArenaY + ArenaHeight - PlayerSize)
      && ArenaX <= r.x <= ArenaX + ArenaWidth - PlayerSize && ArenaY <= r.y <= ArenaY + ArenaHeight - PlayerSize
      && r.tally.dodges == t.dodges && r.tally.total == t.total && r.tally.last == t.last
      && r.vitals == InvulnerabilityAfter(s.vitals, dt, InvulnDuration)
  {
  }

  /** The attack mode: after a frame it is the one `ModeOfFrame` gives, except that a cast
      spends the special. */
  lemma {:induction false} FrameMode(s: PlayerState, tuning: Tuning, dt: real, keys: Keys, geo: Geometry)
    ensures var r := Frame(s, tuning, dt, keys, geo);
      var (mode, _) := ModeOfFrame(s, tuning, dt, keys);
      var cast := mode.attackMode && keys.special && mode.canUseSpecial;
      r.Mode() == mode.(canUseSpecial := mode.canUseSpecial && !cast)
  {
    var s1 := Steered(s, keys);
    assert s1.Mode() == s.Mode().(forSpecial := s1.tally.forSpecial);
  }

  /** Shooting: a shot is fired exactly in attack mode with fire held and the cooldown over;
      it restarts the cooldown and is counted. Running out of attack mode clears the earlier
      shots; every shot then advances once and only the live ones stay. */
  lemma {:induction false} FrameShooting(s: PlayerState, tuning: Tuning, dt: real, keys: Keys, geo: Geometry)
    ensures var r := Frame(s, tuning, dt, keys, geo);
      var (mode, expired) := ModeOfFrame(s, tuning, dt, keys);
      var cooled := if s.shootCooldown - dt > 0.0 then s.shootCooldown - dt else 0.0;
      var fired := mode.attackMode && keys.fire && cooled <= 0.0;
      var shot := NewBullet((r.x + PlayerSize / 2) as real, (r.y + PlayerSize / 2) as real,
                            -AttackPatterns.Pi / 2.0, tuning);
      && r.shotsFired == s.shotsFired + (if fired then 1 else 0)
      && r.shootCooldown == (if fired then tuning.shootCooldown else cooled)
      && r.bullets == Flight((if expired then [] else s.bullets) + (if fired then [shot] else []), geo)
  {
    var s1 := Steered(s, keys);
    assert s1.Mode() == s.Mode().(forSpecial := s1.tally.forSpecial);
    var (s2, expired) := ModeTicked(s1, tuning, dt);
    assert (s2.Mode(), expired) == ModeOfFrame(s, tuning, dt, keys);
    assert s2.bullets == if expired then [] else s.bullets;
    var s3 := InvulnTicked(s2, dt);
    assert s3.x == s1.x && s3.y == s1.y && s3.shootCooldown == s.shootCooldown;
    var s4 := Fired(s3, tuning, dt, keys);
    assert Frame(s, tuning, dt, keys, geo) == Advanced(s4, dt, geo);
    assert Shoots(s3, dt, keys) == (s2.attackMode && keys.fire && Cooled(s, dt) <= 0.0);
  }

  /** The special attack: it is cast exactly in attack mode with its key held while still
      available, from the player's centre; every shockwave then grows once and only the
      live ones stay. */
  lemma {:induction false} FrameSpecial(s: PlayerState, tuning: Tuning, dt: real, keys: Keys, geo: Geometry)
    ensures var r := Frame(s, tuning, dt, keys, geo);
      var (mode, _) := ModeOfFrame(s, tuning, dt, keys);
      var cast := mode.attackMode && keys.special && mode.canUseSpecial;
      var wave := NewSpecial(r.x + PlayerSize / 2, r.y + PlayerSize / 2, tuning);
      r.specialAttacks == Spread(s.specialAttacks + (if cast then [wave] else []), dt)
  {
    var s1 := Steered(s, keys);
    assert s1.Mode() == s.Mode().(forSpecial := s1.tally.forSpecial);
  }

  /** Outside the attack mode nothing is fired: a frame that starts and ends outside it
      leaves the shot count where it was, no shots, and no new shockwave. */
  lemma {:induction false} NoFireOutsideAttackMode(s: PlayerState, tuning: Tuning, dt: real, keys: Keys, geo: Geometry)
    requires s.Valid(tuning) && !s.attackMode
    ensures var r := Frame(s, tuning, dt, keys, geo);
      !r.attackMode ==>
        r.shotsFired == s.shotsFired && r.bullets == [] && r.specialAttacks == Spread(s.specialAttacks, dt)
  {
    var r := Frame(s, tuning, dt, keys, geo);
    FrameShooting(s, tuning, dt, keys, geo);
    FrameSpecial(s, tuning, dt, keys, geo);
    FrameMode(s, tuning, dt, keys, geo);
    var (mode, expired) := ModeOfFrame(s, tuning, dt, keys);
    var t := RecordDodges(s.tally, keys, PlayerSpeed);
    AttackModeRules(s.Mode().(forSpecial := t.forSpecial), tuning.specialAttackDodges, tuning.specialAttackWindow, dt);
    if !r.attackMode {
      assert !mode.attackMode;
      assert s.specialAttacks + [] == s.specialAttacks;
      assert (if expired then [] else s.bullets) + [] == [];
    }
  }

  /** A player at (x, y) before the fight: full hp, no dodges, no shots, no attack mode. */
  function Start(x: int, y: int): PlayerState {
    PlayerState(x, y, Vitals(PlayerHp, 0, false, 0.0), Tally(NoDodges, 0, 0, Move(0, 0)),
                false, 0.0, false, 0.0, 0, [], [], 0)
  }

  // ---------------------------------------------------------------------------
  // The player

  class Player {
    var x: int
    var y: int
    const size: int := PlayerSize
    const speed: int := PlayerSpeed
    var hp: int
    const maxHp: int := PlayerHp
    var invulnerable: bool
    var invulnTimer: real
    const invulnDuration: real := InvulnDuration

    var bullets: seq<PlayerBullet>
    var shootCooldown: real
    var specialAttacks: seq<SpecialAttack>

    var totalDodges: int
    var dodgesForSpecial: int
    var attackMode: bool
    var attackModeTimer: real
    var canUseSpecial: bool

    var dodges: Dodges
    var hitsTaken: int
    var shotsFired: int
    var lastMovement: Move

    const tuning: Tuning

    /** Special attacks cast since the attack mode was last entered. */
    ghost var specialsThisActivation: nat

    /** The player's fields as one value. */
    ghost function State(): PlayerState
      reads this
    {
      PlayerState(x, y, Vitals(hp, hitsTaken, invulnerable, invulnTimer),
                  Tally(dodges, totalDodges, dodgesForSpecial, lastMovement),
                  attackMode, attackModeTimer, canUseSpecial, shootCooldown, shotsFired,
                  bullets, specialAttacks, specialsThisActivation)
    }

    ghost predicate Valid()
      reads this
    {
      State().Valid(tuning)
    }

    /** The collision rectangle: the player's square, top-left corner at (x, y). */
    function GetRect(): (r: Rect)
      reads this`x, this`y
      ensures r.left == x as real && r.top == y as real && r.width == r.height == size as real
    {
      Rect(x as real, y as real, size as real, size as real)
    }

    /** A player at (x, y) in the state `Start`. */
    constructor (x: int, y: int, tuning: Tuning)
      requires tuning.Valid()
      ensures this.tuning == tuning
      ensures State() == Start(x, y) && Valid()
    {
      this.x := x;
      this.y := y;
      hp := PlayerHp;
      invulnerable := false;
      invulnTimer := 0.0;
      bullets := [];
      shootCooldown := 0.0;
      specialAttacks := [];
      totalDodges := 0;
      dodgesForSpecial := 0;
      attackMode := false;
      attackModeTimer := 0.0;
      canUseSpecial := false;
      dodges := NoDodges;
      hitsTaken := 0;
      shotsFired := 0;
      lastMovement := Move(0, 0);
      this.tuning := tuning;
      specialsThisActivation := 0;
    }

    /** One frame of play with the given held keys: the new state is `Frame` of the old one,
        whose rules the `Frame...` lemmas state; the invariant is kept. */
    method Update(dt: real, keys: Keys, geo: Geometry)
      requires Valid()
      modifies this
      ensures Valid()
      ensures State() == Frame(old(State()), tuning, dt, keys, geo)
    {
      ghost var s0 := State();
      Steer(keys);
      var _ := TickAttackMode(dt);
      TickInvulnerability(dt);
      Fire(dt, keys);
      AdvanceBullets(geo);
      AdvanceSpecials(dt);
      FrameKeepsValid(s0, tuning, dt, keys, geo);
    }

    /** Reading the movement keys: count a dodge when the movement vector changes, then move
        and stay inside the arena. */
    method Steer(keys: Keys)
      modifies this`x, this`y, this`dodges, this`totalDodges, this`dodgesForSpecial, this`lastMovement
      ensures State() == Steered(old(State()), keys)
    {
      var dx, dy, moved := 0, 0, false;
      if keys.left {
        dx := dx - speed;
        moved := true;
      }
      if keys.right {
        dx := dx + speed;
        moved := true;
      }
      if keys.up {
        dy := dy - speed;
        moved := true;
      }
      if keys.down {
        dy := dy + speed;
        moved := true;
      }
      assert Move(dx, dy) == Movement(keys, speed) && moved == Moved(keys);
      if moved {
        CountDodges(dx, dy);
      }
      x := Clamp(x + dx, ArenaX, ArenaX + ArenaWidth - size);
      y := Clamp(y + dy, ArenaY, ArenaY + ArenaHeight - size);
    }

    /** The dodge bookkeeping of a frame that moved by (dx, dy): a change of movement counts a
        dodge per axis moved on, and the movement is remembered. */
    method CountDodges(dx: int, dy: int)
      modifies this`dodges, this`totalDodges, this`dodgesForSpecial, this`lastMovement
      ensures State() == old(State()).(tally := RecordMove(old(State()).tally, Move(dx, dy)))
    {
      if dx != lastMovement.dx || dy != lastMovement.dy {
        if dx < 0 {
          dodges := dodges.(left := dodges.left + 1);
          dodgesForSpecial := dodgesForSpecial + 1;
          totalDodges := totalDodges + 1;
        } else if dx > 0 {
          dodges := dodges.(right := dodges.right + 1);
          dodgesForSpecial := dodgesForSpecial + 1;
          totalDodges := totalDodges + 1;
        }
        if dy < 0 {
          dodges := dodges.(up := dodges.up + 1);
          dodgesForSpecial := dodgesForSpecial + 1;
          totalDodges := totalDodges + 1;
        } else if dy > 0 {
          dodges := dodges.(down := dodges.down + 1);
          dodgesForSpecial := dodgesForSpecial + 1;
          totalDodges := totalDodges + 1;
        }
      }
      lastMovement := Move(dx, dy);
    }

    /** The attack-mode part of a frame: enter on a full meter, run the timer, leave when the
        window is over. The result tells whether the mode ended. */
    method TickAttackMode(dt: real) returns (ghost expired: bool)
      modifies this`attackMode, this`attackModeTimer, this`canUseSpecial, this`dodgesForSpecial,
               this`bullets, this`specialsThisActivation
      ensures (State(), expired) == ModeTicked(old(State()), tuning, dt)
    {
      expired := false;
      if dodgesForSpecial >= tuning.specialAttackDodges && !attackMode {
        ActivateAttackMode();
      }
      if attackMode {
        attackModeTimer := attackModeTimer + dt;
        if attackModeTimer >= tuning.specialAttackWindow {
          DeactivateAttackMode();
          expired := true;
        }
      }
    }

    /** The invulnerability part of a frame: its timer runs and it ends once the timer reaches
        the duration. */
    method TickInvulnerability(dt: real)
      modifies this`invulnerable, this`invulnTimer
      ensures State() == InvulnTicked(old(State()), dt)
    {
      if invulnerable {
        invulnTimer := invulnTimer + dt;
        if invulnTimer >= invulnDuration {
          invulnerable := false;
          invulnTimer := 0.0;
        }
      }
    }

    /** The shooting part of a frame: the cooldown runs down (not below 0); in attack mode a
        held fire key shoots once the cooldown is over and restarts it, and a held special key
        casts the special if it is still available. */
    method Fire(dt: real, keys: Keys)
      modifies this`shootCooldown, this`bullets, this`shotsFired, this`specialAttacks,
               this`canUseSpecial, this`specialsThisActivation
      ensures State() == Fired(old(State()), tuning, dt, keys)
    {
      shootCooldown := if shootCooldown - dt > 0.0 then shootCooldown - dt else 0.0;
      if attackMode {
        if keys.fire && shootCooldown <= 0.0 {
          Shoot();
          shootCooldown := tuning.shootCooldown;
        }
        if keys.special && canUseSpecial {
          UseSpecialAttack();
        }
      }
    }

    method ActivateAttackMode()
      modifies this`attackMode, this`attackModeTimer, this`canUseSpecial, this`specialsThisActivation
      ensures State() == old(State()).(attackMode := true, attackModeTimer := 0.0, canUseSpecial := true,
                                       specialsThisActivation := 0)
    {
      attackMode := true;
      attackModeTimer := 0.0;
      canUseSpecial := true;
      specialsThisActivation := 0;
    }

    method DeactivateAttackMode()
      modifies this`attackMode, this`attackModeTimer, this`dodgesForSpecial, this`canUseSpecial,
               this`bullets
      ensures State() == old(State()).(attackMode := false, attackModeTimer := 0.0, canUseSpecial := false,
                                       tally := old(State()).tally.(forSpecial := 0), bullets := [])
    {
      attackMode := false;
      attackModeTimer := 0.0;
      dodgesForSpecial := 0;
      canUseSpecial := false;
      ClearBullets();
    }

    /** Casts the shockwave from the player's centre; the special is then spent. */
    method UseSpecialAttack()
      modifies this`specialAttacks, this`canUseSpecial, this`specialsThisActivation
      ensures State() == old(State()).(specialAttacks := old(specialAttacks) + [WaveFrom(old(State()), tuning)],
                                       canUseSpecial := false,
                                       specialsThisActivation := old(specialsThisActivation) + 1)
    {
      var centerX := x + size / 2;
      var centerY := y + size / 2;
      var special := NewSpecial(centerX, centerY, tuning);
      specialAttacks := specialAttacks + [special];
      canUseSpecial := false;
      specialsThisActivation := specialsThisActivation + 1;
    }

    method ClearBullets()
      modifies this`bullets
      ensures State() == old(State()).(bullets := [])
    {
      bullets := [];
    }

    /** Fires one shot straight up from the player's centre. */
    method Shoot()
      modifies this`bullets, this`shotsFired
      ensures State() == old(State()).(bullets := old(bullets) + [ShotFrom(old(State()), tuning)],
                                       shotsFired := old(shotsFired) + 1)
    {
      var centerX := x + size / 2;
      var centerY := y + size / 2;
      var angle := -AttackPatterns.Pi / 2.0;
      var bullet := NewBullet(centerX as real, centerY as real, angle, tuning);
      bullets := bullets + [bullet];
      shotsFired := shotsFired + 1;
    }

    /** Damage unless invulnerable: hp falls by `amount` but not below 0, the hit is counted
        and the invulnerability window starts; the result tells whether hp reached 0. */
    method TakeDamage(amount: int) returns (dead: bool)
      requires Valid()
      modifies this`hp, this`hitsTaken, this`invulnerable, this`invulnTimer
      ensures Valid()
      ensures var (v, d) := Hit(old(State()).vitals, amount); State() == old(State()).(vitals := v) && dead == d
    {
      dead := false;
      if !invulnerable {
        hp := hp - amount;
        hitsTaken := hitsTaken + 1;
        invulnerable := true;
        invulnTimer := 0.0;
        if hp <= 0 {
          hp := 0;
          dead := true;
        }
      }
    }

    /** Leaves the attack mode and drops every shot and shockwave; hp and the dodge counts
        stay. */
    method ResetForNewPhase()
      requires Valid()
      modifies this`dodgesForSpecial, this`attackMode, this`attackModeTimer, this`canUseSpecial,
               this`bullets, this`specialAttacks
      ensures Valid()
      ensures State() == old(State()).(tally := old(State()).tally.(forSpecial := 0), attackMode := false,
                                       attackModeTimer := 0.0, canUseSpecial := false,
                                       bullets := [], specialAttacks := [])
    {
      dodgesForSpecial := 0;
      attackMode := false;
      attackModeTimer := 0.0;
      canUseSpecial := false;
      ClearBullets();
      specialAttacks := [];
    }

    /** Advances every shot once and drops the dead ones, keeping the order. The source walks a
        copy of the list and removes each dead shot from the original; here the surviving shots
        are collected in order and the list is replaced by them, which leaves the same list. */
    method AdvanceBullets(geo: Geometry)
      modifies this`bullets
      ensures State() == old(State()).(bullets := Flight(old(bullets), geo))
    {
      var snapshot := bullets;
      var kept: seq<PlayerBullet> := [];
      var i := 0;
      while i < |snapshot|
        invariant 0 <= i <= |snapshot|
        invariant kept == Flight(snapshot[..i], geo)
      {
        var bullet := snapshot[i].Updated(geo);
        assert snapshot[..i + 1][..i] == snapshot[..i];
        if bullet.active {
          kept := kept + [bullet];
        }
        i := i + 1;
      }
      assert snapshot[..i] == snapshot;
      bullets := kept;
    }

    /** Grows every shockwave once and drops the spent ones, keeping the order (collected the
        same way as the shots). */
    method AdvanceSpecials(dt: real)
      modifies this`specialAttacks
      ensures State() == old(State()).(specialAttacks := Spread(old(specialAttacks), dt))
    {
      var snapshot := specialAttacks;
      var kept: seq<SpecialAttack> := [];
      var i := 0;
      while i < |snapshot|
        invariant 0 <= i <= |snapshot|
        invariant kept == Spread(snapshot[..i], dt)
      {
        var special := snapshot[i].Updated(dt);
        assert snapshot[..i + 1][..i] == snapshot[..i];
        if special.active {
          kept := kept + [special];
        }
        i := i + 1;
      }
      assert snapshot[..i] == snapshot;
      specialAttacks := kept;
    }
  }
}
