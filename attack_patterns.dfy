/** The boss's projectiles and the pattern constructors that launch them in batches. */
module AttackPatterns {
  import opened Settings
  import opened Utils

  /** The circle constant of the maths library. */
  const Pi: real := 3.141592653589793

  /** The bounds rule: a bullet stays alive while it is inside the arena inflated by 50
      on every side, edges included. */
  predicate InArenaBounds(x: real, y: real) {
    PointInRect(x, y, (ArenaX - 50) as real, (ArenaY - 50) as real,
                (ArenaWidth + 100) as real, (ArenaHeight + 100) as real)
  }

  /** The inflated arena is the closed rectangle [150, 650] x [100, 500]; a point on its
      edge is inside, and a point beyond any edge is outside. */
  lemma {:induction false} ArenaBoundsExplicit(x: real, y: real)
    ensures InArenaBounds(x, y) <==> 150.0 <= x <= 650.0 && 100.0 <= y <= 500.0
    ensures InArenaBounds(650.0, y) <==> 100.0 <= y <= 500.0
    ensures x > 650.0 || x < 150.0 || y > 500.0 || y < 100.0 ==> !InArenaBounds(x, y)
  {
  }

  /** A bullet of the boss: position, heading (radians), speed in pixels per frame, radius,
      colour, and whether it is alive. */
  datatype Bullet = Bullet(x: real, y: real, angle: real, speed: real, size: int, color: Color, active: bool)
  {
    /** The collision rectangle: a square of side 2 * size centred on the bullet. */
    function GetRect(): (r: Rect)
      ensures r.width == r.height == (2 * size) as real
      ensures r.left + r.width / 2.0 == x && r.top + r.height / 2.0 == y
    {
      Rect(x - size as real, y - size as real, (size * 2) as real, (size * 2) as real)
    }

    /** One step along the heading; leaving the inflated arena deactivates the bullet for
        good; nothing but the position and the flag changes. */
    function Updated(geo: Geometry): (b: Bullet)
      ensures b.x == x + geo.cos(angle) * speed && b.y == y + geo.sin(angle) * speed
      ensures b.active <==> active && InArenaBounds(b.x, b.y)
      ensures b.(x := x, y := y, active := active) == this
    {
      var nx := x + geo.cos(angle) * speed;
      var ny := y + geo.sin(angle) * speed;
      this.(x := nx, y := ny, active := if !InArenaBounds(nx, ny) then false else active)
    }
  }

  /** A bullet just constructed: the standard size, alive. */
  function Launched(x: real, y: real, angle: real, speed: real, color: Color): Bullet {
    Bullet(x, y, angle, speed, BulletSize, color, true)
  }

  /** How many times `range(count)` runs. */
  function Runs(count: int): nat {
    if count > 0 then count else 0
  }

  /** The angle between neighbouring bullets of a full circle of `count` bullets. */
  function AngleStep(count: int): real
    requires count != 0
  {
    (2.0 * Pi) / (count as real)
  }

  // ---------------------------------------------------------------------------
  // Pattern specifications: the batch each constructor returns, as values

  /** The heading of the i-th bullet of a full circle. */
  function BurstAngle(count: int, i: int): real
    requires count != 0
  {
    AngleStep(count) * (i as real)
  }
  function CircleBurstSpec(x: real, y: real, count: int, speed: real, color: Color): seq<Bullet>
    requires count != 0
  {
    seq(Runs(count), i => Launched(x, y, BurstAngle(count, i), speed, color))
  }

  function AimedShotSpec(x: real, y: real, targetX: real, targetY: real, speed: real, color: Color,
                         geo: Geometry): seq<Bullet>
  {
    [Launched(x, y, geo.atan2(targetY - y, targetX - x), speed, color)]
  }

  function SpiralSpec(x: real, y: real, count: int, speed: real, rotation: real, color: Color): seq<Bullet>
    requires count != 0
  {
    seq(Runs(count), i => Launched(x, y, BurstAngle(count, i) + rotation, speed, color))
  }

  /** The position of the i-th bullet of a wall, relative to the wall's centre. */
  function WallOffset(i: int, count: int, spacing: real): real {
    ((i - count / 2) as real) * spacing
  }

  function WallSpec(x: real, y: real, horizontal: bool, count: int, speed: real, spacing: real,
                    color: Color): seq<Bullet>
  {
    if horizontal then
      seq(Runs(count), i => Launched(x + WallOffset(i, count, spacing), y, Pi / 2.0, speed, color))
    else
      seq(Runs(count), i => Launched(x, y + WallOffset(i, count, spacing), 0.0, speed, color))
  }

  /** `draw(i)` is the i-th uniform draw from [0, 2 pi). */
  function RandomSpraySpec(x: real, y: real, count: int, speed: real, color: Color,
                           draw: nat -> real): seq<Bullet>
  {
    seq(Runs(count), i requires 0 <= i => Launched(x, y, draw(i), speed, color))
  }

  // ---------------------------------------------------------------------------
  // Properties of the patterns

  /** Every bullet of a batch starts at the origin, alive, with the batch's speed and colour
      and the standard size. */
  ghost predicate Uniform(r: seq<Bullet>, x: real, y: real, speed: real, color: Color) {
    forall k :: 0 <= k < |r| ==>
      r[k].x == x && r[k].y == y && r[k].speed == speed && r[k].color == color &&
      r[k].size == BulletSize && r[k].active
  }

  /** A burst has `count` bullets at the origin; the first flies at angle 0 and each next one
      is turned by 2 pi / count further, so that `count` steps make one full turn. */
  lemma {:induction false} CircleBurstShape(x: real, y: real, count: int, speed: real, color: Color)
    requires count > 0
    ensures var r := CircleBurstSpec(x, y, count, speed, color);
      |r| == count && Uniform(r, x, y, speed, color) && r[0].angle == 0.0 &&
      (forall k :: 0 < k < count ==> r[k].angle - r[k - 1].angle == 2.0 * Pi / count as real) &&
      AngleStep(count) * count as real == 2.0 * Pi
  {
    var r := CircleBurstSpec(x, y, count, speed, color);
    var step := AngleStep(count);
    forall k | 0 < k < count
      ensures r[k].angle - r[k - 1].angle == 2.0 * Pi / count as real
    {
      calc {
        r[k].angle - r[k - 1].angle;
        step * (k as real) - step * ((k - 1) as real);
        step * ((k as real) - ((k - 1) as real));
        step;
      }
    }
    assert r[0].angle == step * 0.0 == 0.0;
  }

  /** A spiral is the burst of the same size turned by `rotation`. */
  lemma {:induction false} SpiralIsRotatedBurst(x: real, y: real, count: int, speed: real, rotation: real, color: Color)
    requires count != 0
    ensures var s := SpiralSpec(x, y, count, speed, rotation, color);
      var c := CircleBurstSpec(x, y, count, speed, color);
      |s| == |c| == Runs(count) &&
      forall k :: 0 <= k < |s| ==> s[k] == c[k].(angle := c[k].angle + rotation)
  {
  }

  /** An aimed shot is one bullet leaving the origin along the heading towards the target. */
  lemma {:induction false} AimedShotShape(x: real, y: real, targetX: real, targetY: real, speed: real,
                                          color: Color, geo: Geometry)
    ensures var r := AimedShotSpec(x, y, targetX, targetY, speed, color, geo);
      |r| == 1 && Uniform(r, x, y, speed, color) && r[0].angle == geo.atan2(targetY - y, targetX - x)
  {
  }

  /** A spray is `count` bullets at the origin whose headings are the successive draws. */
  lemma {:induction false} RandomSprayShape(x: real, y: real, count: int, speed: real, color: Color,
                                            draw: nat -> real)
    ensures var r := RandomSpraySpec(x, y, count, speed, color, draw);
      |r| == Runs(count) && Uniform(r, x, y, speed, color) &&
      forall k :: 0 <= k < |r| ==> r[k].angle == draw(k)
  {
    var r := RandomSpraySpec(x, y, count, speed, color, draw);
    forall k | 0 <= k < |r|
      ensures r[k] == Launched(x, y, draw(k), speed, color)
    {
    }
  }

  /** A wall is `count` bullets in a row along one axis, neighbours `spacing` apart, all on the
      line through (x, y), the one at index count / 2 exactly at (x, y); a horizontal wall
      flies at pi / 2 (down the screen), a vertical one at 0. */
  lemma {:induction false} WallShape(x: real, y: real, horizontal: bool, count: int, speed: real,
                                     spacing: real, color: Color)
    ensures var r := WallSpec(x, y, horizontal, count, speed, spacing, color);
      |r| == Runs(count) &&
      (forall k :: 0 <= k < |r| ==>
        r[k].speed == speed && r[k].color == color && r[k].size == BulletSize && r[k].active &&
        (if horizontal then r[k].y == y && r[k].angle == Pi / 2.0 else r[k].x == x && r[k].angle == 0.0)) &&
      (forall k :: 0 < k < |r| ==>
        if horizontal then r[k].x - r[k - 1].x == spacing else r[k].y - r[k - 1].y == spacing) &&
      (count > 0 ==> r[count / 2].x == x && r[count / 2].y == y)
  {
    var r := WallSpec(x, y, horizontal, count, speed, spacing, color);
    forall k | 0 < k < |r|
      ensures if horizontal then r[k].x - r[k - 1].x == spacing else r[k].y - r[k - 1].y == spacing
    {
      calc {
        WallOffset(k, count, spacing) - WallOffset(k - 1, count, spacing);
        ((k - count / 2) as real) * spacing - ((k - 1 - count / 2) as real) * spacing;
        (((k - count / 2) as real) - ((k - 1 - count / 2) as real)) * spacing;
        spacing;
      }
    }
    if count > 0 {
      assert WallOffset(count / 2, count, spacing) == 0.0;
    }
  }

  /** Every launched bullet is a 16 x 16 square centred on its position. */
  lemma {:induction false} LaunchedRect(x: real, y: real, angle: real, speed: real, color: Color)
    ensures Launched(x, y, angle, speed, color).GetRect() == Rect(x - 8.0, y - 8.0, 16.0, 16.0)
  {
  }

  // ---------------------------------------------------------------------------
  // The constructors: each builds its batch of new bullets

  method CircleBurst(x: real, y: real, count: int, speed: real, color: Color) returns (bullets: seq<Bullet>)
    requires count != 0
    ensures bullets == CircleBurstSpec(x, y, count, speed, color)
  {
    bullets := [];
    var i := 0;
    while i < count
      invariant 0 <= i <= Runs(count)
      invariant bullets == CircleBurstSpec(x, y, count, speed, color)[..i]
    {
      var angle := BurstAngle(count, i);
      bullets := bullets + [Launched(x, y, angle, speed, color)];
      i := i + 1;
    }
  }

  method AimedShot(x: real, y: real, targetX: real, targetY: real, speed: real, color: Color,
                   geo: Geometry) returns (bullets: seq<Bullet>)
    ensures bullets == AimedShotSpec(x, y, targetX, targetY, speed, color, geo)
  {
    var angle := geo.atan2(targetY - y, targetX - x);
    bullets := [Launched(x, y, angle, speed, color)];
  }

  method Spiral(x: real, y: real, count: int, speed: real, rotation: real, color: Color)
    returns (bullets: seq<Bullet>)
    requires count != 0
    ensures bullets == SpiralSpec(x, y, count, speed, rotation, color)
  {
    bullets := [];
    var i := 0;
    while i < count
      invariant 0 <= i <= Runs(count)
      invariant bullets == SpiralSpec(x, y, count, speed, rotation, color)[..i]
    {
      var angle := BurstAngle(count, i) + rotation;
      bullets := bullets + [Launched(x, y, angle, speed, color)];
      i := i + 1;
    }
  }

  method Wall(x: real, y: real, horizontal: bool, count: int, speed: real, spacing: real, color: Color)
    returns (bullets: seq<Bullet>)
    ensures bullets == WallSpec(x, y, horizontal, count, speed, spacing, color)
  {
    bullets := [];
    var i := 0;
    while i < count
      invariant 0 <= i <= Runs(count)
      invariant bullets == WallSpec(x, y, horizontal, count, speed, spacing, color)[..i]
    {
      var b;
      if horizontal {
        var bx := x + WallOffset(i, count, spacing);
        b := Launched(bx, y, Pi / 2.0, speed, color);
      } else {
        var wy := y + WallOffset(i, count, spacing);
        b := Launched(x, wy, 0.0, speed, color);
      }
      bullets := bullets + [b];
      i := i + 1;
    }
  }

  method RandomSpray(x: real, y: real, count: int, speed: real, color: Color, draw: nat -> real)
    returns (bullets: seq<Bullet>)
    ensures bullets == RandomSpraySpec(x, y, count, speed, color, draw)
  {
    bullets := [];
    var i := 0;
    while i < count
      invariant 0 <= i <= Runs(count)
      invariant bullets == RandomSpraySpec(x, y, count, speed, color, draw)[..i]
    {
      bullets := bullets + [Launched(x, y, draw(i), speed, color)];
      i := i + 1;
    }
  }
}
