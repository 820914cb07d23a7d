/** A bouncing circle: its record, its constructor and its per-frame update
    (wall checks on each axis, then the advance by velocity times the global
    speed multiplier). Drawing happens first in the original update but does
    not touch the state, so it is left out here. */
module Circles {
  import opened Numeric

  /** The text shown in the middle of a circle: a string or a number. */
  datatype Label = Num(n: int) | Str(s: string)

  datatype Circle = Circle(
    posX: real, posY: real,
    radius: real,
    color: string,
    text: Label,
    speed: real,
    dx: real, dy: real)

  /** One axis of a circle: a coordinate and the velocity along it. */
  datatype Axis = Axis(pos: real, vel: real)

  /** Both velocity components have the circle's base speed as magnitude. */
  predicate Steady(c: Circle)
  {
    Abs(c.dx) == c.speed && Abs(c.dy) == c.speed
  }

  /** The disc of the given radius centred at `pos` lies within `[0, dim]`. */
  predicate Inside(pos: real, radius: real, dim: real)
  {
    radius <= pos <= dim - radius
  }

  /** The wall test of the update: the disc sticks out past either wall. */
  predicate Overlaps(pos: real, radius: real, dim: real)
  {
    pos + radius > dim || pos - radius < 0.0
  }

  lemma OverlapsIffOutside(pos: real, radius: real, dim: real)
    ensures Overlaps(pos, radius, dim) <==> !Inside(pos, radius, dim)
  {
  }

  /** The constructor's direction draw `Math.random() < 0.5 ? -1 : 1`. */
  function Direction(u: real): (d: real)
    ensures d == 1.0 || d == -1.0
    ensures d < 0.0 <==> u < 0.5
  {
    if u < 0.5 then -1.0 else 1.0
  }

  /** The Circle constructor; `ux` and `uy` are its two direction draws. */
  function NewCircle(x: real, y: real, radius: real, color: string, text: Label,
                     speed: real, ux: real, uy: real): (c: Circle)
    ensures c.posX == x && c.posY == y && c.radius == radius
    ensures c.color == color && c.text == text && c.speed == speed
    ensures speed >= 0.0 ==> Steady(c)
    ensures speed > 0.0 ==> (c.dx < 0.0 <==> ux < 0.5) && (c.dy < 0.0 <==> uy < 0.5)
  {
    Circle(x, y, radius, color, text, speed, Direction(ux) * speed, Direction(uy) * speed)
  }

  /** The wall check of one axis: on overlap, reverse the velocity and pull the
      coordinate back into `[radius, dim - radius]`. */
  function Bounce(a: Axis, radius: real, dim: real): (b: Axis)
    ensures !Overlaps(a.pos, radius, dim) ==> b == a
    ensures Overlaps(a.pos, radius, dim) ==> b.vel == -a.vel
    ensures Abs(b.vel) == Abs(a.vel)
    ensures 2.0 * radius <= dim ==> Inside(b.pos, radius, dim)
    ensures 2.0 * radius <= dim && a.pos < radius ==> b.pos == radius
    ensures 2.0 * radius <= dim && a.pos > dim - radius ==> b.pos == dim - radius
    ensures 2.0 * radius > dim && radius >= 0.0 ==> b.pos == dim - radius && b.vel == -a.vel
  {
    if Overlaps(a.pos, radius, dim) then
      Axis(Clamp(a.pos, radius, dim - radius), -a.vel)
    else
      a
  }

  /** Both wall checks of the update, horizontal first, before the advance. */
  function WallCheck(c: Circle, width: real, height: real): (c': Circle)
    ensures c'.radius == c.radius && c'.color == c.color
    ensures c'.text == c.text && c'.speed == c.speed
    ensures Abs(c'.dx) == Abs(c.dx) && Abs(c'.dy) == Abs(c.dy)
    ensures 2.0 * c.radius <= width ==> Inside(c'.posX, c.radius, width)
    ensures 2.0 * c.radius <= height ==> Inside(c'.posY, c.radius, height)
    ensures Inside(c.posX, c.radius, width) ==> c'.posX == c.posX && c'.dx == c.dx
    ensures Inside(c.posY, c.radius, height) ==> c'.posY == c.posY && c'.dy == c.dy
  {
    var h := Bounce(Axis(c.posX, c.dx), c.radius, width);
    var v := Bounce(Axis(c.posY, c.dy), c.radius, height);
    c.(posX := h.pos, dx := h.vel, posY := v.pos, dy := v.vel)
  }

  /** The distance one frame moves a coordinate: velocity times multiplier. */
  function Displacement(vel: real, m: real): real
  {
    vel * m
  }

  /** One axis of the update: its wall check, then the advance of the
      coordinate by the velocity times the multiplier `m`. The advance may carry
      the disc past a wall, but by no more than the displacement `|vel * m|`. */
  function Step(a: Axis, radius: real, dim: real, m: real): (b: Axis)
    ensures Abs(b.vel) == Abs(a.vel)
    ensures b.vel == a.vel || b.vel == -a.vel
    ensures Inside(a.pos, radius, dim) ==> b.vel == a.vel && b.pos == a.pos + Displacement(a.vel, m)
    ensures 2.0 * radius <= dim ==> Inside(b.pos - Displacement(b.vel, m), radius, dim)
    ensures 2.0 * radius <= dim ==>
      radius - Abs(Displacement(b.vel, m)) <= b.pos <= dim - radius + Abs(Displacement(b.vel, m))
  {
    var w := Bounce(a, radius, dim);
    Axis(w.pos + Displacement(w.vel, m), w.vel)
  }

  /** The disc's centre lies, on each axis, within one displacement of the
      positions where the disc would be inside the box. */
  predicate NearBox(c: Circle, width: real, height: real, m: real)
  {
    && c.radius - Abs(Displacement(c.dx, m)) <= c.posX <= width - c.radius + Abs(Displacement(c.dx, m))
    && c.radius - Abs(Displacement(c.dy, m)) <= c.posY <= height - c.radius + Abs(Displacement(c.dy, m))
  }

  /** `Circle.update` with drawing as a no-op: the horizontal axis is checked
      against `width`, the vertical one against `height`, then both advance by
      the global multiplier `m`. Nothing but position and velocity changes, and
      the update may leave the box, but by at most one displacement. */
  function Update(c: Circle, width: real, height: real, m: real): (c': Circle)
    ensures c'.radius == c.radius && c'.color == c.color
    ensures c'.text == c.text && c'.speed == c.speed
    ensures c'.dx == c.dx || c'.dx == -c.dx
    ensures c'.dy == c.dy || c'.dy == -c.dy
    ensures Steady(c) ==> Steady(c')
    ensures Inside(c.posX, c.radius, width) ==> c'.dx == c.dx
    ensures Inside(c.posY, c.radius, height) ==> c'.dy == c.dy
    ensures 2.0 * c.radius <= width ==> Inside(c'.posX - Displacement(c'.dx, m), c.radius, width)
    ensures 2.0 * c.radius <= height ==> Inside(c'.posY - Displacement(c'.dy, m), c.radius, height)
    ensures 2.0 * c.radius <= width && 2.0 * c.radius <= height ==> NearBox(c', width, height, m)
  {
    var h := Step(Axis(c.posX, c.dx), c.radius, width, m);
    var v := Step(Axis(c.posY, c.dy), c.radius, height, m);
    c.(posX := h.pos, dx := h.vel, posY := v.pos, dy := v.vel)
  }

  /** The update is the wall checks followed by the advance. */
  lemma UpdateAfterWallCheck(c: Circle, width: real, height: real, m: real)
    ensures var w := WallCheck(c, width, height);
      Update(c, width, height, m) == w.(posX := w.posX + Displacement(w.dx, m), posY := w.posY + Displacement(w.dy, m))
  {
  }

  /** Away from the walls the update reverses nothing and moves the circle by
      exactly `(dx * m, dy * m)`. */
  lemma UpdateFreeFlight(c: Circle, width: real, height: real, m: real)
    requires Inside(c.posX, c.radius, width) && Inside(c.posY, c.radius, height)
    ensures Update(c, width, height, m) == c.(posX := c.posX + Displacement(c.dx, m), posY := c.posY + Displacement(c.dy, m))
  {
  }

  /** For a circle moving at its base speed the displacement on either axis is
      `speed * |m|`. */
  lemma DisplacementOfSteady(c: Circle, m: real)
    requires Steady(c)
    ensures Abs(Displacement(c.dx, m)) == c.speed * Abs(m) && Abs(Displacement(c.dy, m)) == c.speed * Abs(m)
  {
    AbsScaled(c.dx, c.speed, m);
    AbsScaled(c.dy, c.speed, m);
  }

  /** Containment is not kept by a full update: a circle resting on the right
      wall and moving right passes the wall during the advance. */
  lemma UpdateCanLeaveBox(c: Circle, width: real, height: real, m: real)
    requires c.posX == width - c.radius && 2.0 * c.radius <= width
    requires c.dx > 0.0 && m > 0.0
    ensures Inside(c.posX, c.radius, width)
    ensures !Inside(Update(c, width, height, m).posX, c.radius, width)
  {
  }

  /** A circle one unit past the right wall and moving right is reflected: its
      horizontal velocity is reversed and it restarts from `width - radius`. */
  lemma ReflectAtRightWall(c: Circle, width: real, height: real, m: real)
    requires c.posX == width - c.radius + 1.0 && c.dx > 0.0
    ensures WallCheck(c, width, height).dx == -c.dx
    ensures WallCheck(c, width, height).posX == width - c.radius
    ensures Update(c, width, height, m).posX == width - c.radius - Displacement(c.dx, m)
  {
    var w := Bounce(Axis(c.posX, c.dx), c.radius, width);
    assert w == Axis(width - c.radius, -c.dx);
    assert Displacement(-c.dx, m) == -Displacement(c.dx, m);
    assert Update(c, width, height, m).posX == w.pos + Displacement(w.vel, m);
  }
}
