/** Random creation of circles (`randomBetween`, `createRandomCircle`). Every
    `Math.random()` draw is an argument in `[0, 1)`, so the bounds below hold
    for every possible draw. */
module Spawn {
  import opened Numeric
  import opened Optional
  import opened Circles

  /** The cyclic colour palette. */
  const COLORS: seq<string> :=
    ["red", "blue", "green", "purple", "orange", "pink", "teal", "brown", "navy", "gray"]

  /** Distance from each wall inside which no centre is drawn. */
  const MARGIN: real := 30.0

  /** A value `Math.random()` can return. */
  predicate Unit(u: real)
  {
    0.0 <= u < 1.0
  }

  /** The draws one circle consumes, in the order the original code makes
      them: centre x, centre y, radius, speed, then the constructor's two
      direction draws. */
  datatype Draws = Draws(x: real, y: real, radius: real, speed: real, dirX: real, dirY: real)

  predicate ValidDraws(d: Draws)
  {
    Unit(d.x) && Unit(d.y) && Unit(d.radius) && Unit(d.speed) && Unit(d.dirX) && Unit(d.dirY)
  }

  /** `randomBetween(lo, hi)`: a point of `[lo, hi)`, or of `(hi, lo]` when the
      bounds are swapped. */
  function RandomBetween(lo: real, hi: real, u: real): (r: real)
    requires Unit(u)
    ensures lo <= hi ==> lo <= r <= hi
    ensures lo < hi ==> r < hi
    ensures hi < lo ==> hi < r <= lo
    ensures u == 0.0 ==> r == lo
  {
    UnitScale(u, hi - lo);
    Scale(u, hi - lo) + lo
  }

  /** The part of a span a draw selects. */
  function Scale(u: real, span: real): real
  {
    u * span
  }

  /** A draw scales a span to a part of it. */
  lemma UnitScale(u: real, span: real)
    requires Unit(u)
    ensures 0.0 <= span ==> 0.0 <= Scale(u, span) <= span
    ensures 0.0 < span ==> Scale(u, span) < span
    ensures span < 0.0 ==> span < Scale(u, span) <= 0.0
    ensures u == 0.0 ==> Scale(u, span) == 0.0
  {
    assert span - u * span == (1.0 - u) * span;
    if span > 0.0 {
      assert (1.0 - u) * span > 0.0;
    } else if span < 0.0 {
      assert (1.0 - u) * span < 0.0;
      assert u * span == -(u * -span);
    }
  }

  /** `Math.floor(Math.random() * 30 + 20)`: a whole radius in `[20, 49]`. */
  function RandomRadius(u: real): (r: real)
    requires Unit(u)
    ensures 20.0 <= r <= 49.0
    ensures r == r.Floor as real
  {
    var f := (u * 30.0 + 20.0).Floor;
    assert 20 <= f < 50;
    f as real
  }

  /** `createRandomCircle(indexLabel)` while the collection holds `count` circles,
      inside bounds `width` x `height`. */
  function CreateRandomCircle(width: real, height: real, count: nat, indexLabel: Option<Label>,
                              d: Draws): (c: Circle)
    requires ValidDraws(d)
    ensures 20.0 <= c.radius <= 49.0 && c.radius == c.radius.Floor as real
    ensures 1.0 <= c.speed < 4.0
    ensures Steady(c)
    ensures 2.0 * MARGIN <= width ==> MARGIN <= c.posX <= width - MARGIN
    ensures 2.0 * MARGIN <= height ==> MARGIN <= c.posY <= height - MARGIN
    ensures c.color == COLORS[count % |COLORS|]
    ensures indexLabel.Some? ==> c.text == indexLabel.value
    ensures indexLabel.None? ==> c.text == Num(count + 1)
    ensures (c.dx < 0.0 <==> d.dirX < 0.5) && (c.dy < 0.0 <==> d.dirY < 0.5)
  {
    var x := RandomBetween(MARGIN, width - MARGIN, d.x);
    var y := RandomBetween(MARGIN, height - MARGIN, d.y);
    var radius := RandomRadius(d.radius);
    var color := COLORS[count % |COLORS|];
    var text := Coalesce(indexLabel, Num(count + 1));
    var speed := d.speed * 3.0 + 1.0;
    NewCircle(x, y, radius, color, text, speed, d.dirX, d.dirY)
  }

  /** The margin is smaller than the largest radius, so a fresh circle can
      start overlapping a wall: a centre drawn at the margin sticks out past
      the left wall exactly when the radius is 31 or more, that is, when the
      radius draw is at least 11/30. */
  lemma FreshCircleMayOverlapWall(width: real, height: real, count: nat, d: Draws)
    requires ValidDraws(d) && 2.0 * MARGIN <= width
    requires d.x == 0.0
    ensures var c := CreateRandomCircle(width, height, count, None, d);
      Overlaps(c.posX, c.radius, width) <==> d.radius >= 11.0 / 30.0
  {
    var c := CreateRandomCircle(width, height, count, None, d);
    assert c.posX == MARGIN;
    assert c.radius == RandomRadius(d.radius);
    RadiusAboveMargin(d.radius);
  }

  /** The radius exceeds the margin exactly when its draw is at least 11/30. */
  lemma RadiusAboveMargin(u: real)
    requires Unit(u)
    ensures RandomRadius(u) > MARGIN <==> u >= 11.0 / 30.0
  {
    var f := (u * 30.0 + 20.0).Floor;
    if u >= 11.0 / 30.0 {
      assert u * 30.0 + 20.0 >= 31.0;
      assert f >= 31;
    } else {
      assert u * 30.0 + 20.0 < 31.0;
      assert f <= 30;
    }
  }
}
