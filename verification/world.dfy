/** The demo's state and the operations on it: the ordered collection of
    circles with its stack discipline (`addCircle`, `removeCircle`), the
    regeneration of ten circles (`resetCircles`), the resize button, and the
    animation frame that updates every circle in order (`updateCircle`).
    The bounds that the original keeps in globals are fields of `World`; the
    speed multiplier and the random draws are arguments. */
module Worlds {
  import opened Numeric
  import opened Optional
  import opened Circles
  import opened Spawn

  /** Number of circles `resetCircles` creates. */
  const RESET_COUNT: nat := 10

  /** The range the resize button clamps each requested dimension into. */
  const MIN_SIZE: real := 200.0
  const MAX_SIZE: real := 1000.0

  datatype World = World(width: real, height: real, circles: seq<Circle>)

  /** Circle `i` has the colour and default label of the `i`-th insertion. */
  predicate Indexed(cs: seq<Circle>)
  {
    forall i :: 0 <= i < |cs| ==> cs[i].color == COLORS[i % |COLORS|] && cs[i].text == Num(i + 1)
  }

  /** The attributes `createRandomCircle` gives and `update` keeps. */
  predicate Sized(c: Circle)
  {
    20.0 <= c.radius <= 49.0 && 1.0 <= c.speed < 4.0 && Steady(c)
  }

  predicate Wellformed(cs: seq<Circle>)
  {
    Indexed(cs) && forall i :: 0 <= i < |cs| ==> Sized(cs[i])
  }

  /** The state after any resize: bounds in range and a well-formed collection. */
  predicate Inv(w: World)
  {
    && MIN_SIZE <= w.width <= MAX_SIZE
    && MIN_SIZE <= w.height <= MAX_SIZE
    && Wellformed(w.circles)
  }

  /** `arrayCircle.push(createRandomCircle(indexLabel))`. */
  function Push(w: World, indexLabel: Option<Label>, d: Draws): (w': World)
    requires ValidDraws(d)
    ensures w'.width == w.width && w'.height == w.height
    ensures |w'.circles| == |w.circles| + 1
    ensures w'.circles[..|w.circles|] == w.circles
    ensures w'.circles[|w.circles|] == CreateRandomCircle(w.width, w.height, |w.circles|, indexLabel, d)
  {
    w.(circles := w.circles + [CreateRandomCircle(w.width, w.height, |w.circles|, indexLabel, d)])
  }

  /** `addCircle`: one more circle at the end, labelled by its 1-based
      position, coloured by its 0-based position; the rest is untouched. */
  function AddCircle(w: World, d: Draws): (w': World)
    requires ValidDraws(d)
    ensures w'.width == w.width && w'.height == w.height
    ensures |w'.circles| == |w.circles| + 1
    ensures w'.circles[..|w.circles|] == w.circles
    ensures w'.circles[|w.circles|].text == Num(|w.circles| + 1)
    ensures w'.circles[|w.circles|].color == COLORS[|w.circles| % |COLORS|]
    ensures Wellformed(w.circles) ==> Wellformed(w'.circles)
  {
    Push(w, None, d)
  }

  /** `removeCircle`: drops the most recently added circle; no-op when empty. */
  function RemoveCircle(w: World): (w': World)
    ensures w'.width == w.width && w'.height == w.height
    ensures |w.circles| > 0 ==> |w'.circles| == |w.circles| - 1 && w'.circles == w.circles[..|w.circles| - 1]
    ensures |w.circles| == 0 ==> w' == w
    ensures Wellformed(w.circles) ==> Wellformed(w'.circles)
  {
    if |w.circles| > 0 then w.(circles := w.circles[..|w.circles| - 1]) else w
  }

  /** Removing right after adding gives back the state before the add. */
  lemma RemoveUndoesAdd(w: World, d: Draws)
    requires ValidDraws(d)
    ensures RemoveCircle(AddCircle(w, d)) == w
  {
  }

  predicate AllValid(draws: seq<Draws>)
  {
    forall k :: 0 <= k < |draws| ==> ValidDraws(draws[k])
  }

  /** The loop of `resetCircles` from iteration `i` on: iteration `i` pushes a
      circle labelled `i + 1` while the collection holds `i` circles. */
  function ResetLoop(w: World, draws: seq<Draws>, i: nat): (w': World)
    requires AllValid(draws) && i <= |draws|
    requires |w.circles| == i
    ensures w'.width == w.width && w'.height == w.height
    ensures |w'.circles| == |draws|
    ensures w'.circles[..i] == w.circles
    ensures forall k :: i <= k < |draws| ==>
      w'.circles[k] == CreateRandomCircle(w.width, w.height, k, Some(Num(k + 1)), draws[k])
    decreases |draws| - i
  {
    if i == |draws| then w
    else
      var next := Push(w, Some(Num(i + 1)), draws[i]);
      var w' := ResetLoop(next, draws, i + 1);
      assert w'.circles[..i] == next.circles[..i + 1][..i];
      w'
  }

  /** `resetCircles`: exactly ten fresh circles labelled 1..10 in order, with
      the palette colours in order, within the current bounds. */
  function ResetCircles(w: World, draws: seq<Draws>): (w': World)
    requires |draws| == RESET_COUNT && AllValid(draws)
    ensures w'.width == w.width && w'.height == w.height
    ensures |w'.circles| == RESET_COUNT
    ensures Wellformed(w'.circles)
    ensures forall i :: 0 <= i < |w'.circles| ==> w'.circles[i].text == Num(i + 1)
    ensures forall i :: 0 <= i < |w'.circles| ==> w'.circles[i].color == COLORS[i % |COLORS|]
    ensures 2.0 * MARGIN <= w.width && 2.0 * MARGIN <= w.height ==>
      forall i :: 0 <= i < |w'.circles| ==>
        MARGIN <= w'.circles[i].posX <= w.width - MARGIN && MARGIN <= w'.circles[i].posY <= w.height - MARGIN
  {
    ResetLoop(w.(circles := []), draws, 0)
  }

  /** `addCircle` once per draw, in order. */
  function AddAll(w: World, draws: seq<Draws>): (w': World)
    requires AllValid(draws)
    ensures w'.width == w.width && w'.height == w.height
    ensures |w'.circles| == |w.circles| + |draws|
    ensures w'.circles[..|w.circles|] == w.circles
    ensures Wellformed(w.circles) ==> Wellformed(w'.circles)
    decreases |draws|
  {
    if draws == [] then w
    else
      var w' := AddAll(AddCircle(w, draws[0]), draws[1..]);
      assert w'.circles[..|w.circles|] == w'.circles[..|w.circles| + 1][..|w.circles|];
      w'
  }

  /** The labels `resetCircles` passes are the ones `addCircle` would pick:
      the loop from iteration `i` is `addCircle` for each remaining draw. */
  lemma {:induction false} ResetLoopIsAdds(w: World, draws: seq<Draws>, i: nat)
    requires AllValid(draws) && i <= |draws| && |w.circles| == i
    ensures ResetLoop(w, draws, i) == AddAll(w, draws[i..])
    decreases |draws| - i
  {
    if i < |draws| {
      var next := Push(w, Some(Num(i + 1)), draws[i]);
      assert next == AddCircle(w, draws[i]);
      assert draws[i..][1..] == draws[i + 1..];
      ResetLoopIsAdds(next, draws, i + 1);
    }
  }

  /** `resetCircles` is the same as emptying the collection and calling
      `addCircle` ten times. */
  lemma ResetIsTenAdds(w: World, draws: seq<Draws>)
    requires |draws| == RESET_COUNT && AllValid(draws)
    ensures ResetCircles(w, draws) == AddAll(w.(circles := []), draws)
  {
    ResetLoopIsAdds(w.(circles := []), draws, 0);
    assert draws[0..] == draws;
  }

  /** In a well-formed collection the colour of circle `i + 10` is that of
      circle `i`: the palette is reused cyclically. */
  lemma PaletteCycles(cs: seq<Circle>, i: nat)
    requires Wellformed(cs) && i + |COLORS| < |cs|
    ensures cs[i + |COLORS|].color == cs[i].color
  {
    assert (i + |COLORS|) % |COLORS| == i % |COLORS|;
  }

  /** Assigning a number to the canvas's `width`/`height` attribute keeps its
      integer part; the globals used for collisions read that value back. */
  function CanvasSize(v: real): (n: real)
    requires v >= 0.0
    ensures n == n.Floor as real
    ensures n <= v < n + 1.0
  {
    v.Floor as real
  }

  /** One requested dimension as the resize button applies it. */
  function ResizeDimension(requested: real): (n: real)
    ensures MIN_SIZE <= n <= MAX_SIZE
    ensures n == n.Floor as real
    ensures requested < MIN_SIZE ==> n == MIN_SIZE
    ensures requested > MAX_SIZE ==> n == MAX_SIZE
    ensures MIN_SIZE <= requested <= MAX_SIZE ==> n <= requested < n + 1.0
    ensures MIN_SIZE <= requested <= MAX_SIZE && requested == requested.Floor as real ==> n == requested
  {
    var v := Clamp(requested, MIN_SIZE, MAX_SIZE);
    assert (200.0).Floor == 200 && (1000.0).Floor == 1000;
    assert 200 <= v.Floor <= 1000;
    CanvasSize(v)
  }

  /** The resize button: new bounds from the requested sizes, then
      `resetCircles` at those bounds; no existing circle survives. */
  function Resize(w: World, requestedW: real, requestedH: real, draws: seq<Draws>): (w': World)
    requires |draws| == RESET_COUNT && AllValid(draws)
    ensures w'.width == ResizeDimension(requestedW) && w'.height == ResizeDimension(requestedH)
    ensures w' == ResetCircles(World(w'.width, w'.height, []), draws)
    ensures |w'.circles| == RESET_COUNT
    ensures Inv(w')
    ensures forall i :: 0 <= i < |w'.circles| ==>
      MARGIN <= w'.circles[i].posX <= w'.width - MARGIN && MARGIN <= w'.circles[i].posY <= w'.height - MARGIN
  {
    var width := ResizeDimension(requestedW);
    var height := ResizeDimension(requestedH);
    ResetCircles(World(width, height, w.circles), draws)
  }

  /** `arrayCircle.forEach(c => c.update(ctx, speedMultiplier))`, front to back. */
  function UpdateAll(cs: seq<Circle>, width: real, height: real, m: real): (cs': seq<Circle>)
    ensures |cs'| == |cs|
    ensures forall i :: 0 <= i < |cs| ==> cs'[i] == Update(cs[i], width, height, m)
    decreases |cs|
  {
    if cs == [] then []
    else [Update(cs[0], width, height, m)] + UpdateAll(cs[1..], width, height, m)
  }

  /** One animation frame (`updateCircle` with drawing as a no-op). */
  function Tick(w: World, m: real): (w': World)
    ensures w'.width == w.width && w'.height == w.height
    ensures |w'.circles| == |w.circles|
    ensures Wellformed(w.circles) ==> Wellformed(w'.circles)
    ensures Inv(w) ==> Inv(w')
    ensures Inv(w) ==> forall i :: 0 <= i < |w'.circles| ==> NearBox(w'.circles[i], w.width, w.height, m)
  {
    var cs' := UpdateAll(w.circles, w.width, w.height, m);
    assert Wellformed(w.circles) ==> forall i :: 0 <= i < |cs'| ==> Sized(cs'[i]);
    w.(circles := cs')
  }

  /** `n` animation frames at multiplier `m`. Frames keep the bounds, the
      number of circles and the invariant, and after at least one frame every
      circle lies within one displacement of the box. */
  function Ticks(w: World, m: real, n: nat): (w': World)
    ensures w'.width == w.width && w'.height == w.height
    ensures |w'.circles| == |w.circles|
    ensures Inv(w) ==> Inv(w')
    ensures Inv(w) && n > 0 ==> forall i :: 0 <= i < |w'.circles| ==> NearBox(w'.circles[i], w.width, w.height, m)
    decreases n
  {
    if n == 0 then w else Ticks(Tick(w, m), m, n - 1)
  }

  /** A user intent or a frame. */
  datatype Action =
    | Add(d: Draws)
    | Remove
    | Reset(draws: seq<Draws>)
    | ResizeTo(requestedW: real, requestedH: real, sizeDraws: seq<Draws>)
    | Frame(m: real)

  predicate ValidAction(a: Action)
  {
    match a
    case Add(d) => ValidDraws(d)
    case Remove => true
    case Reset(draws) => |draws| == RESET_COUNT && AllValid(draws)
    case ResizeTo(_, _, draws) => |draws| == RESET_COUNT && AllValid(draws)
    case Frame(_) => true
  }

  function Apply(w: World, a: Action): (w': World)
    requires ValidAction(a)
    ensures Inv(w) ==> Inv(w')
    ensures a.ResizeTo? ==> Inv(w')
  {
    match a
    case Add(d) => AddCircle(w, d)
    case Remove => RemoveCircle(w)
    case Reset(draws) => ResetCircles(w, draws)
    case ResizeTo(rw, rh, draws) => Resize(w, rw, rh, draws)
    case Frame(m) => Tick(w, m)
  }

  /** A sequence of intents and frames, applied in order. Whatever the user
      does, once the canvas has been resized the bounds stay in `[200, 1000]`
      and the collection stays well-formed. */
  function Run(w: World, actions: seq<Action>): (w': World)
    requires forall k :: 0 <= k < |actions| ==> ValidAction(actions[k])
    ensures Inv(w) || (|actions| > 0 && actions[0].ResizeTo?) ==> Inv(w')
    decreases |actions|
  {
    if actions == [] then w else Run(Apply(w, actions[0]), actions[1..])
  }

  /** Reset followed by `n` adds holds `10 + n` circles, the first ten with
      labels 1..10 and every one coloured by its position. */
  lemma ResetThenAdds(w: World, resetDraws: seq<Draws>, addDraws: seq<Draws>)
    requires |resetDraws| == RESET_COUNT && AllValid(resetDraws) && AllValid(addDraws)
    ensures var w' := AddAll(ResetCircles(w, resetDraws), addDraws);
      && |w'.circles| == RESET_COUNT + |addDraws|
      && Wellformed(w'.circles)
  {
  }

  /** Resize to 800 x 600, run any number of frames, resize to 300 x 300: the
      bounds are the requested ones, there are ten circles throughout, the
      frames keep every circle within one displacement of the box, and the
      fresh circles have their centres at least the margin from each wall. */
  lemma Scenario(w: World, first: seq<Draws>, second: seq<Draws>, m: real, n: nat)
    requires |first| == RESET_COUNT && AllValid(first)
    requires |second| == RESET_COUNT && AllValid(second)
    ensures var w1 := Resize(w, 800.0, 600.0, first);
      && w1.width == 800.0 && w1.height == 600.0
      && |Ticks(w1, m, n).circles| == RESET_COUNT
      && (n > 0 ==> forall i :: 0 <= i < RESET_COUNT ==> NearBox(Ticks(w1, m, n).circles[i], 800.0, 600.0, m))
    ensures var w2 := Resize(Ticks(Resize(w, 800.0, 600.0, first), m, n), 300.0, 300.0, second);
      && w2.width == 300.0 && w2.height == 300.0
      && |w2.circles| == RESET_COUNT
      && forall i :: 0 <= i < RESET_COUNT ==> 30.0 <= w2.circles[i].posX <= 270.0 && 30.0 <= w2.circles[i].posY <= 270.0
  {
    assert (800.0).Floor == 800 && (600.0).Floor == 600 && (300.0).Floor == 300;
  }
}
