/**
 * The layout of one row of pipes built by `addRowOfPipes`: the canvas height is
 * cut into 60-unit segments, a three-segment hole is drawn, and every other
 * segment becomes a pipe sprite; the two segments touching the hole are caps
 * and everything below the hole is flipped.
 */
module PipeRow {

  import opened Sprites
  import Randomness

  const SEGMENT_HEIGHT: int := 60
  const HOLE_HEIGHT: int := 3
  const MIN_HOLE: int := 1

  /** `Math.ceil(canvasHeight / pipeSegmentHeight)`. */
  function SegmentCount(h: nat): (n: nat)
    ensures n * SEGMENT_HEIGHT >= h
    ensures n > 0 ==> (n - 1) * SEGMENT_HEIGHT < h
  {
    (h + SEGMENT_HEIGHT - 1) / SEGMENT_HEIGHT
  }

  /** The largest hole start the draw aims at: `totalSegments - holeHeight - 1`. */
  function MaxHole(total: int): int
  {
    total - HOLE_HEIGHT - 1
  }

  /** `Math.floor(Math.random() * (maxHole - minHole + 1)) + minHole`, with the random number injected. */
  function ChooseHole(total: int, r: real): (hole: int)
    requires 0.0 <= r < 1.0
    ensures total >= 5 ==> MIN_HOLE <= hole <= MaxHole(total)
    ensures total < 5 ==> total - 3 <= hole <= MIN_HOLE
  {
    MIN_HOLE + Randomness.Scaled(r, MaxHole(total) - MIN_HOLE + 1)
  }

  /** Index `i` is one of the three hole segments `hole`, `hole + 1`, `hole + 2`. */
  predicate InHole(i: int, hole: int)
  {
    hole <= i < hole + HOLE_HEIGHT
  }

  /** Index `i` touches the hole: it is a cap. */
  predicate IsCap(i: int, hole: int)
  {
    i == hole - 1 || i == hole + HOLE_HEIGHT
  }

  /** Index `i` lies below the hole: the pipe is flipped. */
  predicate IsBottom(i: int, hole: int)
  {
    i > hole + HOLE_HEIGHT - 1
  }

  /** The sprite the loop creates for segment `i`, on a canvas `width` wide. */
  function Segment(width: nat, i: int, hole: int): Sprite
  {
    MakePipe(width as real, (i * SEGMENT_HEIGHT + SEGMENT_HEIGHT / 2) as real,
             if IsCap(i, hole) then PipeCap else PipeBody,
             IsBottom(i, hole), IsCap(i, hole))
  }

  /** The segment indices below `k` that get a pipe, in the order the loop visits them. */
  function Indices(hole: int, k: nat): seq<int>
  {
    if k == 0 then []
    else Indices(hole, k - 1) + (if InHole(k - 1, hole) then [] else [k - 1])
  }

  /** The pipes the loop has created once it has visited the indices below `k`. */
  function Row(width: nat, hole: int, k: nat): seq<Sprite>
  {
    if k == 0 then []
    else Row(width, hole, k - 1) + (if InHole(k - 1, hole) then [] else [Segment(width, k - 1, hole)])
  }

  /** The number of cap sprites in a sequence of sprites. */
  function Caps(s: seq<Sprite>): nat
  {
    if s == [] then 0
    else Caps(s[..|s| - 1]) + (if s[|s| - 1].texture == PipeCap then 1 else 0)
  }

  lemma CapsAppend(s: seq<Sprite>, t: seq<Sprite>)
    ensures Caps(s + t) == Caps(s) + Caps(t)
    decreases |t|
  {
    if t != [] {
      assert (s + t)[..|s + t| - 1] == s + t[..|t| - 1];
      CapsAppend(s, t[..|t| - 1]);
    } else {
      assert s + t == s;
    }
  }

  /** A row leaves a hole of three segments whenever there is room for it, at `h > 240`. */
  lemma RoomForHole(h: nat)
    ensures SegmentCount(h) >= 5 <==> h > 240
  {
  }

  /** The indices that get a pipe are exactly those of `[0, k)` outside the hole. */
  lemma {:induction false} IndicesMembers(hole: int, k: nat)
    ensures forall i :: i in Indices(hole, k) <==> 0 <= i < k && !InHole(i, hole)
  {
    if k > 0 {
      IndicesMembers(hole, k - 1);
    }
  }

  /** The loop creates the pipes in strictly increasing index order. */
  lemma {:induction false} IndicesIncreasing(hole: int, k: nat)
    ensures forall a, b :: 0 <= a < b < |Indices(hole, k)| ==> Indices(hole, k)[a] < Indices(hole, k)[b]
  {
    if k > 0 {
      IndicesIncreasing(hole, k - 1);
      IndicesMembers(hole, k - 1);
      var p := Indices(hole, k - 1);
      forall a | 0 <= a < |p| ensures p[a] < k - 1 {
        assert p[a] in p;
      }
    }
  }

  /** With the hole inside `[0, k)`, exactly `k - 3` indices get a pipe. */
  lemma {:induction false} IndicesCount(hole: int, k: nat)
    requires 0 <= hole
    ensures |Indices(hole, k)| == if k <= hole then k else if k <= hole + HOLE_HEIGHT then hole else k - HOLE_HEIGHT
  {
    if k > 0 {
      IndicesCount(hole, k - 1);
    }
  }

  /** The `j`-th pipe of a row is the segment sprite of the `j`-th placed index. */
  lemma {:induction false} RowAt(width: nat, hole: int, k: nat)
    ensures |Row(width, hole, k)| == |Indices(hole, k)|
    ensures forall j :: 0 <= j < |Row(width, hole, k)| ==> Row(width, hole, k)[j] == Segment(width, Indices(hole, k)[j], hole)
  {
    if k > 0 {
      RowAt(width, hole, k - 1);
    }
  }

  /** A row holds one cap for each of `hole - 1` and `hole + 3` that lies in `[0, k)`. */
  lemma {:induction false} RowCaps(width: nat, hole: int, k: nat)
    ensures Caps(Row(width, hole, k)) == (if 0 <= hole - 1 < k then 1 else 0) + (if 0 <= hole + HOLE_HEIGHT < k then 1 else 0)
  {
    if k > 0 {
      var extra := if InHole(k - 1, hole) then [] else [Segment(width, k - 1, hole)];
      RowCaps(width, hole, k - 1);
      CapsAppend(Row(width, hole, k - 1), extra);
      if extra != [] {
        assert Caps(extra) == Caps(extra[..0]) + (if extra[0].texture == PipeCap then 1 else 0);
      }
    }
  }

  /**
   * The shape of a full row on a canvas `h` high whose hole start lies in the
   * drawn range: `total - 3` pipes at the indices outside the hole, in
   * increasing order, each at `x = width`, `y = i * 60 + 30`; exactly two caps,
   * at `hole - 1` and `hole + 3`; the pipes below the hole flipped; only the
   * bottom cap raised in depth.
   */
  lemma RowShape(width: nat, h: nat, hole: int)
    requires MIN_HOLE <= hole <= MaxHole(SegmentCount(h))
    ensures var total := SegmentCount(h);
      && total >= 5
      && |Row(width, hole, total)| == |Indices(hole, total)| == total - HOLE_HEIGHT
      && (forall i :: i in Indices(hole, total) <==> 0 <= i < total && !InHole(i, hole))
      && hole - 1 in Indices(hole, total) && hole + HOLE_HEIGHT in Indices(hole, total)
      && (forall a, b :: 0 <= a < b < |Indices(hole, total)| ==> Indices(hole, total)[a] < Indices(hole, total)[b])
      && Caps(Row(width, hole, total)) == 2
      && forall j :: 0 <= j < |Row(width, hole, total)| ==>
        var p, i := Row(width, hole, total)[j], Indices(hole, total)[j];
        && IsPipe(p)
        && p.x == width as real
        && p.y == (i * SEGMENT_HEIGHT + SEGMENT_HEIGHT / 2) as real
        && (p.texture == PipeCap <==> i == hole - 1 || i == hole + HOLE_HEIGHT)
        && (p.flipY <==> i > hole + HOLE_HEIGHT - 1)
        && (p.depth != 0.0 <==> i == hole + HOLE_HEIGHT)
  {
    var total := SegmentCount(h);
    IndicesMembers(hole, total);
    IndicesIncreasing(hole, total);
    IndicesCount(hole, total);
    RowAt(width, hole, total);
    RowCaps(width, hole, total);
    forall j | 0 <= j < |Row(width, hole, total)|
      ensures Indices(hole, total)[j] >= 0
    {
      assert Indices(hole, total)[j] in Indices(hole, total);
    }
  }

  /** A canvas 600 high with the hole drawn at 3: pipes at 0, 1, cap 2, the hole 3 to 5, cap 6, then 7, 8, 9. */
  lemma Example600(width: nat)
    ensures SegmentCount(600) == 10
    ensures Indices(3, 10) == [0, 1, 2, 6, 7, 8, 9]
    ensures |Row(width, 3, 10)| == 7
    ensures forall j :: 0 <= j < 7 ==> (Row(width, 3, 10)[j].texture == PipeCap <==> j == 2 || j == 3)
    ensures forall j :: 0 <= j < 7 ==> (Row(width, 3, 10)[j].flipY <==> j >= 3)
  {
    RowAt(width, 3, 10);
  }
}
