/** One segment of the corridor: a 15 x 8 platform with a rectangular hole cut
    into it (emitted as up to four boxes around the hole), two side walls and a
    roof. Everything is exact real arithmetic; the three uniform draws the
    generator consumes are parameters. */
module Geometry {

  datatype Option<T> = None | Some(value: T)

  datatype Vec3 = Vec3(x: real, y: real, z: real)

  function Add(a: Vec3, b: Vec3): Vec3 {
    Vec3(a.x + b.x, a.y + b.y, a.z + b.z)
  }

  /** An axis-aligned box mesh: its extent along each axis and its centre. */
  datatype Box = Box(size: Vec3, center: Vec3)

  function MinX(b: Box): real { b.center.x - b.size.x / 2.0 }
  function MaxX(b: Box): real { b.center.x + b.size.x / 2.0 }
  function MinY(b: Box): real { b.center.y - b.size.y / 2.0 }
  function MaxY(b: Box): real { b.center.y + b.size.y / 2.0 }
  function MinZ(b: Box): real { b.center.z - b.size.z / 2.0 }
  function MaxZ(b: Box): real { b.center.z + b.size.z / 2.0 }

  /** The box's footprint on the ground plane spans [x0, x1] x [z0, z1]. */
  predicate Spans(b: Box, x0: real, x1: real, z0: real, z1: real) {
    MinX(b) == x0 && MaxX(b) == x1 && MinZ(b) == z0 && MaxZ(b) == z1
  }

  /** (px, pz) lies in the closed footprint of b. */
  predicate InFootprint(b: Box, px: real, pz: real) {
    MinX(b) <= px <= MaxX(b) && MinZ(b) <= pz <= MaxZ(b)
  }

  /** The open footprints of a and b do not meet. */
  predicate Apart(a: Box, b: Box) {
    MaxX(a) <= MinX(b) || MaxX(b) <= MinX(a) || MaxZ(a) <= MinZ(b) || MaxZ(b) <= MinZ(a)
  }

  /** The footprint of a lies inside the footprint of b. */
  predicate Within(a: Box, b: Box) {
    MinX(b) <= MinX(a) && MaxX(a) <= MaxX(b) && MinZ(b) <= MinZ(a) && MaxZ(a) <= MaxZ(b)
  }

  const PlatformWidth: real := 15.0
  const PlatformHeight: real := 0.1
  const PlatformDepth: real := 8.0

  /** The three Math.random() draws one platform consumes, in call order. */
  datatype Draws = Draws(size: real, offsetX: real, offsetZ: real)

  predicate UnitDraw(r: real) { 0.0 <= r < 1.0 }

  predicate ValidDraws(d: Draws) {
    UnitDraw(d.size) && UnitDraw(d.offsetX) && UnitDraw(d.offsetZ)
  }

  /** The hole: its side length and its offset from the platform centre. */
  datatype Hole = Hole(size: real, offsetX: real, offsetZ: real)

  /** 3 * floor(3r) + 5: one of three sizes, each a third of the draws. */
  function HoleSize(r: real): (h: real)
    requires UnitDraw(r)
    ensures h == 5.0 || h == 8.0 || h == 11.0
    ensures h == 5.0 <==> 3.0 * r < 1.0
    ensures h == 11.0 <==> 2.0 <= 3.0 * r
  {
    3.0 * ((r * 3.0).Floor as real) + 5.0
  }

  /** r * span for a draw r in [0, 1): between 0 and span, and 0 only at r = 0. */
  function Scale(r: real, span: real): (m: real)
    requires UnitDraw(r)
    ensures 0.0 < span ==> 0.0 <= m < span
    ensures span < 0.0 ==> span < m <= 0.0
    ensures span != 0.0 ==> (m == 0.0 <==> r == 0.0)
    ensures span == 0.0 ==> m == 0.0
  {
    var rest := 1.0 - r;
    assert rest * span + r * span == span;
    if 0.0 < span then
      assert 0.0 < rest * span;
      r * span
    else if span < 0.0 then
      assert rest * span < 0.0;
      r * span
    else
      r * span
  }

  /** r * (extent - h) - (extent - h) / 2: uniform over the margin the hole
      leaves on an axis of the given extent; the range is reversed when the hole
      is longer than the axis, and collapses to 0 when they are equal. */
  function HoleOffset(r: real, extent: real, h: real): (off: real)
    requires UnitDraw(r)
    ensures h < extent ==> -(extent - h) / 2.0 <= off < (extent - h) / 2.0
    ensures h == extent ==> off == 0.0
    ensures extent < h ==> -(h - extent) / 2.0 < off <= (h - extent) / 2.0
    ensures h != extent ==> (off == (h - extent) / 2.0 <==> r == 0.0)
  {
    Scale(r, extent - h) - (extent - h) / 2.0
  }

  /** The hole the generator draws: size first, then the X and Z offsets. */
  function MakeHole(d: Draws): (hole: Hole)
    requires ValidDraws(d)
    ensures hole.size == HoleSize(d.size)
    ensures -PlatformWidth / 2.0 <= hole.offsetX - hole.size / 2.0
    ensures hole.offsetX + hole.size / 2.0 < PlatformWidth / 2.0
    ensures hole.offsetX - hole.size / 2.0 == -PlatformWidth / 2.0 <==> d.offsetX == 0.0
  {
    var h := HoleSize(d.size);
    Hole(h, HoleOffset(d.offsetX, PlatformWidth, h), HoleOffset(d.offsetZ, PlatformDepth, h))
  }

  /** The full platform footprint centred on o. */
  function Slab(o: Vec3): Box {
    Box(Vec3(PlatformWidth, PlatformHeight, PlatformDepth), o)
  }

  /** The opening the four pieces leave: h wide around x + offsetX, and h deep
      around z - offsetZ, because the front and back pieces are built mirrored
      in z. */
  function Gap(hole: Hole, o: Vec3): Box {
    Box(Vec3(hole.size, PlatformHeight, hole.size), Vec3(o.x + hole.offsetX, o.y, o.z - hole.offsetZ))
  }

  /** A platform piece: one platform thickness, lying at height y. */
  predicate OnPlane(b: Box, y: real) {
    b.center.y == y && b.size.y == PlatformHeight
  }

  function LeftPiece(hole: Hole, o: Vec3): (r: Option<Box>)
    ensures r.Some? <==> MinX(Gap(hole, o)) > MinX(Slab(o))
    ensures r.Some? ==> OnPlane(r.value, o.y)
    ensures r.Some? ==> Spans(r.value, MinX(Slab(o)), MinX(Gap(hole, o)), MinZ(Slab(o)), MaxZ(Slab(o)))
  {
    if hole.offsetX - hole.size / 2.0 > -PlatformWidth / 2.0 then
      var leftWidth := hole.offsetX - hole.size / 2.0 + PlatformWidth / 2.0;
      Some(Box(Vec3(leftWidth, PlatformHeight, PlatformDepth),
               Vec3(o.x - PlatformWidth / 2.0 + leftWidth / 2.0, o.y, o.z)))
    else None
  }

  function RightPiece(hole: Hole, o: Vec3): (r: Option<Box>)
    ensures r.Some? <==> MaxX(Gap(hole, o)) < MaxX(Slab(o))
    ensures r.Some? ==> OnPlane(r.value, o.y)
    ensures r.Some? ==> Spans(r.value, MaxX(Gap(hole, o)), MaxX(Slab(o)), MinZ(Slab(o)), MaxZ(Slab(o)))
  {
    if hole.offsetX + hole.size / 2.0 < PlatformWidth / 2.0 then
      var rightWidth := PlatformWidth / 2.0 - hole.offsetX - hole.size / 2.0;
      Some(Box(Vec3(rightWidth, PlatformHeight, PlatformDepth),
               Vec3(o.x + PlatformWidth / 2.0 - rightWidth / 2.0, o.y, o.z)))
    else None
  }

  /** The front piece covers the hole's column from the gap to the +z
      edge; its guard tests offsetZ while its position uses -offsetZ. */
  function FrontPiece(hole: Hole, o: Vec3): (r: Option<Box>)
    ensures r.Some? <==> MaxZ(Gap(hole, o)) < MaxZ(Slab(o))
    ensures r.Some? ==> OnPlane(r.value, o.y)
    ensures r.Some? ==> Spans(r.value, MinX(Gap(hole, o)), MaxX(Gap(hole, o)), MaxZ(Gap(hole, o)), MaxZ(Slab(o)))
  {
    if hole.offsetZ - hole.size / 2.0 > -PlatformDepth / 2.0 then
      var frontDepth := hole.offsetZ - hole.size / 2.0 + PlatformDepth / 2.0;
      Some(Box(Vec3(hole.size, PlatformHeight, frontDepth),
               Vec3(o.x + hole.offsetX, o.y, o.z + PlatformDepth / 2.0 - frontDepth / 2.0)))
    else None
  }

  /** The back piece covers the hole's column from the -z edge to the gap. */
  function BackPiece(hole: Hole, o: Vec3): (r: Option<Box>)
    ensures r.Some? <==> MinZ(Slab(o)) < MinZ(Gap(hole, o))
    ensures r.Some? ==> OnPlane(r.value, o.y)
    ensures r.Some? ==> Spans(r.value, MinX(Gap(hole, o)), MaxX(Gap(hole, o)), MinZ(Slab(o)), MinZ(Gap(hole, o)))
  {
    if hole.offsetZ + hole.size / 2.0 < PlatformDepth / 2.0 then
      var backDepth := PlatformDepth / 2.0 - hole.offsetZ - hole.size / 2.0;
      Some(Box(Vec3(hole.size, PlatformHeight, backDepth),
               Vec3(o.x + hole.offsetX, o.y, o.z - PlatformDepth / 2.0 + backDepth / 2.0)))
    else None
  }

  function Present(b: Option<Box>): seq<Box> {
    if b.Some? then [b.value] else []
  }

  /** The pieces in the order they are added to the group: left, right, front, back. */
  function Pieces(hole: Hole, o: Vec3): seq<Box> {
    Present(LeftPiece(hole, o)) + Present(RightPiece(hole, o))
      + Present(FrontPiece(hole, o)) + Present(BackPiece(hole, o))
  }

  /** A platform group: the hole drawn for it, its pieces at the positions they
      are given (already offset by the segment origin) and the group's own position. */
  datatype Platform = Platform(hole: Hole, pieces: seq<Box>, position: Vec3)

  function CreatePlatform(d: Draws, o: Vec3): (p: Platform)
    requires ValidDraws(d)
    ensures p.position == o
    ensures p.hole.size == 5.0 || p.hole.size == 8.0 || p.hole.size == 11.0
    ensures 1 <= |p.pieces| <= 4
    ensures forall b :: b in p.pieces ==> OnPlane(b, o.y) && Within(b, Slab(o))
  {
    var hole := MakeHole(d);
    Platform(hole, Pieces(hole, o), o)
  }

  /** Which pieces exist, in terms of the draws: the right piece always, the
      left one exactly when the X draw is positive, the front and back ones only
      for the smallest hole (the front one also needing a positive Z draw). */
  lemma PieceExistence(d: Draws, o: Vec3)
    requires ValidDraws(d)
    ensures RightPiece(MakeHole(d), o).Some?
    ensures LeftPiece(MakeHole(d), o).Some? <==> d.offsetX > 0.0
    ensures FrontPiece(MakeHole(d), o).Some? <==> MakeHole(d).size == 5.0 && d.offsetZ > 0.0
    ensures BackPiece(MakeHole(d), o).Some? <==> MakeHole(d).size == 5.0
  {
    var h := HoleSize(d.size);
    var hole := MakeHole(d);
    if h == 5.0 {
      assert hole.offsetZ == d.offsetZ * 3.0 - 1.5;
    } else if h == 8.0 {
      assert hole.offsetZ == 0.0;
    } else {
      assert -1.5 < hole.offsetZ <= 1.5;
    }
  }

  /** A hole whose X extent lies inside the platform and whose (mirrored)
      Z extent meets the platform's depth. */
  predicate WellPlaced(hole: Hole) {
    0.0 < hole.size
    && -PlatformWidth / 2.0 <= hole.offsetX - hole.size / 2.0
    && hole.offsetX + hole.size / 2.0 <= PlatformWidth / 2.0
    && -PlatformDepth / 2.0 <= hole.size / 2.0 - hole.offsetZ
    && -hole.offsetZ - hole.size / 2.0 <= PlatformDepth / 2.0
  }

  /** Every hole the generator draws is well placed. */
  lemma DrawnHoleWellPlaced(d: Draws)
    requires ValidDraws(d)
    ensures WellPlaced(MakeHole(d))
  {
  }

  /** Every point of the platform outside the gap lies on some piece. */
  lemma PiecesCover(hole: Hole, o: Vec3, px: real, pz: real)
    requires WellPlaced(hole)
    requires InFootprint(Slab(o), px, pz) && !InFootprint(Gap(hole, o), px, pz)
    ensures exists b :: b in Pieces(hole, o) && InFootprint(b, px, pz)
  {
    var gap := Gap(hole, o);
    var ps := Pieces(hole, o);
    var l, r, f, k := LeftPiece(hole, o), RightPiece(hole, o), FrontPiece(hole, o), BackPiece(hole, o);
    if px < MinX(gap) {
      assert l.Some? && l.value in ps && InFootprint(l.value, px, pz);
    } else if MaxX(gap) < px {
      assert r.Some? && r.value in ps && InFootprint(r.value, px, pz);
    } else if MaxZ(gap) < pz {
      assert f.Some? && f.value in ps && InFootprint(f.value, px, pz);
    } else {
      assert k.Some? && k.value in ps && InFootprint(k.value, px, pz);
    }
  }

  /** No two boxes of s overlap. */
  predicate Pairwise(s: seq<Box>) {
    forall i, j :: 0 <= i < j < |s| ==> Apart(s[i], s[j])
  }

  lemma {:induction false} PairwiseAppend(s: seq<Box>, b: Option<Box>)
    requires Pairwise(s)
    requires b.Some? ==> forall a :: a in s ==> Apart(a, b.value)
    ensures Pairwise(s + Present(b))
  {
    var t := s + Present(b);
    forall i, j | 0 <= i < j < |t|
      ensures Apart(t[i], t[j])
    {
      if j >= |s| {
        assert t[i] in s;
      }
    }
  }

  /** The pieces lie inside the platform, do not overlap one another and do
      not overlap the gap: together with PiecesCover, they tile the platform
      minus the gap. */
  lemma PiecesDisjoint(hole: Hole, o: Vec3)
    requires WellPlaced(hole)
    ensures forall b :: b in Pieces(hole, o) ==> Within(b, Slab(o)) && Apart(b, Gap(hole, o))
    ensures Pairwise(Pieces(hole, o))
  {
    var l, r, f, k := LeftPiece(hole, o), RightPiece(hole, o), FrontPiece(hole, o), BackPiece(hole, o);
    var s1 := Present(l);
    var s2 := s1 + Present(r);
    var s3 := s2 + Present(f);
    assert Pieces(hole, o) == s3 + Present(k);
    PairwiseAppend([], l);
    assert [] + Present(l) == s1;
    PairwiseAppend(s1, r);
    PairwiseAppend(s2, f);
    PairwiseAppend(s3, k);
    forall b | b in Pieces(hole, o)
      ensures Within(b, Slab(o)) && Apart(b, Gap(hole, o))
    {
      assert b in s3 + Present(k);
      if b in s1 { assert b == l.value; }
      else if b in Present(r) { assert b == r.value; }
      else if b in Present(f) { assert b == f.value; }
      else { assert b == k.value; }
    }
  }

  /** The widths along X add up: left margin + hole + right margin = platform width. */
  lemma WidthsAddUp(d: Draws, o: Vec3)
    requires ValidDraws(d)
    ensures var hole := MakeHole(d);
            var left := if d.offsetX > 0.0 then LeftPiece(hole, o).value.size.x else 0.0;
            left + hole.size + RightPiece(hole, o).value.size.x == PlatformWidth
  {
    PieceExistence(d, o);
  }

  /** For the smallest hole the depths along Z add up:
      front + hole + back = platform depth. */
  lemma DepthsAddUp(d: Draws, o: Vec3)
    requires ValidDraws(d) && MakeHole(d).size == 5.0
    ensures var hole := MakeHole(d);
            var front := if d.offsetZ > 0.0 then FrontPiece(hole, o).value.size.z else 0.0;
            front + hole.size + BackPiece(hole, o).value.size.z == PlatformDepth
  {
    PieceExistence(d, o);
  }

  /** The generated platform is tiled by its pieces around its gap. */
  lemma PlatformTiles(d: Draws, o: Vec3, px: real, pz: real)
    requires ValidDraws(d)
    ensures var p := CreatePlatform(d, o);
            InFootprint(Slab(o), px, pz) && !InFootprint(Gap(p.hole, o), px, pz) ==>
              exists b :: b in p.pieces && InFootprint(b, px, pz)
    ensures Pairwise(CreatePlatform(d, o).pieces)
  {
    var hole := MakeHole(d);
    DrawnHoleWellPlaced(d);
    PiecesDisjoint(hole, o);
    if InFootprint(Slab(o), px, pz) && !InFootprint(Gap(hole, o), px, pz) {
      PiecesCover(hole, o, px, pz);
    }
  }

  /** With the two larger holes the gap spans the platform's full depth: there
      is neither a front nor a back piece, and the player can only pass beside
      the hole. */
  lemma LargeHoleSpansDepth(d: Draws, o: Vec3)
    requires ValidDraws(d) && MakeHole(d).size != 5.0
    ensures MinZ(Gap(MakeHole(d), o)) <= MinZ(Slab(o)) && MaxZ(Slab(o)) <= MaxZ(Gap(MakeHole(d), o))
    ensures |CreatePlatform(d, o).pieces| <= 2
  {
    PieceExistence(d, o);
  }

  /** Scene position of a child box: three.js places it relative to its group. */
  function WorldBox(p: Platform, b: Box): Box {
    Box(b.size, Add(p.position, b.center))
  }

  function Double(o: Vec3): Vec3 { Add(o, o) }

  /** Piece positions already include the origin and the group is placed at
      the origin again, so on screen the platform is the one that would have
      been generated at twice the origin. */
  lemma WorldPiecesDoubled(d: Draws, o: Vec3)
    requires ValidDraws(d)
    ensures var p := CreatePlatform(d, o);
            |p.pieces| == |CreatePlatform(d, Double(o)).pieces|
            && forall i :: 0 <= i < |p.pieces| ==> WorldBox(p, p.pieces[i]) == CreatePlatform(d, Double(o)).pieces[i]
  {
    var hole := MakeHole(d);
    var p := CreatePlatform(d, o);
    var q := CreatePlatform(d, Double(o));
    ShiftPresent(LeftPiece(hole, o), LeftPiece(hole, Double(o)));
    ShiftPresent(RightPiece(hole, o), RightPiece(hole, Double(o)));
    ShiftPresent(FrontPiece(hole, o), FrontPiece(hole, Double(o)));
    ShiftPresent(BackPiece(hole, o), BackPiece(hole, Double(o)));
    assert |p.pieces| == |q.pieces|;
    forall i | 0 <= i < |p.pieces|
      ensures WorldBox(p, p.pieces[i]) == q.pieces[i]
    {
      ShiftAt(hole, o, i);
    }
  }

  lemma ShiftPresent(a: Option<Box>, b: Option<Box>)
    requires a.Some? <==> b.Some?
    ensures |Present(a)| == |Present(b)|
  {
  }

  lemma ShiftAt(hole: Hole, o: Vec3, i: int)
    requires 0 <= i < |Pieces(hole, o)|
    ensures |Pieces(hole, o)| == |Pieces(hole, Double(o))|
    ensures Box(Pieces(hole, o)[i].size, Add(o, Pieces(hole, o)[i].center)) == Pieces(hole, Double(o))[i]
  {
    var o2 := Double(o);
    var s := [LeftPiece(hole, o), RightPiece(hole, o), FrontPiece(hole, o), BackPiece(hole, o)];
    var t := [LeftPiece(hole, o2), RightPiece(hole, o2), FrontPiece(hole, o2), BackPiece(hole, o2)];
    forall k | 0 <= k < 4
      ensures s[k].Some? <==> t[k].Some?
      ensures s[k].Some? ==> Box(s[k].value.size, Add(o, s[k].value.center)) == t[k].value
    {
    }
  }

  const WallThickness: real := 0.1
  const WallHeight: real := 10.0
  const WallLength: real := 10.0

  /** The two side walls, on the platform's left and right edges (x = -7.5
      and x = +7.5 from the origin), standing on the platform plane. */
  function CreateWalls(o: Vec3): (walls: (Box, Box))
    ensures walls.0.center.x == MinX(Slab(o)) && walls.1.center.x == MaxX(Slab(o))
    ensures MinY(walls.0) == o.y && MinY(walls.1) == o.y
    ensures MaxY(walls.0) == o.y + WallHeight && MaxY(walls.1) == o.y + WallHeight
    ensures walls.0.center.z == o.z && walls.1.center.z == o.z
    ensures walls.0.size == walls.1.size
  {
    var size := Vec3(WallThickness, WallHeight, WallLength);
    (Box(size, Vec3(o.x - 7.5, o.y + 5.0, o.z)), Box(size, Vec3(o.x + 7.5, o.y + 5.0, o.z)))
  }

  /** The roof spans the platform's width, as long as the walls, with its
      mid-plane at the walls' tops. */
  function CreateRoof(o: Vec3): (roof: Box)
    ensures MinX(roof) == MinX(Slab(o)) && MaxX(roof) == MaxX(Slab(o))
    ensures roof.center.y == MaxY(CreateWalls(o).0)
    ensures MinZ(roof) == MinZ(CreateWalls(o).1) && MaxZ(roof) == MaxZ(CreateWalls(o).1)
  {
    Box(Vec3(15.0, 0.1, 10.0), Vec3(o.x, o.y + 10.0, o.z))
  }
}
