/** The corridor: one hundred segments laid out along -z, two units apart,
    each made of a platform group, a pair of walls and a roof. */
module Track {
  import opened Geometry

  const SegmentCount: nat := 100
  const SegmentSpacing: real := 2.0

  /** Segment i is generated at (0, 0, -2i). */
  function SegmentOrigin(i: nat): Vec3 {
    Vec3(0.0, 0.0, -(i as real) * SegmentSpacing)
  }

  /** The first n segments of the track are built from their draws. */
  predicate Built(draws: seq<Draws>, platforms: seq<Platform>, walls: seq<(Box, Box)>, roofs: seq<Box>, n: nat)
    requires n <= |draws|
    requires forall i :: 0 <= i < |draws| ==> ValidDraws(draws[i])
  {
    && |platforms| == n && |walls| == n && |roofs| == n
    && forall k :: 0 <= k < n ==>
         platforms[k] == CreatePlatform(draws[k], SegmentOrigin(k))
         && walls[k] == CreateWalls(SegmentOrigin(k))
         && roofs[k] == CreateRoof(SegmentOrigin(k))
  }

  /** Builds the track from one triple of draws per segment, pushing each
      segment's platform, walls and roof in turn. */
  method BuildTrack(draws: seq<Draws>) returns (platforms: seq<Platform>, walls: seq<(Box, Box)>, roofs: seq<Box>)
    requires |draws| == SegmentCount
    requires forall i :: 0 <= i < |draws| ==> ValidDraws(draws[i])
    ensures |platforms| == SegmentCount && |walls| == SegmentCount && |roofs| == SegmentCount
    ensures forall i :: 0 <= i < SegmentCount ==>
              platforms[i] == CreatePlatform(draws[i], SegmentOrigin(i))
              && walls[i] == CreateWalls(SegmentOrigin(i))
              && roofs[i] == CreateRoof(SegmentOrigin(i))
  {
    platforms, walls, roofs := [], [], [];
    var i := 0;
    while i < SegmentCount
      invariant 0 <= i <= SegmentCount
      invariant Built(draws, platforms, walls, roofs, i)
    {
      var origin := SegmentOrigin(i);
      PushKeepsBuilt(draws, platforms, walls, roofs, i);
      platforms := platforms + [CreatePlatform(draws[i], origin)];
      walls := walls + [CreateWalls(origin)];
      roofs := roofs + [CreateRoof(origin)];
      i := i + 1;
    }
  }

  /** Pushing segment n's pieces extends a track built up to n by one. */
  lemma PushKeepsBuilt(draws: seq<Draws>, platforms: seq<Platform>, walls: seq<(Box, Box)>, roofs: seq<Box>, n: nat)
    requires n < |draws|
    requires forall i :: 0 <= i < |draws| ==> ValidDraws(draws[i])
    requires Built(draws, platforms, walls, roofs, n)
    ensures Built(draws, platforms + [CreatePlatform(draws[n], SegmentOrigin(n))],
                  walls + [CreateWalls(SegmentOrigin(n))], roofs + [CreateRoof(SegmentOrigin(n))], n + 1)
  {
  }

  /** On screen, segment i's platform pieces sit where a platform generated at
      (0, 0, -4i) would put them, while its walls and roof, added to the scene
      directly, stay centred on z = -2i: the platforms are laid out four units
      apart, the walls and roofs two. */
  lemma SegmentOnScreen(d: Draws, i: nat)
    requires ValidDraws(d)
    ensures var p := CreatePlatform(d, SegmentOrigin(i));
            var q := CreatePlatform(d, Vec3(0.0, 0.0, -4.0 * (i as real)));
            |p.pieces| == |q.pieces|
            && (forall k :: 0 <= k < |p.pieces| ==> WorldBox(p, p.pieces[k]) == q.pieces[k])
    ensures CreateWalls(SegmentOrigin(i)).0.center.z == -2.0 * (i as real)
    ensures CreateRoof(SegmentOrigin(i)).center.z == -2.0 * (i as real)
  {
    WorldPiecesDoubled(d, SegmentOrigin(i));
    assert Double(SegmentOrigin(i)) == Vec3(0.0, 0.0, -4.0 * (i as real));
  }
}
