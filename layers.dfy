/**
 * One print layer (Skripts/FIMlayer.py): its registry entry and height, its
 * slicing plane, its perimeter and side curves, and the classification of
 * the corners between the two side curves.
 */
module Layers {
  import opened Wrappers
  import opened Geometry
  import opened Seqs
  import opened PatternBase

  /** The class attributes of `Layer`, shared by all layers of a run. */
  class LayerClass {
    const pattern: Pattern          // Layer.Pattern: the pattern planner and its settings
    var count: nat                  // Layer.count: number of layers created
    var inst: seq<Layer>            // Layer.inst: every layer created, in order
    var offsets: map<Num, Surface>  // Layer.offsets, keyed by str(dist)
    var H: real                     // Layer.H, Layer.D, Layer.R, Layer.nop, Layer.patternPar:
    var D: real                     //   the user settings that addLayers copies here
    var R: real
    var nop: int
    var patternPar: real
    var patternName: string         // Layer.pattern

    constructor (pattern: Pattern)
      ensures this.pattern == pattern && count == 0 && inst == [] && offsets == map[]
    {
      this.pattern := pattern;
      count, inst, offsets := 0, [], map[];
      H, D, R, nop, patternPar, patternName := 0.0, 0.0, 0.0, 0, 0.0, "";
    }

    /** `addOffset(surf, dist)`: stores `surf` under the key of `dist`, replacing any earlier entry. */
    method AddOffset(surf: Surface, dist: Num)
      modifies this`offsets
      ensures offsets == old(offsets)[dist := surf]
      ensures dist in offsets && offsets[dist] == surf
      ensures forall key :: key in old(offsets) && key != dist ==> key in offsets && offsets[key] == old(offsets)[key]
    {
      offsets := offsets[dist := surf];
    }
  }

  class Layer {
    const cls: LayerClass
    const id: nat                        // self.count: the layer's position in Layer.inst
    const height: real
    var path: seq<Curve>                 // the tool path
    var perimeter: Option<seq<Curve>>    // None until setPerimeter runs
    var polyPerimeter: Option<Curve>     // the joined perimeter, None when the join failed
    var sides: seq<Curve>                // the perimeter curves on side faces
    var corners: seq<int>                // corner tags: -1 boundary, 0 tangent, 1 convex, 2 concave
    var origin: Option<Point>
    var surface: Option<Plane>           // the slicing plane
    var redir: bool                      // the orientation bit, flipped by reverseCurves

    /**
     * `Layer()`: takes the next id, registers itself in `Layer.inst`, and sits
     * at `(id + 1)` layer heights, the height being read from the pattern.
     */
    constructor (cls: LayerClass)
      modifies cls`count, cls`inst
      ensures this.cls == cls
      ensures id == old(cls.count) && cls.count == old(cls.count) + 1
      ensures cls.inst == old(cls.inst) + [this]
      ensures height == (id + 1) as real * cls.pattern.H
      ensures path == [] && perimeter.None? && polyPerimeter.None? && sides == [] && corners == []
      ensures origin.None? && surface.None? && !redir
      ensures cls.offsets == old(cls.offsets) && cls.H == old(cls.H) && cls.R == old(cls.R)
    {
      this.cls := cls;
      id := cls.count;
      height := (cls.count + 1) as real * cls.pattern.H;
      path, perimeter, polyPerimeter, sides, corners := [], None, None, [], [];
      origin, surface, redir := None, None, false;
      new;
      cls.inst := cls.inst + [this];
      cls.count := cls.count + 1;
    }

    /** `get_noc()`: the number of curves in the tool path. */
    method GetNoc() returns (n: nat)
      ensures n == |path|
    {
      n := |path|;
    }

    /**
     * `defineLsurface(bb, surf, nV)`: for a planar layer (no `surf`) the
     * slicing plane passes through the X/Y centre of the bounding box at the
     * layer's height, with normal `nV` or the Z axis; the non-planar branch
     * does nothing.
     */
    method DefineLsurface(bb: BoundingBox, surf: Option<Surface>, nV: Option<Vec>)
      modifies this`origin, this`surface
      ensures surf.Some? ==> origin == old(origin) && surface == old(surface)
      ensures surf.None? ==> origin == Some(BoxCenter(bb, height))
      ensures surf.None? ==> surface == Some(Plane(BoxCenter(bb, height), nV.GetOr(ZAxis)))
    {
      var normal := if nV.None? then ZAxis else nV.value;
      if surf.None? {
        var o := BoxCenter(bb, height);
        origin := Some(o);
        surface := Some(Plane(o, normal));
      }
    }

    /**
     * `setPerimeter(surf, sides)`: the perimeter is the intersection of the
     * slicing plane with `surf`; the joined perimeter is kept when every join
     * succeeds; every perimeter curve is added to `sides` once for each side
     * surface it meets in a curve of its own type; finally `sides` is rotated
     * by the index the distance loop computes.
     */
    method SetPerimeter(k: Kernel, surf: Surface, sideSurfs: seq<Surface>) returns (res: Outcome)
      modifies this`perimeter, this`polyPerimeter, this`sides
      ensures surface.None? ==>
        res == Fail(AttributeError) && perimeter == old(perimeter) && polyPerimeter == old(polyPerimeter) && sides == old(sides)
      ensures surface.Some? && k.intersectPlane(surface.value, surf) == [] ==>
        res == Fail(IndexError) && perimeter == Some([]) && polyPerimeter == old(polyPerimeter) && sides == old(sides)
      ensures surface.Some? && k.intersectPlane(surface.value, surf) != [] ==>
        var per := k.intersectPlane(surface.value, surf);
        && res == Pass
        && perimeter == Some(per)
        && polyPerimeter == JoinFrom(k, per[0], per[1..])
        && sides == SidesAfter(k, cls.pattern.ref, old(sides), per, sideSurfs)
    {
      if surface.None? {
        return Fail(AttributeError);
      }
      var per := k.intersectPlane(surface.value, surf);
      perimeter := Some(per);
      if |per| == 0 {
        return Fail(IndexError);
      }

      polyPerimeter := JoinAll(k, per);
      var found := FindSides(k, per, sideSurfs);
      found := sides + found;
      var minD := ClosestIndex(k, cls.pattern.ref, found);
      sides := Rotate(found, minD);
      res := Pass;
    }

    /**
     * `determineCurveSE()`: tags the joints between the perimeter curves that
     * lie strictly between the first and last side curve (fillet arcs of the
     * blend radius skipped), bracketed by -1 sentinels.
     */
    method DetermineCurveSE(k: Kernel) returns (res: Outcome)
      modifies this`corners
      ensures res.Fail? ==> corners == old(corners)
      ensures sides != [] && perimeter.None? ==> res == Fail(AttributeError)
      ensures sides == [] ==> res == Fail(ValueError)
      ensures perimeter.Some? && CornerParts(k, perimeter.value, sides, cls.pattern.R).Err? ==>
        res == Fail(CornerParts(k, perimeter.value, sides, cls.pattern.R).error)
      ensures perimeter.Some? && CornerParts(k, perimeter.value, sides, cls.pattern.R).Ok? ==>
        res == Pass && corners == CornerTags(k, CornerParts(k, perimeter.value, sides, cls.pattern.R).value)
    {
      if sides != [] && perimeter.None? {
        return Fail(AttributeError);
      }
      if sides == [] {
        return Fail(ValueError);
      }
      var found := CornerParts(k, perimeter.value, sides, cls.pattern.R);
      if found.Err? {
        return Fail(found.error);
      }
      var curveT := TagJoints(k, found.value);
      corners := curveT;
      res := Pass;
    }
  }

  /**
   * The side curves after `setPerimeter` on the perimeter `per`: the earlier
   * ones and those detected on `per`, rotated to start at the one the
   * distance loop picks.
   */
  function SidesAfter(k: Kernel, ref: Point, sides: seq<Curve>, per: seq<Curve>, sideSurfs: seq<Surface>): seq<Curve> {
    var found := sides + DetectSides(k, per, sideSurfs);
    Rotate(found, RotationIndex(Distances(k, ref, found)))
  }

  /** The join loop of `setPerimeter`: the perimeter joined curve by curve, None once a join fails. */
  method JoinAll(k: Kernel, per: seq<Curve>) returns (poly: Option<Curve>)
    requires |per| > 0
    ensures poly == JoinFrom(k, per[0], per[1..])
  {
    poly := Some(per[0]);
    var i := 1;
    while i < |per| && poly.Some?
      invariant 1 <= i <= |per|
      invariant JoinFrom(k, per[0], per[1..]) == if poly.Some? then JoinFrom(k, poly.value, per[i..]) else None
    {
      assert per[i..][1..] == per[i + 1..];
      poly := k.join(poly.value, per[i]);
      i := i + 1;
    }
  }

  /** The side-detection loops of `setPerimeter`: every perimeter curve once per side surface it meets in its own kind. */
  method FindSides(k: Kernel, per: seq<Curve>, sideSurfs: seq<Surface>) returns (found: seq<Curve>)
    ensures found == DetectSides(k, per, sideSurfs)
  {
    found := [];
    var a := 0;
    while a < |per|
      invariant 0 <= a <= |per|
      invariant found == DetectSides(k, per[..a], sideSurfs)
    {
      var b := 0;
      while b < |sideSurfs|
        invariant 0 <= b <= |sideSurfs|
        invariant found == DetectSides(k, per[..a], sideSurfs) + Matches(k, per[a], sideSurfs[..b])
      {
        assert sideSurfs[..b + 1][..b] == sideSurfs[..b];
        if k.sameKind(per[a], sideSurfs[b]) {
          found := found + [per[a]];
        }
        b := b + 1;
      }
      assert sideSurfs[..b] == sideSurfs;
      assert per[..a + 1][..a] == per[..a];
      a := a + 1;
    }
    assert per[..a] == per;
  }

  /** The `minD` loop of `setPerimeter`, as written: a side nearer than `minD` assigns its index to `minD`. */
  method ClosestIndex(k: Kernel, ref: Point, found: seq<Curve>) returns (minD: int)
    ensures minD == RotationIndex(Distances(k, ref, found))
  {
    ghost var ds := Distances(k, ref, found);
    minD := 10000;
    var n := 0;
    while n < |found|
      invariant 0 <= n <= |found|
      invariant minD == RotationIndex(ds[..n])
    {
      assert ds[..n + 1][..n] == ds[..n];
      if k.distance(ref, found[n]) < minD as real {
        minD := n;
      }
      n := n + 1;
    }
    assert ds[..n] == ds;
  }

  /** The centre of the bounding box in X and Y, at height `z`. */
  function BoxCenter(bb: BoundingBox, z: real): (p: Point)
    ensures p.z == z
    ensures p.x - bb.minPoint.x == bb.maxPoint.x - p.x
    ensures p.y - bb.minPoint.y == bb.maxPoint.y - p.y
    ensures bb.minPoint.x <= bb.maxPoint.x ==> bb.minPoint.x <= p.x <= bb.maxPoint.x
    ensures bb.minPoint.y <= bb.maxPoint.y ==> bb.minPoint.y <= p.y <= bb.maxPoint.y
  {
    Point((bb.minPoint.x + bb.maxPoint.x) / 2.0, (bb.minPoint.y + bb.maxPoint.y) / 2.0, z)
  }

  /** The joined perimeter: joins `rest` onto `acc` one curve at a time, None once a join fails. */
  function JoinFrom(k: Kernel, acc: Curve, rest: seq<Curve>): Option<Curve>
    decreases |rest|
  {
    if |rest| == 0 then Some(acc)
    else match k.join(acc, rest[0])
      case None => None
      case Some(c) => JoinFrom(k, c, rest[1..])
  }

  /** `p` once for every side surface it meets in a curve of its own type. */
  function Matches(k: Kernel, p: Curve, sideSurfs: seq<Surface>): seq<Curve> {
    if |sideSurfs| == 0 then []
    else Matches(k, p, sideSurfs[..|sideSurfs| - 1]) + (if k.sameKind(p, sideSurfs[|sideSurfs| - 1]) then [p] else [])
  }

  /** The side curves `setPerimeter` finds, in perimeter order. */
  function DetectSides(k: Kernel, per: seq<Curve>, sideSurfs: seq<Surface>): seq<Curve> {
    if |per| == 0 then [] else DetectSides(k, per[..|per| - 1], sideSurfs) + Matches(k, per[|per| - 1], sideSurfs)
  }

  lemma {:induction false} MatchesMembers(k: Kernel, p: Curve, sideSurfs: seq<Surface>, x: Curve)
    ensures x in Matches(k, p, sideSurfs) <==> x == p && exists s :: s in sideSurfs && k.sameKind(p, s)
    ensures |Matches(k, p, sideSurfs)| <= |sideSurfs|
  {
    if |sideSurfs| > 0 {
      var init := sideSurfs[..|sideSurfs| - 1];
      MatchesMembers(k, p, init, x);
      assert sideSurfs == init + [sideSurfs[|sideSurfs| - 1]];
    }
  }

  /**
   * A curve is found as a side exactly when it is a perimeter curve that
   * meets some side surface in a curve of its own type.
   */
  lemma {:induction false} DetectSidesMembers(k: Kernel, per: seq<Curve>, sideSurfs: seq<Surface>, x: Curve)
    ensures x in DetectSides(k, per, sideSurfs) <==> x in per && exists s :: s in sideSurfs && k.sameKind(x, s)
  {
    if |per| > 0 {
      var init := per[..|per| - 1];
      DetectSidesMembers(k, init, sideSurfs, x);
      MatchesMembers(k, per[|per| - 1], sideSurfs, x);
      assert per == init + [per[|per| - 1]];
    }
  }

  /** The distances from `ref` to each curve. */
  function Distances(k: Kernel, ref: Point, cs: seq<Curve>): (ds: seq<real>)
    ensures |ds| == |cs|
    ensures forall i {:trigger ds[i]} :: 0 <= i < |cs| ==> ds[i] == k.distance(ref, cs[i])
  {
    if cs == [] then [] else Distances(k, ref, cs[..|cs| - 1]) + [k.distance(ref, cs[|cs| - 1])]
  }

  /**
   * The value of `minD` after the loop of `setPerimeter`: starting from 10000,
   * every distance smaller than the current `minD` stores its INDEX in `minD`.
   */
  function RotationIndex(ds: seq<real>): int {
    if |ds| == 0 then 10000
    else
      var m := RotationIndex(ds[..|ds| - 1]);
      if ds[|ds| - 1] < m as real then |ds| - 1 else m
  }

  /**
   * As written, once the first side is closer than 10000 to the reference
   * point, no distance can be below the index 0: the loop yields 0 and the
   * rotation leaves `sides` as found.
   */
  lemma {:induction false} RotationIndexIsZero(ds: seq<real>)
    requires |ds| > 0 && ds[0] < 10000.0
    requires forall i :: 0 <= i < |ds| ==> ds[i] >= 0.0
    ensures RotationIndex(ds) == 0
  {
    if |ds| > 1 {
      RotationIndexIsZero(ds[..|ds| - 1]);
    } else {
      assert ds[..0] == [];
    }
  }

  /** A layer whose `sides` were found with such distances keeps them unrotated. */
  lemma SidesKeepOrder<T>(found: seq<T>, ds: seq<real>)
    requires |ds| == |found| && |ds| > 0 && ds[0] < 10000.0
    requires forall i :: 0 <= i < |ds| ==> ds[i] >= 0.0
    ensures Rotate(found, RotationIndex(ds)) == found
  {
    RotationIndexIsZero(ds);
  }

  /** When no side is within 10000 of the reference point, `minD` keeps its initial value. */
  lemma {:induction false} RotationIndexFar(ds: seq<real>)
    requires forall i :: 0 <= i < |ds| ==> ds[i] >= 10000.0
    ensures RotationIndex(ds) == 10000
  {
    if |ds| > 0 {
      RotationIndexFar(ds[..|ds| - 1]);
    }
  }

  /** The loop does not find the closest side: here the second side is closer, and index 0 is kept. */
  lemma RotationIndexNotNearest()
    ensures RotationIndex([5.0, 1.0]) == 0
  {
    assert [5.0, 1.0][..1] == [5.0];
    assert [5.0][..0] == [];
  }

  /**
   * `determineCurveSE`'s tag of one joint, its angle in degrees about the Z
   * axis: 0 (tangent) for an angle near 0 or 360, otherwise 1 (convex) above
   * 180 and 2 (concave) up to 180.
   */
  function Classify(angle: real): (t: int)
    ensures t == 0 || t == 1 || t == 2
    ensures t == 0 <==> angle < 0.001 || Abs(angle - 360.0) < 0.01
    ensures t == 1 <==> !(angle < 0.001 || Abs(angle - 360.0) < 0.01) && angle > 180.0
  {
    if angle < 0.001 || Abs(angle - 360.0) < 0.01 then 0
    else if angle > 180.0 then 1
    else 2
  }

  /** `[per.index(s) for s in sides]`, None when some side is not on the perimeter. */
  function SideIndices(per: seq<Curve>, sides: seq<Curve>): (r: Option<seq<nat>>)
    ensures r.Some? <==> forall s :: s in sides ==> s in per
    ensures r.Some? ==> |r.value| == |sides| && forall j {:trigger r.value[j]} :: 0 <= j < |sides| ==> Some(r.value[j]) == IndexOf(per, sides[j])
  {
    if |sides| == 0 then Some([])
    else match (IndexOf(per, sides[0]), SideIndices(per, sides[1..]))
      case (Some(i), Some(rest)) =>
        assert forall j :: 1 <= j < |sides| ==> sides[j] == sides[1..][j - 1];
        Some([i] + rest)
      case (None, _) => None
      case (_, None) =>
        assert forall s :: s in sides[1..] ==> s in sides;
        None
  }

  function Min(s: seq<nat>): (m: nat)
    requires |s| > 0
    ensures m in s && forall x :: x in s ==> m <= x
  {
    if |s| == 1 then s[0]
    else
      var r := Min(s[1..]);
      assert forall x :: x in s ==> x == s[0] || x in s[1..];
      if s[0] <= r then s[0] else r
  }

  function Max(s: seq<nat>): (m: nat)
    requires |s| > 0
    ensures m in s && forall x :: x in s ==> x <= m
  {
    if |s| == 1 then s[0]
    else
      var r := Max(s[1..]);
      assert forall x :: x in s ==> x == s[0] || x in s[1..];
      if s[0] >= r then s[0] else r
  }

  /**
   * The curves whose joints `determineCurveSE` tags: the perimeter strictly
   * between the smallest and the largest side index, fillet arcs of the
   * blend radius left out. `min` of no sides and `index` of a side that is
   * not on the perimeter raise ValueError.
   */
  function CornerParts(k: Kernel, per: seq<Curve>, sides: seq<Curve>, R: real): (r: Result<seq<Curve>>)
    ensures r.Err? <==> sides == [] || exists s :: s in sides && s !in per
    ensures r.Err? ==> r.error == ValueError
    ensures r.Ok? ==> forall c :: c in r.value ==> c in per && !IsFilletArc(k, c, R)
  {
    var ix := SideIndices(per, sides);
    if |sides| == 0 || ix.None? then Err(ValueError)
    else
      var between := Between(per, ix.value);
      Ok(Filter(between, c => !IsFilletArc(k, c, R)))
  }

  /** `per[min(ix) + 1:max(ix)]`. */
  function Between(per: seq<Curve>, ix: seq<nat>): (r: seq<Curve>)
    requires |ix| > 0
    ensures forall c :: c in r ==> c in per
    ensures Min(ix) < Max(ix) <= |per| ==> r == per[Min(ix) + 1..Max(ix)]
    ensures Max(ix) <= Min(ix) + 1 ==> r == []
  {
    Drop(Take(per, Max(ix)), Min(ix) + 1)
  }

  /** The `while nextC != -1` loop of `determineCurveSE`: one tag per joint, between two -1 sentinels. */
  method TagJoints(k: Kernel, parts: seq<Curve>) returns (curveT: seq<int>)
    ensures curveT == CornerTags(k, parts)
  {
    var tags := [];
    if |parts| >= 2 {
      var next := 1;
      while next < |parts|
        invariant 1 <= next <= |parts|
        invariant tags == Joints(k, parts[..next])
      {
        assert parts[..next + 1][..next] == parts[..next];
        tags := tags + [Classify(k.angleAboutZ(parts[next - 1], parts[next]))];
        next := next + 1;
      }
      assert parts[..next] == parts;
    }
    curveT := [-1] + tags + [-1];
  }

  /** The classes of the joints between consecutive parts. */
  function Joints(k: Kernel, parts: seq<Curve>): (t: seq<int>)
    ensures |t| == if |parts| <= 1 then 0 else |parts| - 1
    ensures forall j {:trigger t[j]} :: 0 <= j < |t| ==> t[j] == Classify(k.angleAboutZ(parts[j], parts[j + 1]))
  {
    if |parts| <= 1 then []
    else Joints(k, parts[..|parts| - 1]) + [Classify(k.angleAboutZ(parts[|parts| - 2], parts[|parts| - 1]))]
  }

  /**
   * The corner tags of `parts`: a -1 sentinel, the tag of every joint between
   * consecutive parts, and a closing -1 sentinel. With fewer than two parts
   * there is no joint, and the tags are just the two sentinels.
   */
  function CornerTags(k: Kernel, parts: seq<Curve>): (t: seq<int>)
    ensures |t| == (if |parts| <= 1 then 1 else |parts|) + 1
    ensures t[0] == -1 && t[|t| - 1] == -1
    ensures forall j {:trigger t[j]} :: 0 < j < |t| - 1 ==> t[j] == Classify(k.angleAboutZ(parts[j - 1], parts[j]))
  {
    [-1] + Joints(k, parts) + [-1]
  }
}
