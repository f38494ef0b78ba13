/**
 * The component data (Skripts/BIMproject.py): the input elements, the
 * nozzle widths, the classification of the solid's faces into bottom, top
 * and perimeter, the inner/outer split, and the offset-surface cache.
 */
module Bim {
  import opened Wrappers
  import opened Geometry
  import opened Seqs

  /** A building element handed in by the BIM tool. */
  datatype Element = Element(id: nat)

  /** Where a face of the solid lies: on its bottom, on its top, or around it. */
  datatype FaceKind = Bottom | Top | Perimeter

  const Tol: real := 0.0001

  /**
   * The class of a face from its Z extent: bottom when it starts at the
   * solid's base and does not reach its height, top for the converse,
   * perimeter otherwise (a face spanning the full height included).
   */
  function KindOf(sk: SurfaceKernel, f: Surface, baseZ: real, height: real): (kind: FaceKind)
    ensures kind == Bottom <==> Abs(sk.minZ(f) - baseZ) < Tol && Abs(height - sk.maxZ(f)) > Tol
    ensures kind == Top <==> Abs(sk.minZ(f) - baseZ) > Tol && Abs(height - sk.maxZ(f)) < Tol
  {
    if Abs(sk.minZ(f) - baseZ) < Tol && Abs(height - sk.maxZ(f)) > Tol then Bottom
    else if Abs(sk.minZ(f) - baseZ) > Tol && Abs(height - sk.maxZ(f)) < Tol then Top
    else Perimeter
  }

  /** A face that starts at the base and reaches the height is a perimeter face, never bottom or top. */
  lemma FullHeightIsPerimeter(sk: SurfaceKernel, f: Surface, baseZ: real, height: real)
    requires sk.minZ(f) == baseZ && sk.maxZ(f) == height
    ensures KindOf(sk, f, baseZ, height) == Perimeter
  {
    assert Abs(sk.minZ(f) - baseZ) == 0.0 && Abs(height - sk.maxZ(f)) == 0.0;
  }

  /** The last face of kind `kind`, None when there is none. */
  function LastOfKind(sk: SurfaceKernel, faces: seq<Surface>, baseZ: real, height: real, kind: FaceKind): (r: Option<Surface>)
    ensures r.Some? ==> r.value in faces && KindOf(sk, r.value, baseZ, height) == kind
    ensures r.None? <==> forall f :: f in faces ==> KindOf(sk, f, baseZ, height) != kind
  {
    if |faces| == 0 then None
    else
      var last := faces[|faces| - 1];
      var init := faces[..|faces| - 1];
      assert faces == init + [last];
      if KindOf(sk, last, baseZ, height) == kind then Some(last) else LastOfKind(sk, init, baseZ, height, kind)
  }

  /** `found`, or `earlier` when nothing was found. */
  function Latest(found: Option<Surface>, earlier: Option<Surface>): (r: Option<Surface>)
    ensures found.Some? ==> r == found
    ensures found.None? ==> r == earlier
  {
    if found.Some? then found else earlier
  }

  /** `isWidth(value)`: `value` is within the tolerance of some nozzle width. */
  predicate MatchesWidth(width: seq<real>, value: real) {
    exists w :: w in width && Abs(value - w) < Tol
  }

  /** A perimeter face is a side face when one of its perimeter curves is as long as a width. */
  predicate HasWidthEdge(sk: SurfaceKernel, width: seq<real>, f: Surface) {
    exists len :: len in sk.perimeterLengths(f) && MatchesWidth(width, len)
  }

  /** `list(set(s))` has one element exactly when `s` is non-empty and all its elements are equal. */
  lemma {:induction false} SingleValue(s: seq<real>)
    ensures |set x | x in s| == 1 <==> |s| > 0 && forall i :: 0 <= i < |s| ==> s[i] == s[0]
  {
    if |s| > 0 {
      var all := set x | x in s;
      if forall i :: 0 <= i < |s| ==> s[i] == s[0] {
        assert all == {s[0]};
      } else {
        var i :| 0 <= i < |s| && s[i] != s[0];
        assert {s[0], s[i]} <= all;
        assert |{s[0], s[i]}| == 2;
        SubsetCard({s[0], s[i]}, all);
      }
    } else {
      assert (set x | x in s) == {};
    }
  }

  lemma SubsetCard(a: set<real>, b: set<real>)
    requires a <= b
    ensures |a| <= |b|
  {
    assert b == a + (b - a);
  }

  /** The width list of `extractWidth` after its last step: several equal widths collapse to one. */
  function Collapse(s: seq<real>): (r: seq<real>)
    ensures (set x | x in r) == (set x | x in s)
    ensures |s| > 0 && (forall i :: 0 <= i < |s| ==> s[i] == s[0]) ==> r == [s[0]]
    ensures !(|s| > 0 && (forall i :: 0 <= i < |s| ==> s[i] == s[0])) ==> r == s
  {
    SingleValue(s);
    if |set x | x in s| == 1 then
      assert (set x | x in s) == {s[0]};
      [s[0]]
    else s
  }

  /** Collapsing the widths never changes which lengths are widths. */
  lemma CollapseKeepsWidths(s: seq<real>, value: real)
    ensures MatchesWidth(Collapse(s), value) <==> MatchesWidth(s, value)
  {
    var r := Collapse(s);
    assert forall w :: w in r <==> w in (set x | x in r);
    assert forall w :: w in s <==> w in (set x | x in s);
  }

  /** The element widths `extractWidth` reads: `Breite`, or 0 when the element type has none. */
  function Widths(original: seq<Element>, breite: Element -> Option<real>): (ws: seq<real>)
    ensures |ws| == |original|
    ensures forall i :: 0 <= i < |original| ==> ws[i] == breite(original[i]).GetOr(0.0)
  {
    seq(|original|, i requires 0 <= i < |original| => breite(original[i]).GetOr(0.0))
  }

  /** The perimeter faces that are not side faces, in order. */
  function NonSideFaces(cference: seq<Surface>, sides: seq<Surface>): seq<Surface> {
    if |cference| == 0 then []
    else
      var last := cference[|cference| - 1];
      NonSideFaces(cference[..|cference| - 1], sides) + (if last !in sides then [last] else [])
  }

  /** The faces that are neither bottom nor top, in order. */
  function PerimeterFaces(sk: SurfaceKernel, faces: seq<Surface>, baseZ: real, height: real): seq<Surface> {
    if |faces| == 0 then []
    else
      var last := faces[|faces| - 1];
      PerimeterFaces(sk, faces[..|faces| - 1], baseZ, height) + (if KindOf(sk, last, baseZ, height) == Perimeter then [last] else [])
  }

  /** The perimeter faces that carry a curve as long as a width, each once, in order. */
  function SideFaces(sk: SurfaceKernel, width: seq<real>, faces: seq<Surface>, baseZ: real, height: real): seq<Surface> {
    if |faces| == 0 then []
    else
      var last := faces[|faces| - 1];
      SideFaces(sk, width, faces[..|faces| - 1], baseZ, height)
        + (if KindOf(sk, last, baseZ, height) == Perimeter && HasWidthEdge(sk, width, last) then [last] else [])
  }

  /** A face is a perimeter face of the classification exactly when it is a face of perimeter kind. */
  lemma {:induction false} PerimeterFacesMembers(sk: SurfaceKernel, faces: seq<Surface>, baseZ: real, height: real, g: Surface)
    ensures g in PerimeterFaces(sk, faces, baseZ, height) <==> g in faces && KindOf(sk, g, baseZ, height) == Perimeter
  {
    if |faces| > 0 {
      PerimeterFacesMembers(sk, faces[..|faces| - 1], baseZ, height, g);
      assert faces == faces[..|faces| - 1] + [faces[|faces| - 1]];
    }
  }

  /**
   * A face is a side face exactly when it is a perimeter face with a curve
   * as long as a width; every side face is a perimeter face, and there are
   * no more side faces than perimeter faces.
   */
  lemma {:induction false} SideFacesMembers(sk: SurfaceKernel, width: seq<real>, faces: seq<Surface>, baseZ: real, height: real, g: Surface)
    ensures g in SideFaces(sk, width, faces, baseZ, height) <==>
      g in faces && KindOf(sk, g, baseZ, height) == Perimeter && HasWidthEdge(sk, width, g)
    ensures |SideFaces(sk, width, faces, baseZ, height)| <= |PerimeterFaces(sk, faces, baseZ, height)|
  {
    if |faces| > 0 {
      SideFacesMembers(sk, width, faces[..|faces| - 1], baseZ, height, g);
      assert faces == faces[..|faces| - 1] + [faces[|faces| - 1]];
    }
  }

  /** What one more face does to the classification: how the loop of `extractFaces` builds it. */
  lemma FacesSnoc(sk: SurfaceKernel, width: seq<real>, faces: seq<Surface>, i: nat, baseZ: real, height: real)
    requires i < |faces|
    ensures var f, kind := faces[i], KindOf(sk, faces[i], baseZ, height);
      && LastOfKind(sk, faces[..i + 1], baseZ, height, Bottom) == (if kind == Bottom then Some(f) else LastOfKind(sk, faces[..i], baseZ, height, Bottom))
      && LastOfKind(sk, faces[..i + 1], baseZ, height, Top) == (if kind == Top then Some(f) else LastOfKind(sk, faces[..i], baseZ, height, Top))
      && PerimeterFaces(sk, faces[..i + 1], baseZ, height) == PerimeterFaces(sk, faces[..i], baseZ, height) + (if kind == Perimeter then [f] else [])
      && SideFaces(sk, width, faces[..i + 1], baseZ, height)
         == SideFaces(sk, width, faces[..i], baseZ, height) + (if kind == Perimeter && HasWidthEdge(sk, width, f) then [f] else [])
  {
    assert faces[..i + 1][..i] == faces[..i];
  }

  /** The perimeter faces that a selected side meets in a surface. */
  predicate Touches(sk: SurfaceKernel, selected: seq<Surface>, p: Surface) {
    exists s :: s in selected && sk.meetsAsSurface(p, s)
  }

  /** The faces of `per` that a selected side meets (`inner`) or does not meet (`!inner`), in order. */
  function Split(sk: SurfaceKernel, selected: seq<Surface>, per: seq<Surface>, inner: bool): seq<Surface> {
    if |per| == 0 then []
    else
      var last := per[|per| - 1];
      Split(sk, selected, per[..|per| - 1], inner) + (if Touches(sk, selected, last) == inner then [last] else [])
  }

  /** Every non-side perimeter face lands in exactly one of the inner and the outer sides. */
  lemma {:induction false} SplitPartition(sk: SurfaceKernel, selected: seq<Surface>, per: seq<Surface>)
    ensures multiset(Split(sk, selected, per, true)) + multiset(Split(sk, selected, per, false)) == multiset(per)
    ensures |Split(sk, selected, per, true)| + |Split(sk, selected, per, false)| == |per|
  {
    if |per| > 0 {
      var init, last := per[..|per| - 1], per[|per| - 1];
      SplitPartition(sk, selected, init);
      var t := SplitLast(sk, selected, per);
      PartitionSnoc(Split(sk, selected, init, true), Split(sk, selected, init, false), per, t);
    }
  }

  /** The last face of `per` goes to the inner side when `t`, to the outer side otherwise. */
  lemma SplitLast(sk: SurfaceKernel, selected: seq<Surface>, per: seq<Surface>) returns (t: bool)
    requires |per| > 0
    ensures var init, last := per[..|per| - 1], per[|per| - 1];
      && Split(sk, selected, per, true) == Split(sk, selected, init, true) + (if t then [last] else [])
      && Split(sk, selected, per, false) == Split(sk, selected, init, false) + (if t then [] else [last])
  {
    t := Touches(sk, selected, per[|per| - 1]);
  }

  /** Appending the last element of `s` to one side of a partition of the rest of `s` partitions `s`. */
  lemma PartitionSnoc<T>(a: seq<T>, b: seq<T>, s: seq<T>, left: bool)
    requires |s| > 0
    requires multiset(a) + multiset(b) == multiset(s[..|s| - 1]) && |a| + |b| == |s| - 1
    ensures var x := s[|s| - 1];
      var a', b' := a + (if left then [x] else []), b + (if left then [] else [x]);
      multiset(a') + multiset(b') == multiset(s) && |a'| + |b'| == |s|
  {
    assert s == s[..|s| - 1] + [s[|s| - 1]];
  }

  /** The key of an offset: `str(value)`. The blend radius is not part of it. */
  function OffsetKey(value: Num): Num {
    value
  }

  /** The surface `getOffset` computes on a miss: the base surface offset inwards, its edges filleted when `R != 0`. */
  function OffsetSurface(sk: SurfaceKernel, base: Surface, value: Num, R: real): Surface {
    var oS := sk.offset(base, -value.Value());
    if R != 0.0 then sk.filletEdges(oS, R) else oS
  }

  /**
   * One `getOffset(value, R)` call on cache `offsets`: its result and the
   * cache afterwards. A cached key is answered from the cache; a missing one
   * is computed from the base entry "0" (KeyError without it) and stored.
   */
  function OffsetStep(sk: SurfaceKernel, offsets: map<Num, Surface>, value: Num, R: real): (r: (Result<Surface>, map<Num, Surface>))
    ensures OffsetKey(value) in offsets ==> r == (Ok(offsets[OffsetKey(value)]), offsets)
    ensures OffsetKey(value) !in offsets && Int(0) !in offsets ==> r == (Err(KeyError), offsets)
    ensures OffsetKey(value) !in offsets && Int(0) in offsets ==>
      var s := OffsetSurface(sk, offsets[Int(0)], value, R);
      r == (Ok(s), offsets[OffsetKey(value) := s])
    ensures r.0.Ok? ==> OffsetKey(value) in r.1 && r.1[OffsetKey(value)] == r.0.value
    ensures r.1.Keys == offsets.Keys + (if r.0.Ok? then {OffsetKey(value)} else {})
    ensures forall key :: key in offsets ==> key in r.1 && r.1[key] == offsets[key]
  {
    var v := OffsetKey(value);
    if v in offsets then (Ok(offsets[v]), offsets)
    else if Int(0) !in offsets then (Err(KeyError), offsets)
    else
      var s := OffsetSurface(sk, offsets[Int(0)], value, R);
      (Ok(s), offsets[v := s])
  }

  /**
   * The cache memoises by value alone: once a call has succeeded, a second
   * call with the same value, whatever its radius, returns the same surface
   * and leaves the cache as it is.
   */
  lemma OffsetMemoised(sk: SurfaceKernel, offsets: map<Num, Surface>, value: Num, R1: real, R2: real)
    requires OffsetStep(sk, offsets, value, R1).0.Ok?
    ensures var (first, after) := OffsetStep(sk, offsets, value, R1);
      OffsetStep(sk, after, value, R2) == (first, after)
  {
  }

  /** As written, `0` and `0.0` are different keys: asking for the offset `0.0` computes a new surface. */
  lemma ZeroKeys(sk: SurfaceKernel, base: Surface)
    ensures OffsetStep(sk, map[Int(0) := base], Float(0.0), 0.0).1 == map[Int(0) := base, Float(0.0) := sk.offset(base, 0.0)]
  {
    assert -Float(0.0).Value() == 0.0;
  }

  class BimData {
    var original: seq<Element>       // the input elements
    var bb: Option<BoundingBox>      // the solid's bounding box, set by extractSolid
    var height: real                 // the solid's maximal Z, set by extractSolid
    var top: Option<Surface>
    var bottom: Option<Surface>
    var sides: seq<Surface>          // perimeter faces along a nozzle width
    var innersides: seq<Surface>
    var outersides: seq<Surface>
    var cference: seq<Surface>       // the perimeter faces
    var width: seq<real>
    var count: nat                   // number of solids, set by extractSolid
    var offsets: map<Num, Surface>   // the offset cache

    /** `BIMdata(inputGeo)`: a single element is wrapped into a list. */
    constructor (inputGeo: Item<Element>)
      ensures original == inputGeo.AsList()
      ensures inputGeo.One? ==> |original| == 1
      ensures bb.None? && height == 0.0 && top.None? && bottom.None? && count == 0
      ensures sides == [] && innersides == [] && outersides == [] && cference == [] && width == []
      ensures offsets == map[]
    {
      original := inputGeo.AsList();
      bb, height, top, bottom, count := None, 0.0, None, None, 0;
      sides, innersides, outersides, cference, width := [], [], [], [], [];
      offsets := map[];
    }

    /**
     * `extractWidth()`: one width per element, 0 for an element without a
     * `Breite`, appended to the list; a list of equal widths then collapses
     * to a single entry.
     */
    method ExtractWidth(breite: Element -> Option<real>)
      modifies this`width
      ensures width == Collapse(old(width) + Widths(original, breite))
    {
      var i := 0;
      while i < |original|
        invariant 0 <= i <= |original|
        invariant width == old(width) + Widths(original[..i], breite)
      {
        assert Widths(original[..i + 1], breite) == Widths(original[..i], breite) + [breite(original[i]).GetOr(0.0)];
        width := width + [breite(original[i]).GetOr(0.0)];
        i := i + 1;
      }
      assert original[..i] == original;
      width := Collapse(width);
    }

    /** `isWidth(value)`: true exactly when `value` is within 0.0001 of some width. */
    method IsWidth(value: real) returns (r: bool)
      ensures r <==> MatchesWidth(width, value)
    {
      var i := 0;
      while i < |width|
        invariant 0 <= i <= |width|
        invariant forall j :: 0 <= j < i ==> Abs(value - width[j]) >= Tol
      {
        if Abs(value - width[i]) < Tol {
          assert width[i] in width;
          return true;
        }
        i := i + 1;
      }
      return false;
    }

    /** The inner loop of `extractFaces`: whether some perimeter curve of `f` is as long as a width. */
    method HasSideEdge(sk: SurfaceKernel, f: Surface) returns (side: bool)
      ensures side <==> HasWidthEdge(sk, width, f)
    {
      var per := sk.perimeterLengths(f);
      var i := 0;
      while i < |per|
        invariant 0 <= i <= |per|
        invariant forall j :: 0 <= j < i ==> !MatchesWidth(width, per[j])
      {
        side := IsWidth(per[i]);
        if side {
          return;
        }
        i := i + 1;
      }
      side := false;
    }

    /** One round of the loop of `extractFaces`: face `f` is filed by its kind. */
    method AddFace(sk: SurfaceKernel, f: Surface, baseZ: real, h: real)
      modifies this`bottom, this`top, this`cference, this`sides
      ensures var kind := KindOf(sk, f, baseZ, h);
        && bottom == (if kind == Bottom then Some(f) else old(bottom))
        && top == (if kind == Top then Some(f) else old(top))
        && cference == old(cference) + (if kind == Perimeter then [f] else [])
        && sides == old(sides) + (if kind == Perimeter && HasWidthEdge(sk, width, f) then [f] else [])
    {
      var kind := KindOf(sk, f, baseZ, h);
      if kind == Bottom {
        bottom := Some(f);
      } else if kind == Top {
        top := Some(f);
      } else {
        cference := cference + [f];
        var side := HasSideEdge(sk, f);
        if side {
          sides := sides + [f];
        }
      }
    }

    /** The loop of `extractFaces`: every face classified and filed in order. */
    method AddFaces(sk: SurfaceKernel, faces: seq<Surface>, baseZ: real, h: real)
      modifies this`bottom, this`top, this`cference, this`sides
      ensures bottom == Latest(LastOfKind(sk, faces, baseZ, h, Bottom), old(bottom))
      ensures top == Latest(LastOfKind(sk, faces, baseZ, h, Top), old(top))
      ensures cference == old(cference) + PerimeterFaces(sk, faces, baseZ, h)
      ensures sides == old(sides) + SideFaces(sk, width, faces, baseZ, h)
    {
      var ws := width;
      var i := 0;
      while i < |faces|
        invariant 0 <= i <= |faces|
        invariant bottom == Latest(LastOfKind(sk, faces[..i], baseZ, h, Bottom), old(bottom))
        invariant top == Latest(LastOfKind(sk, faces[..i], baseZ, h, Top), old(top))
        invariant cference == old(cference) + PerimeterFaces(sk, faces[..i], baseZ, h)
        invariant sides == old(sides) + SideFaces(sk, ws, faces[..i], baseZ, h)
      {
        FacesSnoc(sk, ws, faces, i, baseZ, h);
        AddFace(sk, faces[i], baseZ, h);
        i := i + 1;
      }
      assert faces[..i] == faces;
    }

    /**
     * `extractFaces(faces)`: the last bottom face and the last top face are
     * kept; every other face is a perimeter face, a side face too when one of
     * its curves is as long as a width; the joined perimeter faces become
     * the base offset "0". Without a bounding box the lookup raises.
     */
    method ExtractFaces(sk: SurfaceKernel, faces: seq<Surface>) returns (res: Outcome)
      modifies this`bottom, this`top, this`cference, this`sides, this`offsets
      ensures bb.None? ==> res == Fail(AttributeError) && unchanged(this)
      ensures bb.Some? ==>
        var baseZ := bb.value.minPoint.z;
        && res == Pass
        && bottom == Latest(LastOfKind(sk, faces, baseZ, height, Bottom), old(bottom))
        && top == Latest(LastOfKind(sk, faces, baseZ, height, Top), old(top))
        && cference == old(cference) + PerimeterFaces(sk, faces, baseZ, height)
        && sides == old(sides) + SideFaces(sk, width, faces, baseZ, height)
        && offsets == old(offsets)[Int(0) := sk.joinSurfaces(cference)]
    {
      if bb.None? {
        return Fail(AttributeError);
      }
      AddFaces(sk, faces, bb.value.minPoint.z, height);
      offsets := offsets[Int(0) := sk.joinSurfaces(cference)];
      res := Pass;
    }

    /** The inner loop of `defineInsideOutside`: whether some selected side meets `p` in a surface. */
    method MeetsSelected(sk: SurfaceKernel, selected: seq<Surface>, p: Surface) returns (t: bool)
      ensures t <==> Touches(sk, selected, p)
    {
      var j := 0;
      while j < |selected|
        invariant 0 <= j <= |selected|
        invariant forall q :: 0 <= q < j ==> !sk.meetsAsSurface(p, selected[q])
      {
        if sk.meetsAsSurface(p, selected[j]) {
          assert selected[j] in selected;
          return true;
        }
        j := j + 1;
      }
      return false;
    }

    /**
     * `defineInsideOutside(selectedSides)`: the perimeter faces that are not
     * side faces go, in order, to the inner sides when a selected side meets
     * them in a surface, and to the outer sides otherwise.
     */
    method DefineInsideOutside(sk: SurfaceKernel, selected: seq<Surface>)
      modifies this`innersides, this`outersides
      ensures var per := NonSideFaces(cference, sides);
        && innersides == old(innersides) + Split(sk, selected, per, true)
        && outersides == old(outersides) + Split(sk, selected, per, false)
    {
      var per: seq<Surface> := [];
      var i := 0;
      while i < |cference|
        invariant 0 <= i <= |cference|
        invariant per == NonSideFaces(cference[..i], sides)
        invariant innersides == old(innersides) && outersides == old(outersides)
      {
        assert cference[..i + 1][..i] == cference[..i];
        if cference[i] !in sides {
          per := per + [cference[i]];
        }
        i := i + 1;
      }
      assert cference[..i] == cference;
      var n := 0;
      while n < |per|
        invariant 0 <= n <= |per|
        invariant innersides == old(innersides) + Split(sk, selected, per[..n], true)
        invariant outersides == old(outersides) + Split(sk, selected, per[..n], false)
      {
        var p := per[n];
        assert per[..n + 1][..n] == per[..n];
        var t := MeetsSelected(sk, selected, p);
        if t {
          innersides := innersides + [p];
        } else {
          outersides := outersides + [p];
        }
        n := n + 1;
      }
      assert per[..n] == per;
    }

    /**
     * `getOffset(value, R)`: the surface offset by `value` from the base
     * perimeter, memoised under `str(value)`.
     */
    method GetOffset(sk: SurfaceKernel, value: Num, R: real) returns (r: Result<Surface>)
      modifies this`offsets
      ensures (r, offsets) == OffsetStep(sk, old(offsets), value, R)
      ensures OffsetKey(value) in old(offsets) ==> r == Ok(old(offsets)[OffsetKey(value)]) && offsets == old(offsets)
      ensures r.Ok? ==> OffsetKey(value) in offsets
    {
      var v := OffsetKey(value);
      if v !in offsets {
        if Int(0) !in offsets {
          return Err(KeyError);
        }
        var pS := offsets[Int(0)];
        offsets := offsets[v := OffsetSurface(sk, pS, value, R)];
      }
      r := Ok(offsets[v]);
    }
  }
}
