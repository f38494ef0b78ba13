/**
 * The list helpers and per-segment arithmetic of the `Pattern` class
 * (Skripts/FIMpattern.py) that do not touch a layer: `rotate`, `replace`,
 * `flatten`, `lineAlternateEO`, `cornerOffset`, `getCornerAngle`,
 * `getTrimPars`, `trimSegments`, the offset distances the patterns request,
 * and the pattern's own settings.
 */
module PatternBase {
  import opened Wrappers
  import opened Geometry
  import opened Seqs

  // ---------------------------------------------------------------- Python lists

  /** The position Python uses for a slice bound `i` on a list of length `n`. */
  function SliceIndex(i: int, n: nat): (j: nat)
    ensures j <= n
    ensures 0 <= i <= n ==> j == i
    ensures i > n ==> j == n
    ensures i < 0 ==> j == (if n + i < 0 then 0 else n + i)
  {
    if i < 0 then (if n + i < 0 then 0 else n + i) else if i > n then n else i
  }

  /** `l[:i]` */
  function Take<T>(l: seq<T>, i: int): seq<T> {
    l[..SliceIndex(i, |l|)]
  }

  /** `l[i:]` */
  function Drop<T>(l: seq<T>, i: int): seq<T> {
    l[SliceIndex(i, |l|)..]
  }

  /** `l.index(x)`: the first position of `x`; None where Python raises ValueError. */
  function IndexOf<T(==)>(l: seq<T>, x: T): (r: Option<nat>)
    ensures r.Some? <==> x in l
    ensures r.Some? ==> r.value < |l| && l[r.value] == x
  {
    if |l| == 0 then None
    else if l[0] == x then Some(0)
    else match IndexOf(l[1..], x)
      case None => None
      case Some(i) => Some(i + 1)
  }

  /** `l.index(x)` is the FIRST position holding `x`: no earlier element equals `x`. */
  lemma {:induction false} IndexOfFirst<T>(l: seq<T>, x: T)
    requires x in l
    ensures forall j :: 0 <= j < IndexOf(l, x).value ==> l[j] != x
  {
    if l[0] != x {
      IndexOfFirst(l[1..], x);
    }
  }

  /** `rotate(l, idx)`: `l` rotated left so that position `idx mod len(l)` comes first. */
  function Rotate<T>(l: seq<T>, idx: int): (r: seq<T>)
    ensures |r| == |l|
    ensures |l| == 0 ==> r == l
    ensures |l| > 0 ==> r[0] == l[idx % |l|]
    ensures |l| > 0 ==> forall j :: 0 <= j < |r| ==>
      r[j] == if j + idx % |l| < |l| then l[j + idx % |l|] else l[j + idx % |l| - |l|]
  {
    if |l| > 0 then
      var k := idx % |l|;
      assert l == l[..k] + l[k..];
      l[k..] + l[..k]
    else
      l
  }

  /** A rotation is a permutation: every element keeps its multiplicity. */
  lemma RotatePermutes<T>(l: seq<T>, idx: int)
    ensures multiset(Rotate(l, idx)) == multiset(l)
  {
    if |l| > 0 {
      var k := idx % |l|;
      assert l == l[..k] + l[k..];
    }
  }

  /** Rotating to the position of an element brings that element to the front. */
  lemma RotateToIndex<T>(l: seq<T>, x: T)
    requires x in l
    ensures IndexOf(l, x).Some?
    ensures Rotate(l, IndexOf(l, x).value)[0] == x
  {
    var i := IndexOf(l, x).value;
    SmallMod(i, |l|);
  }

  lemma SmallMod(i: int, n: int)
    requires 0 <= i < n
    ensures i % n == i
  {
  }

  /** The argument of `flatten`: a flat list, or a list whose first element is a list. */
  datatype Nest<T> = Flat(items: seq<T>) | Nested(lists: seq<seq<T>>)

  /**
   * `flatten(l)`: a list of lists becomes one list; a flat list is returned
   * unchanged. Python inspects `l[0]` before and after each round, so an input
   * with no element at all raises IndexError.
   */
  function Flatten<T>(l: Nest<T>): (r: Result<seq<T>>)
    ensures r.Err? ==> r.error == IndexError
    ensures l.Flat? ==> (r.Ok? <==> |l.items| > 0) && (r.Ok? ==> r.value == l.items)
    ensures l.Nested? ==> (r.Ok? <==> |l.lists| > 0 && SumLengths(l.lists) > 0)
    ensures l.Nested? && r.Ok? ==> r.value == Concat(l.lists) && |r.value| == SumLengths(l.lists)
  {
    match l
    case Flat(items) => if |items| == 0 then Err(IndexError) else Ok(items)
    case Nested(ls) =>
      ConcatLength(ls);
      if |ls| == 0 then Err(IndexError)
      else
        var c := Concat(ls);
        if |c| == 0 then Err(IndexError) else Ok(c)
  }

  /** `replace(l, newitem, idx)`: `l[:idx] + newitem + l[idx+1:]`, a non-list `newitem` wrapped first. */
  function Replace<T>(l: seq<T>, newItem: Item<T>, idx: int): (r: seq<T>)
    ensures var ins := newItem.AsList();
      0 <= idx < |l| ==>
        && |r| == |l| - 1 + |ins|
        && r[..idx] == l[..idx]
        && r[idx..idx + |ins|] == ins
        && r[idx + |ins|..] == l[idx + 1..]
        && r == l[..idx] + ins + l[idx + 1..]
    ensures idx >= |l| ==> r == l + newItem.AsList()
  {
    var ins := newItem.AsList();
    var r := Take(l, idx) + ins + Drop(l, idx + 1);
    assert 0 <= idx < |l| ==> r[idx + |ins|..] == l[idx + 1..];
    r
  }

  /** `lineAlternateEO(a, b, i)`: a line from `a` to `b` for even `i`, from `b` to `a` for odd `i`. */
  function LineAlternateEO(a: Point, b: Point, i: int): (l: Curve)
    ensures l.Line?
    ensures i % 2 == 0 ==> l.from == a && l.to == b
    ensures i % 2 == 1 ==> l.from == b && l.to == a
  {
    if i % 2 == 1 then Line(b, a) else Line(a, b)
  }

  // ---------------------------------------------------------------- corner trimming

  /**
   * `cornerOffset(angle, corner)`: the trim length at a joint. A joint with
   * angle 0 is not trimmed; the trigonometric formula for the other joints is
   * the kernel's `cornerTrim`.
   */
  function CornerOffset(k: Kernel, angle: real, corner: int): (delta: real)
    ensures angle == 0.0 ==> delta == 0.0
    ensures angle != 0.0 ==> delta == k.cornerTrim(angle, corner)
  {
    if angle != 0.0 then k.cornerTrim(angle, corner) else 0.0
  }

  /**
   * `getCornerAngle`: the angle between two tangents, in radians, with the
   * joint type: `(0, 0)` (tangent) below 0.0001 rad, `(angle, 1)` (corner) otherwise.
   */
  function CornerAngle(degrees: real): (r: (real, int))
    ensures r.1 == 0 || r.1 == 1
    ensures r.1 == 0 <==> degrees / 180.0 * Pi < 0.0001
    ensures r.1 == 0 <==> r.0 == 0.0
    ensures r.1 == 1 ==> r.0 == degrees / 180.0 * Pi && r.0 >= 0.0001
  {
    var angle := degrees / 180.0 * Pi;
    if angle < 0.0001 then (0.0, 0) else (angle, 1)
  }

  /** The joint from `a` into `b` is tangent: `getCornerAngle(a, b)` reports type 0. */
  predicate TangentJoint(k: Kernel, a: Curve, b: Curve) {
    CornerAngle(k.angleWith(a, b)).1 == 0
  }

  /**
   * The start offset of segment `idx` is the Python int 0: the first segment,
   * or a tangent joint before it (`getCornerAngle` then reports the int angle
   * 0 and `cornerOffset` returns the int 0). Every other offset is a numpy float.
   */
  predicate StartOffsetIsInt(k: Kernel, segments: seq<Curve>, idx: nat)
    requires idx < |segments|
  {
    idx == 0 || TangentJoint(k, segments[idx - 1], segments[idx])
  }

  /** The end offset of segment `idx` is the Python int 0: the last segment, or a tangent joint after it. */
  predicate EndOffsetIsInt(k: Kernel, segments: seq<Curve>, idx: nat)
    requires idx < |segments|
  {
    idx == |segments| - 1 || TangentJoint(k, segments[idx], segments[idx + 1])
  }

  /**
   * `getTrimPars(idx, segments)`: the start and end parameters to which
   * segment `idx` is trimmed. The first segment keeps its start, the last its
   * end, and so does every side of a segment whose joint is tangent. On a
   * segment of length 0, dividing an int offset raises ZeroDivisionError;
   * when both offsets are numpy floats, the divisions yield inf or nan.
   */
  function TrimPars(k: Kernel, segments: seq<Curve>, idx: nat): (r: Result<(real, real)>)
    requires idx < |segments|
    ensures r.Err? <==> k.length(segments[idx]) == 0.0
    ensures r == Err(ZeroDivisionError) <==>
      k.length(segments[idx]) == 0.0 && (StartOffsetIsInt(k, segments, idx) || EndOffsetIsInt(k, segments, idx))
    ensures r == Err(NonFinite) <==>
      k.length(segments[idx]) == 0.0 && !StartOffsetIsInt(k, segments, idx) && !EndOffsetIsInt(k, segments, idx)
    ensures r.Ok? && idx == 0 ==> r.value.0 == 0.0
    ensures r.Ok? && idx == |segments| - 1 ==> r.value.1 == 1.0
    ensures r.Ok? && 0 < idx && TangentJoint(k, segments[idx - 1], segments[idx]) ==> r.value.0 == 0.0
    ensures r.Ok? && idx < |segments| - 1 && TangentJoint(k, segments[idx], segments[idx + 1]) ==> r.value.1 == 1.0
    ensures r.Ok? && 0 < idx && !TangentJoint(k, segments[idx - 1], segments[idx]) ==>
      var a := CornerAngle(k.angleWith(segments[idx - 1], segments[idx])).0;
      r.value.0 == k.cornerTrim(a, 1) / k.length(segments[idx])
    ensures r.Ok? && idx < |segments| - 1 && !TangentJoint(k, segments[idx], segments[idx + 1]) ==>
      var a := CornerAngle(k.angleWith(segments[idx], segments[idx + 1])).0;
      r.value.1 == 1.0 - k.cornerTrim(a, 1) / k.length(segments[idx])
  {
    var before := if idx != 0 then CornerAngle(k.angleWith(segments[idx - 1], segments[idx])) else (0.0, 1);
    var next := if idx != |segments| - 1 then CornerAngle(k.angleWith(segments[idx], segments[idx + 1])) else (0.0, 1);
    var len := k.length(segments[idx]);
    if len == 0.0 then
      // The start division comes first; only an int numerator raises.
      if before.0 == 0.0 || next.0 == 0.0 then Err(ZeroDivisionError) else Err(NonFinite)
    else Ok((CornerOffset(k, before.0, before.1) / len, 1.0 - CornerOffset(k, next.0, next.1) / len))
  }

  /** Segment `i` trimmed to the range `getTrimPars` gives it. */
  function Trimmed(k: Kernel, curves: seq<Curve>, i: nat): Curve
    requires i < |curves| && k.length(curves[i]) != 0.0
  {
    var pars := TrimPars(k, curves, i).value;
    k.trimByParameter(curves[i], pars.0, pars.1)
  }

  /**
   * `trimSegments(curves)`: every segment trimmed to its `getTrimPars` range,
   * in order; the first segment of length 0 stops it with the error
   * `getTrimPars` reports for it.
   */
  method TrimSegments(k: Kernel, curves: seq<Curve>) returns (res: Result<seq<Curve>>)
    ensures res.Err? <==> exists i :: 0 <= i < |curves| && k.length(curves[i]) == 0.0
    ensures res.Err? ==>
      exists i :: (0 <= i < |curves| && k.length(curves[i]) == 0.0
        && (forall j :: 0 <= j < i ==> k.length(curves[j]) != 0.0)
        && Err(res.error) == TrimPars(k, curves, i))
    ensures res.Ok? ==> |res.value| == |curves|
    ensures res.Ok? ==> forall i :: 0 <= i < |curves| ==> k.length(curves[i]) != 0.0 && res.value[i] == Trimmed(k, curves, i)
  {
    var trimmed := [];
    var idx := 0;
    while idx < |curves|
      invariant 0 <= idx <= |curves|
      invariant |trimmed| == idx
      invariant forall i :: 0 <= i < idx ==> k.length(curves[i]) != 0.0 && trimmed[i] == Trimmed(k, curves, i)
    {
      var pars := TrimPars(k, curves, idx);
      if pars.Err? {
        assert Err(pars.error) == TrimPars(k, curves, idx);
        return Err(pars.error);
      }
      trimmed := trimmed + [k.trimByParameter(curves[idx], pars.value.0, pars.value.1)];
      idx := idx + 1;
    }
    res := Ok(trimmed);
  }

  /** A fillet arc of the blend radius: an Arc with `Radius - R < 0.001`. */
  predicate IsFilletArc(k: Kernel, c: Curve, R: real) {
    match k.arcRadius(c)
    case Some(radius) => radius - R < 0.001
    case None => false
  }

  // ---------------------------------------------------------------- offsets and settings

  /** `[(n + 0.5) * D for n in range(start, end)]`: the offset distances of rings `start` to `end - 1`. */
  function OffsetDistances(start: int, end: int, D: real): (r: seq<real>)
    ensures |r| == if end > start then end - start else 0
    ensures forall i :: 0 <= i < |r| ==> r[i] == ((start + i) as real + 0.5) * D
    decreases end - start
  {
    if end <= start then [] else [(start as real + 0.5) * D] + OffsetDistances(start + 1, end, D)
  }

  datatype PatternKind = ZickZack | Lamella | Honeycomb

  /** The pattern settings (`Pattern` and its subclasses `ZickZack`, `Lamella`, `Honeycomb`). */
  class Pattern {
    const kind: PatternKind
    var H: real          // layer height
    var D: real          // nozzle diameter
    var R: real          // blend radius
    var nop: int         // number of perimeters
    var noo: int         // number of offsets required
    var patternPar: real // pattern spacing parameter
    var ref: Point       // reference point that picks the start side

    constructor (kind: PatternKind)
      ensures this.kind == kind
      ensures H == 0.0 && D == 0.0 && R == 0.0 && nop == 0 && noo == 0
      ensures patternPar == 0.5 && ref == Point(0.0, 0.5, 0.0)
    {
      this.kind := kind;
      H, D, R, nop, noo := 0.0, 0.0, 0.0, 0, 0;
      patternPar := 0.5;
      ref := Point(0.0, 0.5, 0.0);
    }

    /**
     * `setParameters`: the base class stores the settings with `nop == noo == NoP`;
     * `ZickZack` then needs one more perimeter and two offsets beyond it.
     */
    method SetParameters(lH: real, nD: real, bR: real, NoP: int, pP: real)
      modifies this
      ensures H == lH && D == nD && R == bR && patternPar == pP && ref == old(ref)
      ensures kind == ZickZack ==> nop == NoP + 1 && noo == nop + 2
      ensures kind != ZickZack ==> nop == NoP && noo == NoP
    {
      H, D, R, nop, noo, patternPar := lH, nD, bR, NoP, NoP, pP;
      if kind == ZickZack {
        nop := nop + 1;
        noo := nop + 2;
      }
    }
  }

  /**
   * With the `ZickZack` settings, `prepareHelpCurves` asks for exactly two
   * offsets, at `(NoP + 1.5) * D` and `(NoP + 2.5) * D`, just beyond the
   * `NoP + 1` shell rings `doPathPlanning` asks for.
   */
  lemma ZickZackOffsetRequests(NoP: int, D: real)
    ensures OffsetDistances(NoP + 1, NoP + 3, D) == [(NoP as real + 1.5) * D, (NoP as real + 2.5) * D]
    ensures NoP >= 0 ==> |OffsetDistances(0, NoP + 1, D)| == NoP + 1
    ensures NoP >= 0 ==> OffsetDistances(0, NoP + 1, D) + OffsetDistances(NoP + 1, NoP + 3, D) == OffsetDistances(0, NoP + 3, D)
  {
    var nop := NoP + 1;
    assert OffsetDistances(nop, nop + 2, D) == [(NoP as real + 1.5) * D, (NoP as real + 2.5) * D] by {
      var help := OffsetDistances(nop, nop + 2, D);
      assert |help| == 2;
      assert (NoP + 1) as real + 0.5 == NoP as real + 1.5;
      assert help[0] == (NoP as real + 1.5) * D;
      assert (NoP + 2) as real + 0.5 == NoP as real + 2.5;
      assert help[1] == (NoP as real + 2.5) * D;
    }
    if NoP >= 0 {
      OffsetDistancesSplit(0, nop, nop + 2, D);
    }
  }

  /** Consecutive ranges of rings request consecutive offsets. */
  lemma {:induction false} OffsetDistancesSplit(a: int, b: int, c: int, D: real)
    requires a <= b <= c
    ensures OffsetDistances(a, b, D) + OffsetDistances(b, c, D) == OffsetDistances(a, c, D)
    decreases b - a
  {
    if a < b {
      OffsetDistancesSplit(a + 1, b, c, D);
    }
  }
}
