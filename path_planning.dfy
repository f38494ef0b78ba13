/**
 * The layer-dependent steps of the pattern planner (Skripts/FIMpattern.py):
 * `reverseCurves`, `identifySides`, `insertAccess`, `connect2path`, the list
 * work of `prepareHelpCurves`, and the zig-zag interleaving of `planZickZack`.
 */
module PathPlanning {
  import opened Wrappers
  import opened Geometry
  import opened Seqs
  import opened PatternBase
  import opened Layers

  /** Curve `j` of `s` ends where curve `j + 1` starts. */
  predicate Meets(k: Kernel, s: seq<Curve>, j: int)
    requires 0 <= j < |s| - 1
  {
    EndPoint(k, s[j]) == StartPoint(k, s[j + 1])
  }

  /** Consecutive curves meet: each starts where the one before it ends. */
  predicate Chain(k: Kernel, s: seq<Curve>) {
    forall j :: 0 <= j < |s| - 1 ==> Meets(k, s, j)
  }

  /** Two chains joined where the first ends and the second starts form one chain. */
  lemma ChainAppend(k: Kernel, a: seq<Curve>, b: seq<Curve>)
    requires Chain(k, a) && Chain(k, b)
    requires |a| > 0 && |b| > 0 ==> EndPoint(k, a[|a| - 1]) == StartPoint(k, b[0])
    ensures Chain(k, a + b)
  {
    forall j | 0 <= j < |a + b| - 1
      ensures Meets(k, a + b, j)
    {
      if j + 1 < |a| {
        assert Meets(k, a, j);
        assert (a + b)[j] == a[j] && (a + b)[j + 1] == a[j + 1];
      } else if j + 1 == |a| {
        assert (a + b)[j] == a[|a| - 1] && (a + b)[j + 1] == b[0];
      } else {
        assert Meets(k, b, j - |a|);
        assert (a + b)[j] == b[j - |a|] && (a + b)[j + 1] == b[j - |a| + 1];
      }
    }
  }

  // ---------------------------------------------------------------- reverseCurves

  /** Every curve reversed, and the list reversed. */
  function ReversedAll(k: Kernel, cs: seq<Curve>): (r: seq<Curve>)
    ensures |r| == |cs|
    ensures forall j :: 0 <= j < |cs| ==> r[j] == Reverse(k, cs[|cs| - 1 - j])
  {
    Reversed(seq(|cs|, j requires 0 <= j < |cs| => Reverse(k, cs[j])))
  }

  /** Reversing a list of curves twice gives it back when reversing each curve twice does. */
  lemma ReversedAllTwice(k: Kernel, cs: seq<Curve>)
    requires forall j :: 0 <= j < |cs| ==> Reverse(k, Reverse(k, cs[j])) == cs[j]
    ensures ReversedAll(k, ReversedAll(k, cs)) == cs
  {
    var once := ReversedAll(k, cs);
    var twice := ReversedAll(k, once);
    forall j | 0 <= j < |cs| ensures twice[j] == cs[j] {
      assert twice[j] == Reverse(k, once[|cs| - 1 - j]);
      assert once[|cs| - 1 - j] == Reverse(k, cs[j]);
    }
  }

  /**
   * What one `reverseCurves(curves, invert)` call yields: the new `redir`
   * and the returned list. The list is reversed only when `redir` was
   * already set; the bit is then XOR-ed with `invert`.
   */
  function ReverseStep(k: Kernel, redir: bool, invert: bool, curves: seq<Curve>): (r: (bool, seq<Curve>))
    ensures r.0 == (invert != redir)
    ensures |r.1| == |curves|
    ensures !redir ==> r.1 == curves
    ensures redir ==> r.1 == ReversedAll(k, curves)
  {
    (invert != redir, if redir then ReversedAll(k, curves) else curves)
  }

  /**
   * Two successive calls with `invert` set restore `redir`, and the list is
   * reversed exactly once in the two calls, whichever the starting bit: the
   * step is not an involution on lists.
   */
  lemma ReverseTwice(k: Kernel, redir: bool, curves: seq<Curve>)
    ensures var first := ReverseStep(k, redir, true, curves);
      var second := ReverseStep(k, first.0, true, first.1);
      second.0 == redir && second.1 == ReversedAll(k, curves)
  {
  }

  /** `reverseCurves(curves, invert)` on the layer being planned. */
  method ReverseCurves(k: Kernel, layer: Layer, curves: seq<Curve>, invert: bool) returns (rev: seq<Curve>)
    modifies layer`redir
    ensures (layer.redir, rev) == ReverseStep(k, old(layer.redir), invert, curves)
    ensures layer.redir == (invert != old(layer.redir))
    ensures |rev| == |curves|
  {
    if layer.redir {
      rev := ReversedAll(k, curves);
    } else {
      rev := curves;
    }
    layer.redir := invert != layer.redir;
  }

  // ---------------------------------------------------------------- identifySides

  /**
   * `curves[i]` is the curve `identifySides` keeps for point `p`: closer than
   * the initial bound 10000, strictly closer than every curve before it, and
   * no farther than every curve after it.
   */
  predicate FirstNearest(k: Kernel, p: Point, curves: seq<Curve>, i: int) {
    && 0 <= i < |curves|
    && k.distance(p, curves[i]) < 10000.0
    && (forall q :: 0 <= q < i ==> k.distance(p, curves[q]) > k.distance(p, curves[i]))
    && (forall q :: i < q < |curves| ==> k.distance(p, curves[q]) >= k.distance(p, curves[i]))
  }

  /** `c` is what the search for the curve closest to `p` yields: None when every curve is at 10000 or more. */
  ghost predicate NearestOf(k: Kernel, p: Point, curves: seq<Curve>, c: Option<Curve>) {
    && (c.None? <==> forall q :: 0 <= q < |curves| ==> k.distance(p, curves[q]) >= 10000.0)
    && (c.Some? ==> exists i :: FirstNearest(k, p, curves, i) && c.value == curves[i])
  }

  /** The first-wins minimum is unique, so the search has exactly one possible outcome. */
  lemma NearestUnique(k: Kernel, p: Point, curves: seq<Curve>, c1: Option<Curve>, c2: Option<Curve>)
    requires NearestOf(k, p, curves, c1) && NearestOf(k, p, curves, c2)
    ensures c1 == c2
  {
    if c1.Some? && c2.Some? {
      var i1 :| FirstNearest(k, p, curves, i1) && c1.value == curves[i1];
      var i2 :| FirstNearest(k, p, curves, i2) && c2.value == curves[i2];
      if i1 < i2 {
        assert false;
      } else if i2 < i1 {
        assert false;
      }
    }
  }

  /**
   * The index the search over `curves` settles on: a curve replaces the
   * choice so far when it is strictly nearer than it (than 10000 before
   * any choice); -1 when no curve is chosen.
   */
  function NearestIndex(k: Kernel, p: Point, curves: seq<Curve>): (i: int)
    ensures -1 <= i < |curves|
  {
    if |curves| == 0 then -1
    else
      var b := NearestIndex(k, p, curves[..|curves| - 1]);
      var bound := if b < 0 then 10000.0 else k.distance(p, curves[b]);
      if k.distance(p, curves[|curves| - 1]) < bound then |curves| - 1 else b
  }

  /** The curve the search settles on, None when there is none. */
  function NearestChoice(k: Kernel, p: Point, curves: seq<Curve>): Option<Curve> {
    var i := NearestIndex(k, p, curves);
    if i < 0 then None else Some(curves[i])
  }

  /** The search settles on the first curve that is nearest and nearer than 10000, and on nothing when there is none. */
  lemma {:induction false} NearestIndexFirst(k: Kernel, p: Point, curves: seq<Curve>)
    ensures var i := NearestIndex(k, p, curves);
      && (i < 0 <==> forall q :: 0 <= q < |curves| ==> k.distance(p, curves[q]) >= 10000.0)
      && (i >= 0 ==> FirstNearest(k, p, curves, i))
  {
    if |curves| > 0 {
      var init := curves[..|curves| - 1];
      NearestIndexFirst(k, p, init);
      assert forall q :: 0 <= q < |init| ==> init[q] == curves[q];
    }
  }

  /** The choice is what the search must yield. */
  lemma NearestChoiceIsNearest(k: Kernel, p: Point, curves: seq<Curve>)
    ensures NearestOf(k, p, curves, NearestChoice(k, p, curves))
  {
    NearestIndexFirst(k, p, curves);
  }

  /** The inner loop of `identifySides`: the closest curve to `p`, the first one on a tie. */
  method Nearest(k: Kernel, p: Point, curves: seq<Curve>) returns (c: Option<Curve>)
    ensures c == NearestChoice(k, p, curves)
  {
    var best: real := 10000.0;
    c := None;
    ghost var bi := -1;
    var j := 0;
    while j < |curves|
      invariant 0 <= j <= |curves|
      invariant bi == NearestIndex(k, p, curves[..j])
      invariant c == (if bi < 0 then None else Some(curves[bi]))
      invariant best == (if bi < 0 then 10000.0 else k.distance(p, curves[bi]))
    {
      assert curves[..j + 1][..j] == curves[..j];
      var d := k.distance(p, curves[j]);
      if d < best {
        best, c, bi := d, Some(curves[j]), j;
      }
      j := j + 1;
    }
    assert curves[..j] == curves;
  }

  /** `identifySides(curves)`: for every side of the layer, the curve closest to the side's midpoint. */
  method IdentifySides(k: Kernel, layer: Layer, curves: seq<Curve>) returns (found: seq<Option<Curve>>)
    ensures |found| == |layer.sides|
    ensures forall j :: 0 <= j < |found| ==> found[j] == NearestChoice(k, k.pointAt(layer.sides[j], 0.5), curves)
  {
    var sides := layer.sides;
    found := [];
    var j := 0;
    while j < |sides|
      invariant 0 <= j <= |sides|
      invariant |found| == j
      invariant forall q :: 0 <= q < j ==> found[q] == NearestChoice(k, k.pointAt(sides[q], 0.5), curves)
    {
      var c := Nearest(k, k.pointAt(sides[j], 0.5), curves);
      found := found + [c];
      j := j + 1;
    }
  }

  /**
   * `sides[not(redir)]` and `sides[redir]`: the access side and the other
   * side, which swap when the layer's orientation bit is set.
   */
  function AccessSides(sides: seq<Option<Curve>>, redir: bool): (r: Result<(Option<Curve>, Option<Curve>)>)
    ensures r.Ok? <==> |sides| >= 2
    ensures r.Err? ==> r.error == IndexError
    ensures r.Ok? && !redir ==> r.value == (sides[1], sides[0])
    ensures r.Ok? && redir ==> r.value == (sides[0], sides[1])
  {
    if |sides| < 2 then Err(IndexError)
    else if redir then Ok((sides[0], sides[1])) else Ok((sides[1], sides[0]))
  }

  // ---------------------------------------------------------------- insertAccess

  /**
   * The trim parameters of the access gap on a curve of length `aLen`: the
   * gap spans `D + 2R` in curve length and ends `D - 2R` before the curve's end.
   */
  function AccessParams(D: real, R: real, aLen: real): (p: (real, real))
    requires aLen != 0.0
    ensures (p.1 - p.0) * aLen == D + 2.0 * R
    ensures (1.0 - p.1) * aLen == D - 2.0 * R
    ensures aLen > 0.0 && D + 2.0 * R >= 0.0 ==> p.0 <= p.1
  {
    var startP := 1.0 - (2.0 * D) / aLen;
    var endP := 1.0 - (D - 2.0 * R) / aLen;
    assert (2.0 * D) / aLen * aLen == 2.0 * D;
    assert (D - 2.0 * R) / aLen * aLen == D - 2.0 * R;
    assert aLen > 0.0 && D + 2.0 * R >= 0.0 ==> (D + 2.0 * R) / aLen >= 0.0;
    assert (endP - startP) * aLen == (2.0 * D) / aLen * aLen - (D - 2.0 * R) / aLen * aLen;
    assert endP - startP == (D + 2.0 * R) / aLen;
    (startP, endP)
  }

  /** The pieces the kernel cuts out of the access curve. */
  function AccessPieces(k: Kernel, D: real, R: real, curve: Curve): seq<Curve>
    requires k.length(curve) != 0.0
  {
    var p := AccessParams(D, R, k.length(curve));
    k.trimInterior(curve, p.0, p.1)
  }

  /**
   * `insertAccess(curve, allCurves)`: the access curve is replaced, at its
   * first position, by the pieces of the gap cut; the second piece is the
   * new access curve. Division by a zero length, a curve that is not in the
   * list, and fewer than two pieces each raise.
   */
  function InsertAccess(k: Kernel, D: real, R: real, curve: Curve, allCurves: seq<Curve>): (r: Result<(seq<Curve>, Curve)>)
    ensures r.Err? <==> k.length(curve) == 0.0 || curve !in allCurves || |AccessPieces(k, D, R, curve)| < 2
    ensures k.length(curve) == 0.0 ==> r == Err(ZeroDivisionError)
    ensures k.length(curve) != 0.0 && curve !in allCurves ==> r == Err(ValueError)
    ensures k.length(curve) != 0.0 && curve in allCurves && |AccessPieces(k, D, R, curve)| < 2 ==> r == Err(IndexError)
    ensures r.Ok? ==>
      var i := IndexOf(allCurves, curve).value;
      var pieces := AccessPieces(k, D, R, curve);
      && r.value.0 == allCurves[..i] + pieces + allCurves[i + 1..]
      && |r.value.0| == |allCurves| - 1 + |pieces|
      && r.value.1 == pieces[1] && r.value.0[i + 1] == r.value.1
  {
    if k.length(curve) == 0.0 then Err(ZeroDivisionError)
    else
      var pieces := AccessPieces(k, D, R, curve);
      match IndexOf(allCurves, curve)
      case None => Err(ValueError)
      case Some(idx) =>
        match Flatten(Flat(pieces))
        case Err(e) => Err(e)
        case Ok(flat) =>
          if |pieces| < 2 then Err(IndexError)
          else
            Ok((SpliceAccess(allCurves, flat, idx), pieces[1]))
  }

  /** `replace(allCurves, flatten(accessC), idx)`: the pieces take the place of curve `i`. */
  function SpliceAccess(allCurves: seq<Curve>, pieces: seq<Curve>, i: nat): (r: seq<Curve>)
    requires i < |allCurves|
    ensures r == allCurves[..i] + pieces + allCurves[i + 1..]
    ensures |r| == |allCurves| - 1 + |pieces|
    ensures forall j :: 0 <= j < |pieces| ==> r[i + j] == pieces[j]
  {
    Replace(allCurves, Many(pieces), i)
  }

  // ---------------------------------------------------------------- connect2path

  /**
   * `inner` rotated so that `first` leads, with that leading curve trimmed by
   * `D` from its start. `index` of a missing curve raises ValueError, the
   * division by a zero length ZeroDivisionError.
   */
  function HeadOnInner(k: Kernel, D: real, inner: seq<Curve>, first: Option<Curve>): (r: Result<seq<Curve>>)
    ensures r.Err? <==> first.None? || first.value !in inner || k.length(first.value) == 0.0
    ensures (first.None? || first.value !in inner) ==> r == Err(ValueError)
    ensures first.Some? && first.value in inner && k.length(first.value) == 0.0 ==> r == Err(ZeroDivisionError)
    ensures r.Ok? ==>
      var rot := Rotate(inner, IndexOf(inner, first.value).value);
      && |r.value| == |inner|
      && r.value[0] == k.trimStart(first.value, D / k.length(first.value))
      && r.value[1..] == rot[1..]
  {
    if first.None? || first.value !in inner then Err(ValueError)
    else
      var rot := Rotate(inner, IndexOf(inner, first.value).value);
      RotateToIndex(inner, first.value);
      var len := k.length(rot[0]);
      if len == 0.0 then Err(ZeroDivisionError)
      else Ok(rot[0 := k.trimStart(rot[0], D / len)])
  }

  /**
   * The `R == 0` splice: the path, a line from its end to the start of
   * `ins`, `ins`, and a line from the end of `ins` back to the path's start.
   */
  function SpliceStraight(k: Kernel, path: seq<Curve>, ins: seq<Curve>): (r: seq<Curve>)
    requires |path| > 0 && |ins| > 0
    ensures |r| == |path| + |ins| + 2
    ensures r[..|path|] == path && r[|path| + 1..|path| + 1 + |ins|] == ins
    ensures r[|path|].Line? && r[|r| - 1].Line?
    ensures EndPoint(k, r[|path| - 1]) == StartPoint(k, r[|path|])
    ensures EndPoint(k, r[|path|]) == StartPoint(k, r[|path| + 1])
    ensures EndPoint(k, r[|r| - 2]) == StartPoint(k, r[|r| - 1])
    ensures EndPoint(k, r[|r| - 1]) == StartPoint(k, r[0])
  {
    var l := Line(EndPoint(k, path[|path| - 1]), StartPoint(k, ins[0]));
    var l3 := Line(EndPoint(k, ins[|ins| - 1]), StartPoint(k, path[0]));
    var r := path + [l] + ins + [l3];
    assert r[|path|] == l && r[|path| + 1] == ins[0] && r[|r| - 2] == ins[|ins| - 1] && r[|r| - 1] == l3;
    assert r[..|path|] == path;
    r
  }

  /** With `R == 0`, splicing a chain into a chain closes the loop: the result is a closed chain. */
  lemma SpliceStraightCloses(k: Kernel, path: seq<Curve>, ins: seq<Curve>)
    requires |path| > 0 && |ins| > 0 && Chain(k, path) && Chain(k, ins)
    ensures var r := SpliceStraight(k, path, ins);
      Chain(k, r) && EndPoint(k, r[|r| - 1]) == StartPoint(k, r[0])
  {
    var l := Line(EndPoint(k, path[|path| - 1]), StartPoint(k, ins[0]));
    var l3 := Line(EndPoint(k, ins[|ins| - 1]), StartPoint(k, path[0]));
    ChainAppend(k, path, [l]);
    ChainAppend(k, path + [l], ins);
    ChainAppend(k, path + [l] + ins, [l3]);
  }

  /**
   * The `R != 0` splice: the connecting line is shortened by `R` at both
   * ends and moved by `R`; fillet arcs join it to the path and to `ins`
   * (whose last curve is dropped first when `removelast` is set); a line
   * and a closing fillet lead from the end of `ins` back to the path.
   */
  function SpliceFillet(k: Kernel, D: real, R: real, path: seq<Curve>, ins: seq<Curve>, removelast: bool): (r: Result<seq<Curve>>)
    requires |path| > 0 && |ins| > 0
    ensures var kept := if removelast then ins[..|ins| - 1] else ins;
      var l0 := Line(EndPoint(k, path[|path| - 1]), StartPoint(k, ins[0]));
      && (r.Err? <==> k.length(l0) == 0.0 || kept == [])
      && (k.length(l0) == 0.0 ==> r == Err(ZeroDivisionError))
      && (k.length(l0) != 0.0 && kept == [] ==> r == Err(IndexError))
      && (r.Ok? ==>
        && |r.value| == |path| + |kept| + 5
        && r.value[..|path|] == path
        && r.value[|path| + 3..|path| + 3 + |kept|] == kept
        && r.value[|path|] == k.fillet(path[|path| - 1], r.value[|path| + 1], R)
        && r.value[|path| + 2] == k.fillet(r.value[|path| + 1], kept[0], R)
        && r.value[|r.value| - 2] == Line(EndPoint(k, kept[|kept| - 1]), StartPoint(k, r.value[|r.value| - 1]))
        && EndPoint(k, r.value[|r.value| - 2]) == StartPoint(k, r.value[|r.value| - 1]))
  {
    var last := path[|path| - 1];
    var l0 := Line(EndPoint(k, last), StartPoint(k, ins[0]));
    var kept := if removelast then ins[..|ins| - 1] else ins;
    if k.length(l0) == 0.0 then Err(ZeroDivisionError)
    else
      var parl := R / k.length(l0);
      var l := k.translate(k.trimByParameter(l0, parl, 1.0 - parl), last, R);
      var l2 := Reverse(k, k.translate(l, last, D));
      var a1 := k.fillet(last, l, R);
      if |kept| == 0 then Err(IndexError)
      else
        var a2 := k.fillet(l, kept[0], R);
        var a3 := k.fillet(l2, path[0], R);
        var l3 := Line(EndPoint(k, kept[|kept| - 1]), StartPoint(k, a3));
        var r := path + [a1, l, a2] + kept + [l3, a3];
        assert r[..|path|] == path;
        assert r[|path| + 3..|path| + 3 + |kept|] == kept;
        Ok(r)
  }

  /** The path `connect2path` builds before it rotates it. */
  function ConnectedPath(k: Kernel, D: real, R: real, path: seq<Curve>, inner: seq<Curve>, first: Option<Curve>, removelast: bool): (r: Result<seq<Curve>>)
    ensures path == [] ==> r == Ok(inner)
    ensures path != [] ==> (r.Err? <==> HeadOnInner(k, D, inner, first).Err? || (R != 0.0 && SpliceFillet(k, D, R, path, HeadOnInner(k, D, inner, first).value, removelast).Err?))
    ensures path != [] && r.Ok? && R == 0.0 ==> r.value == SpliceStraight(k, path, HeadOnInner(k, D, inner, first).value)
    ensures path != [] && r.Ok? && R != 0.0 ==> r == SpliceFillet(k, D, R, path, HeadOnInner(k, D, inner, first).value, removelast)
  {
    if path == [] then Ok(inner)
    else
      match HeadOnInner(k, D, inner, first)
      case Err(e) => Err(e)
      case Ok(ins) =>
        if R != 0.0 then SpliceFillet(k, D, R, path, ins, removelast)
        else Ok(SpliceStraight(k, path, ins))
  }

  /**
   * `connect2path(inner, [first, second], removelast)`: splices `inner` into
   * the layer's path (or makes it the path when the path is empty) and then
   * rotates the path so that `second` comes first. A failure before the
   * splice leaves the path unchanged; a missing `second` leaves it spliced
   * but unrotated.
   */
  method Connect2Path(k: Kernel, pat: Pattern, layer: Layer, inner: seq<Curve>, first: Option<Curve>, second: Option<Curve>, removelast: bool)
    returns (res: Outcome)
    modifies layer`path
    ensures var c := ConnectedPath(k, pat.D, pat.R, old(layer.path), inner, first, removelast);
      && (c.Err? ==> res == Fail(c.error) && layer.path == old(layer.path))
      && (c.Ok? && (second.None? || second.value !in c.value) ==> res == Fail(ValueError) && layer.path == c.value)
      && (c.Ok? && second.Some? && second.value in c.value ==>
        && res == Pass
        && layer.path == Rotate(c.value, IndexOf(c.value, second.value).value)
        && layer.path[0] == second.value)
    ensures res.Pass? ==> second.Some? && |layer.path| > 0 && layer.path[0] == second.value
  {
    var c := ConnectedPath(k, pat.D, pat.R, layer.path, inner, first, removelast);
    if c.Err? {
      return Fail(c.error);
    }
    layer.path := c.value;
    if second.None? || second.value !in layer.path {
      return Fail(ValueError);
    }
    RotateToIndex(layer.path, second.value);
    layer.path := Rotate(layer.path, IndexOf(layer.path, second.value).value);
    res := Pass;
  }

  // ---------------------------------------------------------------- prepareHelpCurves

  /**
   * `perCurves[0][:perCurves[0].index(oS[0]) + 1 + int(R > 0)]`: the curves
   * up to the other side (one more with a blend radius), which lead from the
   * shell to the pattern.
   */
  function PathToPattern(pc: seq<Curve>, o: Option<Curve>, R: real): (r: Result<seq<Curve>>)
    ensures r.Err? <==> o.None? || o.value !in pc
    ensures r.Err? ==> r.error == ValueError
    ensures r.Ok? ==>
      var i := IndexOf(pc, o.value).value;
      var n := i + 1 + (if R > 0.0 then 1 else 0);
      && |r.value| == (if n <= |pc| then n else |pc|)
      && r.value == pc[..|r.value|]
      && r.value[i] == o.value && o.value !in r.value[..i]
      && (R <= 0.0 ==> r.value[|r.value| - 1] == o.value)
  {
    if o.None? then Err(ValueError)
    else match IndexOf(pc, o.value)
      case None => Err(ValueError)
      case Some(i) =>
        IndexOfFirst(pc, o.value);
        Ok(Take(pc, i + 1 + (if R > 0.0 then 1 else 0)))
  }

  /** A curve that survives the segment filter: no fillet arc, and no spline shorter than `1.2 * R * pi`. */
  predicate KeepSegment(k: Kernel, c: Curve, R: real) {
    !IsFilletArc(k, c, R) && !(k.isNurbs(c) && k.length(c) < 1.2 * R * Pi)
  }

  /** The curves after the other side that the pattern fills between, in order. */
  function HelpSegments(k: Kernel, pc: seq<Curve>, o: Option<Curve>, R: real): (r: Result<seq<Curve>>)
    ensures r.Err? <==> o.None? || o.value !in pc
    ensures r.Err? ==> r.error == ValueError
    ensures r.Ok? ==> var i := IndexOf(pc, o.value).value;
      && r.value == Filter(pc[i + 1..], c => KeepSegment(k, c, R))
      && forall c :: c in r.value <==> c in pc[i + 1..] && KeepSegment(k, c, R)
  {
    if o.None? then Err(ValueError)
    else match IndexOf(pc, o.value)
      case None => Err(ValueError)
      case Some(i) => Ok(Filter(Drop(pc, i + 1), c => KeepSegment(k, c, R)))
  }

  /** A joint tag that opens a new segment: neither tangent (0) nor a sentinel (-1). */
  predicate Opens(c: int) {
    c != 0 && c != -1
  }

  /** One round of the tangent merge: a tangent joint merges into the last segment, a corner appends one. */
  function MergeStep(k: Kernel, acc: (seq<Curve>, seq<Curve>), c: int, o: Curve, i: Curve): (r: (seq<Curve>, seq<Curve>))
    requires |acc.0| > 0 && |acc.1| > 0
    ensures c == 0 ==> |r.0| == |acc.0| && |r.1| == |acc.1|
    ensures c == -1 ==> r == acc
    ensures Opens(c) ==> r == (acc.0 + [o], acc.1 + [i])
  {
    if c == 0 then
      (acc.0[..|acc.0| - 1] + [k.joinReverse(acc.0[|acc.0| - 1], o)],
       acc.1[..|acc.1| - 1] + [k.joinReverse(acc.1[|acc.1| - 1], i)])
    else if c != -1 then (acc.0 + [o], acc.1 + [i])
    else acc
  }

  /**
   * The outer and inner segment lists after `t` rounds of the merge loop,
   * which pairs `cs[1:]` with `os[1:]` and `ns[1:]`: both lists hold one
   * segment more than there were opening tags among the paired corners.
   */
  function MergeFold(k: Kernel, cs: seq<int>, os: seq<Curve>, ns: seq<Curve>, t: nat): (r: (seq<Curve>, seq<Curve>))
    requires t < |cs| && t < |os| && t < |ns|
    ensures |r.0| == |r.1| == 1 + CountIf(cs[1..t + 1], Opens)
  {
    if t == 0 then
      assert cs[1..1] == [];
      ([os[0]], [ns[0]])
    else
      var prev := MergeFold(k, cs, os, ns, t - 1);
      assert cs[1..t + 1] == cs[1..t] + [cs[t]];
      FilterSnoc(cs[1..t], cs[t], Opens);
      MergeStep(k, prev, cs[t], os[t], ns[t])
  }

  /** Python's `zip(corners[1:], newouter[1:], newinner[1:])` pairs this many rounds. */
  function ZipRounds(cs: seq<int>, os: seq<Curve>, ns: seq<Curve>): (m: nat)
    ensures m < |cs| || |cs| == 0
    ensures |os| > 0 && |ns| > 0 ==> m < |os| && m < |ns|
    ensures |cs| > 0 && |os| > 0 && |ns| > 0 ==> m == |cs| - 1 || m == |os| - 1 || m == |ns| - 1
  {
    var a := if |cs| > 0 then |cs| - 1 else 0;
    var b := if |os| > 0 then |os| - 1 else 0;
    var c := if |ns| > 0 then |ns| - 1 else 0;
    if a <= b && a <= c then a else if b <= c then b else c
  }

  /** One round of the merge loop: a tangent segment is joined onto the last one, a corner segment appended, a boundary skipped. */
  method MergeRound(k: Kernel, outer: seq<Curve>, inner: seq<Curve>, c: int, o: Curve, i: Curve)
    returns (outer': seq<Curve>, inner': seq<Curve>)
    requires |outer| > 0 && |inner| > 0
    ensures (outer', inner') == MergeStep(k, (outer, inner), c, o, i)
  {
    outer', inner' := outer, inner;
    if c == 0 {
      outer' := outer[..|outer| - 1] + [k.joinReverse(outer[|outer| - 1], o)];
      inner' := inner[..|inner| - 1] + [k.joinReverse(inner[|inner| - 1], i)];
    } else if c != -1 {
      outer' := outer + [o];
      inner' := inner + [i];
    }
  }

  /** The loop of the tangent merge, over the rounds `zip` pairs. */
  method MergeLoop(k: Kernel, cs: seq<int>, newOuter: seq<Curve>, newInner: seq<Curve>) returns (outer: seq<Curve>, inner: seq<Curve>)
    requires |newOuter| > 0 && |newInner| > 0
    ensures |cs| == 0 ==> (outer, inner) == ([newOuter[0]], [newInner[0]])
    ensures |cs| > 0 ==> (outer, inner) == MergeFold(k, cs, newOuter, newInner, ZipRounds(cs, newOuter, newInner))
    ensures |outer| == |inner| >= 1
  {
    outer, inner := [newOuter[0]], [newInner[0]];
    if |cs| > 0 {
      var m := ZipRounds(cs, newOuter, newInner);
      var t := 0;
      while t < m
        invariant 0 <= t <= m
        invariant (outer, inner) == MergeFold(k, cs, newOuter, newInner, t)
      {
        outer, inner := MergeRound(k, outer, inner, cs[t + 1], newOuter[t + 1], newInner[t + 1]);
        t := t + 1;
      }
    }
  }

  /**
   * The tangent merge of `prepareHelpCurves`: corners are reversed first on
   * a reversed layer; tangent segments are joined onto their predecessor,
   * corner segments appended; afterwards the layer keeps no tangent tag.
   */
  method MergeTangents(k: Kernel, layer: Layer, newOuter: seq<Curve>, newInner: seq<Curve>)
    returns (res: Result<(seq<Curve>, seq<Curve>)>)
    modifies layer`corners
    ensures var cs := if old(layer.redir) then Reversed(old(layer.corners)) else old(layer.corners);
      && ((|newOuter| == 0 || |newInner| == 0) ==> res == Err(IndexError) && layer.corners == cs)
      && (|newOuter| > 0 && |newInner| > 0 ==>
        && layer.corners == Filter(cs, c => c != 0)
        && res.Ok?
        && (|cs| == 0 ==> res.value == ([newOuter[0]], [newInner[0]]))
        && (|cs| > 0 ==> res.value == MergeFold(k, cs, newOuter, newInner, ZipRounds(cs, newOuter, newInner))))
    ensures res.Ok? ==> |res.value.0| == |res.value.1| >= 1
    ensures 0 !in layer.corners || res.Err?
  {
    if layer.redir {
      layer.corners := Reversed(layer.corners);
    }
    var cs := layer.corners;
    if |newOuter| == 0 || |newInner| == 0 {
      return Err(IndexError);
    }
    var outer, inner := MergeLoop(k, cs, newOuter, newInner);
    layer.corners := Filter(cs, c => c != 0);
    res := Ok((outer, inner));
  }

  /**
   * Without tangent joints among the paired corners, no segment is merged:
   * the outer list is the first segment followed by those whose tag opens one.
   */
  lemma {:induction false} MergeWithoutTangents(k: Kernel, cs: seq<int>, os: seq<Curve>, ns: seq<Curve>, t: nat)
    requires t < |cs| && t < |os| && t < |ns|
    requires forall j :: 1 <= j <= t ==> cs[j] != 0
    ensures |MergeFold(k, cs, os, ns, t).0| == 1 + |Filter(cs[1..t + 1], Opens)|
    ensures MergeFold(k, cs, os, ns, t).0[0] == os[0]
    ensures forall j :: 1 <= j <= t && cs[j] == 1 ==> os[j] in MergeFold(k, cs, os, ns, t).0
  {
    if t > 0 {
      MergeWithoutTangents(k, cs, os, ns, t - 1);
      var prev := MergeFold(k, cs, os, ns, t - 1);
      var cur := MergeFold(k, cs, os, ns, t);
      assert cur == MergeStep(k, prev, cs[t], os[t], ns[t]);
      assert cur.0 == prev.0 + (if Opens(cs[t]) then [os[t]] else []);
      forall j | 1 <= j <= t && cs[j] == 1 ensures os[j] in cur.0 {
        if j < t {
          assert os[j] in prev.0;
        }
      }
    }
  }

  // ---------------------------------------------------------------- planZickZack

  /** `testS` / `testE`: a band starts (ends) on the outer curve at a sentinel or a convex corner. */
  predicate OnOuter(cornerTag: int) {
    cornerTag == -1 || cornerTag == 1
  }

  /**
   * `div * 2 - int(testS == testE)` with `div = floor(length / patternPar)`:
   * the count is odd exactly when the band starts and ends on the same side.
   */
  function DivisionCount(len: real, pP: real, testS: bool, testE: bool): (r: Result<int>)
    ensures r.Err? <==> pP == 0.0
    ensures r.Err? ==> r.error == ZeroDivisionError
    ensures r.Ok? ==> (r.value % 2 == 1 <==> testS == testE)
    ensures r.Ok? ==> r.value + (if testS == testE then 1 else 0) == 2 * (len / pP).Floor
  {
    if pP == 0.0 then Err(ZeroDivisionError)
    else Ok(2 * (len / pP).Floor - (if testS == testE then 1 else 0))
  }

  /** `s[::2]` */
  function Evens<T>(s: seq<T>): (r: seq<T>)
    ensures |r| == (|s| + 1) / 2
    ensures forall m :: 0 <= m < |r| ==> r[m] == s[2 * m]
  {
    seq((|s| + 1) / 2, m requires 0 <= m < (|s| + 1) / 2 => s[2 * m])
  }

  /** `s[1::2]` */
  function Odds<T>(s: seq<T>): (r: seq<T>)
    ensures |r| == |s| / 2
    ensures forall m :: 0 <= m < |r| ==> r[m] == s[2 * m + 1]
  {
    seq(|s| / 2, m requires 0 <= m < |s| / 2 => s[2 * m + 1])
  }

  /** Point `q` of the alternation: zacks at even positions, zicks at odd ones, None once a list runs out. */
  function ZigPoint(zs: seq<Point>, ks: seq<Point>, q: nat): Option<Point> {
    if q % 2 == 0 then (if q / 2 < |zs| then Some(zs[q / 2]) else None)
    else (if q / 2 < |ks| then Some(ks[q / 2]) else None)
  }

  function Smaller(a: int, b: int): int {
    if a <= b then a else b
  }

  /** The alternation stops at its first missing point, the lesser of `2 * |ks| + 1` and `2 * |zs|`. */
  lemma FirstMissing(zs: seq<Point>, ks: seq<Point>, q: nat)
    requires forall j: nat :: j < q ==> ZigPoint(zs, ks, j).Some?
    requires ZigPoint(zs, ks, q).None?
    ensures q == Smaller(2 * |ks| + 1, 2 * |zs|)
  {
    var m := Smaller(2 * |ks| + 1, 2 * |zs|);
    assert ZigPoint(zs, ks, m).None?;
  }

  /** The zig-zag over zacks `zs` and zicks `ks`: a line between each two consecutive points of the alternation. */
  function ZigZagLines(zs: seq<Point>, ks: seq<Point>): (r: seq<Curve>)
    requires |zs| > 0
    ensures |r| == Smaller(2 * |ks| + 1, 2 * |zs|) - 1
    ensures forall j :: 0 <= j < |r| ==> r[j].Line?
    ensures forall j :: 0 <= j < |r| - 1 ==> r[j].to == r[j + 1].from
    ensures forall j {:trigger r[j]} :: 0 <= j < |r| ==> Some(r[j].from) == ZigPoint(zs, ks, j) && Some(r[j].to) == ZigPoint(zs, ks, j + 1)
  {
    var n := Smaller(2 * |ks| + 1, 2 * |zs|) - 1;
    seq(n, j requires 0 <= j < n => Line(ZigPoint(zs, ks, j).value, ZigPoint(zs, ks, j + 1).value))
  }

  /**
   * The interleaving loop of `planZickZack`: `a` starts at the first zack,
   * `b` at the first zick; every round draws the line `a -> b`, moves `a` to
   * `b`, and draws `b` alternately from the zacks and the zicks, stopping
   * the first time the list it draws from is exhausted.
   */
  method ZigZag(zs: seq<Point>, ks: seq<Point>) returns (lines: seq<Curve>)
    requires |zs| > 0
    ensures lines == ZigZagLines(zs, ks)
  {
    var zi, ki := 1, 0;
    var a := zs[0];
    var b: Option<Point> := None;
    if ki < |ks| {
      b, ki := Some(ks[ki]), ki + 1;
    }
    var sw := true;
    lines := [];
    ghost var q: nat := 1;
    while b.Some?
      invariant 1 <= q <= 2 * |zs| + 2 * |ks| + 1
      invariant b == ZigPoint(zs, ks, q)
      invariant Some(a) == ZigPoint(zs, ks, q - 1)
      invariant forall j: nat :: j < q ==> ZigPoint(zs, ks, j).Some?
      invariant sw <==> q % 2 == 1
      invariant b.Some? ==> zi == q / 2 + 1 && ki == (q + 1) / 2
      invariant |lines| == q - 1
      invariant forall j :: 0 <= j < q - 1 ==> lines[j] == Line(ZigPoint(zs, ks, j).value, ZigPoint(zs, ks, j + 1).value)
      decreases 2 * |zs| + 2 * |ks| + 1 - q
    {
      var l := Line(a, b.value);
      a := b.value;
      if sw {
        b := None;
        if zi < |zs| {
          b, zi := Some(zs[zi]), zi + 1;
        }
      } else {
        b := None;
        if ki < |ks| {
          b, ki := Some(ks[ki]), ki + 1;
        }
      }
      sw := !sw;
      lines := lines + [l];
      q := q + 1;
    }
    FirstMissing(zs, ks, q);
  }

  /**
   * With as many partner points as division points (always so in
   * `planZickZack`), the alternation uses them all: `n` points give `n - 1`
   * lines, through the primary points at even and the partner points at odd
   * positions.
   */
  lemma ZigZagUsesAll(divisions: seq<Point>, others: seq<Point>)
    requires |divisions| == |others| > 0
    ensures var zs, ks := Evens(divisions), Odds(others);
      && Smaller(2 * |ks| + 1, 2 * |zs|) - 1 == |divisions| - 1
      && forall j: nat :: j < |divisions| ==> ZigPoint(zs, ks, j) == Some(if j % 2 == 0 then divisions[j] else others[j])
  {
    var zs, ks := Evens(divisions), Odds(others);
    forall j: nat | j < |divisions|
      ensures ZigPoint(zs, ks, j) == Some(if j % 2 == 0 then divisions[j] else others[j])
    {
      if j % 2 == 0 {
        assert 2 * (j / 2) == j;
      } else {
        assert 2 * (j / 2) + 1 == j;
      }
    }
  }

  /** The division points of a band: the primary curve's start, its chord points, and its end. */
  function Divisions(k: Kernel, first: Curve, count: int): (ds: seq<Point>)
    ensures |ds| >= 2 && ds[0] == StartPoint(k, first) && ds[|ds| - 1] == EndPoint(k, first)
  {
    [StartPoint(k, first)] + k.chordPoints(first, count) + [EndPoint(k, first)]
  }

  /** The points of the partner curve closest to each division point. */
  function Partners(k: Kernel, second: Curve, ds: seq<Point>): (os: seq<Point>)
    ensures |os| == |ds|
    ensures forall j :: 0 <= j < |ds| ==> os[j] == k.closestPoint(second, ds[j])
  {
    seq(|ds|, j requires 0 <= j < |ds| => k.closestPoint(second, ds[j]))
  }

  /** The zig-zag of one band as a value: ZeroDivisionError for spacing 0, otherwise a chain of at least one line. */
  function Band(k: Kernel, pP: real, cTs: int, cTe: int, o: Curve, i: Curve): (r: Result<seq<Curve>>)
    ensures r.Err? <==> pP == 0.0
    ensures r.Err? ==> r.error == ZeroDivisionError
    ensures r.Ok? ==> |r.value| >= 1 && Chain(k, r.value)
  {
    var first, second := if OnOuter(cTs) then o else i, if OnOuter(cTs) then i else o;
    match DivisionCount(k.length(o), pP, OnOuter(cTs), OnOuter(cTe))
    case Err(e) => Err(e)
    case Ok(count) =>
      var ds := Divisions(k, first, count);
      var others := Partners(k, second, ds);
      ZigZagUsesAll(ds, others);
      Ok(ZigZagLines(Evens(ds), Odds(others)))
  }

  /**
   * One band of `planZickZack` between outer segment `o` and inner segment
   * `i`: the primary curve is `o` exactly when the band starts on the outer
   * side; its division points and their partners are interleaved.
   */
  method ZigZagBand(k: Kernel, pP: real, cTs: int, cTe: int, o: Curve, i: Curve) returns (res: Result<seq<Curve>>)
    ensures pP == 0.0 ==> res == Err(ZeroDivisionError)
    ensures pP != 0.0 ==>
      var first, second := if OnOuter(cTs) then o else i, if OnOuter(cTs) then i else o;
      var ds := Divisions(k, first, DivisionCount(k.length(o), pP, OnOuter(cTs), OnOuter(cTe)).value);
      var others := Partners(k, second, ds);
      && res == Ok(ZigZagLines(Evens(ds), Odds(others)))
      && |res.value| == |ds| - 1
      && res.value[0].from == StartPoint(k, first)
    ensures res == Band(k, pP, cTs, cTe, o, i)
  {
    var testS, testE := OnOuter(cTs), OnOuter(cTe);
    var first, second := if testS then o else i, if testS then i else o;
    var count := DivisionCount(k.length(o), pP, testS, testE);
    if count.Err? {
      return Err(count.error);
    }
    var ds := Divisions(k, first, count.value);
    var others := Partners(k, second, ds);
    ZigZagUsesAll(ds, others);
    var lines := ZigZag(Evens(ds), Odds(others));
    res := Ok(lines);
  }

  /** No corner strictly between the first and the last is a sentinel. */
  predicate NoInnerSentinel(corners: seq<int>) {
    forall n :: 0 < n < |corners| - 1 ==> corners[n] != -1
  }

  /** Band `n` of the rings: IndexError when its end corner `corners[n + 1]` is missing, otherwise its zig-zag. */
  function RingBand(k: Kernel, pP: real, corners: seq<int>, outer: seq<Curve>, inner: seq<Curve>, n: nat): (r: Result<seq<Curve>>)
    requires n < Smaller(|outer|, |inner|)
    ensures r.Err? <==> n + 1 >= |corners| || pP == 0.0
    ensures r.Err? ==> r.error == (if n + 1 >= |corners| then IndexError else ZeroDivisionError)
    ensures r.Ok? ==> Chain(k, r.value)
  {
    if n + 1 >= |corners| then Err(IndexError)
    else Band(k, pP, corners[n], corners[n + 1], outer[n], inner[n])
  }

  /** The bands of the rings, one per `zip(outer, inner)` pair. */
  function RingBands(k: Kernel, pP: real, corners: seq<int>, outer: seq<Curve>, inner: seq<Curve>): (bs: seq<Result<seq<Curve>>>)
    ensures |bs| == Smaller(|outer|, |inner|)
    ensures forall n {:trigger RingBand(k, pP, corners, outer, inner, n)} :: 0 <= n < |bs| ==> bs[n] == RingBand(k, pP, corners, outer, inner, n)
  {
    RingBandsUpTo(k, pP, corners, outer, inner, Smaller(|outer|, |inner|))
  }

  /** The first `m` bands of the rings. */
  function RingBandsUpTo(k: Kernel, pP: real, corners: seq<int>, outer: seq<Curve>, inner: seq<Curve>, m: nat): (bs: seq<Result<seq<Curve>>>)
    requires m <= Smaller(|outer|, |inner|)
    ensures |bs| == m
    ensures forall n {:trigger RingBand(k, pP, corners, outer, inner, n)} :: 0 <= n < m ==> bs[n] == RingBand(k, pP, corners, outer, inner, n)
  {
    if m == 0 then [] else RingBandsUpTo(k, pP, corners, outer, inner, m - 1) + [RingBand(k, pP, corners, outer, inner, m - 1)]
  }

  /**
   * The band loop of `planZickZack` for `R == 0` over the bands `bands`,
   * from band `n` on, with `acc` the pattern so far. A failing band fails
   * the loop; a band that does not start at a sentinel is preceded by a line
   * from the end of the pattern to the start of its zig-zag, which is
   * IndexError when either is empty; otherwise the band's zig-zag is appended.
   */
  function BandsFrom(k: Kernel, corners: seq<int>, bands: seq<Result<seq<Curve>>>, n: nat, acc: seq<Curve>): Result<seq<Curve>>
    requires n <= |bands|
    decreases |bands| - n
  {
    if n == |bands| then Ok(acc)
    else match BandRound(k, corners, n, bands[n], acc)
      case Err(e) => Err(e)
      case Ok(next) => BandsFrom(k, corners, bands, n + 1, next)
  }

  /**
   * Round `n` of the band loop with band `band` on the pattern `acc`: the new
   * pattern, or the error the round raises. A round only appends. A band
   * exists only where its corners do, so `corners[n]` is read only when it
   * is there.
   */
  function BandRound(k: Kernel, corners: seq<int>, n: nat, band: Result<seq<Curve>>, acc: seq<Curve>): (r: Result<seq<Curve>>)
    ensures r.Err? ==> r.error == IndexError || band == Err(r.error)
    ensures r.Ok? ==> band.Ok? && acc <= r.value
  {
    match band
    case Err(e) => Err(e)
    case Ok(zz) =>
      var linked := n < |corners| && corners[n] != -1;
      if linked && (acc == [] || zz == []) then Err(IndexError)
      else
        var link := if linked then [Line(EndPoint(k, acc[|acc| - 1]), StartPoint(k, zz[0]))] else [];
        assert (acc + link + zz)[..|acc|] == acc;
        Ok(acc + link + zz)
  }

  /** The pattern of `planZickZack` for `R == 0`: the band loop over the bands of the rings. */
  function PlannedBands(k: Kernel, pP: real, corners: seq<int>, outer: seq<Curve>, inner: seq<Curve>): Result<seq<Curve>> {
    BandsFrom(k, corners, RingBands(k, pP, corners, outer, inner), 0, [])
  }

  /** The band loop fails only with IndexError or the error of one of its bands, and never drops what it has planned. */
  lemma {:induction false} BandsFromGrows(k: Kernel, corners: seq<int>, bands: seq<Result<seq<Curve>>>, n: nat, acc: seq<Curve>)
    requires n <= |bands|
    ensures var r := BandsFrom(k, corners, bands, n, acc);
      && (r.Err? ==> r.error == IndexError || Err(r.error) in bands)
      && (r.Ok? ==> acc <= r.value)
    decreases |bands| - n
  {
    if n < |bands| {
      var round := BandRound(k, corners, n, bands[n], acc);
      if round.Ok? {
        BandsFromGrows(k, corners, bands, n + 1, round.value);
      }
    }
  }

  /** Every band that succeeds is a chain and has both of its corners. */
  predicate BandsFit(k: Kernel, corners: seq<int>, bands: seq<Result<seq<Curve>>>) {
    forall m :: 0 <= m < |bands| && bands[m].Ok? ==> m + 1 < |corners| && Chain(k, bands[m].value)
  }

  /** A round that links its band to a chain, or starts the pattern, leaves one chain. */
  lemma BandRoundChain(k: Kernel, corners: seq<int>, n: nat, band: Result<seq<Curve>>, acc: seq<Curve>)
    requires band.Ok? && Chain(k, band.value)
    requires Chain(k, acc) && (acc == [] || (n < |corners| && corners[n] != -1))
    ensures var r := BandRound(k, corners, n, band, acc);
      r.Ok? ==> Chain(k, r.value)
  {
    var zz := band.value;
    var linked := n < |corners| && corners[n] != -1;
    if !(linked && (acc == [] || zz == [])) {
      var link := if linked then [Line(EndPoint(k, acc[|acc| - 1]), StartPoint(k, zz[0]))] else [];
      ChainAppend(k, acc, link);
      ChainAppend(k, acc + link, zz);
    }
  }

  /** Without interior sentinels, every band is linked to the one before it, so the pattern is one chain. */
  lemma {:induction false} BandsFromChain(k: Kernel, corners: seq<int>, bands: seq<Result<seq<Curve>>>, n: nat, acc: seq<Curve>)
    requires n <= |bands| && BandsFit(k, corners, bands)
    requires NoInnerSentinel(corners) && Chain(k, acc) && (n == 0 ==> acc == [])
    ensures var r := BandsFrom(k, corners, bands, n, acc);
      r.Ok? ==> Chain(k, r.value)
    decreases |bands| - n
  {
    if n < |bands| {
      var round := BandRound(k, corners, n, bands[n], acc);
      if round.Ok? {
        assert n + 1 < |corners| && Chain(k, bands[n].value);
        BandRoundChain(k, corners, n, bands[n], acc);
        BandsFromChain(k, corners, bands, n + 1, round.value);
      }
    }
  }

  /** The bands of the rings fail only with IndexError or ZeroDivisionError; those that succeed fit. */
  lemma RingBandsFit(k: Kernel, pP: real, corners: seq<int>, outer: seq<Curve>, inner: seq<Curve>)
    ensures var bands := RingBands(k, pP, corners, outer, inner);
      && BandsFit(k, corners, bands)
      && forall e :: Err(e) in bands ==> e == IndexError || e == ZeroDivisionError
  {
    var bands := RingBands(k, pP, corners, outer, inner);
    forall m | 0 <= m < |bands| && bands[m].Ok?
      ensures m + 1 < |corners| && Chain(k, bands[m].value)
    {
      assert bands[m] == RingBand(k, pP, corners, outer, inner, m);
    }
    forall e | Err(e) in bands
      ensures e == IndexError || e == ZeroDivisionError
    {
      var m :| 0 <= m < |bands| && bands[m] == Err(e);
      assert RingBand(k, pP, corners, outer, inner, m) == Err(e);
    }
  }

  /** The head of a round of the band loop: the end corner `corners[n + 1]` is read, then the band is planned. */
  method RingBandOf(k: Kernel, pP: real, corners: seq<int>, outer: seq<Curve>, inner: seq<Curve>, n: nat)
    returns (band: Result<seq<Curve>>)
    requires n < Smaller(|outer|, |inner|)
    ensures band == RingBand(k, pP, corners, outer, inner, n)
  {
    if n + 1 >= |corners| {
      return Err(IndexError);
    }
    band := ZigZagBand(k, pP, corners[n], corners[n + 1], outer[n], inner[n]);
  }

  /**
   * The band loop of `planZickZack` for `R == 0`: it plans exactly the
   * pattern `PlannedBands` describes. There are no bands for empty rings;
   * with spacing 0 the first band is ZeroDivisionError; when no interior
   * corner is a sentinel the pattern is one chain.
   */
  method PlanBands(k: Kernel, pP: real, corners: seq<int>, outer: seq<Curve>, inner: seq<Curve>) returns (res: Result<seq<Curve>>)
    ensures res == PlannedBands(k, pP, corners, outer, inner)
    ensures res.Err? ==> res.error == IndexError || res.error == ZeroDivisionError
    ensures (|outer| == 0 || |inner| == 0) ==> res == Ok([])
    ensures pP == 0.0 && |outer| > 0 && |inner| > 0 && |corners| >= 2 ==> res == Err(ZeroDivisionError)
    ensures res.Ok? && NoInnerSentinel(corners) ==> Chain(k, res.value)
  {
    ghost var bands := RingBands(k, pP, corners, outer, inner);
    var count := Smaller(|outer|, |inner|);
    var pattern: seq<Curve> := [];
    var n := 0;
    while n < count
      invariant 0 <= n <= count
      invariant BandsFrom(k, corners, bands, 0, []) == BandsFrom(k, corners, bands, n, pattern)
    {
      var band := RingBandOf(k, pP, corners, outer, inner, n);
      assert bands[n] == band;
      var next := BandRound(k, corners, n, band, pattern);
      if next.Err? {
        PlannedBandsShape(k, pP, corners, outer, inner);
        return next;
      }
      pattern := next.value;
      n := n + 1;
    }
    PlannedBandsShape(k, pP, corners, outer, inner);
    res := Ok(pattern);
  }

  /**
   * The band loop fails only with IndexError or ZeroDivisionError; it plans
   * nothing for empty rings; with spacing 0 the first band is
   * ZeroDivisionError; when no interior corner is a sentinel its pattern is
   * one chain.
   */
  lemma PlannedBandsShape(k: Kernel, pP: real, corners: seq<int>, outer: seq<Curve>, inner: seq<Curve>)
    ensures var res := PlannedBands(k, pP, corners, outer, inner);
      && (res.Err? ==> res.error == IndexError || res.error == ZeroDivisionError)
      && ((|outer| == 0 || |inner| == 0) ==> res == Ok([]))
      && (pP == 0.0 && |outer| > 0 && |inner| > 0 && |corners| >= 2 ==> res == Err(ZeroDivisionError))
      && (res.Ok? && NoInnerSentinel(corners) ==> Chain(k, res.value))
  {
    var bands := RingBands(k, pP, corners, outer, inner);
    BandsFromGrows(k, corners, bands, 0, []);
    RingBandsFit(k, pP, corners, outer, inner);
    if NoInnerSentinel(corners) {
      BandsFromChain(k, corners, bands, 0, []);
    }
    if |bands| > 0 {
      assert bands[0] == RingBand(k, pP, corners, outer, inner, 0);
    }
  }

  /**
   * `p2p.append(Line(p2p[-1].EndPoint, pattern[0].StartPoint)); p2p.extend(pattern)`:
   * the way in from the shell, a connecting line, and the pattern.
   */
  function LinkToPattern(k: Kernel, p2p: seq<Curve>, pattern: seq<Curve>): (r: Result<seq<Curve>>)
    ensures r.Err? <==> p2p == [] || pattern == []
    ensures r.Err? ==> r.error == IndexError
    ensures r.Ok? ==> |r.value| == |p2p| + 1 + |pattern| && r.value[..|p2p|] == p2p && r.value[|p2p| + 1..] == pattern
    ensures r.Ok? ==> r.value[0] == p2p[0]
  {
    if p2p == [] || pattern == [] then Err(IndexError)
    else
      var r := p2p + [Line(EndPoint(k, p2p[|p2p| - 1]), StartPoint(k, pattern[0]))] + pattern;
      assert r[..|p2p|] == p2p && r[|p2p| + 1..] == pattern;
      Ok(r)
  }

  /** The way in and the pattern, both chains, form one chain. */
  lemma LinkToPatternChain(k: Kernel, p2p: seq<Curve>, pattern: seq<Curve>)
    requires p2p != [] && pattern != [] && Chain(k, p2p) && Chain(k, pattern)
    ensures Chain(k, LinkToPattern(k, p2p, pattern).value)
  {
    var link := Line(EndPoint(k, p2p[|p2p| - 1]), StartPoint(k, pattern[0]));
    ChainAppend(k, p2p, [link]);
    ChainAppend(k, p2p + [link], pattern);
  }

  /** The bands of `planZickZack`, linked to the way in `p2p`, as a value. */
  function LinkedBands(k: Kernel, pP: real, corners: seq<int>, outer: seq<Curve>, inner: seq<Curve>, p2p: seq<Curve>): (r: Result<seq<Curve>>)
    ensures var bands := PlannedBands(k, pP, corners, outer, inner);
      && (r.Err? <==> bands.Err? || p2p == [] || bands.value == [])
      && (bands.Err? ==> r == Err(bands.error))
      && (bands.Ok? ==> r == LinkToPattern(k, p2p, bands.value))
  {
    match PlannedBands(k, pP, corners, outer, inner)
    case Err(e) => Err(e)
    case Ok(pattern) => LinkToPattern(k, p2p, pattern)
  }

  /**
   * The pattern part of `planZickZack` for `R == 0`: the planned bands,
   * linked to the way in `p2p`.
   */
  method LinkedPattern(k: Kernel, pP: real, corners: seq<int>, outer: seq<Curve>, inner: seq<Curve>, p2p: seq<Curve>)
    returns (res: Result<seq<Curve>>)
    ensures res == LinkedBands(k, pP, corners, outer, inner, p2p)
    ensures res.Err? ==> res.error == IndexError || res.error == ZeroDivisionError
    ensures res.Ok? ==> res.value[0] == p2p[0] && res.value[..|p2p|] == p2p
    ensures res.Ok? && Chain(k, p2p) && NoInnerSentinel(corners) ==> Chain(k, res.value)
  {
    var bands := PlanBands(k, pP, corners, outer, inner);
    if bands.Err? {
      return Err(bands.error);
    }
    res := LinkToPattern(k, p2p, bands.value);
    if res.Ok? && Chain(k, p2p) && NoInnerSentinel(corners) {
      LinkToPatternChain(k, p2p, bands.value);
    }
  }

  /**
   * `planZickZack` after `prepareHelpCurves` (which supplies `outer`,
   * `inner`, `p2p` and the other side `aC`), without a blend radius: the
   * bands are planned, linked to the way in, and connected to the layer's
   * path with `p2p[0]` as the entry and `aC` as the new start. A failure of
   * the bands or the link leaves the path as it was; the connection then
   * behaves as `connect2path`.
   */
  method PlanZickZack(k: Kernel, pat: Pattern, layer: Layer, outer: seq<Curve>, inner: seq<Curve>, p2p: seq<Curve>, aC: Option<Curve>)
    returns (res: Outcome)
    requires pat.R == 0.0
    modifies layer`path
    ensures var linked := LinkedBands(k, pat.patternPar, layer.corners, outer, inner, p2p);
      && (linked.Err? ==> res == Fail(linked.error) && layer.path == old(layer.path))
      && (linked.Ok? ==>
        var c := ConnectedPath(k, pat.D, pat.R, old(layer.path), linked.value, Some(linked.value[0]), false);
        && (c.Err? ==> res == Fail(c.error) && layer.path == old(layer.path))
        && (c.Ok? && (aC.None? || aC.value !in c.value) ==> res == Fail(ValueError) && layer.path == c.value)
        && (c.Ok? && aC.Some? && aC.value in c.value ==>
          res == Pass && layer.path == Rotate(c.value, IndexOf(c.value, aC.value).value) && layer.path[0] == aC.value))
    ensures res.Pass? && Chain(k, p2p) && NoInnerSentinel(layer.corners) ==>
      Chain(k, LinkedBands(k, pat.patternPar, layer.corners, outer, inner, p2p).value)
  {
    var linked := LinkedPattern(k, pat.patternPar, layer.corners, outer, inner, p2p);
    if linked.Err? {
      return Fail(linked.error);
    }
    ghost var corners := layer.corners;
    res := Connect2Path(k, pat, layer, linked.value, Some(linked.value[0]), aC, false);
    assert layer.corners == corners;
  }
}
