/**
 * The print project (Skripts/FIMproject.py): the registry of projects, the
 * user settings that create the layers, and the per-layer initialisation
 * that slices the component and classifies its corners.
 */
module Projects {
  import opened Wrappers
  import opened Geometry
  import opened PatternBase
  import opened Layers
  import opened Bim

  /** The user input of `addLayers`: one field per dictionary key it reads. */
  datatype Settings = Settings(
    layerH: real,       // "LayerH"
    nozzleD: real,      // "NozzleD"
    radius: real,       // "Radius"
    noP: int,           // "NoP"
    pattern: string,    // "Pattern"
    patternPar: real,   // "PatternPar"
    reduce: bool,       // "reduce"
    noL: int)           // "NoL"

  /** Python's `int(x)` on a float: truncation toward zero. */
  function Trunc(x: real): (n: int)
    ensures x >= 0.0 ==> 0 <= n && n as real <= x < n as real + 1.0
    ensures x < 0.0 ==> n <= 0 && n as real - 1.0 < x <= n as real
  {
    if x >= 0.0 then x.Floor else -((-x).Floor)
  }

  /** The number of layers `addLayers` asks for: `NoL` when reducing, else the solid's height over the layer height. */
  function LayerCount(s: Settings, height: real): int
    requires s.reduce || s.layerH != 0.0
  {
    if s.reduce then s.noL else Trunc(height / s.layerH)
  }

  /** Without reduction the layers fill the height: `n` whole layers fit, `n + 1` do not. */
  lemma LayerCountFits(s: Settings, height: real)
    requires !s.reduce && s.layerH > 0.0 && height >= 0.0
    ensures var n := LayerCount(s, height);
      && 0 <= n
      && n as real * s.layerH <= height < (n + 1) as real * s.layerH
  {
    var q := height / s.layerH;
    var n := Trunc(q);
    assert LayerCount(s, height) == n;
    assert q * s.layerH == height;
    assert n as real * s.layerH <= q * s.layerH by {
      assert n as real <= q;
    }
    assert q * s.layerH < (n + 1) as real * s.layerH by {
      assert (n + 1) as real - q > 0.0;
      assert ((n + 1) as real - q) * s.layerH > 0.0;
      assert (n + 1) as real * s.layerH - q * s.layerH == ((n + 1) as real - q) * s.layerH;
    }
    assert height < (n + 1) as real * s.layerH;
  }

  /** Never a negative count: `range(0, n)` is empty for `n <= 0`. */
  function Clamp(n: int): nat {
    if n < 0 then 0 else n
  }

  /** The assignments at the head of `addLayers`: the settings become layer-class attributes. */
  method Configure(cls: LayerClass, s: Settings)
    modifies cls`H, cls`D, cls`R, cls`nop, cls`patternName, cls`patternPar
    ensures cls.H == s.layerH && cls.D == s.nozzleD && cls.R == s.radius && cls.nop == s.noP
    ensures cls.patternName == s.pattern && cls.patternPar == s.patternPar
  {
    cls.H, cls.D, cls.R, cls.nop := s.layerH, s.nozzleD, s.radius, s.noP;
    cls.patternName, cls.patternPar := s.pattern, s.patternPar;
  }

  /** The perimeter `initLayers` slices at `height`: the cut of `surf` with the horizontal plane through the bounding-box centre. */
  function LayerCut(k: Kernel, bb: BoundingBox, height: real, surf: Surface): seq<Curve> {
    k.intersectPlane(Plane(BoxCenter(bb, height), ZAxis), surf)
  }

  /** The fields of a layer that a round of `initLayers` sets. */
  datatype LayerState = LayerState(origin: Option<Point>, surface: Option<Plane>, perimeter: Option<seq<Curve>>,
                                   poly: Option<Curve>, sides: seq<Curve>, corners: seq<int>)

  function StateOf(l: Layer): LayerState
    reads l
  {
    LayerState(l.origin, l.surface, l.perimeter, l.polyPerimeter, l.sides, l.corners)
  }

  /** Layer `l` is as `Layer()` leaves it: no path, no plane, no perimeter, no sides, no corner tags, `redir` unset. */
  predicate Blank(l: Layer)
    reads l
  {
    l.path == [] && !l.redir && StateOf(l) == LayerState(None, None, None, None, [], [])
  }

  /**
   * One round of `initLayers` on a layer at `height` in state `before`, with
   * the reference point `ref` and blend radius `R` of its pattern: the planar
   * slicing plane through the bounding-box centre and the perimeter are set;
   * an empty perimeter is IndexError; otherwise the joined perimeter and the
   * sides are set, and the corner tags are set exactly when the curves
   * between the outermost side curves are found.
   */
  function SliceRound(k: Kernel, bb: BoundingBox, height: real, ref: Point, R: real, surf: Surface, sideSurfs: seq<Surface>,
                      before: LayerState): (Outcome, LayerState)
  {
    var o := BoxCenter(bb, height);
    var per := LayerCut(k, bb, height, surf);
    var cut := before.(origin := Some(o), surface := Some(Plane(o, ZAxis)), perimeter := Some(per));
    if per == [] then (Fail(IndexError), cut)
    else
      var sides := SidesAfter(k, ref, before.sides, per, sideSurfs);
      var shaped := cut.(poly := JoinFrom(k, per[0], per[1..]), sides := sides);
      match CornerParts(k, per, sides, R)
      case Err(e) => (Fail(e), shaped)
      case Ok(parts) => (Pass, shaped.(corners := CornerTags(k, parts)))
  }

  /**
   * A layer state is initialised when it has its planar slicing plane
   * through the bounding-box centre at `height`, its perimeter is the
   * non-empty cut of that plane with `surf`, and its corners carry the tags
   * of the curves between its outermost side curves.
   */
  predicate IsInitialised(k: Kernel, bb: BoundingBox, height: real, R: real, surf: Surface, s: LayerState) {
    var per := LayerCut(k, bb, height, surf);
    && s.origin == Some(BoxCenter(bb, height))
    && s.surface == Some(Plane(BoxCenter(bb, height), ZAxis))
    && per != []
    && s.perimeter == Some(per)
    && CornerParts(k, per, s.sides, R).Ok?
    && s.corners == CornerTags(k, CornerParts(k, per, s.sides, R).value)
  }

  /**
   * A round succeeds exactly when it leaves the layer initialised, and it
   * fails exactly when the perimeter is empty or the curves between the
   * outermost side curves cannot be found; a failed round leaves the corner
   * tags, and an empty perimeter also the sides and the joined perimeter, as
   * they were.
   */
  lemma SliceRoundOutcome(k: Kernel, bb: BoundingBox, height: real, ref: Point, R: real, surf: Surface, sideSurfs: seq<Surface>,
                          before: LayerState)
    ensures var (res, after) := SliceRound(k, bb, height, ref, R, surf, sideSurfs, before);
      var per := LayerCut(k, bb, height, surf);
      && (res.Pass? <==> IsInitialised(k, bb, height, R, surf, after))
      && (res.Fail? <==> per == [] || CornerParts(k, per, after.sides, R).Err?)
      && after.perimeter == Some(per)
      && (res.Fail? ==> after.corners == before.corners)
      && (per == [] ==> res == Fail(IndexError) && after.poly == before.poly && after.sides == before.sides)
      && (per != [] ==> after.sides == SidesAfter(k, ref, before.sides, per, sideSurfs))
  {
  }

  /**
   * One round of the loop of `initLayers`: the planar slicing plane, the
   * perimeter and its sides, the corner tags; an error ends the round. The
   * round succeeds exactly when it leaves the layer initialised.
   */
  method InitLayer(l: Layer, k: Kernel, bb: BoundingBox, surf: Surface, sideSurfs: seq<Surface>) returns (res: Outcome)
    modifies l`origin, l`surface, l`perimeter, l`polyPerimeter, l`sides, l`corners
    ensures (res, StateOf(l)) == SliceRound(k, bb, l.height, l.cls.pattern.ref, l.cls.pattern.R, surf, sideSurfs, old(StateOf(l)))
    ensures res.Pass? <==> Initialised(k, l, bb, surf)
  {
    ghost var before := StateOf(l);
    res := CutLayer(l, k, bb, surf, sideSurfs);
    if res.Pass? {
      res := l.DetermineCurveSE(k);
    }
    SliceRoundOutcome(k, bb, l.height, l.cls.pattern.ref, l.cls.pattern.R, surf, sideSurfs, before);
  }

  /** The first two steps of a round of `initLayers`: the planar slicing plane, then `setPerimeter`. */
  method CutLayer(l: Layer, k: Kernel, bb: BoundingBox, surf: Surface, sideSurfs: seq<Surface>) returns (res: Outcome)
    modifies l`origin, l`surface, l`perimeter, l`polyPerimeter, l`sides
    ensures var per := LayerCut(k, bb, l.height, surf);
      && l.origin == Some(BoxCenter(bb, l.height))
      && l.surface == Some(Plane(BoxCenter(bb, l.height), ZAxis))
      && l.perimeter == Some(per)
      && (per == [] ==> res == Fail(IndexError) && l.polyPerimeter == old(l.polyPerimeter) && l.sides == old(l.sides))
      && (per != [] ==>
        && res == Pass
        && l.polyPerimeter == JoinFrom(k, per[0], per[1..])
        && l.sides == SidesAfter(k, l.cls.pattern.ref, old(l.sides), per, sideSurfs))
  {
    l.DefineLsurface(bb, None, None);
    res := l.SetPerimeter(k, surf, sideSurfs);
  }

  /** One turn of the loop of `initLayers`: layer `i` undergoes its round, every other layer keeps its state. */
  method InitAt(ls: seq<Layer>, i: nat, k: Kernel, bb: BoundingBox, surf: Surface, sideSurfs: seq<Surface>) returns (res: Outcome)
    requires i < |ls|
    requires forall j :: 0 <= j < |ls| && j != i ==> ls[j] != ls[i]
    modifies ls`origin, ls`surface, ls`perimeter, ls`polyPerimeter, ls`sides, ls`corners
    ensures (res, StateOf(ls[i])) == old(Round(k, bb, surf, sideSurfs, ls[i], StateOf(ls[i])))
    ensures forall j :: 0 <= j < |ls| && j != i ==> StateOf(ls[j]) == old(StateOf(ls[j]))
  {
    res := InitLayer(ls[i], k, bb, surf, sideSurfs);
  }

  /**
   * The loop of `initLayers` over distinct layers: the first `stop` are
   * sliced and initialised; layer `stop`, if there is one, is sliced with the
   * error that ends the run; those after it keep their state. Only the fields
   * a round sets change.
   */
  method InitAll(ls: seq<Layer>, k: Kernel, bb: BoundingBox, surf: Surface, sideSurfs: seq<Surface>)
    returns (res: Outcome, ghost stop: nat)
    requires forall i, j :: 0 <= i < j < |ls| ==> ls[i] != ls[j]
    modifies ls`origin, ls`surface, ls`perimeter, ls`polyPerimeter, ls`sides, ls`corners
    ensures stop <= |ls|
    ensures res.Pass? <==> stop == |ls|
    ensures forall j :: 0 <= j < stop ==> (Pass, StateOf(ls[j])) == old(Round(k, bb, surf, sideSurfs, ls[j], StateOf(ls[j])))
    ensures stop < |ls| ==> res.Fail? && (res, StateOf(ls[stop])) == old(Round(k, bb, surf, sideSurfs, ls[stop], StateOf(ls[stop])))
    ensures forall j :: stop < j < |ls| ==> StateOf(ls[j]) == old(StateOf(ls[j]))
  {
    var i := 0;
    while i < |ls|
      invariant 0 <= i <= |ls|
      invariant forall j :: 0 <= j < i ==> (Pass, StateOf(ls[j])) == old(Round(k, bb, surf, sideSurfs, ls[j], StateOf(ls[j])))
      invariant forall j :: i <= j < |ls| ==> StateOf(ls[j]) == old(StateOf(ls[j]))
    {
      res := InitAt(ls, i, k, bb, surf, sideSurfs);
      if res.Fail? {
        return res, i;
      }
      i := i + 1;
    }
    res, stop := Pass, i;
  }

  /** The round of `initLayers` that layer `l` undergoes from state `before`, with its own height and pattern. */
  ghost function Round(k: Kernel, bb: BoundingBox, surf: Surface, sideSurfs: seq<Surface>, l: Layer, before: LayerState): (Outcome, LayerState)
    reads l.cls.pattern`ref, l.cls.pattern`R
  {
    SliceRound(k, bb, l.height, l.cls.pattern.ref, l.cls.pattern.R, surf, sideSurfs, before)
  }

  /** The class attributes `Project.count` and `Project.projects`. */
  class ProjectRegistry {
    var count: nat
    var projects: seq<Project>

    constructor ()
      ensures count == 0 && projects == []
    {
      count, projects := 0, [];
    }
  }

  /** Layer `l` is initialised: see `IsInitialised`. */
  ghost predicate Initialised(k: Kernel, l: Layer, bb: BoundingBox, surf: Surface)
    reads l, l.cls.pattern
  {
    IsInitialised(k, bb, l.height, l.cls.pattern.R, surf, StateOf(l))
  }

  class Project {
    var bimdata: BimData?     // None until prepareGeometry runs
    var layers: seq<Layer>    // the layers, bottom first
    var active: bool          // the flag for partial execution

    /** Every layer of a project is a layer object of its own. */
    predicate Valid()
      reads this
    {
      forall i, j :: 0 <= i < j < |layers| ==> layers[i] != layers[j]
    }

    /** `Project(unwrap)`: an empty, inactive project, counted and registered. */
    constructor (reg: ProjectRegistry)
      modifies reg
      ensures bimdata == null && layers == [] && !active
      ensures Valid()
      ensures reg.count == old(reg.count) + 1
      ensures reg.projects == old(reg.projects) + [this]
    {
      bimdata, layers, active := null, [], false;
      new;
      reg.count := reg.count + 1;
      reg.projects := reg.projects + [this];
    }

    /** `activate()` */
    method Activate()
      modifies this`active
      ensures active
    {
      active := true;
    }

    /** `deactivate()` */
    method Deactivate()
      modifies this`active
      ensures !active
    {
      active := false;
    }

    /** `userDefinitions(usrInput)`: splits the perimeter faces by the selected inner sides. */
    method UserDefinitions(sk: SurfaceKernel, selected: seq<Surface>) returns (res: Outcome)
      modifies (if bimdata == null then {} else {bimdata})`innersides, (if bimdata == null then {} else {bimdata})`outersides
      ensures bimdata == null ==> res == Fail(AttributeError)
      ensures bimdata != null ==>
        var per := NonSideFaces(bimdata.cference, bimdata.sides);
        && res == Pass
        && bimdata.innersides == old(bimdata.innersides) + Split(sk, selected, per, true)
        && bimdata.outersides == old(bimdata.outersides) + Split(sk, selected, per, false)
    {
      if bimdata == null {
        return Fail(AttributeError);
      }
      bimdata.DefineInsideOutside(sk, selected);
      res := Pass;
    }

    /**
     * `addLayers(usrInput)`: copies the settings into the layer class, then
     * appends `n` new layers, `n` being `NoL` when reducing and the solid's
     * height over the layer height, truncated, otherwise. The settings stay
     * copied when the count fails.
     */
    method AddLayers(cls: LayerClass, s: Settings) returns (res: Outcome)
      requires Valid()
      modifies this`layers, cls
      ensures Valid()
      ensures cls.H == s.layerH && cls.D == s.nozzleD && cls.R == s.radius && cls.nop == s.noP
      ensures cls.patternName == s.pattern && cls.patternPar == s.patternPar
      ensures cls.offsets == old(cls.offsets)
      ensures !s.reduce && bimdata == null ==> res == Fail(AttributeError)
      ensures !s.reduce && bimdata != null && s.layerH == 0.0 ==> res == Fail(ZeroDivisionError)
      ensures res.Pass? <==> s.reduce || (bimdata != null && s.layerH != 0.0)
      ensures res.Fail? ==> layers == old(layers) && cls.count == old(cls.count) && cls.inst == old(cls.inst)
      ensures res.Pass? ==>
        var n := Clamp(LayerCount(s, if s.reduce then 0.0 else bimdata.height));
        var m := |old(layers)|;
        && |layers| == m + n
        && layers[..m] == old(layers)
        && cls.count == old(cls.count) + n
        && cls.inst == old(cls.inst) + layers[m..]
        && forall j :: m <= j < |layers| ==>
             && fresh(layers[j])
             && layers[j].cls == cls
             && layers[j].id == old(cls.count) + (j - m)
             && layers[j].height == (layers[j].id + 1) as real * cls.pattern.H
             && Blank(layers[j])
    {
      Configure(cls, s);
      var n: int;
      if s.reduce {
        n := s.noL;
      } else {
        if bimdata == null {
          return Fail(AttributeError);
        }
        if s.layerH == 0.0 {
          return Fail(ZeroDivisionError);
        }
        n := Trunc(bimdata.height / s.layerH);
      }
      AppendLayers(cls, Clamp(n));
      res := Pass;
    }

    /** The loop of `addLayers`: `n` new layers of class `cls` at the end of the list. */
    method AppendLayers(cls: LayerClass, n: nat)
      requires Valid()
      modifies this`layers, cls`count, cls`inst
      ensures Valid()
      ensures |layers| == |old(layers)| + n
      ensures layers[..|old(layers)|] == old(layers)
      ensures cls.count == old(cls.count) + n
      ensures cls.inst == old(cls.inst) + layers[|old(layers)|..]
      ensures forall j :: |old(layers)| <= j < |layers| ==>
        && fresh(layers[j])
        && layers[j].cls == cls
        && layers[j].id == old(cls.count) + (j - |old(layers)|)
        && layers[j].height == (layers[j].id + 1) as real * cls.pattern.H
        && Blank(layers[j])
    {
      var m := |layers|;
      var i := 0;
      while i < n
        invariant 0 <= i <= n
        invariant Valid()
        invariant |layers| == m + i
        invariant layers[..m] == old(layers)
        invariant cls.count == old(cls.count) + i
        invariant cls.inst == old(cls.inst) + layers[m..]
        invariant forall j :: m <= j < |layers| ==>
          && fresh(layers[j])
          && layers[j].cls == cls
          && layers[j].id == old(cls.count) + (j - m)
          && layers[j].height == (layers[j].id + 1) as real * cls.pattern.H
          && Blank(layers[j])
      {
        var l := new Layer(cls);
        layers := layers + [l];
        i := i + 1;
      }
    }

    /**
     * `initLayers()`: fetches the unshifted offset surface, then slices every
     * layer in turn (plane, perimeter, corner tags); the first error stops
     * the run, leaving the later layers as they were. `stop` is the number
     * of layers whose round succeeded before that.
     */
    method InitLayers(k: Kernel, sk: SurfaceKernel) returns (res: Outcome, ghost stop: nat)
      requires Valid()
      modifies (if bimdata == null then {} else {bimdata})`offsets
      modifies layers`origin, layers`surface, layers`perimeter, layers`polyPerimeter, layers`sides, layers`corners
      ensures bimdata == null ==>
        res == Fail(AttributeError) && stop == 0 && forall j :: 0 <= j < |layers| ==> StateOf(layers[j]) == old(StateOf(layers[j]))
      ensures bimdata != null ==> bimdata.offsets == OffsetStep(sk, old(bimdata.offsets), Int(0), 0.0).1
      ensures stop <= |layers|
      ensures res.Pass? ==> stop == |layers|
      ensures forall j :: stop < j < |layers| ==> StateOf(layers[j]) == old(StateOf(layers[j]))
      ensures bimdata != null && OffsetStep(sk, old(bimdata.offsets), Int(0), 0.0).0.Err? ==>
        res == Fail(KeyError) && forall j :: 0 <= j < |layers| ==> StateOf(layers[j]) == old(StateOf(layers[j]))
      ensures bimdata != null && bimdata.bb.None? && OffsetStep(sk, old(bimdata.offsets), Int(0), 0.0).0.Ok? ==>
        && res == (if layers == [] then Pass else Fail(AttributeError))
        && forall j :: 0 <= j < |layers| ==> StateOf(layers[j]) == old(StateOf(layers[j]))
      ensures bimdata != null && bimdata.bb.Some? && OffsetStep(sk, old(bimdata.offsets), Int(0), 0.0).0.Ok? ==>
        var bb, surf, sides := bimdata.bb.value, OffsetStep(sk, old(bimdata.offsets), Int(0), 0.0).0.value, bimdata.sides;
        && (res.Pass? <==> stop == |layers|)
        && (forall j :: 0 <= j < stop ==> (Pass, StateOf(layers[j])) == old(Round(k, bb, surf, sides, layers[j], StateOf(layers[j]))))
        && (stop < |layers| ==> (res, StateOf(layers[stop])) == old(Round(k, bb, surf, sides, layers[stop], StateOf(layers[stop]))))
    {
      stop := 0;
      if bimdata == null {
        return Fail(AttributeError), 0;
      }
      var r := bimdata.GetOffset(sk, Int(0), 0.0);
      if r.Err? {
        return Fail(r.error), 0;
      }
      res, stop := SliceLayers(k, r.value);
    }

    /** The loop of `initLayers` once the offset surface `surf` is fetched: no layers is a success, a missing bounding box an AttributeError. */
    method SliceLayers(k: Kernel, surf: Surface) returns (res: Outcome, ghost stop: nat)
      requires Valid() && bimdata != null
      modifies layers`origin, layers`surface, layers`perimeter, layers`polyPerimeter, layers`sides, layers`corners
      ensures stop <= |layers|
      ensures res.Pass? ==> stop == |layers|
      ensures forall j :: stop < j < |layers| ==> StateOf(layers[j]) == old(StateOf(layers[j]))
      ensures bimdata.bb.None? ==>
        && res == (if layers == [] then Pass else Fail(AttributeError))
        && forall j :: 0 <= j < |layers| ==> StateOf(layers[j]) == old(StateOf(layers[j]))
      ensures bimdata.bb.Some? ==>
        var bb, sides := bimdata.bb.value, bimdata.sides;
        && (res.Pass? <==> stop == |layers|)
        && (forall j :: 0 <= j < stop ==> (Pass, StateOf(layers[j])) == old(Round(k, bb, surf, sides, layers[j], StateOf(layers[j]))))
        && (stop < |layers| ==> (res, StateOf(layers[stop])) == old(Round(k, bb, surf, sides, layers[stop], StateOf(layers[stop]))))
    {
      stop := 0;
      if layers == [] {
        return Pass, 0;
      }
      if bimdata.bb.None? {
        return Fail(AttributeError), 0;
      }
      res, stop := InitAll(layers, k, bimdata.bb.value, surf, bimdata.sides);
    }

    /** `showPath()`: the tool path of every layer, in layer order. */
    method ShowPath() returns (paths: seq<seq<Curve>>)
      ensures |paths| == |layers|
      ensures forall j :: 0 <= j < |layers| ==> paths[j] == layers[j].path
    {
      paths := [];
      var i := 0;
      while i < |layers|
        invariant 0 <= i <= |layers|
        invariant |paths| == i
        invariant forall j :: 0 <= j < i ==> paths[j] == layers[j].path
      {
        paths := paths + [layers[i].path];
        i := i + 1;
      }
    }
  }
}
