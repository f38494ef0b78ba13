# pathtool toolpath planner — a Dafny model

pathtool plans the print path of a 3D-printed building component. The
component is handed in as BIM elements. `BIMdata` sorts the faces of its solid
into bottom, top and perimeter faces. It also records the nozzle widths, splits
the perimeter faces into inner and outer sides, and caches offset surfaces of
the perimeter. A `Project` creates the print layers from the user settings. Each
`Layer` is cut by a horizontal slicing plane, which gives it a perimeter, the
perimeter curves on side faces, and corner tags (-1 boundary, 0 tangent,
1 convex, 2 concave). The `ZickZack` pattern then assembles the layer's path:
- the outer rings, with the access cut;
- the tangent merge of the help curves;
- the zig-zag infill between two offset rings;
- the link back into the path.

The model has one module per source file, plus three shared modules:
- `Wrappers`: Option, Result, Python's exceptions.
- `Geometry`: points, opaque curve and surface tokens, and the CAD-kernel queries.
- `Seqs`: filtering and concatenation.

The CAD kernel (intersection, offset, fillet, join, trim, distance, angle) is
not modelled by behaviour. Every kernel query is a field of function type in
the `Kernel` and `SurfaceKernel` records, so each proof holds for every kernel.

Objects whose fields the source updates are classes:
- `Layers.LayerClass`: `Layer`'s class attributes.
- `Layers.Layer`.
- `Bim.BimData`.
- `PatternBase.Pattern`.
- `Projects.ProjectRegistry`: the class attributes of `Project`.
- `Projects.Project`.

The source's loops are methods with loop invariants, proved against specification
functions. Python exceptions are `Err`/`Fail` results carrying the exception
kind. Python's `str(dist)` dictionary keys are the `Num` value itself. A `Num`
keeps integers and floats apart, because `str(0)` and `str(0.0)` differ.

Differences between the code and its apparent design. The model follows the code:
- The offset cache is keyed by the distance alone. A later call with another
  blend radius gets the surface of the first call (`Bim.OffsetMemoised`).
- `reverseCurves` reverses only when `redir` was already set, so it is not an
  involution on the list. Two calls restore `redir`, but between them the list
  is reversed exactly once, whatever the starting bit (`PathPlanning.ReverseTwice`).
- The side rotation in `setPerimeter` compares distances against `minD`, but
  assigns an index to it. Whenever the first side is nearer than 10000, the
  rotation is the identity (`Layers.SidesKeepOrder`). `Layers.RotationIndexNotNearest`
  is an input where the nearest side is not put first.
- `addLayers` sets `Layer.H`, but a layer's height is read from `Layer.Pattern.H`.
  The model keeps both (`LayerClass.H` and `Pattern.H`).

## Model

| member | source | states |
|---|---|---|
| PatternBase.IndexOf | Skripts/FIMpattern.py:194 | `l.index(x)`: defined iff `x` occurs; then `l` holds `x` at the position returned |
| PatternBase.IndexOfFirst | Skripts/FIMpattern.py:194 | no position before `l.index(x)` holds `x`: it is the first occurrence |
| PatternBase.Rotate | Skripts/FIMpattern.py:289-298 | same length; an empty list unchanged; element `j` is `l[(idx mod n + j) mod n]`, so the first is `l[idx mod n]` |
| PatternBase.RotatePermutes | Skripts/FIMpattern.py:289-298 | the rotated list holds the same multiset of elements |
| PatternBase.RotateToIndex | Skripts/FIMpattern.py:181 | rotating to `l.index(x)` brings `x` to the front |
| PatternBase.Flatten | Skripts/FIMpattern.py:300-307 | a non-empty flat list is returned as is; a list of lists becomes their concatenation; an empty list (or an empty concatenation) is IndexError |
| PatternBase.Replace | Skripts/FIMpattern.py:309-313 | `l[:idx] + new + l[idx+1:]` with a single item wrapped; for `0 <= idx < len` the length is `len - 1 + len(new)` and the parts before and after are kept; at or past the end `new` is appended |
| PatternBase.LineAlternateEO | Skripts/FIMpattern.py:213-218 | a line `a -> b` for even `i` and `b -> a` for odd `i` |
| PatternBase.CornerOffset | Skripts/FIMpattern.py:66-70 | an angle of 0 gives the offset 0; other angles give the kernel's trim term |
| PatternBase.CornerAngle | Skripts/FIMpattern.py:275-287 | type 0 with angle 0 iff the angle in radians is below 0.0001; otherwise type 1 with that angle |
| PatternBase.TrimPars | Skripts/FIMpattern.py:255-273 | an error iff the segment has length 0: ZeroDivisionError when one of the two offsets is the int 0 (first or last segment, or a tangent joint), otherwise the numpy division is non-finite; else the first segment starts at 0, the last ends at 1, tangent joints leave the side untrimmed, corner joints trim by offset/length |
| PatternBase.TrimSegments | Skripts/FIMpattern.py:246-253 | an error iff some segment has length 0, and then it is the `getTrimPars` error of the first such segment; otherwise one trimmed segment per input, each trimmed to its `getTrimPars` range |
| PatternBase.OffsetDistances | Skripts/FIMpattern.py:92 | `end - start` distances (none for an empty range), the `i`-th being `(start + i + 0.5) * D` |
| PatternBase.OffsetDistancesSplit | Skripts/FIMpattern.py:326 | the rings `[0, nop)` of the outer path and `[nop, noo)` of the help curves request consecutive offsets |
| PatternBase.ZickZackOffsetRequests | Skripts/FIMpattern.py:319-322 | with `nop = NoP + 1` and `noo = nop + 2` the help curves request exactly two offsets, `(NoP + 1.5) * D` and `(NoP + 2.5) * D`, right after the `NoP + 1` perimeter offsets |
| PatternBase.Pattern.constructor | Skripts/FIMpattern.py:27-38 | zero settings, pattern parameter 0.5, reference point (0, 0.5, 0) |
| PatternBase.Pattern.SetParameters | Skripts/FIMpattern.py:40-46 | copies the settings; `noo = NoP` for the base pattern; ZickZack then sets `nop = NoP + 1` and `noo = nop + 2` |
| Layers.LayerClass.constructor | Skripts/FIMlayer.py:29-33 | no layers registered, count 0, empty offset map |
| Layers.LayerClass.AddOffset | Skripts/FIMlayer.py:63-65 | the surface is stored under the key of `dist`, overwriting; every other entry kept |
| Layers.Layer.constructor | Skripts/FIMlayer.py:35-52 | id = previous count, count + 1, appended to the registry, height `(id + 1) * Pattern.H`, empty path and sides |
| Layers.Layer.GetNoc | Skripts/FIMlayer.py:55-56 | the number of curves of the path |
| Layers.BoxCenter | Skripts/FIMlayer.py:81-85 | the point at the given Z, equidistant from both X and both Y faces of the box, and inside the box |
| Layers.Layer.DefineLsurface | Skripts/FIMlayer.py:67-86 | planar case: origin at the box centre at the layer height, plane normal `nV` or Z; non-planar case: nothing changes |
| Layers.JoinAll | Skripts/FIMlayer.py:97-104 | the join loop ends with the left-to-right join of the perimeter, None once a join fails |
| Layers.FindSides | Skripts/FIMlayer.py:107-113 | the nested loop records exactly the side curves `DetectSides` describes, in perimeter order |
| Layers.ClosestIndex | Skripts/FIMlayer.py:116-119 | the `minD` loop ends with the index `RotationIndex` gives for the sides' distances |
| Layers.Layer.SetPerimeter | Skripts/FIMlayer.py:88-121 | AttributeError without a plane; IndexError, with the perimeter stored, on an empty cut; otherwise the perimeter is the cut, the joined perimeter is None iff a join fails, and the sides are the detected side curves rotated by the loop's index |
| Layers.MatchesMembers | Skripts/FIMlayer.py:108-113 | a curve is recorded for a side surface iff their intersection is of the curve's own kind; at most once per side surface |
| Layers.DetectSidesMembers | Skripts/FIMlayer.py:108-113 | a curve is a side curve iff it is a perimeter curve meeting some side surface in its own kind |
| Layers.Distances | Skripts/FIMlayer.py:116-119 | one distance per side, the distance of that side to the reference point |
| Layers.RotationIndexIsZero | Skripts/FIMlayer.py:116-119 | with non-negative distances and the first below 10000, the loop ends with index 0 |
| Layers.SidesKeepOrder | Skripts/FIMlayer.py:116-121 | in that case the rotation leaves the sides as they were |
| Layers.RotationIndexFar | Skripts/FIMlayer.py:116-119 | when every side is at least 10000 away, `minD` stays 10000 |
| Layers.RotationIndexNotNearest | Skripts/FIMlayer.py:118-119 | with distances 5 and 1 the loop yields 0, not the nearest side's index 1 |
| Layers.Classify | Skripts/FIMlayer.py:149-161 | tag 0 iff the angle is below 0.001 or within 0.01 of 360; otherwise 1 iff above 180; otherwise 2 |
| Layers.Joints | Skripts/FIMlayer.py:143-161 | one tag per joint of adjacent parts, the class of the angle between them |
| Layers.SideIndices | Skripts/FIMlayer.py:140 | defined iff every side curve is on the perimeter; then one first-occurrence index per side |
| Layers.Between | Skripts/FIMlayer.py:141 | the perimeter curves strictly between the least and the greatest side index; empty when those are adjacent or equal |
| Layers.CornerParts | Skripts/FIMlayer.py:140-141 | ValueError iff there are no sides or a side is not on the perimeter; otherwise perimeter curves only, none a fillet arc of the blend radius |
| Layers.CornerTags | Skripts/FIMlayer.py:143-165 | `max(k, 1) + 1` tags for `k` parts, -1 first and last, every interior tag the class (0, 1 or 2, by `Classify`) of its joint |
| Layers.TagJoints | Skripts/FIMlayer.py:143-165 | the tagging loop produces exactly the tags `CornerTags` describes |
| Layers.Layer.DetermineCurveSE | Skripts/FIMlayer.py:136-165 | ValueError without sides, AttributeError without a perimeter; otherwise the corners become the tags of the parts |
| PathPlanning.ChainAppend | Skripts/FIMpattern.py:454-457 | two chains joined end to start form one chain |
| PathPlanning.ReversedAll | Skripts/FIMpattern.py:205-206 | element `j` is the reverse of curve `n - 1 - j` |
| PathPlanning.ReversedAllTwice | Skripts/FIMpattern.py:205-206 | reversing twice gives the list back when the kernel's reverse is an involution on its curves |
| PathPlanning.ReverseStep | Skripts/FIMpattern.py:204-210 | new `redir` is `invert XOR redir`; same length; the input when `redir` was false, the reversed list of reversed curves otherwise |
| PathPlanning.ReverseTwice | Skripts/FIMpattern.py:199-211 | two calls with `invert` restore `redir`, and together they reverse the list (and every curve) exactly once, whatever the starting bit |
| PathPlanning.ReverseCurves | Skripts/FIMpattern.py:199-211 | the layer's bit and the result are those of `ReverseStep` |
| PathPlanning.NearestUnique | Skripts/FIMpattern.py:79-83 | the first-wins strict minimum below 10000 has only one possible outcome |
| PathPlanning.NearestIndexFirst | Skripts/FIMpattern.py:79-83 | the search picks no curve iff every curve is at 10000 or more; otherwise the curve it picks is strictly nearer than all earlier ones and no farther than all later ones |
| PathPlanning.NearestChoiceIsNearest | Skripts/FIMpattern.py:79-85 | the search's outcome is the first-wins strict minimum below 10000, or None when there is none |
| PathPlanning.Nearest | Skripts/FIMpattern.py:79-85 | the inner loop ends with the search's outcome `NearestChoice` |
| PathPlanning.NearestIndex | Skripts/FIMpattern.py:79-83 | the index the search picks is -1 (none) or a position of the curves |
| PathPlanning.IdentifySides | Skripts/FIMpattern.py:72-87 | exactly one entry per layer side, the search's outcome for that side's midpoint |
| PathPlanning.AccessSides | Skripts/FIMpattern.py:61-62 | IndexError with fewer than two sides; otherwise `(sides[not redir], sides[redir])` |
| PathPlanning.AccessParams | Skripts/FIMpattern.py:189-191 | the access cut spans `D + 2R` and ends `D - 2R` before the curve's end, in parameter times length |
| PathPlanning.InsertAccess | Skripts/FIMpattern.py:183-197 | an error iff the curve has length 0 (ZeroDivisionError), is not in the list (ValueError) or is cut into fewer than two pieces (IndexError); otherwise the curve at its first index replaced by the pieces, and the second piece returned |
| PathPlanning.SpliceAccess | Skripts/FIMpattern.py:196 | `replace(allCurves, flatten(accessC), idx)`: the list before and after curve `i` is kept and the pieces take its place, in order |
| PathPlanning.HeadOnInner | Skripts/FIMpattern.py:127-130 | ValueError when the first access curve is missing from the inner ring, ZeroDivisionError on length 0; otherwise the ring rotated to it with its head trimmed by `D / length` |
| PathPlanning.SpliceStraight | Skripts/FIMpattern.py:167-177 | the path, one line, the inner ring, one line back; each junction meets and the last line returns to the path's start |
| PathPlanning.SpliceStraightCloses | Skripts/FIMpattern.py:167-177 | splicing a chain into a chain yields a chain that closes onto its own start |
| PathPlanning.SpliceFillet | Skripts/FIMpattern.py:134-165 | an error iff the connecting line has length 0 (ZeroDivisionError) or dropping the last inner curve leaves nothing (IndexError); otherwise the path, `a1, l, a2`, the inner ring (without its last curve when `removelast`), then `l3, a3`, the fillets joining their neighbours and `l3` running into `a3` |
| PathPlanning.ConnectedPath | Skripts/FIMpattern.py:126-179 | an empty path becomes the inner ring; otherwise the straight splice when `R == 0` and the fillet splice when `R != 0`, with the errors of the head trim |
| PathPlanning.Connect2Path | Skripts/FIMpattern.py:126-181 | the path becomes the connected path rotated to the second access curve; success implies that curve is its first element |
| PathPlanning.PathToPattern | Skripts/FIMpattern.py:101 | ValueError when the other side is missing; otherwise the first ring up to that side, plus one curve when `R > 0` |
| PathPlanning.HelpSegments | Skripts/FIMpattern.py:102 | ValueError when the other side is missing; otherwise the curves after it that are neither fillet arcs nor short splines, in order |
| PathPlanning.MergeStep | Skripts/FIMpattern.py:113-120 | tag 0 merges into the last pair, -1 skips, any other tag appends the pair |
| PathPlanning.MergeRound | Skripts/FIMpattern.py:113-120 | one turn of the merge loop computes exactly `MergeStep` |
| PathPlanning.MergeFold | Skripts/FIMpattern.py:111-120 | outer and inner stay of equal length, `1 +` the number of opening tags among the paired corners |
| PathPlanning.ZipRounds | Skripts/FIMpattern.py:113 | the number of rounds of `zip` over the three tails: the shortest tail |
| PathPlanning.MergeLoop | Skripts/FIMpattern.py:111-120 | the merge loop ends with the lists `MergeFold` gives after the `zip` rounds, both of the same non-zero length; just the first pair without corners |
| PathPlanning.MergeTangents | Skripts/FIMpattern.py:107-122 | corners reversed first when `redir`; IndexError when a new ring is empty; otherwise outer/inner as `MergeFold` and the corners are the (reversed) old ones without 0, so no 0 is left |
| PathPlanning.MergeWithoutTangents | Skripts/FIMpattern.py:111-122 | without tangent tags every convex corner keeps its own segment and the first segment leads |
| PathPlanning.DivisionCount | Skripts/FIMpattern.py:389-390 | ZeroDivisionError iff the spacing is 0; otherwise `2 * floor(len / pP) - [testS == testE]`, odd iff `testS == testE` |
| PathPlanning.Evens | Skripts/FIMpattern.py:395 | `s[::2]`: `ceil(n / 2)` elements, the `m`-th being `s[2m]` |
| PathPlanning.Odds | Skripts/FIMpattern.py:396 | `s[1::2]`: `floor(n / 2)` elements, the `m`-th being `s[2m + 1]` |
| PathPlanning.FirstMissing | Skripts/FIMpattern.py:398-414 | the alternation of zacks and zicks first runs out at `min(2 * zicks + 1, 2 * zacks)` |
| PathPlanning.ZigZagLines | Skripts/FIMpattern.py:395-414 | one line fewer than the alternation has points; each line runs from point `j` to point `j + 1` of the alternation, so the lines form a chain |
| PathPlanning.ZigZag | Skripts/FIMpattern.py:398-414 | the iterator loop with its `sw` toggle produces exactly those lines |
| PathPlanning.ZigZagUsesAll | Skripts/FIMpattern.py:393-396 | the alternation takes even points from the divisions and odd points from their partners |
| PathPlanning.Divisions | Skripts/FIMpattern.py:390-392 | the primary curve's start, the chord points, its end |
| PathPlanning.Partners | Skripts/FIMpattern.py:393 | one partner point per division point, the closest point of the other curve |
| PathPlanning.ZigZagBand | Skripts/FIMpattern.py:376-414 | ZeroDivisionError for spacing 0; otherwise outer is primary iff the start tag is -1 or 1, and the band is the zig-zag of its divisions and partners |
| PathPlanning.Band | Skripts/FIMpattern.py:376-414 | the zig-zag of one band: an error iff the spacing is 0, and then ZeroDivisionError; otherwise a chain of at least one line |
| PathPlanning.RingBand | Skripts/FIMpattern.py:375-414 | band `n`: IndexError iff the end corner `corners[n + 1]` is missing, ZeroDivisionError iff the spacing is 0 (and the corner is there), otherwise a chain |
| PathPlanning.RingBands | Skripts/FIMpattern.py:375 | one band per `zip(outer, inner)` pair, the `n`-th being `RingBand` `n` |
| PathPlanning.RingBandsFit | Skripts/FIMpattern.py:375-414 | every band of the rings fails with IndexError or ZeroDivisionError, and every one that succeeds is a chain with both of its corners |
| PathPlanning.BandRound | Skripts/FIMpattern.py:454-457 | a round of the band loop fails with IndexError (a link with an empty pattern or band) or its band's error; on success the band was planned and the old pattern is a prefix of the new |
| PathPlanning.BandsFromGrows | Skripts/FIMpattern.py:375-457 | the band loop fails only with IndexError or a band's error, and never drops what it has planned |
| PathPlanning.BandRoundChain | Skripts/FIMpattern.py:454-457 | a chained band linked to a chained pattern, or starting it, leaves one chain |
| PathPlanning.BandsFromChain | Skripts/FIMpattern.py:375-457 | without interior -1 tags every band is linked to the one before, so the pattern is one chain |
| PathPlanning.PlannedBandsShape | Skripts/FIMpattern.py:375-457 | the planned bands fail only with IndexError or ZeroDivisionError; none for empty rings; spacing 0 fails the first band; without interior -1 tags they form a chain |
| PathPlanning.RingBandOf | Skripts/FIMpattern.py:376-414 | the head of a round reads `corners[n + 1]` (IndexError when missing) and plans exactly `RingBand` `n` |
| PathPlanning.PlanBands | Skripts/FIMpattern.py:374-457 | the band loop plans exactly `PlannedBands`: the bands in `zip` order, each linked to the pattern before it unless its start tag is -1; no bands for empty rings; spacing 0 is ZeroDivisionError; the only errors are IndexError and ZeroDivisionError; without interior -1 tags the pattern is a chain |
| PathPlanning.LinkToPattern | Skripts/FIMpattern.py:459-460 | IndexError when either part is empty; otherwise the way in, one link line, the pattern |
| PathPlanning.LinkToPatternChain | Skripts/FIMpattern.py:459-460 | the way in and the pattern, both chains, form one chain |
| PathPlanning.LinkedBands | Skripts/FIMpattern.py:374-460 | an error iff the bands fail (their error), the way in is empty or no band is planned (IndexError); otherwise `LinkToPattern` of the way in and the bands |
| PathPlanning.LinkedPattern | Skripts/FIMpattern.py:374-460 | exactly `LinkedBands`: the planned bands, linked to the way in; the only errors are IndexError and ZeroDivisionError; the way in comes first; without interior -1 tags a chained way in gives a chained result |
| PathPlanning.PlanZickZack | Skripts/FIMpattern.py:371-462 | a failure of the bands or of the link leaves the path as it was; otherwise the path is the old path connected with the linked pattern (entry `p2p[0]`); success iff the access curve `aC` is on it, and then the path is rotated to `aC`, which comes first; a missing `aC` is ValueError |
| Bim.KindOf | Skripts/BIMproject.py:68-73 | bottom iff min Z is less than 1e-4 from the base and max Z more than 1e-4 from the height; top iff min Z is more than 1e-4 from the base and max Z less than 1e-4 from the height; otherwise perimeter, so a difference of exactly 1e-4 is neither bottom nor top |
| Bim.FullHeightIsPerimeter | Skripts/BIMproject.py:68-73 | a face from the base to the height is a perimeter face |
| Bim.LastOfKind | Skripts/BIMproject.py:68-71 | the face found is of the kind and among the faces; None iff no face is of the kind |
| Bim.SingleValue | Skripts/BIMproject.py:54 | `len(set(w)) == 1` iff `w` is non-empty and all its entries are equal |
| Bim.Collapse | Skripts/BIMproject.py:54-55 | same set of values; equal widths collapse to the first, any other list is kept |
| Bim.CollapseKeepsWidths | Skripts/BIMproject.py:54-55 | collapsing does not change which lengths are widths |
| Bim.Widths | Skripts/BIMproject.py:48-52 | one width per element: its `Breite`, or 0 |
| Bim.PerimeterFacesMembers | Skripts/BIMproject.py:72-73 | a face is in `cference` iff it is a face of perimeter kind |
| Bim.SideFacesMembers | Skripts/BIMproject.py:74-81 | a face is a side iff it is a perimeter face with a curve as long as a width; no more sides than perimeter faces |
| Bim.FacesSnoc | Skripts/BIMproject.py:61-81 | one more face changes only the entry of its own kind |
| Bim.SplitPartition | Skripts/BIMproject.py:99-111 | the inner and outer sides together are the non-side perimeter faces, each exactly once |
| Bim.OffsetStep | Skripts/BIMproject.py:113-132 | a cached key answers from the cache; a miss with no base entry is KeyError; a miss with the base entry computes the offset of the base surface by the value and stores it under its key, exactly one key added, every old entry kept |
| Bim.OffsetMemoised | Skripts/BIMproject.py:114-115 | once a value succeeded, any radius gets the same surface and the cache stays |
| Bim.ZeroKeys | Skripts/BIMproject.py:114 | `0.0` is a different key from `0`, so asking for the offset `0.0` adds a new surface |
| Bim.BimData.constructor | Skripts/BIMproject.py:12-31 | a single element is wrapped into a list; everything else empty |
| Bim.BimData.ExtractWidth | Skripts/BIMproject.py:47-55 | the widths are the old ones plus one per element, collapsed when all are equal |
| Bim.BimData.IsWidth | Skripts/BIMproject.py:86-91 | true iff some width is within 0.0001 of the value |
| Bim.BimData.HasSideEdge | Skripts/BIMproject.py:76-81 | true iff some perimeter curve of the face is as long as a width |
| Bim.BimData.AddFace | Skripts/BIMproject.py:68-81 | the face becomes bottom, top, or is appended to `cference` and, with a width edge, to `sides` |
| Bim.BimData.AddFaces | Skripts/BIMproject.py:61-81 | the face loop leaves bottom and top at the last face of their kind (or as they were) and appends the perimeter and side faces in order |
| Bim.BimData.ExtractFaces | Skripts/BIMproject.py:57-84 | AttributeError without a bounding box; otherwise bottom and top are the last of their kind (or kept), `cference` and `sides` grow by the classification, `offsets["0"]` is the joined perimeter |
| Bim.BimData.MeetsSelected | Skripts/BIMproject.py:100-106 | true iff some selected side meets the face in a surface |
| Bim.BimData.DefineInsideOutside | Skripts/BIMproject.py:93-111 | inner and outer sides grow by the two halves of the split of the non-side perimeter faces |
| Bim.BimData.GetOffset | Skripts/BIMproject.py:113-132 | the result and the new cache are those of `OffsetStep`; a hit leaves the cache as it was |
| Projects.Trunc | Skripts/FIMproject.py:85 | `int(x)`: non-negative `x` is floored, negative `x` rounded up, toward 0 |
| Projects.LayerCountFits | Skripts/FIMproject.py:82-85 | without reduction, `n` layers fit into the height and `n + 1` do not |
| Projects.Configure | Skripts/FIMproject.py:73-79 | the settings become the layer-class attributes |
| Projects.InitLayer | Skripts/FIMproject.py:94-96 | the round `SliceRound`; success iff the layer is left sliced: plane through the box centre, non-empty perimeter, corner tags of the parts between its outermost sides |
| Projects.SliceRoundOutcome | Skripts/FIMproject.py:94-96 | a round succeeds iff it leaves the layer initialised, fails iff the perimeter is empty (IndexError) or the parts between the sides are not found; it always sets the perimeter; a failure keeps the corners, an empty perimeter also the sides and the joined perimeter |
| Projects.CutLayer | Skripts/FIMproject.py:94-95 | the plane through the box centre and the perimeter are set; IndexError, with joined perimeter and sides kept, iff the cut is empty; otherwise the joined perimeter and the rotated sides are set |
| Projects.InitAt | Skripts/FIMproject.py:93-96 | one turn of the loop: layer `i` undergoes its round, every other layer keeps its state |
| Projects.InitAll | Skripts/FIMproject.py:93-96 | success iff every layer passes; the first `stop` layers pass their round, layer `stop` (if any) undergoes the round that fails, and the layers after it keep their state |
| Projects.ProjectRegistry.constructor | Skripts/FIMproject.py:27-29 | no projects, count 0 |
| Projects.Project.constructor | Skripts/FIMproject.py:37-45 | count + 1, the project appended to the registry, no data, no layers, inactive |
| Projects.Project.Activate | Skripts/FIMproject.py:47-51 | `active` is true, nothing else changes |
| Projects.Project.Deactivate | Skripts/FIMproject.py:53-57 | `active` is false, nothing else changes |
| Projects.Project.UserDefinitions | Skripts/FIMproject.py:69-70 | AttributeError without data; otherwise the inner/outer split |
| Projects.Project.AddLayers | Skripts/FIMproject.py:72-88 | settings copied first; without reduction, AttributeError without data and ZeroDivisionError for `LayerH` 0; otherwise `NoL` or `int(height / LayerH)` fresh layers (none when negative) appended with consecutive ids, each blank as `Layer()` leaves it (no path, plane, perimeter, sides or corner tags) |
| Projects.Project.AppendLayers | Skripts/FIMproject.py:87-88 | `n` fresh, distinct layers appended and registered in order, with consecutive ids, and each blank as `Layer()` leaves it |
| Projects.Project.InitLayers | Skripts/FIMproject.py:90-96 | AttributeError without data, every layer kept; the base offset is fetched first (KeyError without it, every layer kept); no layers pass, other layers without a bounding box are AttributeError with every layer kept; otherwise the rounds of `InitAll`, in order, up to the first error, with the later layers kept |
| Projects.Project.SliceLayers | Skripts/FIMproject.py:93-96 | the loop once the offset is fetched: no layers pass, a missing bounding box is AttributeError with every layer kept, otherwise the rounds of `InitAll` |
| Projects.Project.ShowPath | Skripts/FIMproject.py:110-115 | one path per layer, in layer order |

## Left out

- Kernel geometry: intersection, offset, fillet, join, trim, explode, closest point, chord points, arc fillets and translation are uninterpreted kernel queries. The model proves nothing about what they compute.
- Floating point: reals are exact, and `np.pi` is the rational 3.141592653589793.
- PatternBase.CornerOffset: the trigonometric branch (`angle != 0`) is an uninterpreted kernel term. cos and sin are not modelled.
- PathPlanning.PlanZickZack: only the `R == 0` case is modelled (it requires `pat.R == 0`). The `R > 0` branch calls `filletZack`, which is arc trigonometry with an unimplemented branch.
- `equalizeSegments` is a kernel projection (closest points and trims). `prepareHelpCurves` is modelled step by step as the offset range, `PathToPattern`, `HelpSegments`, `TrimSegments` and `MergeTangents`, not as one composed function.
- `addPerimeter` and `doPathPlanning` are modelled only through their steps (`ReverseCurves`, `IdentifySides`, `AccessSides`, `InsertAccess`, `Connect2Path`). `planLayerPath` and `createPolyPath` are kernel joins.
- `BIMdata.extractSolid` is a kernel union fold. The bounding box and height it sets are fields the model reads. `prepareGeometry` is not modelled for that reason.
- `extractFaces` takes the solid's exploded faces as a parameter, and the joined perimeter surface is a kernel query.
- `extractWidth`: the `Typ`/`Breite` parameter lookup is a function from element to optional width.
- `extractGUID`, the IFC export (`createIFCentity`, `createIfcCurveSegment`, `export2IFC`, `newIfcFile`, the placement helpers), `Printer.py` and `hex/hexmain.py` are Revit, ifcopenshell, file or plotting I/O.
- `planOuterpath`, `continuePath`, `addRobot`, `combinePath` and `addAccess` are not modelled. The first three call methods that do not exist or pass the wrong arguments; the other two are a kernel join and an empty loop.
- `Layer.interlayerAccess` calls a method `Layer` lacks. `changeRef` is a one-line setter. `Lamella`, `Honeycomb` and the non-planar branch of `defineLsurface` are stubs.
- The `unwrap` function passed down from the host and the `print` in `setPerimeter` have no effect on the model.
- Projects.Settings: the user input is a record. A missing dictionary key (KeyError) cannot occur, and every setting is a real or an integer.
- Projects.Project.InitLayers: the layers must be distinct objects (`Valid`). The project's constructor establishes this and `AddLayers` preserves it, since it only appends fresh layers.
- PatternBase.TrimPars: a numpy float divided by 0.0 yields inf or nan without an exception; the model reports it as `NonFinite`, and `TrimSegments` stops there, where the source hands the non-finite parameters on to the kernel's `TrimByParameter`.
- `Layer.Pattern` is taken to be set by the host before a layer is created. It is None by default (Skripts/FIMlayer.py:30), and the constructor would then raise AttributeError at Skripts/FIMlayer.py:52.
