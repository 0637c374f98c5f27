/** The `Map` class: the region builders, the pointer handlers and the per-frame hover
    highlight of `packages/map/src/Map.ts`. */
module MapView {
  import opened Wrappers
  import opened JsText
  import JsArray
  import opened Geo
  import opened RingPath
  import opened Scene

  /** The offset `up` by which the hovered region and its outline are raised. */
  const Up: real := 0.02
  /** The extrusion depth `initMap` passes to `createArea`. */
  const SlabDepth: real := 0.005
  /** The `position.z` of every region outline. */
  const OutlineZ: real := 0.01

  /** A pointer position in normalised device coordinates. */
  datatype Pointer = Pointer(x: real, y: real)

  /** The options the core reads: the region to show, the map depth, and whether an
      `onClick` callback is configured. */
  datatype MapOptions = MapOptions(adcode: int, depth: real, onClick: bool)

  /** The options of one `createArea` call. */
  datatype AreaOptions = AreaOptions(z: real, depth: real, adcode: int)

  /** The solid and the outline `createArea` builds for one ring. */
  datatype RingParts = RingParts(mesh: Obj, outline: Obj)

  /** What a click does: nothing, call `options.onClick` with a feature's properties, or throw. */
  datatype Click = NoCall | Callback(props: Properties) | Thrown(error: string)

  function AreaName(adcode: int): string {
    "area_" + IntToString(adcode)
  }

  function LineName(adcode: int): string {
    "line_" + IntToString(adcode)
  }

  /** The hit test of `animate`: the object's name includes "area". */
  predicate IsArea(o: Obj) {
    Contains(o.name, "area")
  }

  /** The text `name.split('_')[1]` that `animate` takes as the picked adcode. */
  function PickedCode(name: string): Option<string> {
    SecondField(name, '_')
  }

  /** `Number(name.split('_')[1])`: `Number(undefined)` is NaN. */
  function PickedNumber(name: string): Number {
    match PickedCode(name)
    case None => NaN
    case Some(t) => ToNumber(t)
  }

  /** `'line_' + name.split('_')[1]`: concatenating `undefined` gives "line_undefined". */
  function OutlineNameFor(name: string): string {
    "line_" + match PickedCode(name) case None => "undefined" case Some(t) => t
  }

  /** The first intersected object whose name includes "area", or null. */
  function FirstArea(hits: seq<Obj>): (r: Obj?)
    ensures r == null <==> forall i :: 0 <= i < |hits| ==> !IsArea(hits[i])
    ensures r != null ==>
      exists k :: 0 <= k < |hits| && hits[k] == r && IsArea(r) && forall j :: 0 <= j < k ==> !IsArea(hits[j])
  {
    match JsArray.FindIndex(hits, IsArea)
    case None => null
    case Some(k) => hits[k]
  }

  /** The first registered outline called `name`, or null. */
  function FirstLine(lines: seq<Obj>, name: string): (r: Obj?)
    ensures r == null <==> forall i :: 0 <= i < |lines| ==> lines[i].name != name
    ensures r != null ==>
      exists k :: 0 <= k < |lines| && lines[k] == r && r.name == name && forall j :: 0 <= j < k ==> lines[j].name != name
  {
    match JsArray.FindIndex(lines, (o: Obj) => o.name == name)
    case None => null
    case Some(k) => lines[k]
  }

  /** The outlines of a sequence of ring parts, in order. */
  function Outlines(parts: seq<RingParts>): seq<Obj> {
    seq(|parts|, k requires 0 <= k < |parts| => parts[k].outline)
  }

  lemma OutlinesAppend(a: seq<RingParts>, b: seq<RingParts>)
    ensures Outlines(a + b) == Outlines(a) + Outlines(b)
  {
    var l, r := Outlines(a + b), Outlines(a) + Outlines(b);
    assert |l| == |r|;
    forall k | 0 <= k < |l| ensures l[k] == r[k] {
      if k < |a| { assert (a + b)[k] == a[k]; } else { assert (a + b)[k] == b[k - |a|]; }
    }
  }

  /** The names of a sequence of objects, in order. */
  function Names(objs: seq<Obj>): seq<string> {
    seq(|objs|, k requires 0 <= k < |objs| => objs[k].name)
  }

  /** The outline names `initMap` registers for a list of features: one `line_<adcode>`
      per ring of each feature, features in order. */
  function OutlineNames(features: seq<Feature>): seq<string> {
    if features == [] then []
    else
      var f := features[|features| - 1];
      OutlineNames(features[..|features| - 1]) +
        seq(|Rings(f.coordinates)|, _ => LineName(f.properties.adcode))
  }

  /** `p` is what `createArea` builds for `ring`: a solid `area_<adcode>` extruded by
      `opts.depth` from the ring's shape, and an outline `line_<adcode>` through the ring's
      positions at the map depth. */
  predicate RingBuilt(p: RingParts, proj: Point -> Point, ring: Ring, opts: AreaOptions, mapDepth: real) {
    p.mesh.name == AreaName(opts.adcode) &&
    p.mesh.geometry == Extruded(ShapePath(proj, ring), opts.depth) &&
    p.outline.name == LineName(opts.adcode) &&
    p.outline.geometry == Line(Positions(proj, ring, mapDepth))
  }

  /** Each of `parts` is what `createArea` builds for the ring at the same position. */
  predicate AllBuilt(parts: seq<RingParts>, proj: Point -> Point, rings: seq<Ring>, opts: AreaOptions, mapDepth: real) {
    |parts| == |rings| && forall k :: 0 <= k < |parts| ==> RingBuilt(parts[k], proj, rings[k], opts, mapDepth)
  }

  lemma AllBuiltAppend(a: seq<RingParts>, b: seq<RingParts>, proj: Point -> Point, ra: seq<Ring>, rb: seq<Ring>, opts: AreaOptions, mapDepth: real)
    requires AllBuilt(a, proj, ra, opts, mapDepth) && AllBuilt(b, proj, rb, opts, mapDepth)
    ensures AllBuilt(a + b, proj, ra + rb, opts, mapDepth)
  {
    forall k | 0 <= k < |a + b|
      ensures RingBuilt((a + b)[k], proj, (ra + rb)[k], opts, mapDepth)
    {
      if k >= |a| {
        assert (a + b)[k] == b[k - |a|] && (ra + rb)[k] == rb[k - |a|];
      }
    }
  }

  /** The solid of `p` sits at `z` and its outline at `OutlineZ`. */
  ghost predicate PlacedAt(p: RingParts, z: real)
    reads p.mesh, p.outline
  {
    p.mesh.z == z && p.outline.z == OutlineZ
  }

  /** The raise of `o` when `pick` and `line` fill the two highlight slots: `Up` per slot. */
  function Lift(o: Obj, pick: Obj?, line: Obj?): real {
    (if o == pick then Up else 0.0) + (if o == line then Up else 0.0)
  }

  /** The solids and outlines of `parts`. */
  function PartsObjects(parts: seq<RingParts>): set<Obj> {
    (set k | 0 <= k < |parts| :: parts[k].mesh) + (set k | 0 <= k < |parts| :: parts[k].outline)
  }

  /** The constructor calls `createArea` makes for one ring. */
  method NewRingParts(proj: Point -> Point, ring: Ring, opts: AreaOptions, mapDepth: real) returns (p: RingParts)
    ensures fresh(p.mesh) && fresh(p.outline)
    ensures RingBuilt(p, proj, ring, opts, mapDepth) && PlacedAt(p, opts.z)
  {
    var shape, positions := FlattenRing(proj, ring, mapDepth);
    var mesh := new Obj(AreaName(opts.adcode), Extruded(shape, opts.depth), opts.z);
    var outline := new Obj(LineName(opts.adcode), Line(positions), OutlineZ);
    p := RingParts(mesh, outline);
  }

  lemma NamesAppend(a: seq<Obj>, b: seq<Obj>)
    ensures Names(a + b) == Names(a) + Names(b)
  {
    var l, r := Names(a + b), Names(a) + Names(b);
    forall k | 0 <= k < |l| ensures l[k] == r[k] {
      if k < |a| { assert (a + b)[k] == a[k]; } else { assert (a + b)[k] == b[k - |a|]; }
    }
  }

  /** The outlines `createArea` builds for a feature are all named `line_<adcode>`. */
  lemma BuiltOutlineNames(parts: seq<RingParts>, proj: Point -> Point, rings: seq<Ring>, opts: AreaOptions, mapDepth: real)
    requires AllBuilt(parts, proj, rings, opts, mapDepth)
    ensures Names(Outlines(parts)) == seq(|rings|, _ => LineName(opts.adcode))
  {
    var l, r := Names(Outlines(parts)), seq(|rings|, _ => LineName(opts.adcode));
    forall k | 0 <= k < |l| ensures l[k] == r[k] {
      assert RingBuilt(parts[k], proj, rings[k], opts, mapDepth);
    }
  }

  /** The projection `initMap` sets up for a city: `mercator` centred on the city's
      `center`. */
  function CityProjection(mercator: (Point, Point) -> Point, center: Point): Point -> Point {
    p => mercator(center, p)
  }

  /** The options `initMap` passes to `createArea` for `f`: the solid rests at the map depth
      and is extruded by `SlabDepth`. */
  function FeatureOptions(f: Feature, mapDepth: real): AreaOptions {
    AreaOptions(mapDepth, SlabDepth, f.properties.adcode)
  }

  /** Each of `built` is what `createArea` builds for the feature at the same position. */
  predicate FeaturesBuilt(built: seq<seq<RingParts>>, proj: Point -> Point, features: seq<Feature>, mapDepth: real) {
    |built| == |features| &&
    forall i :: 0 <= i < |built| ==>
      AllBuilt(built[i], proj, Rings(features[i].coordinates), FeatureOptions(features[i], mapDepth), mapDepth)
  }

  lemma FeaturesBuiltSnoc(built: seq<seq<RingParts>>, parts: seq<RingParts>, proj: Point -> Point, features: seq<Feature>, n: nat, mapDepth: real)
    requires n < |features| && FeaturesBuilt(built, proj, features[..n], mapDepth)
    requires AllBuilt(parts, proj, Rings(features[n].coordinates), FeatureOptions(features[n], mapDepth), mapDepth)
    ensures FeaturesBuilt(built + [parts], proj, features[..n + 1], mapDepth)
  {
    forall i | 0 <= i < n + 1
      ensures AllBuilt((built + [parts])[i], proj, Rings(features[..n + 1][i].coordinates), FeatureOptions(features[..n + 1][i], mapDepth), mapDepth)
    {
      if i < n {
        assert (built + [parts])[i] == built[i] && features[..n + 1][i] == features[..n][i];
      }
    }
  }

  /** In `rest`, the solids of `built` rest at `z` and their outlines at `OutlineZ`. */
  ghost predicate Tracked(built: seq<seq<RingParts>>, rest: map<Obj, real>, z: real) {
    forall i, k :: 0 <= i < |built| && 0 <= k < |built[i]| ==>
      built[i][k].mesh in rest && rest[built[i][k].mesh] == z &&
      built[i][k].outline in rest && rest[built[i][k].outline] == OutlineZ
  }

  /** Parts newly tracked in `after` keep the parts tracked in `before` tracked. */
  lemma TrackedSnoc(built: seq<seq<RingParts>>, parts: seq<RingParts>, before: map<Obj, real>, after: map<Obj, real>, z: real, r0: map<Obj, real>)
    requires Tracked(built, before, z) && AllNew(built, r0) && r0.Keys <= before.Keys
    requires forall o :: o in before ==> o in after && after[o] == before[o]
    requires forall k :: 0 <= k < |parts| ==>
      parts[k].mesh in after && after[parts[k].mesh] == z &&
      parts[k].outline in after && after[parts[k].outline] == OutlineZ &&
      parts[k].mesh !in before && parts[k].outline !in before
    ensures Tracked(built + [parts], after, z) && AllNew(built + [parts], r0)
  {
    var next: seq<seq<RingParts>> := built + [parts];
    forall j, k | 0 <= j < |next| && 0 <= k < |next[j]|
      ensures next[j][k].mesh in after && after[next[j][k].mesh] == z
      ensures next[j][k].outline in after && after[next[j][k].outline] == OutlineZ
      ensures next[j][k].mesh !in r0 && next[j][k].outline !in r0
    {
      if j < |built| {
        assert next[j] == built[j];
      }
    }
  }

  /** Nothing in `built` was tracked in `r0`. */
  ghost predicate AllNew(built: seq<seq<RingParts>>, r0: map<Obj, real>) {
    forall i, k :: 0 <= i < |built| && 0 <= k < |built[i]| ==>
      built[i][k].mesh !in r0 && built[i][k].outline !in r0
  }

  /** The outlines of the parts built for each feature, features in order. */
  function AllOutlines(built: seq<seq<RingParts>>): seq<Obj> {
    if built == [] then []
    else AllOutlines(built[..|built| - 1]) + Outlines(built[|built| - 1])
  }

  lemma AllOutlinesSnoc(l0: seq<Obj>, built: seq<seq<RingParts>>, parts: seq<RingParts>)
    ensures l0 + AllOutlines(built + [parts]) == (l0 + AllOutlines(built)) + Outlines(parts)
  {
    assert (built + [parts])[..|built|] == built;
  }

  /** The outlines built for a list of features carry the names `OutlineNames` lists. */
  lemma {:induction false} FeatureOutlineNames(built: seq<seq<RingParts>>, proj: Point -> Point, features: seq<Feature>, mapDepth: real)
    requires FeaturesBuilt(built, proj, features, mapDepth)
    ensures Names(AllOutlines(built)) == OutlineNames(features)
  {
    if built != [] {
      var n := |built| - 1;
      forall i | 0 <= i < n
        ensures AllBuilt(built[..n][i], proj, Rings(features[..n][i].coordinates), FeatureOptions(features[..n][i], mapDepth), mapDepth)
      {
        assert built[..n][i] == built[i] && features[..n][i] == features[i];
      }
      FeatureOutlineNames(built[..n], proj, features[..n], mapDepth);
      NamesAppend(AllOutlines(built[..n]), Outlines(built[n]));
      BuiltOutlineNames(built[n], proj, Rings(features[n].coordinates), FeatureOptions(features[n], mapDepth), mapDepth);
    }
  }

  /** `lines` is never cleared, so an outline registered earlier under a name shadows every
      outline registered later under the same name. */
  lemma EarlierOutlineWins(earlier: seq<Obj>, later: seq<Obj>, name: string)
    requires exists i :: 0 <= i < |earlier| && earlier[i].name == name
    ensures FirstLine(earlier + later, name) == FirstLine(earlier, name)
    ensures FirstLine(earlier, name) != null
  {
    var i :| 0 <= i < |earlier| && earlier[i].name == name;
    assert (earlier + later)[i] == earlier[i];
    var r, q := FirstLine(earlier + later, name), FirstLine(earlier, name);
    var k :| 0 <= k < |earlier + later| && (earlier + later)[k] == r && r.name == name &&
      forall j :: 0 <= j < k ==> (earlier + later)[j].name != name;
    var m :| 0 <= m < |earlier| && earlier[m] == q && q.name == name &&
      forall j :: 0 <= j < m ==> earlier[j].name != name;
    assert (earlier + later)[m] == earlier[m];
    assert k == m;
  }

  /** The solid `createArea` names for `adcode` is picked, and picking it yields `adcode`
      and the name of the outline built beside it. */
  lemma PickOfAreaName(adcode: int)
    ensures Contains(AreaName(adcode), "area")
    ensures PickedCode(AreaName(adcode)) == Some(IntToString(adcode))
    ensures PickedNumber(AreaName(adcode)) == Int(adcode)
    ensures OutlineNameFor(AreaName(adcode)) == LineName(adcode)
  {
    var s, d := AreaName(adcode), IntToString(adcode);
    assert "area" <= s;
    assert s[4] == '_' && s[..4] == "area";
    var i := IndexOf(s, '_');
    assert i == Some(4);
    assert s[5..] == d;
    var t := TakeUntil(d, '_');
    assert '_' !in d;
    assert t == d;
    NumberRoundTrip(adcode);
  }

  /** An outline is never taken for a region: no `line_<adcode>` name includes "area". */
  lemma OutlineNameNotArea(adcode: int)
    ensures !Contains(LineName(adcode), "area")
  {
    var s := LineName(adcode);
    if Contains(s, "area") {
      ContainsHead(s, "area");
    }
  }

  class Map {
    /** The bundled datasets (`@hanchayi/geo`). */
    const geos: seq<GeoJson>
    var options: MapOptions
    var mouse: Option<Pointer>
    var lastPick: Obj?
    var line: Obj?
    var lines: seq<Obj>
    var adcode: Number
    /** The resting z of every object this map has built or raised. */
    ghost var rest: map<Obj, real>

    /** How far `o` is raised: `Up` for each highlight slot that holds it. */
    ghost function Offset(o: Obj): real
      reads this
    {
      Lift(o, lastPick, line)
    }

    /** Every tracked object sits at its resting z plus its offset, and both highlight
        slots are tracked. */
    ghost predicate Placed()
      reads this, rest.Keys
    {
      (lastPick != null ==> lastPick in rest) &&
      (line != null ==> line in rest) &&
      forall o :: o in rest ==> o.z == rest[o] + Lift(o, lastPick, line)
    }

    /** `Placed`, and the registered outlines are tracked too. */
    ghost predicate Valid()
      reads this, rest.Keys
    {
      Placed() && forall o :: o in lines ==> o in rest
    }

    /** The field initialisers of the class. */
    constructor (geos: seq<GeoJson>, options: MapOptions)
      ensures Valid() && this.geos == geos && this.options == options
      ensures mouse == None && lastPick == null && line == null && lines == []
      ensures adcode == Int(0) && rest == map[]
    {
      this.geos := geos;
      this.options := options;
      mouse := None;
      lastPick := null;
      line := null;
      lines := [];
      adcode := Int(0);
      rest := map[];
    }

    /** `onMouseMove`: records the pointer position. */
    method OnMouseMove(p: Pointer)
      modifies this`mouse
      ensures mouse == Some(p)
    {
      mouse := Some(p);
    }

    /** The loops of `createArea` over its rings: a solid and an outline per ring, each
        outline pushed onto `lines`. */
    method BuildRings(proj: Point -> Point, rings: seq<Ring>, opts: AreaOptions) returns (parts: seq<RingParts>)
      modifies this`lines
      ensures AllBuilt(parts, proj, rings, opts, options.depth)
      ensures forall k :: 0 <= k < |parts| ==>
        fresh(parts[k].mesh) && fresh(parts[k].outline) && PlacedAt(parts[k], opts.z)
      ensures lines == old(lines) + Outlines(parts)
    {
      parts := [];
      var j := 0;
      while j < |rings|
        invariant 0 <= j <= |rings|
        invariant AllBuilt(parts, proj, rings[..j], opts, options.depth)
        invariant forall k :: 0 <= k < |parts| ==>
          fresh(parts[k].mesh) && fresh(parts[k].outline) && PlacedAt(parts[k], opts.z)
        invariant lines == old(lines) + Outlines(parts)
      {
        var p := NewRingParts(proj, rings[j], opts, options.depth);
        lines := lines + [p.outline];
        OutlinesAppend(parts, [p]);
        assert Outlines([p]) == [p.outline];
        assert rings[..j + 1] == rings[..j] + [rings[j]];
        AllBuiltAppend(parts, [p], proj, rings[..j], [rings[j]], opts, options.depth);
        parts := parts + [p];
        j := j + 1;
      }
      assert rings[..j] == rings;
    }

    /** `createArea`: one solid and one outline per ring of every polygon, the outlines
        appended to `lines`; `area` is the group holding them. The new objects are tracked
        at the z they were built with. */
    method CreateArea(proj: Point -> Point, coordinates: seq<Polygon>, opts: AreaOptions) returns (area: Obj, parts: seq<RingParts>)
      requires Valid()
      modifies this`lines, this`rest
      ensures Valid()
      ensures fresh(area) && area.name == "" && area.geometry == Group && area.z == 0.0
      ensures AllBuilt(parts, proj, Rings(coordinates), opts, options.depth)
      ensures forall k :: 0 <= k < |parts| ==>
        fresh(parts[k].mesh) && fresh(parts[k].outline) && PlacedAt(parts[k], opts.z)
      ensures lines == old(lines) + Outlines(parts)
      ensures forall o :: o in old(rest) ==> o in rest && rest[o] == old(rest[o])
      ensures forall o :: o in rest ==> o in old(rest) || fresh(o)
      ensures forall k :: 0 <= k < |parts| ==>
        parts[k].mesh in rest && rest[parts[k].mesh] == opts.z &&
        parts[k].outline in rest && rest[parts[k].outline] == OutlineZ
    {
      area := new Obj("", Group, 0.0);
      parts := BuildRings(proj, Rings(coordinates), opts);
      ghost var objs := PartsObjects(parts);
      assert forall k :: 0 <= k < |parts| ==>
        parts[k].mesh in objs && parts[k].outline in objs && Outlines(parts)[k] in objs;
      Track(objs);
    }

    /** Start tracking `objs`, none of which fills a highlight slot, at their current z. */
    ghost method Track(objs: set<Obj>)
      requires Placed() && lastPick !in objs && line !in objs
      requires forall o :: o in lines ==> o in rest || o in objs
      requires forall o :: o in objs ==> o !in rest
      modifies this`rest
      ensures Valid()
      ensures forall o :: o in old(rest) ==> o in rest && rest[o] == old(rest[o])
      ensures forall o :: o in rest ==> o in old(rest) || o in objs
      ensures forall o :: o in objs ==> o in rest && rest[o] == o.z
    {
      rest := rest + map o | o in objs :: o.z;
    }

    /** `createLine`: a decorative outline per ring of every polygon, each at `z`, inside a
        group that is itself at `z` and is named `name` when one is given. Nothing is
        registered for picking. */
    method CreateLine(proj: Point -> Point, coordinates: seq<Polygon>, z: real, name: Option<string>) returns (group: Obj, outlines: seq<Obj>)
      ensures fresh(group) && group.z == z && group.geometry == Group
      ensures group.name == match name case Some(n) => n case None => ""
      ensures |outlines| == |Rings(coordinates)|
      ensures forall k :: 0 <= k < |outlines| ==>
        fresh(outlines[k]) && outlines[k].name == "" && outlines[k].z == z &&
        outlines[k].geometry == Line(Positions(proj, Rings(coordinates)[k], options.depth))
    {
      var rings := Rings(coordinates);
      outlines := [];
      var j := 0;
      while j < |rings|
        invariant 0 <= j <= |rings| && |outlines| == j
        invariant forall k :: 0 <= k < j ==>
          fresh(outlines[k]) && outlines[k].name == "" && outlines[k].z == z &&
          outlines[k].geometry == Line(Positions(proj, rings[k], options.depth))
      {
        var _, positions := FlattenRing(proj, rings[j], options.depth);
        var outline := new Obj("", Line(positions), z);
        outlines := outlines + [outline];
        j := j + 1;
      }
      var groupName := match name case Some(n) => n case None => "";
      group := new Obj(groupName, Group, z);
    }

    /** Every tracked object is at its resting z. */
    ghost predicate AtRest()
      reads this, rest.Keys
    {
      forall o :: o in rest ==> o.z == rest[o]
    }

    /** The first half of the highlight step: lower what the previous frame raised and
        clear both slots. */
    method Lower()
      requires Valid()
      modifies this`lastPick, this`line, rest.Keys
      ensures lastPick == null && line == null && Valid() && AtRest()
      ensures forall o :: o in rest ==> o.z == old(o.z) - old(Offset(o))
    {
      if lastPick != null {
        lastPick.z := lastPick.z - Up;
      }
      if line != null {
        line.z := line.z - Up;
      }
      lastPick := null;
      line := null;
    }

    /** The second half of the highlight step for a picked region `area`: track it if it
        is new, raise it by `Up`, and raise and keep `outline` when there is one. */
    method Raise(area: Obj, outline: Obj?)
      requires Valid() && AtRest() && lastPick == null && line == null
      requires outline != null ==> outline in rest
      modifies this`lastPick, this`line, this`rest, area, outline
      ensures Valid() && lastPick == area && line == outline
      ensures rest == if area in old(rest) then old(rest) else old(rest)[area := old(area.z)]
    {
      if area !in rest {
        rest := rest[area := area.z];
      }
      lastPick := area;
      area.z := area.z + Up;
      if outline != null {
        outline.z := outline.z + Up;
        line := outline;
      }
    }

    /** The picking and highlight step of `animate`, given the objects the pointer ray
        intersects, nearest first. With a pointer position, whatever the previous frame
        raised is lowered by `Up`; the first intersected object named like a region is
        picked and raised by `Up`, `adcode` becomes the number after its first `_`, and the
        first registered outline named `line_` plus that text is raised by `Up` and kept;
        with no region under the pointer `adcode` is 0. */
    method Animate(hits: seq<Obj>)
      requires Valid()
      modifies this, rest.Keys, FirstArea(hits)
      ensures Valid()
      ensures mouse == old(mouse) && lines == old(lines) && options == old(options)
      ensures forall o :: o in old(rest) ==> o in rest && rest[o] == old(rest[o])
      ensures forall o :: o in old(rest) ==> o.z == old(o.z) - old(Offset(o)) + Offset(o)
      ensures old(mouse).None? ==>
        lastPick == old(lastPick) && line == old(line) && adcode == old(adcode) && rest == old(rest)
      ensures old(mouse).None? ==> FirstArea(hits) == null || FirstArea(hits).z == old(FirstArea(hits).z)
      ensures old(mouse).Some? ==> lastPick == FirstArea(hits)
      ensures old(mouse).Some? && lastPick == null ==>
        line == null && adcode == Int(0) && rest == old(rest) && AtRest()
      ensures old(mouse).Some? && lastPick != null ==>
        adcode == PickedNumber(lastPick.name) && line == FirstLine(lines, OutlineNameFor(lastPick.name))
      ensures forall o :: o in rest ==> o in old(rest) || o == FirstArea(hits)
      ensures FirstArea(hits) != null && FirstArea(hits) in rest && FirstArea(hits) !in old(rest) ==>
        rest[FirstArea(hits)] == old(FirstArea(hits).z)
    {
      if mouse.None? {
        return;
      }
      Lower();
      Pick(hits);
    }

    /** The picking half of a frame, once everything is lowered: take the first region hit,
        set adcode from its name and raise it with the first outline of the matching name. */
    method Pick(hits: seq<Obj>)
      requires Valid() && AtRest() && lastPick == null && line == null
      modifies this`adcode, this`lastPick, this`line, this`rest, rest.Keys, FirstArea(hits)
      ensures Valid() && lastPick == FirstArea(hits)
      ensures lastPick == null ==> line == null && adcode == Int(0) && rest == old(rest)
      ensures lastPick != null ==>
        adcode == PickedNumber(lastPick.name) && line == FirstLine(lines, OutlineNameFor(lastPick.name))
      ensures forall o :: o in old(rest) ==> o in rest && rest[o] == old(rest[o]) && o.z == old(o.z) + Offset(o)
      ensures forall o :: o in rest ==> o in old(rest) || o == FirstArea(hits)
      ensures FirstArea(hits) != null && FirstArea(hits) !in old(rest) ==>
        FirstArea(hits) in rest && rest[FirstArea(hits)] == old(FirstArea(hits).z)
    {
      var area := FirstArea(hits);
      if area != null {
        adcode := PickedNumber(area.name);
        var outline := FirstLine(lines, OutlineNameFor(area.name));
        Raise(area, outline);
      } else {
        adcode := Int(0);
      }
    }

    /** `onClick`: with a truthy `adcode` and a configured callback, the first feature of
        the city whose adcode equals `adcode` is passed to the callback; resolving the city
        throws when it is not among the datasets. */
    function OnClick(): (r: Click)
      reads this
      ensures r.Thrown? <==> Truthy(adcode) && options.onClick && City(geos, options.adcode).Failure?
      ensures r.Thrown? ==> r.error == CityNotFound
      ensures r.Callback? <==>
        Truthy(adcode) && options.onClick && City(geos, options.adcode).Success? &&
        exists i :: 0 <= i < |City(geos, options.adcode).value.features| &&
          Int(City(geos, options.adcode).value.features[i].properties.adcode) == adcode
      ensures r.Callback? ==>
        var fs := City(geos, options.adcode).value.features;
        exists i :: 0 <= i < |fs| && fs[i].properties == r.props && Int(r.props.adcode) == adcode &&
          forall j :: 0 <= j < i ==> Int(fs[j].properties.adcode) != adcode
    {
      if !(Truthy(adcode) && options.onClick) then NoCall
      else
        match City(geos, options.adcode)
        case Failure(e) => Thrown(e)
        case Success(city) =>
          var code := adcode;
          match JsArray.FindIndex(city.features, (f: Feature) => Int(f.properties.adcode) == code)
          case None => NoCall
          case Some(i) => Callback(city.features[i].properties)
    }

    /** One step of `initMap`'s loop over the city's features: `createArea` for
        `features[i]`, after `built` was built for the features before it since the map
        registered `l0` and tracked `r0`. */
    method AddFeature(proj: Point -> Point, features: seq<Feature>, i: nat, built: seq<seq<RingParts>>,
                      ghost l0: seq<Obj>, ghost r0: map<Obj, real>)
      returns (next: seq<seq<RingParts>>)
      requires i < |features| && Valid() && FeaturesBuilt(built, proj, features[..i], options.depth)
      requires lines == l0 + AllOutlines(built)
      requires Tracked(built, rest, options.depth) && AllNew(built, r0) && r0.Keys <= rest.Keys
      modifies this`lines, this`rest
      ensures Valid() && FeaturesBuilt(next, proj, features[..i + 1], options.depth)
      ensures lines == l0 + AllOutlines(next)
      ensures Tracked(next, rest, options.depth) && AllNew(next, r0)
      ensures forall o :: o in old(rest) ==> o in rest && rest[o] == old(rest[o])
      ensures forall o :: o in rest ==> o in old(rest) || fresh(o)
    {
      ghost var before := rest;
      var f := features[i];
      var _, parts := CreateArea(proj, f.coordinates, FeatureOptions(f, options.depth));
      assert forall k :: 0 <= k < |parts| ==> parts[k].mesh !in before && parts[k].outline !in before;
      next := built + [parts];
      FeaturesBuiltSnoc(built, parts, proj, features, i, options.depth);
      AllOutlinesSnoc(l0, built, parts);
      TrackedSnoc(built, parts, before, rest, options.depth, r0);
    }

    /** `initMap`'s loop over the city's features: `createArea` for each, in order. */
    method AddFeatures(proj: Point -> Point, features: seq<Feature>) returns (built: seq<seq<RingParts>>)
      requires Valid()
      modifies this`lines, this`rest
      ensures Valid()
      ensures FeaturesBuilt(built, proj, features, options.depth)
      ensures lines == old(lines) + AllOutlines(built)
      ensures Tracked(built, rest, options.depth) && AllNew(built, old(rest))
      ensures forall o :: o in old(rest) ==> o in rest && rest[o] == old(rest[o])
      ensures forall o :: o in rest ==> o in old(rest) || fresh(o)
    {
      built := [];
      ghost var l0, r0 := lines, rest;
      var i := 0;
      while i < |features|
        invariant 0 <= i <= |features|
        invariant Valid()
        invariant FeaturesBuilt(built, proj, features[..i], options.depth)
        invariant lines == l0 + AllOutlines(built)
        invariant Tracked(built, rest, options.depth) && AllNew(built, r0)
        invariant forall o :: o in r0 ==> o in rest && rest[o] == r0[o]
        invariant forall o :: o in rest ==> o in r0 || fresh(o)
      {
        built := AddFeature(proj, features, i, built, l0, r0);
        i := i + 1;
      }
      assert features[..i] == features;
    }

    /** The region-building part of `initMap`: resolve the city (throwing when it is
        missing), build every feature with `createArea` at the map depth, then the two
        decorative outlines of the city's own boundary. The projection is the Mercator
        projection `mercator` centred on the city. Each feature's outlines are appended to
        `lines` behind those of earlier renders. */
    method InitMap(mercator: (Point, Point) -> Point) returns (r: Outcome<string>, built: seq<seq<RingParts>>)
      requires Valid()
      modifies this`lines, this`rest
      ensures Valid()
      ensures City(geos, options.adcode).Failure? ==>
        r == Fail(CityNotFound) && built == [] && lines == old(lines) && rest == old(rest)
      ensures City(geos, options.adcode).Success? ==>
        var city := City(geos, options.adcode).value;
        r == Pass &&
        FeaturesBuilt(built, CityProjection(mercator, city.properties.center), city.features, options.depth) &&
        lines == old(lines) + AllOutlines(built) &&
        Names(lines) == Names(old(lines)) + OutlineNames(city.features) &&
        Tracked(built, rest, options.depth)
      ensures forall i, k :: 0 <= i < |built| && 0 <= k < |built[i]| ==>
        fresh(built[i][k].mesh) && fresh(built[i][k].outline) && PlacedAt(built[i][k], options.depth)
      ensures forall o :: o in old(rest) ==> o in rest && rest[o] == old(rest[o])
      ensures forall o :: o in rest ==> o in old(rest) || fresh(o)
    {
      built := [];
      var found := City(geos, options.adcode);
      if found.Failure? {
        return Fail(found.error), built;
      }
      var city := found.value;
      var proj := CityProjection(mercator, city.properties.center);
      ghost var l0, r0 := lines, rest;
      built := AddFeatures(proj, city.features);
      forall i, k | 0 <= i < |built| && 0 <= k < |built[i]|
        ensures fresh(built[i][k].mesh) && fresh(built[i][k].outline) && PlacedAt(built[i][k], options.depth)
      {
        var p := built[i][k];
        assert p.mesh in rest && p.mesh !in r0 && p.outline in rest && p.outline !in r0;
      }
      FeatureOutlineNames(built, proj, city.features, options.depth);
      NamesAppend(l0, AllOutlines(built));
      var _, _ := CreateLine(proj, city.coordinates, -options.depth / 2.0, None);
      var _, _ := CreateLine(proj, city.coordinates, -options.depth / 4.0, None);
      r := Pass;
    }
  }
}
