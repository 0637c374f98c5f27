/** One hover cycle over a single region: build a Nantong (320600) region of Jiangsu
    (320000), hover it, click it, move off it and click again. */
module MapScenario {
  import opened Wrappers
  import opened JsText
  import opened Geo
  import opened Scene
  import opened MapView

  /** A triangle of lon/lat points for the region. */
  const Triangle: Ring := [(120.0, 32.0), (121.0, 32.0), (121.0, 31.0)]

  const Nantong: Properties := Properties("南通市", 320600, (120.86, 32.01))

  const Jiangsu: GeoJson :=
    GeoJson(Properties("江苏省", 320000, (118.76, 32.06)), [Feature(Nantong, [[Triangle]])], [[Triangle]])

  /** `m` shows Jiangsu at depth 1 with the Nantong solid `mesh` resting at z 1 and its
      outline `outline`, the only registered one, resting at `OutlineZ`. */
  ghost predicate Ready(m: Map, mesh: Obj, outline: Obj)
    reads m, m.rest.Keys
  {
    m.Valid() && m.geos == [Jiangsu] && m.options == MapOptions(320000, 1.0, true) &&
    m.lines == [outline] && mesh != outline &&
    mesh.name == AreaName(320600) && outline.name == LineName(320600) &&
    mesh in m.rest && outline in m.rest && m.rest[mesh] == 1.0 && m.rest[outline] == OutlineZ
  }

  /** What `initMap` builds for Jiangsu at depth 1: one solid and one outline for the
      Nantong triangle, the outline the only one registered. */
  lemma JiangsuBuilt(built: seq<seq<RingParts>>, proj: Point -> Point, lines: seq<Obj>, rest: map<Obj, real>)
    requires FeaturesBuilt(built, proj, Jiangsu.features, 1.0)
    requires lines == AllOutlines(built) && Tracked(built, rest, 1.0)
    ensures |built| == 1 && |built[0]| == 1 && lines == [built[0][0].outline]
    ensures built[0][0].mesh.name == AreaName(320600) && built[0][0].outline.name == LineName(320600)
    ensures built[0][0].mesh != built[0][0].outline
    ensures built[0][0].mesh in rest && rest[built[0][0].mesh] == 1.0
    ensures built[0][0].outline in rest && rest[built[0][0].outline] == OutlineZ
  {
    assert Rings([[Triangle]]) == [Triangle];
    assert AllBuilt(built[0], proj, [Triangle], FeatureOptions(Jiangsu.features[0], 1.0), 1.0);
    assert Outlines(built[0]) == [built[0][0].outline];
    assert AllOutlines(built) == AllOutlines([]) + Outlines(built[0]);
    assert AreaName(320600)[0] != LineName(320600)[0];
  }

  /** Render Jiangsu on a new map of its Nantong region: nothing is highlighted yet. */
  method Build(mercator: (Point, Point) -> Point) returns (m: Map, mesh: Obj, outline: Obj)
    ensures fresh(m) && Ready(m, mesh, outline) && forall o :: o in m.rest ==> fresh(o)
    ensures m.mouse == None && m.lastPick == null && m.line == null
  {
    m := new Map([Jiangsu], MapOptions(320000, 1.0, true));
    assert City([Jiangsu], 320000) == Success(Jiangsu);
    var _, built := m.InitMap(mercator);
    JiangsuBuilt(built, CityProjection(mercator, Jiangsu.properties.center), m.lines, m.rest);
    mesh, outline := built[0][0].mesh, built[0][0].outline;
  }

  /** A click on a Jiangsu map after Nantong was picked calls back with Nantong. */
  lemma ClickOnNantong(m: Map)
    requires m.geos == [Jiangsu] && m.options == MapOptions(320000, 1.0, true) && m.adcode == Int(320600)
    ensures m.OnClick() == Callback(Nantong)
  {
    assert City([Jiangsu], 320000) == Success(Jiangsu);
  }

  /** A click on a map whose last frame picked nothing does nothing. */
  lemma ClickOnNothing(m: Map)
    requires m.adcode == Int(0)
    ensures m.OnClick() == NoCall
  {
  }

  /** A frame with the pointer on the Nantong solid. */
  method Hover(m: Map, mesh: Obj, outline: Obj) returns (raised: real, outlineRaised: real)
    requires Ready(m, mesh, outline) && m.mouse.Some?
    modifies m, m.rest.Keys
    ensures Ready(m, mesh, outline) && m.mouse.Some? && m.rest == old(m.rest) && m.adcode == Int(320600)
    ensures raised == 1.0 + Up && outlineRaised == OutlineZ + Up
  {
    PickOfAreaName(320600);
    assert FirstArea([mesh]) == mesh;
    m.Animate([mesh]);
    assert m.lastPick == mesh && m.line == FirstLine([outline], LineName(320600)) == outline;
    assert mesh in old(m.rest) && m.rest.Keys == old(m.rest).Keys;
    raised, outlineRaised := mesh.z, outline.z;
  }

  /** A frame with the pointer off every region. */
  method Leave(m: Map, mesh: Obj, outline: Obj) returns (lowered: real, outlineLowered: real)
    requires Ready(m, mesh, outline) && m.mouse.Some?
    modifies m, m.rest.Keys
    ensures Ready(m, mesh, outline) && m.adcode == Int(0)
    ensures lowered == 1.0 && outlineLowered == OutlineZ
  {
    m.Animate([]);
    lowered, outlineLowered := mesh.z, outline.z;
  }

  /** Hovering the region's solid raises it and its outline by `Up` and arms a click with
      the region's properties; the next frame that hits nothing puts both back and
      disarms the click. */
  method HoverCycle(mercator: (Point, Point) -> Point, pointer: Pointer)
    returns (raised: real, outlineRaised: real, firstClick: Click, lowered: real, outlineLowered: real, secondClick: Click)
    ensures raised == 1.0 + Up && outlineRaised == OutlineZ + Up && firstClick == Callback(Nantong)
    ensures lowered == 1.0 && outlineLowered == OutlineZ && secondClick == NoCall
  {
    var m, mesh, outline := Build(mercator);
    m.OnMouseMove(pointer);
    raised, outlineRaised := Hover(m, mesh, outline);
    ClickOnNantong(m);
    firstClick := m.OnClick();
    lowered, outlineLowered := Leave(m, mesh, outline);
    ClickOnNothing(m);
    secondClick := m.OnClick();
  }
}
