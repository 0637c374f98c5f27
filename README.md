# threejs-map: hover picking, region building and glyph text

`threejs-map` renders a Chinese administrative region as an extruded 3D map with three.js.
This project models the parts of it that hold logic, and proves properties of that model.

- **The `city` lookup.** The first bundled dataset whose adcode is the configured one,
  or the error "city not found".
- **Ring flattening.** Each ring of lon/lat points is projected. The model keeps both
  the shape path the region mesh is extruded from and the flat `[x, -y, depth]`
  position array of its outline. The projection (d3 Mercator centred on the city) is
  an uninterpreted function.
- **Region building (`createArea`, `createLine`, `initMap`).**
  - Every ring of every polygon of a feature gets a solid named `area_<adcode>` and an
    outline named `line_<adcode>`.
  - The outline is appended to the map's `lines` registry, which is never cleared.
- **The hover highlight state machine (`onMouseMove`, `animate`, `onClick`).** Each
  frame with a pointer position:
  - it lowers whatever the previous frame raised by `up = 0.02`, then clears both slots;
  - it picks the first intersected object whose name includes `area`;
  - it reads the adcode back with `name.split('_')[1]`;
  - it raises the picked solid and the first registered outline named `line_` plus
    that text.

  A click passes the properties of the first feature with the picked adcode to the
  configured callback.
- **The glyph text of the font subsetting script.** Every feature name of every dataset
  is concatenated, and each character is kept once, where it first occurs.

Modules:

| module | file | contents |
|---|---|---|
| `Wrappers` | `wrappers.dfy` | `Option`, `Result`, `Outcome` |
| `JsArray` | `js_array.dfy` | `Array.prototype.find` as the index of the first match |
| `JsText` | `js_text.dfy` | its string and number helpers, listed below |
| `Geo` | `geo.dfy` | datasets, features, polygons, the `city` lookup, the ring order of the builders |
| `RingPath` | `ring_path.dfy` | the point loop shared by `createArea` and `createLine` |
| `Scene` | `scene.dfy` | the scene object `Obj`: a name, geometry data, and a mutable `position.z` |
| `MapView` | `map_view.dfy` | the `Map` class, with the naming scheme, the builders and the highlight step |
| `Font` | `font.dfy` | glyph text collection |
| `MapScenario` | `scenario.dfy` | one hover cycle over a one-region map of Jiangsu, as a worked client of `Map` |

`JsText` holds the JavaScript semantics the naming scheme depends on: `includes`,
`split(sep)[1]` (possibly `undefined`), `Number(text)` (possibly NaN) and `String(n)`.

The highlight invariant is `Map.Valid`. The map keeps a ghost record `rest` of the
resting z of every region solid and outline it built, and of every object it raised. Every tracked object sits at its resting
z plus `up` for each highlight slot (the picked region and the active outline) that
holds it. Every frame preserves `Valid`, so repeated hovering never drifts. A frame that
hits nothing puts every tracked object back at its resting z.

## Model

| member | source | states |
|---|---|---|
| JsArray.FindIndex | packages/map/src/Map.ts:73 | `find` semantics: None exactly when nothing matches; otherwise an in-range index that matches, with no match before it |
| JsText.Truthy | packages/map/src/Map.ts:341 | JavaScript truthiness of a number: 0 and NaN are falsy, every other number is truthy |
| JsText.Contains | packages/map/src/Map.ts:552 | `s.includes(t)`: `t` is a prefix of `s` or of one of its suffixes |
| JsText.ContainsAt | packages/map/src/Map.ts:552 | `includes` holds exactly when `t` occurs at some position of `s` |
| JsText.ContainsHead | packages/map/src/Map.ts:552 | a string that includes a non-empty text holds that text's first character |
| JsText.IndexOf | packages/map/src/Map.ts:556 | the first position of a separator: None exactly when it is absent; otherwise it is there and nowhere earlier |
| JsText.TakeUntil | packages/map/src/Map.ts:556 | the field after a separator is a prefix free of the separator, ending at the end or at the next separator |
| JsText.SecondField | packages/map/src/Map.ts:556 | `split(sep)[1]` is `undefined` exactly when the separator is absent; otherwise it is the separator-free text between the first separator and the next one or the end |
| JsText.DigitChar | packages/map/src/Map.ts:272 | a digit value below 10 becomes the decimal digit character of that value |
| JsText.NatToString | packages/map/src/Map.ts:272 | the decimal text of a natural number is non-empty and all digits, and it starts with `0` exactly when the number is 0 (no leading zeros) |
| JsText.IntToString | packages/map/src/Map.ts:272 | the text of an integer in a name is non-empty, made of digits and a minus sign only, and so holds no `_` and no `a` |
| JsText.DigitsRoundTrip | packages/map/src/Map.ts:557 | the value of the decimal text of `n` is `n` |
| JsText.ToNumber | packages/map/src/Map.ts:557 | `Number(text)`: the empty text is 0, an optional sign and decimal digits are that integer, anything else is NaN |
| JsText.NumberRoundTrip | packages/map/src/Map.ts:557 | `Number(String(n)) == n` for every integer adcode |
| Geo.City | packages/map/src/Map.ts:72-78 | fails with "city not found" exactly when no dataset has the adcode; otherwise returns the first dataset that has it |
| Geo.Rings | packages/map/src/Map.ts:242-243 | every ring of every polygon, polygons in order and rings in order within each, as the nested `forEach` loops visit them |
| RingPath.Positions | packages/map/src/Map.ts:247-255 | the position array of a ring of n points has 3n entries |
| RingPath.ShapePath | packages/map/src/Map.ts:247-252 | the shape path of a non-empty ring of n points has n+1 commands, and an empty ring has none |
| RingPath.PositionsAt | packages/map/src/Map.ts:248-254 | entries 3i, 3i+1, 3i+2 are the projected x, the negated projected y and the map depth of point i |
| RingPath.ShapeAt | packages/map/src/Map.ts:248-252 | the path starts with a move to the first projected point and then draws a line to every projected point in order |
| RingPath.OutlineTracesShape | packages/map/src/Map.ts:247-255 | line i of the extruded shape ends at the planar coordinates of entry i of the outline's position array |
| RingPath.FlattenRing | packages/map/src/Map.ts:247-255 | the point loop produces exactly the shape path and the position array of the ring |
| Scene.Obj.constructor | packages/map/src/Map.ts:257-284 | a new object has the given name, geometry and z |
| MapView.AreaName | packages/map/src/Map.ts:272 | the solid's name `'area_' + adcode` |
| MapView.LineName | packages/map/src/Map.ts:285 | the outline's name `'line_' + adcode` |
| MapView.IsArea | packages/map/src/Map.ts:552 | the hit test: the object's name includes `area` |
| MapView.PickedCode | packages/map/src/Map.ts:556 | `name.split('_')[1]`, `undefined` when the name has no `_` |
| MapView.PickedNumber | packages/map/src/Map.ts:557 | `Number` of the picked text; `Number(undefined)` is NaN |
| MapView.OutlineNameFor | packages/map/src/Map.ts:560 | `'line_' + adcode` on the picked text; concatenating `undefined` gives `line_undefined` |
| MapView.FirstArea | packages/map/src/Map.ts:551-553 | the pick is null exactly when no hit's name includes `area`; otherwise it is the first hit whose name does |
| MapView.FirstLine | packages/map/src/Map.ts:559-561 | the outline lookup is null exactly when no registered outline has the name; otherwise it is the first that has it |
| MapView.OutlinesAppend | packages/map/src/Map.ts:286 | the outlines of two runs of parts are the outlines of the first run followed by those of the second |
| MapView.NamesAppend | packages/map/src/Map.ts:286 | the names of appended objects are the names of the first run followed by those of the second |
| MapView.AllBuiltAppend | packages/map/src/Map.ts:244-288 | parts built for two runs of rings, placed one after the other, are the parts for the joined rings |
| MapView.NewRingParts | packages/map/src/Map.ts:243-287 | one ring yields a fresh solid `area_<adcode>`, extruded by `opts.depth`, createArea's `depth` option, from the ring's shape and at z, and a fresh outline `line_<adcode>` through the ring's positions at the map depth and at z 0.01 |
| MapView.BuiltOutlineNames | packages/map/src/Map.ts:285 | the outlines built for a feature are named `line_<adcode>`, one per ring |
| MapView.EarlierOutlineWins | packages/map/src/Map.ts:64 | `lines` is never cleared (only `texts` and `pyramids` are, at lines 160-161), so an outline registered earlier under a name is the one every later lookup of that name returns |
| MapView.PickOfAreaName | packages/map/src/Map.ts:552-560 | a solid named `area_<adcode>` is a region hit; splitting its name gives the adcode's text, `Number` of that is the adcode, and the outline looked up is `line_<adcode>` |
| MapView.OutlineNameNotArea | packages/map/src/Map.ts:285 | no outline name `line_<adcode>` includes `area`, so an outline is never picked as a region |
| MapView.Map.constructor | packages/map/src/Map.ts:59-66 | a new map has no pointer, empty highlight slots, no registered outlines and adcode 0, and satisfies the highlight invariant |
| MapView.Map.OnMouseMove | packages/map/src/Map.ts:334-339 | the pointer position is recorded |
| MapView.Map.BuildRings | packages/map/src/Map.ts:244-288 | every ring, in visiting order, yields its solid and outline, and the outlines are appended to `lines` in the same order |
| MapView.Map.CreateArea | packages/map/src/Map.ts:232-290 | a new group at z 0, the parts of every ring of every polygon, outlines appended to `lines`; the new solids and outlines are tracked at rest at their built z, everything else tracked is new, earlier resting z are unchanged, and the highlight invariant is kept |
| MapView.Map.Track | packages/map/src/Map.ts:272-284 | newly built objects, which are in no highlight slot and not yet tracked, are tracked at the z they were built with; nothing else is added or changed, and the invariant is kept |
| MapView.Map.CreateLine | packages/map/src/Map.ts:294-329 | one outline per ring at z through the ring's positions at the map depth, inside a group at z named by the optional name; nothing is registered |
| MapView.Map.Lower | packages/map/src/Map.ts:539-549 | both slots are cleared and each tracked object drops by its previous offset, so every tracked object is at rest |
| MapView.Map.Raise | packages/map/src/Map.ts:554-565 | the picked region is tracked if it is new, fills the pick slot, and the found outline fills the line slot; the invariant is kept |
| MapView.Map.Pick | packages/map/src/Map.ts:551-565 | after lowering, the pick is the first region hit; on a hit, adcode is `Number` of its second `_` field and the line slot holds the first registered outline named `line_` plus that field, and each tracked object rises by its new offset; on a miss, adcode is 0 and nothing is tracked anew; the invariant is kept |
| MapView.Map.Animate | packages/map/src/Map.ts:529-568 | with no pointer nothing changes; otherwise the pick is the first region hit, and each tracked object's z moves by its new offset minus its old one. On a hit, adcode is `Number` of the name's second `_` field and the active outline is the first registered one named `line_` plus that field. On a miss, adcode is 0, both slots are empty and every tracked object is at rest. The invariant is kept |
| MapView.Map.OnClick | packages/map/src/Map.ts:340-347 | throws "city not found" exactly when adcode is truthy, a callback is configured and the city is missing; calls back exactly when, in addition, the city has a feature with that adcode, and then with the first such feature's properties |
| MapView.FeaturesBuiltSnoc | packages/map/src/Map.ts:166-211 | the parts built for the first features plus those built for the next feature are the parts built for the longer list |
| MapView.AllOutlinesSnoc | packages/map/src/Map.ts:286 | the outlines of the parts of one more feature follow those of the earlier features |
| MapView.TrackedSnoc | packages/map/src/Map.ts:179-186 | solids tracked at the map depth and outlines at 0.01 stay tracked when a further feature's new parts are tracked the same way, and none of them was tracked before |
| MapView.FeatureOutlineNames | packages/map/src/Map.ts:166-211 | the outlines built for a list of features are named `line_<adcode>`, once per ring of each feature, features in order |
| MapView.Map.AddFeature | packages/map/src/Map.ts:166-211 | one turn of the feature loop: `createArea` with z = the map depth, depth 0.005 and the feature's adcode extends the built parts by that feature's, appends its outlines to `lines`, tracks its solids at the map depth and its outlines at 0.01, and keeps the invariant |
| MapView.Map.AddFeatures | packages/map/src/Map.ts:166-211 | the feature loop: for every feature, in order, exactly the parts `createArea` builds for it; `lines` gains all their outlines in order; the new solids rest at the map depth and the new outlines at 0.01; earlier resting z are unchanged |
| MapView.Map.InitMap | packages/map/src/Map.ts:158-230 | a missing city fails with "city not found" and builds nothing; otherwise it projects with Mercator centred on the city's `center`, and for every feature in order it builds exactly what `createArea` builds with z = the map depth, depth 0.005 and the feature's adcode; `lines` gains all their outlines in order, named `line_<adcode>` once per ring; every built solid and outline is new, sits and rests at the map depth and at 0.01; earlier resting z are unchanged; the invariant is kept |
| MapScenario.JiangsuBuilt | packages/map/src/Map.ts:166-211 | for Jiangsu at depth 1 the feature loop builds one solid `area_320600` resting at z 1 and one outline `line_320600`, the only registered one, resting at 0.01 |
| MapScenario.Build | packages/map/src/Map.ts:158-230 | `initMap` on a new map of Jiangsu (320000) at depth 1 tracks the Nantong (320600) solid at rest at z 1 and its outline, the only registered one, at z 0.01, with nothing highlighted |
| MapScenario.Hover | packages/map/src/Map.ts:529-568 | a frame over the Nantong solid raises it and its outline by 0.02 and sets adcode to 320600 |
| MapScenario.Leave | packages/map/src/Map.ts:529-568 | a frame over nothing puts both back at rest and sets adcode to 0 |
| MapScenario.ClickOnNantong | packages/map/src/Map.ts:340-347 | with adcode 320600 on the Jiangsu map, a click calls back with Nantong's properties |
| MapScenario.ClickOnNothing | packages/map/src/Map.ts:341 | with adcode 0, a click does nothing |
| MapScenario.HoverCycle | packages/map/src/Map.ts:334-347 | render, point, hover, click, move off, click: z 1.02 and 0.03 with a callback for Nantong, then z 1 and 0.01 with no call |
| Font.FeatureNames | packages/font/index.js:7-9 | the names of a dataset's features concatenated in order |
| Font.AllNames | packages/font/index.js:5-10 | the names of every feature of every dataset concatenated, datasets in order and features in order within each |
| Font.Uniq | packages/font/index.js:12 | the deduplicated text repeats no character and holds exactly the characters of its input |
| Font.FirstIndex | packages/font/index.js:12 | the first position of a character in a text |
| Font.FirstIndexSnoc | packages/font/index.js:12 | appending to a text does not move the first occurrence of a character it already holds |
| Font.UniqKeepsFirstOrder | packages/font/index.js:12 | the deduplicated text lists characters in the order of their first occurrences |
| Font.UniqOfNoRepeats | packages/font/index.js:12 | a text without repeats is unchanged by deduplication |
| Font.FeatureNameChars | packages/font/index.js:7-9 | every character of a feature's name is in the features' concatenated names |
| Font.FeatureNamesFrom | packages/font/index.js:7-9 | every character of the concatenated names comes from some feature's name |
| Font.AllNamesHold | packages/font/index.js:5-10 | every character of every feature's name of every dataset is in the concatenation of all names |
| Font.AllNamesFrom | packages/font/index.js:5-10 | every character of the concatenation of all names is in some feature's name of some dataset |
| Font.CollectGlyphText | packages/font/index.js:5-12 | the text is the keep-first deduplication of all names, datasets and features in order; it repeats no character and holds exactly the characters of the feature names |

## Left out

- Rendering: three.js scenes, cameras, renderer, controls, lights, the ground plane and geometry construction are engine calls. `ExtrudeGeometry` and `LineGeometry` are recorded only as the data they are built from.
- Materials, colours, line widths and textures, including asynchronous texture loading and the `requestAnimationFrame` loop. These are engine calls and callback scheduling.
- The projection: d3 `geoMercator` is a floating-point computation in a foreign library. It is a function parameter, centred on the city's `center`.
- Raycasting: `setFromCamera` and `intersectObjects` become the list of intersected objects handed to `Animate`.
- Mouse-to-device-coordinate normalisation, which is floating-point screen maths. `OnMouseMove` takes the normalised position.
- Labels, pyramids and location markers, with their rotation, billboarding and bounding-box translation. These are engine calls and float geometry.
- Teardown (`destroy`) and event-listener registration.
- `changeOptions`, `init` and `render`. They rebuild engine objects and call `initMap`, which `InitMap` models. The second animation loop that each `render` starts is callback scheduling.
- The Fontmin subsetting, file output and console logging of the font script. These are build-tool I/O.
- Floating point: positions, depths and z are exact reals. IEEE doubles may accumulate rounding in the `+= 0.02` / `-= 0.02` cycle, and the model does not capture that.
- JsText.ToNumber: accepts only an optional sign followed by decimal digits (the empty string is 0); other `Number` syntax (whitespace, decimals, exponents, hex) is NaN here. This suffices for the texts a split name can hold in this model.
- JsText.IntToString: writes every integer in plain decimal; JavaScript switches to exponent notation from 1e21, which no adcode reaches.
- Font.Uniq: works on characters; JavaScript's `split('')` works on UTF-16 code units. The two agree for the Basic Multilingual Plane, which holds the Chinese names.
- MapView.Map.CreateArea: the returned group's children are not recorded; `area.add` of each solid and outline is not modelled, as the scene graph is engine state.
- MapView.Map.CreateLine: the returned group's children are not recorded; `line.add` of each outline is not modelled.
- Adcodes are exact integers. In the source they are JavaScript doubles: non-integer codes, and integers above 2^53 where `===` can equate distinct values, are outside the model.
- MapView.Map.CreateArea: the two nested `forEach` loops over polygons and their rings are one loop over the rings in the same visiting order (`Geo.Rings`).
- MapView.Map.InitMap: labels, pyramids and the scene graph (`map.add`, `scene.add`) are not modelled, and the two `createLine` results are not kept. Instead of adding each `province` group to the scene, it returns the solids and outlines built for each feature, so that its contract can name them.
- MapView.Map.OnClick: `options.onClick` is modelled as whether a callback is configured. The call is returned as a value rather than made.

## Notes on the code

- `createArea` makes one outline per ring, not one per region. A region of several rings therefore has several outlines with the same name, and a hover raises only the first of them (`FirstLine`).
- `lines` is never reset between renders (`EarlierOutlineWins`). After a re-render, hovering a region raises the outline left unchanged from the first render, not the newly drawn one.
- When a picked name holds no `_`, `split('_')[1]` is `undefined`. `adcode` then becomes NaN and the outline looked up is `line_undefined` (`PickedNumber`, `OutlineNameFor`). A NaN adcode is falsy, so a click does nothing.
