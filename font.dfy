/** The glyph subset of the map's font (`packages/font/index.js`): the names of all
    features of all bundled datasets are concatenated, and each character is kept once, at
    its first occurrence, to form the text the font is cut down to. */
module Font {
  import opened JsText
  import opened Geo

  /** The names of `features` concatenated in order. */
  function FeatureNames(features: seq<Feature>): string {
    if features == [] then ""
    else FeatureNames(features[..|features| - 1]) + features[|features| - 1].properties.name
  }

  /** The names of every feature of every dataset, datasets in order. */
  function AllNames(geos: seq<GeoJson>): string {
    if geos == [] then ""
    else AllNames(geos[..|geos| - 1]) + FeatureNames(geos[|geos| - 1].features)
  }

  predicate NoRepeats(s: string) {
    forall i, j :: 0 <= i < j < |s| ==> s[i] != s[j]
  }

  /** `_.uniq(s.split('')).join('')`: the characters of `s`, each once, where it first occurs. */
  function Uniq(s: string): (r: string)
    ensures NoRepeats(r)
    ensures forall c :: c in r <==> c in s
  {
    if s == [] then ""
    else
      var u := Uniq(s[..|s| - 1]);
      var c := s[|s| - 1];
      assert s == s[..|s| - 1] + [c];
      if c in u then u else u + [c]
  }

  /** The position of the first `c` in `s`. */
  function FirstIndex(s: string, c: char): (i: nat)
    requires c in s
    ensures i < |s| && s[i] == c && c !in s[..i]
  {
    IndexOf(s, c).value
  }

  /** Appending to a string does not move the first occurrence of a character it holds. */
  lemma FirstIndexSnoc(s: string, c: char, x: char)
    requires x in s
    ensures FirstIndex(s + [c], x) == FirstIndex(s, x)
  {
    var i, j := FirstIndex(s + [c], x), FirstIndex(s, x);
    assert (s + [c])[j] == s[j];
    assert (s + [c])[..i] == s[..i];
  }

  /** `Uniq` lists the characters of `s` in the order of their first occurrences. */
  lemma {:induction false} UniqKeepsFirstOrder(s: string)
    ensures forall i, j :: 0 <= i < j < |Uniq(s)| ==> FirstIndex(s, Uniq(s)[i]) < FirstIndex(s, Uniq(s)[j])
  {
    if s != [] {
      var p, c := s[..|s| - 1], s[|s| - 1];
      assert s == p + [c];
      UniqKeepsFirstOrder(p);
      var u, r := Uniq(p), Uniq(s);
      forall x | x in p ensures FirstIndex(s, x) == FirstIndex(p, x) {
        FirstIndexSnoc(p, c, x);
      }
      forall i, j | 0 <= i < j < |r| ensures FirstIndex(s, r[i]) < FirstIndex(s, r[j]) {
        assert r[i] in u;
        if j < |u| {
          assert r[i] == u[i] && r[j] == u[j];
        } else {
          assert c !in p && r[j] == c;
          assert FirstIndex(s, c) == |p|;
        }
      }
    }
  }

  /** A string listing each character once is its own `Uniq`. */
  lemma {:induction false} UniqOfNoRepeats(s: string)
    requires NoRepeats(s)
    ensures Uniq(s) == s
  {
    if s != [] {
      var p, c := s[..|s| - 1], s[|s| - 1];
      assert NoRepeats(p);
      UniqOfNoRepeats(p);
      assert s == p + [c];
    }
  }

  lemma {:induction false} FeatureNameChars(features: seq<Feature>, k: nat, c: char)
    requires k < |features| && c in features[k].properties.name
    ensures c in FeatureNames(features)
  {
    var n := |features| - 1;
    if k < n {
      FeatureNameChars(features[..n], k, c);
    }
  }

  lemma {:induction false} FeatureNamesFrom(features: seq<Feature>, c: char)
    requires c in FeatureNames(features)
    ensures exists k :: 0 <= k < |features| && c in features[k].properties.name
  {
    var n := |features| - 1;
    if c in FeatureNames(features[..n]) {
      FeatureNamesFrom(features[..n], c);
      var k :| 0 <= k < n && c in features[..n][k].properties.name;
      assert features[..n][k] == features[k];
    }
  }

  /** Every character of every feature name is in the collected text. */
  lemma {:induction false} AllNamesHold(geos: seq<GeoJson>, g: nat, k: nat, c: char)
    requires g < |geos| && k < |geos[g].features| && c in geos[g].features[k].properties.name
    ensures c in AllNames(geos)
  {
    var n := |geos| - 1;
    if g < n {
      AllNamesHold(geos[..n], g, k, c);
    } else {
      FeatureNameChars(geos[n].features, k, c);
    }
  }

  /** Every character of the collected text comes from some feature name. */
  lemma {:induction false} AllNamesFrom(geos: seq<GeoJson>, c: char)
    requires c in AllNames(geos)
    ensures exists g, k :: 0 <= g < |geos| && 0 <= k < |geos[g].features| && c in geos[g].features[k].properties.name
  {
    var n := |geos| - 1;
    if c in AllNames(geos[..n]) {
      AllNamesFrom(geos[..n], c);
      var g, k :| 0 <= g < n && 0 <= k < |geos[..n][g].features| && c in geos[..n][g].features[k].properties.name;
      assert geos[..n][g] == geos[g];
    } else {
      FeatureNamesFrom(geos[n].features, c);
    }
  }

  /** The text-collecting part of the script: concatenate every feature name, then keep each
      character once. The result lists each character of the names exactly once, in the
      order they first appear. */
  method CollectGlyphText(geos: seq<GeoJson>) returns (text: string)
    ensures text == Uniq(AllNames(geos))
    ensures NoRepeats(text)
    ensures forall c :: c in text <==>
      exists g, k :: 0 <= g < |geos| && 0 <= k < |geos[g].features| && c in geos[g].features[k].properties.name
  {
    text := "";
    var g := 0;
    while g < |geos|
      invariant 0 <= g <= |geos|
      invariant text == AllNames(geos[..g])
    {
      var features := geos[g].features;
      var k := 0;
      while k < |features|
        invariant 0 <= k <= |features|
        invariant text == AllNames(geos[..g]) + FeatureNames(features[..k])
      {
        text := text + features[k].properties.name;
        assert features[..k + 1][..k] == features[..k];
        k := k + 1;
      }
      assert features[..k] == features;
      assert geos[..g + 1][..g] == geos[..g];
      g := g + 1;
    }
    assert geos[..g] == geos;
    text := Uniq(text);
    forall c ensures c in text <==>
      exists g, k :: 0 <= g < |geos| && 0 <= k < |geos[g].features| && c in geos[g].features[k].properties.name
    {
      if c in text {
        AllNamesFrom(geos, c);
      }
      forall g, k | 0 <= g < |geos| && 0 <= k < |geos[g].features| && c in geos[g].features[k].properties.name
        ensures c in text
      {
        AllNamesHold(geos, g, k, c);
      }
    }
  }
}
