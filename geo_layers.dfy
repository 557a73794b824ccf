/**
 * The layer registry of the geo choropleth chart (`_geoJsons`, an ordered
 * list of `{name, data, keyAccessor}`) and the per-render table from
 * region key to aggregate value.
 */
module GeoLayers {
  import opened Options

  /** A GeoJSON feature: its optional `id` and the rest of it, which key accessors read. */
  datatype Feature<P> = Feature(id: Option<string>, properties: P)

  /** One registered layer.  A layer without a key accessor is a background layer. */
  datatype Layer<!P, K> = Layer(name: string, data: seq<Feature<P>>, keyAccessor: Option<Feature<P> -> K>)

  /** The index of the first layer called `name`, if any: where the loop of `overlayGeoJson` stops. */
  function FindName<P, K>(layers: seq<Layer<P, K>>, name: string): (r: Option<nat>)
    ensures r.Some? ==> r.value < |layers| && layers[r.value].name == name
    ensures r.Some? ==> forall j :: 0 <= j < r.value ==> layers[j].name != name
    ensures r.None? <==> forall j :: 0 <= j < |layers| ==> layers[j].name != name
  {
    if layers == [] then None
    else if layers[0].name == name then Some(0)
    else match FindName(layers[1..], name)
      case Some(i) => Some(i + 1)
      case None => None
  }

  /** No two layers share a name: what registering layers through `overlayGeoJson` alone keeps. */
  ghost predicate UniqueNames<P, K>(layers: seq<Layer<P, K>>) {
    forall i, j :: 0 <= i < j < |layers| ==> layers[i].name != layers[j].name
  }

  /** The layers whose name differs from `name`, in their original order. */
  function Without<P, K>(layers: seq<Layer<P, K>>, name: string): (r: seq<Layer<P, K>>)
    ensures |r| <= |layers|
  {
    if layers == [] then []
    else if layers[0].name == name then Without(layers[1..], name)
    else [layers[0]] + Without(layers[1..], name)
  }

  /** A layer survives removal exactly when it was registered under another name. */
  lemma {:induction false} WithoutMembers<P, K>(layers: seq<Layer<P, K>>, name: string)
    ensures forall p :: 0 <= p < |Without(layers, name)| ==>
              Without(layers, name)[p] in layers && Without(layers, name)[p].name != name
    ensures forall l :: l in layers && l.name != name ==> l in Without(layers, name)
    decreases |layers|
  {
    if layers != [] {
      var r := Without(layers, name);
      var rest := Without(layers[1..], name);
      WithoutMembers(layers[1..], name);
      assert forall l :: l in layers <==> l == layers[0] || l in layers[1..];
      if layers[0].name != name {
        assert forall p :: 0 < p < |r| ==> r[p] == rest[p - 1];
      }
    }
  }

  lemma {:induction false} WithoutSnoc<P, K>(layers: seq<Layer<P, K>>, l: Layer<P, K>, name: string)
    ensures Without(layers + [l], name) == Without(layers, name) + (if l.name == name then [] else [l])
    decreases |layers|
  {
    if layers == [] {
      assert [] + [l] == [l];
    } else {
      assert (layers + [l])[1..] == layers[1..] + [l];
      WithoutSnoc(layers[1..], l, name);
    }
  }

  /** Removing a name that no layer has changes nothing. */
  lemma {:induction false} WithoutAbsent<P, K>(layers: seq<Layer<P, K>>, name: string)
    requires forall j :: 0 <= j < |layers| ==> layers[j].name != name
    ensures Without(layers, name) == layers
    decreases |layers|
  {
    if layers != [] {
      assert layers[0].name != name;
      forall j | 0 <= j < |layers[1..]| ensures layers[1..][j].name != name {
        assert layers[1..][j] == layers[j + 1];
      }
      WithoutAbsent(layers[1..], name);
      assert layers == [layers[0]] + layers[1..];
    }
  }

  /** Removal distributes over concatenation. */
  lemma {:induction false} WithoutAppend<P, K>(a: seq<Layer<P, K>>, b: seq<Layer<P, K>>, name: string)
    ensures Without(a + b, name) == Without(a, name) + Without(b, name)
    decreases |a|
  {
    if a == [] {
      assert a + b == b;
    } else {
      assert (a + b)[0] == a[0];
      assert (a + b)[1..] == a[1..] + b;
      WithoutAppend(a[1..], b, name);
    }
  }

  /** A kept layer lands at the position given by the number of layers kept before it. */
  lemma WithoutPosition<P, K>(layers: seq<Layer<P, K>>, name: string, i: nat)
    requires i < |layers| && layers[i].name != name
    ensures |Without(layers[..i], name)| < |Without(layers, name)|
    ensures Without(layers, name)[|Without(layers[..i], name)|] == layers[i]
  {
    WithoutAppend(layers[..i], layers[i..], name);
    assert layers[..i] + layers[i..] == layers;
    assert layers[i..][0] == layers[i];
    assert Without(layers[i..], name) == [layers[i]] + Without(layers[i..][1..], name);
  }

  /**
   * Removal keeps the relative order of what it keeps: of two kept
   * layers, the earlier one lands at the earlier position.
   */
  lemma WithoutKeepsOrder<P, K>(layers: seq<Layer<P, K>>, name: string, i: nat, j: nat)
    requires i < j < |layers| && layers[i].name != name && layers[j].name != name
    ensures var p, q := |Without(layers[..i], name)|, |Without(layers[..j], name)|;
      p < q < |Without(layers, name)| &&
      Without(layers, name)[p] == layers[i] && Without(layers, name)[q] == layers[j]
  {
    WithoutPosition(layers, name, i);
    WithoutPosition(layers, name, j);
    var between := layers[i..j];
    WithoutAppend(layers[..i], between, name);
    assert layers[..i] + between == layers[..j];
    assert between[0] == layers[i];
    assert Without(between, name) == [layers[i]] + Without(between[1..], name);
  }

  /** Removing every layer of a name twice is removing it once. */
  lemma {:induction false} WithoutIdempotent<P, K>(layers: seq<Layer<P, K>>, name: string)
    ensures Without(Without(layers, name), name) == Without(layers, name)
  {
    var r := Without(layers, name);
    WithoutMembers(layers, name);
    WithoutAbsent(r, name);
  }

  /** Replacing the entry of an existing name, or appending a new name, keeps names unique. */
  lemma OverlayKeepsUniqueNames<P, K>(layers: seq<Layer<P, K>>, l: Layer<P, K>)
    requires UniqueNames(layers)
    ensures FindName(layers, l.name).Some? ==> UniqueNames(layers[FindName(layers, l.name).value := l])
    ensures FindName(layers, l.name).None? ==> UniqueNames(layers + [l])
  {
  }

  lemma {:induction false} WithoutKeepsUniqueNames<P, K>(layers: seq<Layer<P, K>>, name: string)
    requires UniqueNames(layers)
    ensures UniqueNames(Without(layers, name))
    decreases |layers|
  {
    if layers != [] {
      var rest := Without(layers[1..], name);
      assert UniqueNames(layers[1..]) by {
        forall i, j | 0 <= i < j < |layers[1..]| ensures layers[1..][i].name != layers[1..][j].name {
          assert layers[1..][i] == layers[i + 1] && layers[1..][j] == layers[j + 1];
        }
      }
      WithoutKeepsUniqueNames(layers[1..], name);
      if layers[0].name != name {
        WithoutMembers(layers[1..], name);
        forall l | l in rest ensures l.name != layers[0].name {
          assert l in layers[1..];
          var k :| 0 <= k < |layers[1..]| && layers[1..][k] == l;
          assert layers[k + 1] == l;
        }
        var r := [layers[0]] + rest;
        forall i, j | 0 <= i < j < |r| ensures r[i].name != r[j].name {
          if i == 0 {
            assert r[j] == rest[j - 1] && rest[j - 1] in rest;
          } else {
            assert r[i] == rest[i - 1] && r[j] == rest[j - 1];
          }
        }
      }
    }
  }

  /** `k` is the key of no row after `i`. */
  ghost predicate LastWithKey<R, K>(rows: seq<R>, keyOf: R -> K, i: nat)
    requires i < |rows|
  {
    forall j :: i < j < |rows| ==> keyOf(rows[j]) != keyOf(rows[i])
  }

  /**
   * `generateLayeredData`: one entry per row key, holding the value of
   * the last row with that key.  `keyOf` and `valueOf` are the chart's key
   * and value accessors.
   */
  method GenerateLayeredData<R, K, V>(rows: seq<R>, keyOf: R -> K, valueOf: R -> V) returns (data: map<K, V>)
    ensures forall k :: k in data <==> exists i :: 0 <= i < |rows| && keyOf(rows[i]) == k
    ensures forall i :: 0 <= i < |rows| && LastWithKey(rows, keyOf, i) ==>
              keyOf(rows[i]) in data && data[keyOf(rows[i])] == valueOf(rows[i])
  {
    data := map[];
    var i := 0;
    while i < |rows|
      invariant 0 <= i <= |rows|
      invariant forall k :: k in data <==> exists j :: 0 <= j < i && keyOf(rows[j]) == k
      invariant forall j :: 0 <= j < i && (forall p :: j < p < i ==> keyOf(rows[p]) != keyOf(rows[j])) ==>
                  keyOf(rows[j]) in data && data[keyOf(rows[j])] == valueOf(rows[j])
    {
      data := data[keyOf(rows[i]) := valueOf(rows[i])];
      i := i + 1;
    }
  }
}
