/**
 * The SoilGrids response decoder of `fetch_soil_data`: the decoded JSON document is an
 * input (the HTTP request is not modelled), every Python exception raised while walking it
 * ends the call with `None`, and a result exists only when all five soil properties were
 * found.
 */
module SoilGrids {
  import opened Results
  import opened PyJson

  /** `SOIL_PROPERTIES`, in dictionary order: our key, then the SoilGrids property name. */
  const SoilProperties: seq<(string, string)> := [
    ("ph", "phh2o"),
    ("organic_carbon", "soc"),
    ("sand", "sand"),
    ("silt", "silt"),
    ("clay", "clay")
  ]

  /** The keys of a complete result. */
  const SoilKeys: set<string> := {"ph", "organic_carbon", "sand", "silt", "clay"}

  /** Properties stored as SoilGrids sends them (g/kg); the others are divided by ten. */
  const Textures: set<string> := {"sand", "silt", "clay"}

  /** `next((k for k, v in table.items() if v == name), None)`: the first key whose
      SoilGrids name equals the layer's name. */
  function ReverseLookup(table: seq<(string, string)>, name: Option<Json>): (k: Option<string>)
    ensures k.Some? <==> exists i :: 0 <= i < |table| && name == Some(JStr(table[i].1))
    ensures k.Some? ==> exists i :: 0 <= i < |table| && table[i] == (k.value, name.value.s)
  {
    if table == [] then None
    else if name == Some(JStr(table[0].1)) then Some(table[0].0)
    else
      var k := ReverseLookup(table[1..], name);
      assert forall i :: 1 <= i < |table| ==> table[i] == table[1..][i - 1];
      k
  }

  /** The local key of a layer name (`local_key`); `None` for a name we do not ask for. */
  function LocalKey(name: Option<Json>): Option<string>
  {
    ReverseLookup(SoilProperties, name)
  }

  /** Layer names map back through `SOIL_PROPERTIES`: `phh2o` to ph, `soc` to organic
      carbon, each texture to itself, and nothing else to a key. */
  lemma LocalKeyMapsBack(name: Option<Json>)
    ensures LocalKey(name)
      == if name == Some(JStr("phh2o")) then Some("ph")
         else if name == Some(JStr("soc")) then Some("organic_carbon")
         else if name.Some? && name.value.JStr? && name.value.s in Textures then Some(name.value.s)
         else None
  {
    var k := LocalKey(name);
    if k.Some? {
      var i :| 0 <= i < |SoilProperties| && SoilProperties[i] == (k.value, name.value.s);
      assert i == 0 || i == 1 || i == 2 || i == 3 || i == 4;
    } else {
      assert name != Some(JStr(SoilProperties[0].1));
      assert name != Some(JStr(SoilProperties[1].1));
      assert name != Some(JStr(SoilProperties[2].1));
      assert name != Some(JStr(SoilProperties[3].1));
      assert name != Some(JStr(SoilProperties[4].1));
    }
  }

  /** `x[0]` on a decoded value. */
  function FirstElement(j: Json): (r: Result<Json, PyException>)
    ensures r.Success? <==> (j.JArr? && j.items != []) || (j.JStr? && j.s != [])
    ensures j.JArr? && j.items != [] ==> r == Success(j.items[0])
    ensures j.JArr? && j.items == [] ==> r == Failure(IndexError)
  {
    match j
    case JArr(items) => if items == [] then Failure(IndexError) else Success(items[0])
    case JStr(s) => if s == [] then Failure(IndexError) else Success(JStr([s[0]]))
    case JObj(_) => Failure(KeyError)  // JSON object keys are strings, never the integer 0
    case _ => Failure(TypeError)
  }

  /** `layer.get("depths", [{}])[0].get("values", {}).get("mean")`. */
  function LayerMean(layer: map<string, Json>): (r: Result<Option<Json>, PyException>)
    ensures r.Success? && r.value.Some? ==> r.value.value != JNull
    ensures !("depths" in layer) ==> r == Success(None)
    ensures "depths" in layer && layer["depths"] == JArr([]) ==> r == Failure(IndexError)
    ensures "depths" in layer && layer["depths"].JArr? && layer["depths"].items != []
            && layer["depths"].items[0].JObj? && "values" in layer["depths"].items[0].fields
            && layer["depths"].items[0].fields["values"].JObj? ==>
      r == Success(Get(layer["depths"].items[0].fields["values"].fields, "mean"))
  {
    match FirstElement(GetOr(layer, "depths", JArr([JObj(map[])])))
    case Failure(e) => Failure(e)
    case Success(depth) =>
      if !depth.JObj? then Failure(AttributeError)
      else
        var values := GetOr(depth.fields, "values", JObj(map[]));
        if !values.JObj? then Failure(AttributeError)
        else Success(Get(values.fields, "mean"))
  }

  /** The numeric value Python sees in a number or a boolean. */
  function NumericValue(j: Json): real
    requires j.JNum? || j.JBool?
  {
    if j.JNum? then j.n else if j.b then 1.0 else 0.0
  }

  /** What is stored under `key` for a mean `value`: textures as they are, the other
      properties as `value / 10.0`, which raises unless the value is a number. */
  function StoredValue(key: string, value: Json): (r: Result<Json, PyException>)
    ensures key in Textures ==> r == Success(value)
    ensures key !in Textures ==>
      && (r.Success? <==> value.JNum? || value.JBool?)
      && (r.Success? ==> r.value.JNum? && r.value.n * 10.0 == NumericValue(value))
  {
    if key in Textures then Success(value)
    else
      match value
      case JNum(x) => Success(JNum(x / 10.0))
      case JBool(b) => Success(JNum(if b then 0.1 else 0.0))
      case _ => Failure(TypeError)
  }

  /** The effect of one loop iteration on `parsed_data`. */
  datatype Step = Skip | Store(key: string, value: Json) | Raise(error: PyException)

  /** One iteration of the `for layer in raw_properties` loop. */
  function ParseLayer(layer: Json): (r: Step)
    ensures r.Store? ==> r.key in SoilKeys && layer.JObj? && LocalKey(Get(layer.fields, "name")) == Some(r.key)
    ensures layer.JObj? && LocalKey(Get(layer.fields, "name")).None? ==> r == Skip
  {
    if !layer.JObj? then Raise(AttributeError)
    else
      match LocalKey(Get(layer.fields, "name"))
      case None => Skip
      case Some(k) =>
        assert k in SoilKeys by {
          var i :| 0 <= i < |SoilProperties| && SoilProperties[i].0 == k;
          assert i == 0 || i == 1 || i == 2 || i == 3 || i == 4;
        }
        match LayerMean(layer.fields)
        case Failure(e) => Raise(e)
        case Success(None) => Skip
        case Success(Some(v)) =>
          match StoredValue(k, v)
          case Failure(e) => Raise(e)
          case Success(w) => Store(k, w)
  }

  /** What one layer does: a layer that is not an object raises; a stored value is the
      layer's mean converted by `StoredValue`; a missing or null mean is skipped; reading
      the mean of a layer we ask for raises exactly what the chained lookups raise. */
  lemma ParseLayerOutcome(layer: Json)
    ensures !layer.JObj? ==> ParseLayer(layer) == Raise(AttributeError)
    ensures var r := ParseLayer(layer);
      r.Store? ==>
        && LayerMean(layer.fields).Success? && LayerMean(layer.fields).value.Some?
        && StoredValue(r.key, LayerMean(layer.fields).value.value) == Success(r.value)
    ensures layer.JObj? && LayerMean(layer.fields) == Success(None) ==> ParseLayer(layer) == Skip
    ensures layer.JObj? && LocalKey(Get(layer.fields, "name")).Some? && LayerMean(layer.fields).Failure? ==>
      ParseLayer(layer) == Raise(LayerMean(layer.fields).error)
  {
  }

  /** A layer whose name maps to key `k` and whose mean is `v` stores `v` converted for
      `k`, or raises what the conversion raises. */
  lemma KnownLayerStores(layer: Json, k: string, v: Json)
    requires layer.JObj? && LocalKey(Get(layer.fields, "name")) == Some(k)
    requires LayerMean(layer.fields) == Success(Some(v))
    ensures ParseLayer(layer) ==
      match StoredValue(k, v)
      case Success(w) => Store(k, w)
      case Failure(e) => Raise(e)
  {
  }

  /** `parsed_data` after the loop has run over `layers`; `None` when an exception escaped. */
  function ParseLayers(layers: seq<Json>): (r: Option<map<string, Json>>)
    ensures r.Some? ==> r.value.Keys <= SoilKeys
    decreases |layers|
  {
    if layers == [] then Some(map[])
    else
      match ParseLayers(layers[..|layers| - 1])
      case None => None
      case Some(parsed) =>
        match ParseLayer(layers[|layers| - 1])
        case Skip => Some(parsed)
        case Store(k, v) => Some(parsed[k := v])
        case Raise(_) => None
  }

  /** `data.get("properties", {}).get("layers", [])`, as the sequence the loop iterates. */
  function RawLayers(data: Json): (r: Result<seq<Json>, PyException>)
    ensures !data.JObj? ==> r.Failure?
    ensures data.JObj? && "properties" !in data.fields ==> r == Success([])
    ensures data.JObj? && "properties" in data.fields && data.fields["properties"].JObj?
            && "layers" in data.fields["properties"].fields
            && data.fields["properties"].fields["layers"].JArr? ==>
      r == Success(data.fields["properties"].fields["layers"].items)
  {
    if !data.JObj? then Failure(AttributeError)
    else
      var properties := GetOr(data.fields, "properties", JObj(map[]));
      if !properties.JObj? then Failure(AttributeError)
      else
        match GetOr(properties.fields, "layers", JArr([]))
        case JArr(items) => Success(items)
        // Iterating a dictionary or a string yields strings, which have no `.get`.
        case JObj(m) => if m == map[] then Success([]) else Failure(AttributeError)
        case JStr(s) => if s == [] then Success([]) else Failure(AttributeError)
        case _ => Failure(TypeError)
  }

  /** `fetch_soil_data` after the response has been decoded. */
  function ParseSoilResponse(data: Json): (soil: Option<map<string, Json>>)
    ensures soil.Some? ==> soil.value.Keys == SoilKeys
  {
    match RawLayers(data)
    case Failure(_) => None
    case Success(layers) =>
      match ParseLayers(layers)
      case None => None
      case Some(parsed) =>
        if |parsed| == |SoilProperties| then
          assert |SoilKeys| == |SoilProperties|;
          SubsetOfSameSize(parsed.Keys, SoilKeys);
          Some(parsed)
        else None
  }

  /** A subset is no larger than its superset. */
  lemma {:induction false} SubsetSize(a: set<string>, b: set<string>)
    requires a <= b
    ensures |a| <= |b|
    decreases |a|
  {
    if a != {} {
      var x :| x in a;
      SubsetSize(a - {x}, b - {x});
    }
  }

  /** A subset of a finite set with as many elements is the whole set. */
  lemma SubsetOfSameSize(a: set<string>, b: set<string>)
    requires a <= b && |a| == |b|
    ensures a == b
  {
    if a != b {
      var x :| x in b && x !in a;
      SubsetSize(a, b - {x});
    }
  }

  /** A result exists exactly when no exception escaped and the five keys ph,
      organic_carbon, sand, silt and clay were all stored; it then has no other key. */
  lemma SoilResultKeys(data: Json)
    ensures ParseSoilResponse(data).Some? <==>
      && RawLayers(data).Success?
      && ParseLayers(RawLayers(data).value).Some?
      && ParseLayers(RawLayers(data).value).value.Keys == SoilKeys
    ensures ParseSoilResponse(data).Some? ==>
      ParseSoilResponse(data).value == ParseLayers(RawLayers(data).value).value
  {
    assert |SoilKeys| == |SoilProperties| == 5;
    var raw := RawLayers(data);
    if raw.Success? && ParseLayers(raw.value).Some? {
      var parsed := ParseLayers(raw.value).value;
      if |parsed| == 5 {
        SubsetOfSameSize(parsed.Keys, SoilKeys);
      }
    }
  }

  /** The loop's result after a prefix that raised is that prefix's result, `None`. */
  lemma {:induction false} ParseLayersFailedPrefix(layers: seq<Json>, i: nat)
    requires i <= |layers| && ParseLayers(layers[..i]).None?
    ensures ParseLayers(layers).None?
    decreases |layers| - i
  {
    if i < |layers| {
      assert layers[..i + 1][..i] == layers[..i];
      ParseLayersFailedPrefix(layers, i + 1);
    } else {
      assert layers[..i] == layers;
    }
  }

  /** When no layer raises, the loop runs to its end and `parsed_data` is returned. */
  lemma {:induction false} NoRaiseParses(layers: seq<Json>)
    requires forall i :: 0 <= i < |layers| ==> !ParseLayer(layers[i]).Raise?
    ensures ParseLayers(layers).Some?
    decreases |layers|
  {
    if layers != [] {
      var init := layers[..|layers| - 1];
      assert forall i :: 0 <= i < |init| ==> init[i] == layers[i];
      NoRaiseParses(init);
    }
  }

  /** A key some layer stored is still in `parsed_data` at the end: a later layer may
      overwrite its value but never removes it. */
  lemma {:induction false} StoredKeyKept(layers: seq<Json>, i: nat)
    requires i < |layers| && ParseLayer(layers[i]).Store? && ParseLayers(layers).Some?
    ensures ParseLayer(layers[i]).key in ParseLayers(layers).value
    decreases |layers|
  {
    var init := layers[..|layers| - 1];
    assert ParseLayers(init).Some?;
    if i < |layers| - 1 {
      assert init[i] == layers[i];
      StoredKeyKept(init, i);
      assert ParseLayers(init).value.Keys <= ParseLayers(layers).value.Keys;
    }
  }

  /** A layer that raises anywhere in the list (an empty `depths`, a non-numeric pH, a
      layer that is not an object) makes the whole parse fail. */
  lemma {:induction false} RaisingLayerAborts(layers: seq<Json>, i: nat)
    requires i < |layers| && ParseLayer(layers[i]).Raise?
    ensures ParseLayers(layers).None?
  {
    var prefix := layers[..i + 1];
    assert prefix[..i] == layers[..i] && prefix[i] == layers[i];
    assert ParseLayers(prefix).None?;
    ParseLayersFailedPrefix(layers, i + 1);
  }

  /** When two layers store the same key, the later one's value is kept. */
  lemma {:induction false} LaterLayerWins(layers: seq<Json>, i: nat)
    requires i < |layers| && ParseLayer(layers[i]).Store?
    requires forall j :: i < j < |layers| ==>
      !(ParseLayer(layers[j]).Store? && ParseLayer(layers[j]).key == ParseLayer(layers[i]).key)
    requires ParseLayers(layers).Some?
    ensures ParseLayer(layers[i]).key in ParseLayers(layers).value
    ensures ParseLayers(layers).value[ParseLayer(layers[i]).key] == ParseLayer(layers[i]).value
    decreases |layers|
  {
    var init := layers[..|layers| - 1];
    if i < |layers| - 1 {
      assert forall j :: 0 <= j < |init| ==> init[j] == layers[j];
      LaterLayerWins(init, i);
    }
  }

  /** Every stored key comes from some layer that stored exactly that value. */
  lemma {:induction false} StoredKeysHaveLayers(layers: seq<Json>, k: string)
    requires ParseLayers(layers).Some? && k in ParseLayers(layers).value
    ensures exists i :: 0 <= i < |layers| && ParseLayer(layers[i]) == Store(k, ParseLayers(layers).value[k])
    decreases |layers|
  {
    var init := layers[..|layers| - 1];
    var last := ParseLayer(layers[|layers| - 1]);
    if last.Store? && last.key == k {
      assert ParseLayer(layers[|layers| - 1]) == Store(k, ParseLayers(layers).value[k]);
    } else {
      StoredKeysHaveLayers(init, k);
      var i :| 0 <= i < |init| && ParseLayer(init[i]) == Store(k, ParseLayers(init).value[k]);
      assert layers[i] == init[i];
    }
  }

  /** A property no layer stored (its layer missing, unnamed, or with no mean value) leaves
      the whole result `None`. */
  lemma MissingPropertyGivesNone(data: Json, k: string)
    requires k in SoilKeys && RawLayers(data).Success?
    requires forall i :: 0 <= i < |RawLayers(data).value| ==>
      !(ParseLayer(RawLayers(data).value[i]).Store? && ParseLayer(RawLayers(data).value[i]).key == k)
    ensures ParseSoilResponse(data).None?
  {
    SoilResultKeys(data);
    var layers := RawLayers(data).value;
    if ParseLayers(layers).Some? && k in ParseLayers(layers).value {
      StoredKeysHaveLayers(layers, k);
    }
  }

  /** A response whose layers all read without an exception and between them store all
      five properties decodes to a result: the `parsed_data` the loop built. */
  lemma CompleteResponseGivesResult(data: Json)
    requires RawLayers(data).Success?
    requires forall i :: 0 <= i < |RawLayers(data).value| ==> !ParseLayer(RawLayers(data).value[i]).Raise?
    requires forall k :: k in SoilKeys ==>
      exists i :: && 0 <= i < |RawLayers(data).value|
                  && ParseLayer(RawLayers(data).value[i]).Store?
                  && ParseLayer(RawLayers(data).value[i]).key == k
    ensures ParseSoilResponse(data).Some?
    ensures ParseSoilResponse(data).value == ParseLayers(RawLayers(data).value).value
  {
    var layers := RawLayers(data).value;
    NoRaiseParses(layers);
    forall k | k in SoilKeys
      ensures k in ParseLayers(layers).value
    {
      var i :| 0 <= i < |layers| && ParseLayer(layers[i]).Store? && ParseLayer(layers[i]).key == k;
      StoredKeyKept(layers, i);
    }
    SoilResultKeys(data);
  }

  /** A layer of a property we ask for whose `depths` list is empty makes the whole result
      `None`; with a name we do not ask for, the same layer is skipped. */
  lemma EmptyDepthsGivesNone(data: Json, i: nat)
    requires RawLayers(data).Success? && i < |RawLayers(data).value|
    requires var layer := RawLayers(data).value[i];
      layer.JObj? && "depths" in layer.fields && layer.fields["depths"] == JArr([])
    ensures var layer := RawLayers(data).value[i];
      && (LocalKey(Get(layer.fields, "name")).Some? ==> ParseSoilResponse(data).None?)
      && (LocalKey(Get(layer.fields, "name")).None? ==> ParseLayer(layer) == Skip)
  {
    var layers := RawLayers(data).value;
    if LocalKey(Get(layers[i].fields, "name")).Some? {
      ParseLayerOutcome(layers[i]);
      RaisingLayerAborts(layers, i);
    }
  }

  /** A response without a `properties` section, or whose `properties` has no `layers`,
      gives `None`. */
  lemma MissingSectionGivesNone(data: Json)
    requires data.JObj?
    requires "properties" !in data.fields
      || (data.fields["properties"].JObj? && "layers" !in data.fields["properties"].fields)
    ensures ParseSoilResponse(data).None?
  {
    assert RawLayers(data) == Success([]);
  }

  /** A SoilGrids pH layer reporting a mean of 72 stores a pH of 7.2. */
  lemma PhLayerExample()
    ensures ParseLayer(JObj(map[
      "name" := JStr("phh2o"),
      "depths" := JArr([JObj(map["values" := JObj(map["mean" := JNum(72.0)])])])]))
      == Store("ph", JNum(7.2))
  {
    var layer := map[
      "name" := JStr("phh2o"),
      "depths" := JArr([JObj(map["values" := JObj(map["mean" := JNum(72.0)])])])];
    LocalKeyMapsBack(Get(layer, "name"));
    assert LayerMean(layer) == Success(Some(JNum(72.0)));
  }

  /** A SoilGrids sand layer reporting a mean of 450 stores 450 unchanged. */
  lemma SandLayerExample()
    ensures ParseLayer(JObj(map[
      "name" := JStr("sand"),
      "depths" := JArr([JObj(map["values" := JObj(map["mean" := JNum(450.0)])])])]))
      == Store("sand", JNum(450.0))
  {
    var layer := map[
      "name" := JStr("sand"),
      "depths" := JArr([JObj(map["values" := JObj(map["mean" := JNum(450.0)])])])];
    LocalKeyMapsBack(Get(layer, "name"));
    assert LayerMean(layer) == Success(Some(JNum(450.0)));
  }

  /** A layer in SoilGrids' own shape, one depth whose `values` carry a numeric mean `x`,
      for property `i` of `SOIL_PROPERTIES` stores `x` for a texture and `x / 10` otherwise. */
  lemma WellFormedLayerStores(i: nat, x: real)
    requires i < |SoilProperties|
    ensures var (k, name) := SoilProperties[i];
      ParseLayer(JObj(map[
        "name" := JStr(name),
        "depths" := JArr([JObj(map["values" := JObj(map["mean" := JNum(x)])])])]))
      == Store(k, if k in Textures then JNum(x) else JNum(x / 10.0))
  {
    var (k, name) := SoilProperties[i];
    var layer := map[
      "name" := JStr(name),
      "depths" := JArr([JObj(map["values" := JObj(map["mean" := JNum(x)])])])];
    LocalKeyMapsBack(Get(layer, "name"));
    assert LayerMean(layer) == Success(Some(JNum(x)));
    KnownLayerStores(JObj(layer), k, JNum(x));
  }

  /** One more iteration of the loop applies that layer's step to `parsed_data`. */
  lemma ParseLayersStep(layers: seq<Json>, i: nat, parsed: map<string, Json>)
    requires i < |layers| && ParseLayers(layers[..i]) == Some(parsed)
    ensures ParseLayers(layers[..i + 1]) ==
      match ParseLayer(layers[i])
      case Skip => Some(parsed)
      case Store(k, v) => Some(parsed[k := v])
      case Raise(_) => None
  {
    assert layers[..i + 1][..i] == layers[..i];
  }

  /** `fetch_soil_data` from the decoded response on: fills `parsed_data` layer by layer. */
  method FetchSoilData(data: Json) returns (soil: Option<map<string, Json>>)
    ensures soil == ParseSoilResponse(data)
  {
    var raw := RawLayers(data);
    if raw.Failure? {
      return None;
    }
    var layers := raw.value;
    var parsed: map<string, Json> := map[];
    for i := 0 to |layers|
      invariant ParseLayers(layers[..i]) == Some(parsed)
    {
      var layer := layers[i];
      ParseLayersStep(layers, i, parsed);
      if !layer.JObj? {
        ParseLayersFailedPrefix(layers, i + 1);
        return None;
      }
      var localKey := LocalKey(Get(layer.fields, "name"));
      if localKey.Some? {
        var value := LayerMean(layer.fields);
        if value.Failure? {
          assert ParseLayer(layer).Raise?;
          ParseLayersFailedPrefix(layers, i + 1);
          return None;
        }
        if value.value.Some? {
          var stored := StoredValue(localKey.value, value.value.value);
          if stored.Failure? {
            assert ParseLayer(layer).Raise?;
            ParseLayersFailedPrefix(layers, i + 1);
            return None;
          }
          assert ParseLayer(layer) == Store(localKey.value, stored.value);
          parsed := parsed[localKey.value := stored.value];
        } else {
          assert ParseLayer(layer) == Skip;
        }
      } else {
        assert ParseLayer(layer) == Skip;
      }
    }
    assert layers[..|layers|] == layers;
    soil := if |parsed| == |SoilProperties| then Some(parsed) else None;
  }
}
