/** The schema side of the JSON conversion: the feature-class properties
    guessed from one feature, the arcpy geometry keyword they name, the
    attribute fields a JSON schema creates, and the JSON field records
    written for an existing feature class. */
module JsonSchema {
  import opened Wrappers
  import opened Text
  import opened Python

  const UnknownGeometry: PyError := JUError("Unknown geometry type")

  // ---------------------------------------------------------------------
  // _getFCProps: geometry type and flags

  /** The esri geometry type a geometry object names, by the first of
      `rings`, `paths`, `points`, `x` it holds. */
  function GeometryTypeOf(geom: Value): (r: Result<string, PyError>)
    ensures geom.VDict? ==>
      (r == Ok("esriGeometryPolygon") <==> "rings" in Keys(geom.entries))
    ensures geom.VDict? ==>
      (r == Ok("esriGeometryPolyline") <==> "rings" !in Keys(geom.entries) && "paths" in Keys(geom.entries))
    ensures geom.VDict? ==>
      (r == Ok("esriGeometryMultipoint") <==>
         "rings" !in Keys(geom.entries) && "paths" !in Keys(geom.entries) && "points" in Keys(geom.entries))
    ensures geom.VDict? ==>
      (r == Ok("esriGeometryPoint") <==>
         "rings" !in Keys(geom.entries) && "paths" !in Keys(geom.entries) && "points" !in Keys(geom.entries)
         && "x" in Keys(geom.entries))
    ensures geom.VDict? ==>
      (r == Err(UnknownGeometry) <==>
         "rings" !in Keys(geom.entries) && "paths" !in Keys(geom.entries) && "points" !in Keys(geom.entries)
         && "x" !in Keys(geom.entries))
    ensures r.Ok? ==> GeometryKeyword(r.value).Some?
  {
    var rings :- Contains(geom, "rings");
    if rings then Ok("esriGeometryPolygon")
    else
      var paths :- Contains(geom, "paths");
      if paths then Ok("esriGeometryPolyline")
      else
        var points :- Contains(geom, "points");
        if points then Ok("esriGeometryMultipoint")
        else
          var x :- Contains(geom, "x");
          if x then Ok("esriGeometryPoint") else Err(UnknownGeometry)
  }

  /** `json_fc[key] = geom[key]` when `geom` holds `key`. */
  function CopyInto(jsonFc: seq<(string, Value)>, geom: Value, key: string): (r: Result<seq<(string, Value)>, PyError>)
    ensures geom.VDict? ==> r.Ok?
    ensures geom.VDict? && key in Keys(geom.entries) ==> r.value == Put(jsonFc, key, Find(geom.entries, key).value)
    ensures geom.VDict? && key !in Keys(geom.entries) ==> r.value == jsonFc
  {
    var present :- Contains(geom, key);
    if present then
      var v :- Subscript(geom, key);
      Ok(Put(jsonFc, key, v))
    else Ok(jsonFc)
  }

  /** `json_fc[flag] = True` when `geom` holds `key`. */
  function FlagInto(jsonFc: seq<(string, Value)>, geom: Value, key: string, flag: string)
    : (r: Result<seq<(string, Value)>, PyError>)
    ensures geom.VDict? ==> r.Ok?
    ensures geom.VDict? && key in Keys(geom.entries) ==> r.value == Put(jsonFc, flag, VBool(true))
    ensures geom.VDict? && key !in Keys(geom.entries) ==> r.value == jsonFc
  {
    var present :- Contains(geom, key);
    Ok(if present then Put(jsonFc, flag, VBool(true)) else jsonFc)
  }

  /** Copying one key or setting one flag leaves every other key alone,
      whatever kind of value the geometry is. */
  lemma CopyOther(jsonFc: seq<(string, Value)>, geom: Value, key: string, k: string)
    requires CopyInto(jsonFc, geom, key).Ok? && k != key
    ensures Find(CopyInto(jsonFc, geom, key).value, k) == Find(jsonFc, k)
  {
    if Contains(geom, key).value {
      PutFind(jsonFc, key, Subscript(geom, key).value, k);
    }
  }

  lemma FlagOther(jsonFc: seq<(string, Value)>, geom: Value, key: string, flag: string, k: string)
    requires FlagInto(jsonFc, geom, key, flag).Ok? && k != flag
    ensures Find(FlagInto(jsonFc, geom, key, flag).value, k) == Find(jsonFc, k)
  {
    PutFind(jsonFc, flag, VBool(true), k);
  }

  /** Setting one key leaves every other key's value alone. */
  lemma PutOthers(entries: seq<(string, Value)>, key: string, val: Value)
    ensures forall k :: k != key ==> Find(Put(entries, key, val), k) == Find(entries, k)
  {
    forall k | k != key
      ensures Find(Put(entries, key, val), k) == Find(entries, k)
    {
      PutFind(entries, key, val, k);
    }
  }

  /** The geometry keys `_getFCProps` sets, in its order, when the feature
      has a `geometry`. */
  function GeometryInto(jsonFc: seq<(string, Value)>, feature: Value): Result<seq<(string, Value)>, PyError> {
    var hasGeometry :- Contains(feature, "geometry");
    if !hasGeometry then Ok(jsonFc)
    else
      var geom :- Subscript(feature, "geometry");
      var geometryType :- GeometryTypeOf(geom);
      var withType := Put(jsonFc, "geometryType", VUnicode(geometryType));
      var withReference :- CopyInto(withType, geom, "spatialReference");
      var withZ :- FlagInto(withReference, geom, "z", "hasZ");
      FlagInto(withZ, geom, "m", "hasM")
  }

  // ---------------------------------------------------------------------
  // _getFCProps: attribute fields

  predicate IsOidName(name: string) {
    name == "OBJECTID" || name == "OID" || name == "FID"
  }

  /** The esri field type of an attribute, from the Python type of its
      value; None for a value of any other type (null, bool, list, dict). */
  function InferredFieldType(name: string, val: Value): (t: Option<string>)
    ensures t == Some("esriFieldTypeString") <==> val.VStr? || val.VUnicode?
    ensures t == Some("esriFieldTypeOID") <==> (val.VInt? || val.VLong?) && IsOidName(name)
    ensures t == Some("esriFieldTypeInteger") <==> (val.VInt? || val.VLong?) && !IsOidName(name)
    ensures t == Some("esriFieldTypeDouble") <==> val.VFloat?
    ensures t == Some("esriFieldTypeDate") <==> val.VDateTime?
    ensures t.None? <==> val.VNone? || val.VBool? || val.VList? || val.VDict?
  {
    var kind := TypeOf(val);
    if kind == StrType || kind == UnicodeType then Some("esriFieldTypeString")
    else if kind == IntType || kind == LongType then
      (if IsOidName(name) then Some("esriFieldTypeOID") else Some("esriFieldTypeInteger"))
    else if kind == FloatType then Some("esriFieldTypeDouble")
    else if kind == DateTimeType then Some("esriFieldTypeDate")
    else None
  }

  /** The field record of one attribute: name and alias are the attribute
      key; `type` only when one was inferred. */
  function FieldFor(name: string, val: Value): (f: Value)
    ensures f.VDict?
    ensures Find(f.entries, "name") == Some(VUnicode(name))
    ensures Find(f.entries, "alias") == Some(VUnicode(name))
    ensures InferredFieldType(name, val).Some? ==>
      Find(f.entries, "type") == Some(VStr(InferredFieldType(name, val).value))
    ensures InferredFieldType(name, val).None? ==> "type" !in Keys(f.entries)
    ensures "length" !in Keys(f.entries)
  {
    var typed: seq<(string, Value)> :=
      match InferredFieldType(name, val)
      case Some(t) => [("type", VStr(t))]
      case None => [];
    var withAlias := [("alias", VUnicode(name))] + typed;
    FindCons("name", VUnicode(name), withAlias, "alias");
    FindCons("name", VUnicode(name), withAlias, "type");
    FindCons("name", VUnicode(name), withAlias, "length");
    FindCons("alias", VUnicode(name), typed, "type");
    FindCons("alias", VUnicode(name), typed, "length");
    VDict([("name", VUnicode(name))] + withAlias)
  }

  /** One field per attribute, in the dictionary's order. */
  function AttributeFields(feature: Value): (r: Result<seq<Value>, PyError>)
    ensures feature.VDict? && "attributes" !in Keys(feature.entries) ==> r == Ok([])
    ensures feature.VDict? ==>
      (r.Ok? <==> "attributes" !in Keys(feature.entries) || Find(feature.entries, "attributes").value.VDict?)
    ensures r.Ok? && feature.VDict? && "attributes" in Keys(feature.entries) ==>
      var attributes := Find(feature.entries, "attributes").value;
      attributes.VDict? && |r.value| == |attributes.entries|
      && forall i :: 0 <= i < |r.value| ==>
           r.value[i] == FieldFor(attributes.entries[i].0, attributes.entries[i].1)
  {
    var hasAttributes :- Contains(feature, "attributes");
    if !hasAttributes then Ok([])
    else
      var attributes :- Subscript(feature, "attributes");
      if !attributes.VDict? then Err(AttributeError("iteritems"))
      else Ok(FieldsOf(attributes.entries))
  }

  /** One field per entry, in order. */
  function FieldsOf(entries: seq<(string, Value)>): (r: seq<Value>)
    ensures |r| == |entries|
    ensures forall i :: 0 <= i < |r| ==> r[i] == FieldFor(entries[i].0, entries[i].1)
  {
    seq(|entries|, i requires 0 <= i < |entries| => FieldFor(entries[i].0, entries[i].1))
  }

  /** The loop over the attributes of one feature. */
  method FieldsOfEntries(entries: seq<(string, Value)>) returns (fields: seq<Value>)
    ensures fields == FieldsOf(entries)
  {
    fields := [];
    var j := 0;
    while j < |entries|
      invariant 0 <= j <= |entries| && |fields| == j
      invariant forall k :: 0 <= k < j ==> fields[k] == FieldFor(entries[k].0, entries[k].1)
    {
      var (name, val) := entries[j];
      fields := fields + [FieldFor(name, val)];
      j := j + 1;
    }
  }

  const EmptyProps: seq<(string, Value)> := [("fields", VList([]))]

  /** What `_getFCProps` returns: a dictionary that always holds `fields`,
      which ends up holding the attribute fields. */
  function FcPropsOf(feature: Value): (r: Result<Value, PyError>)
    ensures r.Ok? <==> GeometryInto(EmptyProps, feature).Ok? && AttributeFields(feature).Ok?
    ensures r.Ok? ==> r.value.VDict? && AttributeFields(feature).Ok?
                      && Find(r.value.entries, "fields") == Some(VList(AttributeFields(feature).value))
  {
    var withGeometry :- GeometryInto(EmptyProps, feature);
    var fields :- AttributeFields(feature);
    PutFind(withGeometry, "fields", VList(fields), "fields");
    Ok(VDict(Put(withGeometry, "fields", VList(fields))))
  }

  /** The geometry half of `_getFCProps`, one assignment at a time. */
  method SetGeometry(jsonFc: seq<(string, Value)>, feature: Value) returns (r: Result<seq<(string, Value)>, PyError>)
    ensures r == GeometryInto(jsonFc, feature)
  {
    var hasGeometry := Contains(feature, "geometry");
    if hasGeometry.Err? || !hasGeometry.value {
      return if hasGeometry.Err? then Err(hasGeometry.error) else Ok(jsonFc);
    }
    var geom := Subscript(feature, "geometry");
    if geom.Err? {
      return Err(geom.error);
    }
    var geometryType := GeometryTypeOf(geom.value);
    if geometryType.Err? {
      return Err(geometryType.error);
    }
    var props := Put(jsonFc, "geometryType", VUnicode(geometryType.value));
    r := CopyInto(props, geom.value, "spatialReference");
    if r.Err? {
      return;
    }
    r := FlagInto(r.value, geom.value, "z", "hasZ");
    if r.Err? {
      return;
    }
    r := FlagInto(r.value, geom.value, "m", "hasM");
  }

  /** The attribute half of `_getFCProps`: one field appended per
      attribute, in the dictionary's order. */
  method CollectFields(feature: Value) returns (r: Result<seq<Value>, PyError>)
    ensures r == AttributeFields(feature)
  {
    var hasAttributes := Contains(feature, "attributes");
    if hasAttributes.Err? {
      return Err(hasAttributes.error);
    }
    var fields: seq<Value> := [];
    if hasAttributes.value {
      var attributes := Subscript(feature, "attributes");
      if attributes.Err? {
        return Err(attributes.error);
      }
      if !attributes.value.VDict? {
        return Err(AttributeError("iteritems"));
      }
      fields := FieldsOfEntries(attributes.value.entries);
    }
    r := Ok(fields);
  }

  /** `_getFCProps` as the code runs it: start from `{fields: []}`, set the
      geometry keys, then append one field per attribute to the list under
      `fields`. */
  method FcProps(feature: Value) returns (r: Result<Value, PyError>)
    ensures r == FcPropsOf(feature)
  {
    var jsonFc := SetGeometry(EmptyProps, feature);
    if jsonFc.Err? {
      return Err(jsonFc.error);
    }
    var fields := CollectFields(feature);
    if fields.Err? {
      return Err(fields.error);
    }
    r := Ok(VDict(Put(jsonFc.value, "fields", VList(fields.value))));
  }

  /** The flag step for one geometry key: `flag` is set exactly when `key`
      is present, and no other key changes. */
  lemma FlagStep(jsonFc: seq<(string, Value)>, ge: seq<(string, Value)>, key: string, flag: string)
    ensures FlagInto(jsonFc, VDict(ge), key, flag).Ok?
    ensures Find(FlagInto(jsonFc, VDict(ge), key, flag).value, flag)
         == if key in Keys(ge) then Some(VBool(true)) else Find(jsonFc, flag)
  {
    if key in Keys(ge) {
      PutFind(jsonFc, flag, VBool(true), flag);
    }
  }

  /** The geometry keys `_getFCProps` records for a dictionary geometry of a
      known kind, before the fields are set. */
  lemma GeometryIntoDict(fe: seq<(string, Value)>, ge: seq<(string, Value)>)
    requires Find(fe, "geometry") == Some(VDict(ge))
    requires GeometryTypeOf(VDict(ge)).Ok?
    ensures GeometryInto(EmptyProps, VDict(fe)).Ok?
    ensures var props := GeometryInto(EmptyProps, VDict(fe)).value;
      Find(props, "geometryType") == Some(VUnicode(GeometryTypeOf(VDict(ge)).value))
      && Find(props, "hasZ") == (if "z" in Keys(ge) then Some(VBool(true)) else None)
      && Find(props, "hasM") == (if "m" in Keys(ge) then Some(VBool(true)) else None)
      && Find(props, "spatialReference") == Find(ge, "spatialReference")
  {
    var geom := VDict(ge);
    assert Subscript(VDict(fe), "geometry") == Ok(geom);
    var gt := GeometryTypeOf(geom).value;
    var withType := Put(EmptyProps, "geometryType", VUnicode(gt));
    var withReference := CopyInto(withType, geom, "spatialReference").value;
    var withZ := FlagInto(withReference, geom, "z", "hasZ").value;
    var withM := FlagInto(withZ, geom, "m", "hasM").value;
    assert GeometryInto(EmptyProps, VDict(fe)) == Ok(withM);
    // geometryType: set first, then left alone
    PutFind(EmptyProps, "geometryType", VUnicode(gt), "geometryType");
    CopyOther(withType, geom, "spatialReference", "geometryType");
    FlagOther(withReference, geom, "z", "hasZ", "geometryType");
    FlagOther(withZ, geom, "m", "hasM", "geometryType");
    // spatialReference: copied when present, absent before
    PutFind(EmptyProps, "geometryType", VUnicode(gt), "spatialReference");
    if "spatialReference" in Keys(ge) {
      PutFind(withType, "spatialReference", Find(ge, "spatialReference").value, "spatialReference");
    }
    FlagOther(withReference, geom, "z", "hasZ", "spatialReference");
    FlagOther(withZ, geom, "m", "hasM", "spatialReference");
    // hasZ and hasM: absent until their own step
    PutFind(EmptyProps, "geometryType", VUnicode(gt), "hasZ");
    CopyOther(withType, geom, "spatialReference", "hasZ");
    FlagStep(withReference, ge, "z", "hasZ");
    FlagOther(withZ, geom, "m", "hasM", "hasZ");
    PutFind(EmptyProps, "geometryType", VUnicode(gt), "hasM");
    CopyOther(withType, geom, "spatialReference", "hasM");
    FlagOther(withReference, geom, "z", "hasZ", "hasM");
    FlagStep(withZ, ge, "m", "hasM");
  }

  /** For a feature whose `geometry` is a dictionary of a known kind: the
      geometry type is the one `GeometryTypeOf` picks, `hasZ` and `hasM` are
      set (to true) exactly when `z` and `m` are present, and the spatial
      reference is copied as it is. */
  lemma FcPropsGeometry(fe: seq<(string, Value)>, ge: seq<(string, Value)>)
    requires Find(fe, "geometry") == Some(VDict(ge))
    requires GeometryTypeOf(VDict(ge)).Ok?
    ensures AttributeFields(VDict(fe)).Ok? ==> FcPropsOf(VDict(fe)).Ok?
    ensures var r := FcPropsOf(VDict(fe));
      r.Ok? ==>
        Find(r.value.entries, "geometryType") == Some(VUnicode(GeometryTypeOf(VDict(ge)).value))
        && Find(r.value.entries, "hasZ") == (if "z" in Keys(ge) then Some(VBool(true)) else None)
        && Find(r.value.entries, "hasM") == (if "m" in Keys(ge) then Some(VBool(true)) else None)
        && Find(r.value.entries, "spatialReference") == Find(ge, "spatialReference")
  {
    GeometryIntoDict(fe, ge);
    var r := FcPropsOf(VDict(fe));
    if r.Ok? {
      var withM := GeometryInto(EmptyProps, VDict(fe)).value;
      PutOthers(withM, "fields", VList(AttributeFields(VDict(fe)).value));
    }
  }

  /** A feature without `geometry` gives properties without geometry keys. */
  lemma FcPropsNoGeometry(fe: seq<(string, Value)>)
    requires "geometry" !in Keys(fe)
    ensures AttributeFields(VDict(fe)).Ok? ==> FcPropsOf(VDict(fe)).Ok?
    ensures var r := FcPropsOf(VDict(fe));
      r.Ok? ==> r.value.entries == [("fields", VList(AttributeFields(VDict(fe)).value))]
  {
  }

  /** A geometry with none of the four keys is rejected. */
  lemma FcPropsUnknownGeometry(fe: seq<(string, Value)>, ge: seq<(string, Value)>)
    requires Find(fe, "geometry") == Some(VDict(ge))
    requires "rings" !in Keys(ge) && "paths" !in Keys(ge) && "points" !in Keys(ge) && "x" !in Keys(ge)
    ensures FcPropsOf(VDict(fe)) == Err(UnknownGeometry)
  {
  }

  // ---------------------------------------------------------------------
  // _getGeometryType

  /** The arcpy geometry keyword of an esri geometry type. */
  function GeometryKeyword(esri: string): (k: Option<string>)
    ensures k.Some? <==> esri in ["esriGeometryPolygon", "esriGeometryPolyline",
                                  "esriGeometryMultipoint", "esriGeometryPoint"]
  {
    if esri == "esriGeometryPolygon" then Some("POLYGON")
    else if esri == "esriGeometryPolyline" then Some("POLYLINE")
    else if esri == "esriGeometryMultipoint" then Some("MULTIPOINT")
    else if esri == "esriGeometryPoint" then Some("POINT")
    else None
  }

  /** `_getGeometryType`: None without `geometryType`, the keyword of a known
      one, and JUError for anything that goes wrong on the way. */
  function GeometryTypeName(jsonFc: Value): (r: Result<Option<string>, PyError>)
    ensures r.Err? ==> r.error == UnknownGeometry
    ensures jsonFc.VDict? ==> (r == Ok(None) <==> "geometryType" !in Keys(jsonFc.entries))
    ensures jsonFc.VDict? && "geometryType" in Keys(jsonFc.entries) ==>
      var v := Find(jsonFc.entries, "geometryType").value;
      (r.Ok? <==> StringOf(v).Some? && GeometryKeyword(StringOf(v).value).Some?)
      && (r.Ok? ==> r.value == GeometryKeyword(StringOf(v).value))
  {
    match Contains(jsonFc, "geometryType")
    case Err(_) => Err(UnknownGeometry)
    case Ok(present) =>
      if !present then Ok(None)
      else
        match Subscript(jsonFc, "geometryType")
        case Err(_) => Err(UnknownGeometry)
        case Ok(v) =>
          match StringOf(v)
          case None => Err(UnknownGeometry)
          case Some(esri) =>
            match GeometryKeyword(esri)
            case None => Err(UnknownGeometry)
            case Some(keyword) => Ok(Some(keyword))
  }

  /** A recorded geometry type of one of the four kinds names its keyword. */
  lemma GeometryTypeNameKnown(entries: seq<(string, Value)>, gt: string)
    requires Find(entries, "geometryType") == Some(VUnicode(gt))
    requires GeometryKeyword(gt).Some?
    ensures GeometryTypeName(VDict(entries)) == Ok(GeometryKeyword(gt))
  {
  }

  /** The geometry type `_getFCProps` records is the one `GeometryTypeOf`
      picks, whatever else the geometry holds. */
  lemma GeometryIntoType(jsonFc: seq<(string, Value)>, fe: seq<(string, Value)>)
    requires GeometryInto(jsonFc, VDict(fe)).Ok?
    ensures "geometry" in Keys(fe) ==>
      GeometryTypeOf(Find(fe, "geometry").value).Ok?
      && Find(GeometryInto(jsonFc, VDict(fe)).value, "geometryType")
         == Some(VUnicode(GeometryTypeOf(Find(fe, "geometry").value).value))
    ensures "geometry" !in Keys(fe) ==> GeometryInto(jsonFc, VDict(fe)).value == jsonFc
  {
    if "geometry" in Keys(fe) {
      var geom := Find(fe, "geometry").value;
      assert Subscript(VDict(fe), "geometry") == Ok(geom);
      var gt := GeometryTypeOf(geom).value;
      var withType := Put(jsonFc, "geometryType", VUnicode(gt));
      var withReference := CopyInto(withType, geom, "spatialReference").value;
      var withZ := FlagInto(withReference, geom, "z", "hasZ").value;
      var withM := FlagInto(withZ, geom, "m", "hasM").value;
      assert GeometryInto(jsonFc, VDict(fe)).value == withM;
      PutFind(jsonFc, "geometryType", VUnicode(gt), "geometryType");
      CopyOther(withType, geom, "spatialReference", "geometryType");
      FlagOther(withReference, geom, "z", "hasZ", "geometryType");
      FlagOther(withZ, geom, "m", "hasM", "geometryType");
    }
  }

  /** The properties guessed from a feature name a geometry keyword arcpy
      knows exactly when the feature has a geometry. */
  lemma PropsGeometryKeyword(fe: seq<(string, Value)>)
    ensures var r := FcPropsOf(VDict(fe));
      r.Ok? ==> GeometryTypeName(r.value).Ok?
                && (GeometryTypeName(r.value).value.Some? <==> "geometry" in Keys(fe))
  {
    var r := FcPropsOf(VDict(fe));
    if r.Ok? {
      var withGeometry := GeometryInto(EmptyProps, VDict(fe)).value;
      var fields := VList(AttributeFields(VDict(fe)).value);
      assert r.value.entries == Put(withGeometry, "fields", fields);
      PutFind(withGeometry, "fields", fields, "geometryType");
      GeometryIntoType(EmptyProps, fe);
      if "geometry" in Keys(fe) {
        var gt := GeometryTypeOf(Find(fe, "geometry").value).value;
        GeometryTypeNameKnown(r.value.entries, gt);
      } else {
        FindCons("fields", VList([]), [], "geometryType");
        assert Find(r.value.entries, "geometryType") == None;
      }
    }
  }
}
