/** The attribute fields on both sides of the conversion: the fields
    `_createDataset` adds to a new feature class from a JSON schema (and the
    attribute field list it returns), and the field records
    `_dumpFields2JSONStr` writes for the fields of an existing one. */
module JsonFields {
  import opened Wrappers
  import opened Text
  import opened Python
  import opened JsonSchema

  /** The prefix of every esri field type name. */
  const TypePrefix: string := "esriFieldType"

  /** `s[n:]`: empty when `s` is shorter than `n`. */
  function Drop<T>(s: seq<T>, n: nat): (r: seq<T>)
    ensures |s| >= n ==> s == s[..n] + r
    ensures |s| < n ==> r == []
  {
    if |s| >= n then s[n..] else []
  }

  predicate IsText(v: Value, s: string) {
    StringOf(v) == Some(s)
  }

  // ---------------------------------------------------------------------
  // _createDataset: the shape of the feature class

  /** The arguments `CreateFeatureclass` gets besides the names: the `M` and
      `Z` options and the spatial reference (None when the schema has none). */
  datatype Shape = Shape(hasM: string, hasZ: string, spatialReference: Value)

  /** `ENABLED` when the schema holds a true `flag`, `DISABLED` otherwise. */
  function FlagOption(jsonFc: Value, flag: string): (r: Result<string, PyError>)
    ensures jsonFc.VDict? ==> r.Ok?
    ensures jsonFc.VDict? ==>
      (r.value == "ENABLED" <==> flag in Keys(jsonFc.entries) && Truthy(Find(jsonFc.entries, flag).value))
    ensures r.Ok? ==> r.value == "ENABLED" || r.value == "DISABLED"
  {
    var present :- Contains(jsonFc, flag);
    if !present then Ok("DISABLED")
    else
      var v :- Subscript(jsonFc, flag);
      Ok(if Truthy(v) then "ENABLED" else "DISABLED")
  }

  /** The spatial reference: a dictionary stands for its `wkid`, anything
      else is passed on as it is. */
  function SpatialReferenceOption(jsonFc: Value): (r: Result<Value, PyError>)
    ensures jsonFc.VDict? && "spatialReference" !in Keys(jsonFc.entries) ==> r == Ok(VNone)
    ensures jsonFc.VDict? && "spatialReference" in Keys(jsonFc.entries) ==>
      var sr := Find(jsonFc.entries, "spatialReference").value;
      (!sr.VDict? ==> r == Ok(sr))
      && (sr.VDict? ==> r == Subscript(sr, "wkid"))
  {
    var present :- Contains(jsonFc, "spatialReference");
    if !present then Ok(VNone)
    else
      var sr :- Subscript(jsonFc, "spatialReference");
      if sr.VDict? then Subscript(sr, "wkid") else Ok(sr)
  }

  /** The shape options, for a geometry keyword that is set; a table
      (no keyword) has none. */
  function ShapeOf(jsonFc: Value, geomType: Option<string>): (r: Result<Option<Shape>, PyError>)
    ensures geomType.None? || geomType.value == [] ==> r == Ok(None)
    ensures geomType.Some? && geomType.value != [] ==>
      (r.Ok? <==> FlagOption(jsonFc, "hasM").Ok? && FlagOption(jsonFc, "hasZ").Ok?
                  && SpatialReferenceOption(jsonFc).Ok?)
      && (r.Ok? ==> r.value.Some?)
    ensures r.Ok? && r.value.Some? ==>
      FlagOption(jsonFc, "hasM") == Ok(r.value.value.hasM)
      && FlagOption(jsonFc, "hasZ") == Ok(r.value.value.hasZ)
      && SpatialReferenceOption(jsonFc) == Ok(r.value.value.spatialReference)
  {
    if geomType.None? || geomType.value == [] then Ok(None)
    else
      var hasM :- FlagOption(jsonFc, "hasM");
      var hasZ :- FlagOption(jsonFc, "hasZ");
      var spatialReference :- SpatialReferenceOption(jsonFc);
      Ok(Some(Shape(hasM, hasZ, spatialReference)))
  }

  // ---------------------------------------------------------------------
  // _createDataset: the fields

  /** The arguments of one `AddField` call: name, type, length (None for the
      empty default) and alias. */
  datatype AddedField = AddedField(name: Value, fieldType: Value, length: Option<Value>, alias: Value)

  /** `field_type[len('esriFieldType'):]`: strings and lists can be sliced,
      nothing else can. */
  function TypeSuffix(t: Value): (r: Result<Value, PyError>)
    ensures r.Ok? <==> t.VStr? || t.VUnicode? || t.VList?
    ensures r.Ok? ==> TypeOf(r.value) == TypeOf(t)
  {
    match t
    case VStr(s) => Ok(VStr(Drop(s, |TypePrefix|)))
    case VUnicode(u) => Ok(VUnicode(Drop(u, |TypePrefix|)))
    case VList(items) => Ok(VList(Drop(items, |TypePrefix|)))
    case _ => Err(TypeError("object has no attribute '__getitem__'"))
  }

  /** Cutting the prefix off undoes putting it in front. */
  lemma PrefixRoundTrip(t: string)
    ensures TypeSuffix(VUnicode(TypePrefix + t)) == Ok(VUnicode(t))
    ensures TypeSuffix(VStr(TypePrefix + t)) == Ok(VStr(t))
  {
    assert (TypePrefix + t)[|TypePrefix|..] == t;
  }

  /** The names never added: the two shape measures and the geometry field
      (whose name None compares equal to a null name). */
  predicate ExcludedName(name: Value, geomFieldName: Option<string>) {
    IsText(name, "Shape_Length") || IsText(name, "Shape_Area")
    || (match geomFieldName
        case None => name.VNone?
        case Some(g) => IsText(name, g))
  }

  /** The type arcpy is given: `String` is called `TEXT` there. */
  function ArcpyType(suffix: Value): Value {
    if IsText(suffix, "String") then VStr("TEXT") else suffix
  }

  /** One schema field: skipped when its type is `OID` (before its name is
      read) or its name is excluded, otherwise the field to add. */
  function FieldStep(field: Value, geomFieldName: Option<string>): Result<Option<AddedField>, PyError>
  {
    var t :- Subscript(field, "type");
    var suffix :- TypeSuffix(t);
    if IsText(suffix, "OID") then Ok(None)
    else
      var name :- Subscript(field, "name");
      if ExcludedName(name, geomFieldName) then Ok(None)
      else
        var length := Find(field.entries, "length");
        var alias :- Subscript(field, "alias");
        Ok(Some(AddedField(name, ArcpyType(suffix), length, alias)))
  }

  /** What one schema field gives: a missing `type` raises, an `OID` type
      is skipped whatever else the field holds, any other type is skipped
      only for an excluded name, and an added field carries the field's own
      name, alias and length and its type less the prefix. */
  lemma FieldStepCases(field: Value, geomFieldName: Option<string>)
    ensures FieldStep(field, geomFieldName).Ok? ==>
      field.VDict? && "type" in Keys(field.entries) && TypeSuffix(Find(field.entries, "type").value).Ok?
    ensures field.VDict? && "type" !in Keys(field.entries) ==>
      FieldStep(field, geomFieldName) == Err(KeyError("type"))
    ensures var r := FieldStep(field, geomFieldName);
      r.Ok? && IsText(TypeSuffix(Find(field.entries, "type").value).value, "OID") ==> r.value.None?
    ensures var r := FieldStep(field, geomFieldName);
      r.Ok? && r.value.Some? ==>
        var added := r.value.value;
        Find(field.entries, "name") == Some(added.name) && !ExcludedName(added.name, geomFieldName)
        && added.fieldType == ArcpyType(TypeSuffix(Find(field.entries, "type").value).value)
        && added.length == Find(field.entries, "length")
        && Find(field.entries, "alias") == Some(added.alias)
    ensures var r := FieldStep(field, geomFieldName);
      r.Ok? && r.value.None? && !IsText(TypeSuffix(Find(field.entries, "type").value).value, "OID") ==>
        "name" in Keys(field.entries) && ExcludedName(Find(field.entries, "name").value, geomFieldName)
  {
  }

  /** A field with a type other than `OID` and a name that is not excluded
      is added with its name, alias, type and length. */
  lemma FieldStepAdds(entries: seq<(string, Value)>, geomFieldName: Option<string>,
                      typeValue: Value, name: Value, alias: Value)
    requires Find(entries, "type") == Some(typeValue)
    requires TypeSuffix(typeValue).Ok? && !IsText(TypeSuffix(typeValue).value, "OID")
    requires Find(entries, "name") == Some(name) && !ExcludedName(name, geomFieldName)
    requires Find(entries, "alias") == Some(alias)
    ensures FieldStep(VDict(entries), geomFieldName)
         == Ok(Some(AddedField(name, ArcpyType(TypeSuffix(typeValue).value), Find(entries, "length"), alias)))
  {
  }

  // ---------------------------------------------------------------------
  // A loop that keeps some items and stops at the first one that raises

  /** What a `for` loop over `items` that may keep each item, or raise,
      collects: the kept results in order, or the first error. */
  function Collect<T>(items: seq<Value>, step: Value -> Result<Option<T>, PyError>): (r: Result<seq<T>, PyError>)
    ensures r.Ok? ==> |r.value| <= |items|
    decreases |items|
  {
    if |items| == 0 then Ok([])
    else
      var front :- Collect(items[..|items| - 1], step);
      var last :- step(items[|items| - 1]);
      Ok(front + (if last.Some? then [last.value] else []))
  }

  /** One more item: what was collected so far, then that item's step. */
  lemma CollectStep<T>(items: seq<Value>, step: Value -> Result<Option<T>, PyError>, i: nat)
    requires i < |items|
    ensures Collect(items[..i + 1], step)
         == match Collect(items[..i], step)
            case Err(e) => Err(e)
            case Ok(front) =>
              match step(items[i])
              case Err(e) => Err(e)
              case Ok(last) => Ok(front + (if last.Some? then [last.value] else []))
  {
    assert items[..i + 1][..i] == items[..i];
    assert items[..i + 1][i] == items[i];
  }

  /** Once a prefix raises, so does the whole loop, with the same error. */
  lemma {:induction false} CollectPrefixError<T>(items: seq<Value>, step: Value -> Result<Option<T>, PyError>, n: nat)
    requires n <= |items| && Collect(items[..n], step).Err?
    ensures Collect(items, step) == Collect(items[..n], step)
    decreases |items|
  {
    if n < |items| {
      var front := items[..|items| - 1];
      assert front[..n] == items[..n];
      CollectPrefixError(front, step, n);
    } else {
      assert items[..n] == items;
    }
  }

  /** The loop completes exactly when no item raises. */
  lemma {:induction false} CollectOk<T>(items: seq<Value>, step: Value -> Result<Option<T>, PyError>)
    ensures Collect(items, step).Ok? <==> forall i :: 0 <= i < |items| ==> step(items[i]).Ok?
    decreases |items|
  {
    if |items| > 0 {
      var front := items[..|items| - 1];
      CollectOk(front, step);
      assert forall j :: 0 <= j < |front| ==> front[j] == items[j];
    }
  }

  /** The first item that raises decides the error of the whole loop. */
  lemma {:induction false} CollectError<T>(items: seq<Value>, step: Value -> Result<Option<T>, PyError>, i: nat)
    requires i < |items| && step(items[i]).Err?
    requires forall j :: 0 <= j < i ==> step(items[j]).Ok?
    ensures Collect(items, step) == Err(step(items[i]).error)
    decreases |items|
  {
    var front := items[..|items| - 1];
    if i < |items| - 1 {
      assert front[i] == items[i];
      CollectError(front, step, i);
    } else {
      assert forall j :: 0 <= j < |front| ==> front[j] == items[j];
      CollectOk(front, step);
    }
  }

  // ---------------------------------------------------------------------
  // _createDataset: the field list

  /** The fields added for a list of schema fields, in order; the first
      field that raises ends the whole call with its error. */
  function FieldListOf(items: seq<Value>, geomFieldName: Option<string>): Result<seq<AddedField>, PyError> {
    Collect(items, FieldSteps(geomFieldName))
  }

  /** The decision taken for each schema field. */
  function FieldSteps(geomFieldName: Option<string>): Value -> Result<Option<AddedField>, PyError> {
    (field: Value) => FieldStep(field, geomFieldName)
  }

  /** The list is added exactly when no field raises, and otherwise fails
      with the error of the first field that does. */
  lemma FieldListOk(items: seq<Value>, geomFieldName: Option<string>, i: nat)
    ensures FieldListOf(items, geomFieldName).Ok?
        <==> forall j :: 0 <= j < |items| ==> FieldStep(items[j], geomFieldName).Ok?
    ensures i < |items| && FieldStep(items[i], geomFieldName).Err?
            && (forall j :: 0 <= j < i ==> FieldStep(items[j], geomFieldName).Ok?)
        ==> FieldListOf(items, geomFieldName) == Err(FieldStep(items[i], geomFieldName).error)
  {
    var step := FieldSteps(geomFieldName);
    CollectOk(items, step);
    if i < |items| && FieldStep(items[i], geomFieldName).Err?
       && (forall j :: 0 <= j < i ==> FieldStep(items[j], geomFieldName).Ok?) {
      CollectError(items, step, i);
    }
  }

  /** The fields `_createDataset` adds for the `fields` of a schema. */
  function CreateDatasetFields(jsonFc: Value, geomFieldName: Option<string>): (r: Result<seq<AddedField>, PyError>)
    ensures jsonFc.VDict? && "fields" !in Keys(jsonFc.entries) ==> r == Err(KeyError("fields"))
    ensures jsonFc.VDict? && "fields" in Keys(jsonFc.entries) && Find(jsonFc.entries, "fields").value.VList? ==>
      r == FieldListOf(Find(jsonFc.entries, "fields").value.items, geomFieldName)
  {
    var fields :- Subscript(jsonFc, "fields");
    var items :- Iterate(fields);
    FieldListOf(items, geomFieldName)
  }

  /** The attribute field list: the name of every added field, in order. */
  function Names(added: seq<AddedField>): (r: seq<Value>)
    ensures |r| == |added|
    ensures forall i :: 0 <= i < |added| ==> r[i] == added[i].name
  {
    seq(|added|, i requires 0 <= i < |added| => added[i].name)
  }

  lemma NamesSnoc(added: seq<AddedField>, field: AddedField)
    ensures Names(added + [field]) == Names(added) + [field.name]
  {
    assert Names(added + [field]) == Names(added) + [field.name];
  }

  /** What `_createDataset` decides before handing over to arcpy: the
      shape, the fields to add, and the attribute field list it returns. */
  datatype DatasetPlan = DatasetPlan(shape: Option<Shape>, added: seq<AddedField>, attributeFieldList: seq<Value>)

  function CreateDatasetOf(jsonFc: Value, geomType: Option<string>, geomFieldName: Option<string>)
    : (r: Result<DatasetPlan, PyError>)
    ensures r.Ok? <==> ShapeOf(jsonFc, geomType).Ok? && CreateDatasetFields(jsonFc, geomFieldName).Ok?
    ensures r.Ok? ==> r.value.shape == ShapeOf(jsonFc, geomType).value
                      && r.value.added == CreateDatasetFields(jsonFc, geomFieldName).value
                      && r.value.attributeFieldList == Names(r.value.added)
  {
    var shape :- ShapeOf(jsonFc, geomType);
    var added :- CreateDatasetFields(jsonFc, geomFieldName);
    Ok(DatasetPlan(shape, added, Names(added)))
  }

  /** The field loop of `_createDataset`, for any decision per field: one
      `AddField` per kept field, and its name appended to the attribute
      field list; the first field that raises ends the loop. */
  method CollectFieldNames(items: seq<Value>, step: Value -> Result<Option<AddedField>, PyError>)
    returns (r: Result<seq<AddedField>, PyError>, attributeFieldList: seq<Value>)
    ensures r == Collect(items, step)
    ensures r.Ok? ==> attributeFieldList == Names(r.value)
  {
    var added: seq<AddedField> := [];
    attributeFieldList := [];
    var i := 0;
    while i < |items|
      invariant 0 <= i <= |items|
      invariant Collect(items[..i], step) == Ok(added)
      invariant attributeFieldList == Names(added)
    {
      CollectStep(items, step, i);
      var kept := step(items[i]);
      if kept.Err? {
        CollectPrefixError(items, step, i + 1);
        return Err(kept.error), attributeFieldList;
      }
      if kept.value.Some? {
        var field := kept.value.value;
        NamesSnoc(added, field);
        added := added + [field];
        attributeFieldList := attributeFieldList + [field.name];
      } else {
        assert added + [] == added;
      }
      i := i + 1;
    }
    assert items[..i] == items;
    r := Ok(added);
  }

  /** The field loop of `_createDataset` over the schema's fields. */
  method AddFields(items: seq<Value>, geomFieldName: Option<string>)
    returns (r: Result<seq<AddedField>, PyError>, attributeFieldList: seq<Value>)
    ensures r == FieldListOf(items, geomFieldName)
    ensures r.Ok? ==> attributeFieldList == Names(r.value)
  {
    r, attributeFieldList := CollectFieldNames(items, FieldSteps(geomFieldName));
  }

  /** `_createDataset` as the code runs it: the shape options, then the
      field loop over the schema's `fields`. */
  method CreateDataset(jsonFc: Value, geomType: Option<string>, geomFieldName: Option<string>)
    returns (r: Result<DatasetPlan, PyError>)
    ensures r == CreateDatasetOf(jsonFc, geomType, geomFieldName)
  {
    var shape := ShapeOf(jsonFc, geomType);
    if shape.Err? {
      return Err(shape.error);
    }
    var fields := Subscript(jsonFc, "fields");
    if fields.Err? {
      return Err(fields.error);
    }
    var items := Iterate(fields.value);
    if items.Err? {
      return Err(items.error);
    }
    var added, attributeFieldList := AddFields(items.value, geomFieldName);
    if added.Err? {
      return Err(added.error);
    }
    r := Ok(DatasetPlan(shape.value, added.value, attributeFieldList));
  }

  // ---------------------------------------------------------------------
  // _createDataset on the fields _getFCProps guesses

  /** An attribute whose type could not be inferred has a field without
      `type`, on which `_createDataset` raises. */
  lemma UntypedAttributeRejected(name: string, val: Value, geomFieldName: Option<string>)
    requires InferredFieldType(name, val).None?
    ensures FieldStep(FieldFor(name, val), geomFieldName) == Err(KeyError("type"))
  {
  }

  /** An integer attribute with an object-id name is guessed as an OID
      field, which `_createDataset` does not add. */
  lemma OidAttributeSkipped(name: string, val: Value, geomFieldName: Option<string>)
    requires (val.VInt? || val.VLong?) && IsOidName(name)
    ensures FieldStep(FieldFor(name, val), geomFieldName) == Ok(None)
  {
    PrefixRoundTrip("OID");
  }

  /** Any other guessed attribute is added under its own name and alias,
      with the guessed type less its prefix (a string becomes `TEXT`). */
  lemma TypedAttributeAdded(name: string, val: Value, geomFieldName: Option<string>)
    requires InferredFieldType(name, val).Some?
    requires !IsOidName(name) || !(val.VInt? || val.VLong?)
    requires !ExcludedName(VUnicode(name), geomFieldName)
    ensures var t := InferredFieldType(name, val).value;
      FieldStep(FieldFor(name, val), geomFieldName)
      == Ok(Some(AddedField(VUnicode(name), ArcpyType(VStr(t[|TypePrefix|..])), None, VUnicode(name))))
    ensures val.VStr? || val.VUnicode? ==>
      FieldStep(FieldFor(name, val), geomFieldName)
      == Ok(Some(AddedField(VUnicode(name), VStr("TEXT"), None, VUnicode(name))))
  {
    var t := InferredFieldType(name, val).value;
    assert t == TypePrefix + t[|TypePrefix|..];
    PrefixRoundTrip(t[|TypePrefix|..]);
    var suffix := t[|TypePrefix|..];
    assert !IsText(VStr(suffix), "OID");
    FieldStepAdds(FieldFor(name, val).entries, geomFieldName, VStr(t), VUnicode(name), VUnicode(name));
  }

  // ---------------------------------------------------------------------
  // _dumpFields2JSONStr

  /** The properties `arcpy.Describe` gives for one field. */
  datatype FieldDesc = FieldDesc(name: string, aliasName: string, fieldType: string, length: int)

  /** The fields written: neither geometry nor object id, nor one of the two
      shape measures. */
  predicate Listed(f: FieldDesc) {
    f.fieldType != "Geometry" && f.fieldType != "OID"
    && f.name != "Shape_Length" && f.name != "Shape_Area"
  }

  predicate HasLength(fieldType: string) {
    fieldType == "String" || fieldType == "Blob"
  }

  /** The record written for one field. */
  function FieldRecord(f: FieldDesc): (r: Value)
    ensures r.VDict?
  {
    var sized: seq<(string, Value)> := if HasLength(f.fieldType) then [("length", VInt(f.length))] else [];
    VDict([("alias", VUnicode(f.aliasName))]
          + ([("name", VUnicode(f.name))] + ([("type", VUnicode(TypePrefix + f.fieldType))] + sized)))
  }

  /** The record holds the alias, the name and the prefixed type, and the
      length only for strings and blobs. */
  lemma FieldRecordEntries(f: FieldDesc)
    ensures var r := FieldRecord(f).entries;
      Find(r, "alias") == Some(VUnicode(f.aliasName))
      && Find(r, "name") == Some(VUnicode(f.name))
      && Find(r, "type") == Some(VUnicode(TypePrefix + f.fieldType))
      && Find(r, "length") == if HasLength(f.fieldType) then Some(VInt(f.length)) else None
  {
    var sized: seq<(string, Value)> := if HasLength(f.fieldType) then [("length", VInt(f.length))] else [];
    var typed := [("type", VUnicode(TypePrefix + f.fieldType))] + sized;
    var named := [("name", VUnicode(f.name))] + typed;
    assert FieldRecord(f).entries == [("alias", VUnicode(f.aliasName))] + named;
    FindCons("alias", VUnicode(f.aliasName), named, "alias");
    FindCons("alias", VUnicode(f.aliasName), named, "name");
    FindCons("alias", VUnicode(f.aliasName), named, "type");
    FindCons("alias", VUnicode(f.aliasName), named, "length");
    FindCons("name", VUnicode(f.name), typed, "name");
    FindCons("name", VUnicode(f.name), typed, "type");
    FindCons("name", VUnicode(f.name), typed, "length");
    FindCons("type", VUnicode(TypePrefix + f.fieldType), sized, "type");
    FindCons("type", VUnicode(TypePrefix + f.fieldType), sized, "length");
  }

  /** The listed fields, in their order. */
  function ListedFields(fields: seq<FieldDesc>): (r: seq<FieldDesc>)
    ensures |r| <= |fields|
    ensures forall f :: f in r <==> f in fields && Listed(f)
    decreases |fields|
  {
    if |fields| == 0 then []
    else
      var front := ListedFields(fields[..|fields| - 1]);
      var last := fields[|fields| - 1];
      assert fields == fields[..|fields| - 1] + [last];
      if Listed(last) then front + [last] else front
  }

  /** Listing one field keeps it exactly when it is listed. */
  lemma ListedFieldsSingle(f: FieldDesc)
    ensures ListedFields([f]) == if Listed(f) then [f] else []
  {
    assert [f][..0] == [];
  }

  /** Listing distributes over concatenation, so the kept fields stay in
      input order, each as often as it occurs. */
  lemma {:induction false} ListedFieldsAppend(a: seq<FieldDesc>, b: seq<FieldDesc>)
    ensures ListedFields(a + b) == ListedFields(a) + ListedFields(b)
    decreases |b|
  {
    if |b| == 0 {
      assert a + b == a;
    } else {
      var last := b[|b| - 1];
      var front := b[..|b| - 1];
      assert (a + b)[..|a + b| - 1] == a + front;
      assert (a + b)[|a + b| - 1] == last;
      ListedFieldsAppend(a, front);
      ListedSnoc(b);
    }
  }

  /** The records `_dumpFields2JSONStr` dumps: one per listed field. */
  function FieldRecords(fields: seq<FieldDesc>): (r: seq<Value>)
    ensures |r| == |ListedFields(fields)|
    ensures forall i :: 0 <= i < |r| ==> r[i] == FieldRecord(ListedFields(fields)[i])
  {
    var listed := ListedFields(fields);
    seq(|listed|, i requires 0 <= i < |listed| => FieldRecord(listed[i]))
  }

  /** `json.dumps` with an indent, left abstract. */
  type Dumps = (Value, Option<nat>) -> string

  /** `_dumpFields2JSONStr`: builds the record list field by field and
      dumps it, indented by four under `pjson`. */
  method DumpFields2JsonStr(fields: seq<FieldDesc>, pjson: bool, dumps: Dumps) returns (s: string)
    ensures s == dumps(VList(FieldRecords(fields)), if pjson then Some(4) else None)
  {
    var fieldsJson: seq<Value> := [];
    var i := 0;
    while i < |fields|
      invariant 0 <= i <= |fields|
      invariant fieldsJson == FieldRecords(fields[..i])
    {
      var field := fields[i];
      assert fields[..i + 1][..i] == fields[..i];
      if Listed(field) {
        fieldsJson := fieldsJson + [FieldRecord(field)];
      }
      i := i + 1;
    }
    assert fields[..i] == fields;
    s := dumps(VList(fieldsJson), if pjson then Some(4) else None);
  }

  // ---------------------------------------------------------------------
  // Dumped fields read back

  /** The field `_createDataset` adds for a field record written by
      `_dumpFields2JSONStr`. */
  function Recreated(f: FieldDesc): (added: AddedField)
    ensures added.fieldType == if f.fieldType == "String" then VStr("TEXT") else VUnicode(f.fieldType)
  {
    AddedField(
      VUnicode(f.name),
      ArcpyType(VUnicode(f.fieldType)),
      if HasLength(f.fieldType) then Some(VInt(f.length)) else None,
      VUnicode(f.aliasName))
  }

  /** A listed field is neither an object id nor one of the excluded names. */
  lemma ListedKept(f: FieldDesc)
    requires Listed(f)
    ensures !IsText(VUnicode(f.fieldType), "OID") && !ExcludedName(VUnicode(f.name), None)
  {
  }

  lemma RecordRecreated(f: FieldDesc)
    requires Listed(f)
    ensures FieldStep(FieldRecord(f), None) == Ok(Some(Recreated(f)))
  {
    FieldRecordEntries(f);
    PrefixRoundTrip(f.fieldType);
    ListedKept(f);
    FieldStepAdds(FieldRecord(f).entries, None, VUnicode(TypePrefix + f.fieldType), VUnicode(f.name),
                  VUnicode(f.aliasName));
  }

  /** The fields a schema of dumped records should create: one per listed
      field, in order. */
  function RecreatedFields(fields: seq<FieldDesc>): (r: seq<AddedField>)
    ensures |r| == |ListedFields(fields)|
    ensures forall i :: 0 <= i < |r| ==> r[i] == Recreated(ListedFields(fields)[i])
  {
    var listed := ListedFields(fields);
    seq(|listed|, i requires 0 <= i < |listed| => Recreated(listed[i]))
  }

  /** Listing, one field more. */
  lemma ListedSnoc(fields: seq<FieldDesc>)
    requires |fields| > 0
    ensures var last := fields[|fields| - 1];
      ListedFields(fields) == ListedFields(fields[..|fields| - 1]) + (if Listed(last) then [last] else [])
  {
  }

  /** Dumping, one field more. */
  lemma RecordsSnoc(fields: seq<FieldDesc>)
    requires |fields| > 0
    ensures var last := fields[|fields| - 1];
      FieldRecords(fields)
      == FieldRecords(fields[..|fields| - 1]) + (if Listed(last) then [FieldRecord(last)] else [])
  {
    var last := fields[|fields| - 1];
    ListedSnoc(fields);
    var r := FieldRecords(fields);
    var fr := FieldRecords(fields[..|fields| - 1]);
    forall i | 0 <= i < |fr|
      ensures r[i] == fr[i]
    {
    }
    if Listed(last) {
      assert r == fr + [FieldRecord(last)];
    } else {
      assert r == fr;
    }
  }

  /** Recreating, one field more. */
  lemma RecreatedSnoc(fields: seq<FieldDesc>)
    requires |fields| > 0
    ensures var last := fields[|fields| - 1];
      RecreatedFields(fields)
      == RecreatedFields(fields[..|fields| - 1]) + (if Listed(last) then [Recreated(last)] else [])
  {
    var last := fields[|fields| - 1];
    ListedSnoc(fields);
    var r := RecreatedFields(fields);
    var fr := RecreatedFields(fields[..|fields| - 1]);
    forall i | 0 <= i < |fr|
      ensures r[i] == fr[i]
    {
    }
    if Listed(last) {
      assert r == fr + [Recreated(last)];
    } else {
      assert r == fr;
    }
  }

  /** Reading the dumped records back as a schema adds every listed field
      again, in order, with its name, alias, type and length. */
  lemma {:induction false} DumpedFieldsRecreated(fields: seq<FieldDesc>)
    ensures FieldListOf(FieldRecords(fields), None) == Ok(RecreatedFields(fields))
    decreases |fields|
  {
    if |fields| == 0 {
      assert FieldRecords(fields) == [];
      assert RecreatedFields(fields) == [];
    } else {
      var front := fields[..|fields| - 1];
      var last := fields[|fields| - 1];
      DumpedFieldsRecreated(front);
      RecordsSnoc(fields);
      RecreatedSnoc(fields);
      var records := FieldRecords(fields);
      if Listed(last) {
        RecordRecreated(last);
        assert records[..|records| - 1] == FieldRecords(front);
      }
    }
  }

  /** The attribute field list of a dumped schema is the list of names the
      writer used. */
  lemma DumpedAttributeFieldList(fields: seq<FieldDesc>)
    ensures var listed := ListedFields(fields);
      var schema := VDict([("fields", VList(FieldRecords(fields)))]);
      CreateDatasetOf(schema, None, None).Ok?
      && CreateDatasetOf(schema, None, None).value.attributeFieldList
         == seq(|listed|, i requires 0 <= i < |listed| => VUnicode(listed[i].name))
  {
    DumpedFieldsRecreated(fields);
    var schema := VDict([("fields", VList(FieldRecords(fields)))]);
    assert CreateDatasetFields(schema, None) == Ok(RecreatedFields(fields));
  }
}
