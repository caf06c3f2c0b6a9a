/** Writing a feature class or a table out as JSON. `ConvertFC2JSON` writes
    one esri JSON document: the field records, for a feature class its Z and
    M flags and spatial reference, then the array of features.
    `ConvertFC2JSONUnenclosed` writes the features alone, one after another.
    Every feature takes its attributes from the first cells of a cursor row
    and, for a feature class, its geometry from the last cell.

    `json.dumps`, `json.loads` and `unicode` of a geometry cell are
    parameters; what `arcpy.Describe` answers is a value, and the cursor is
    the sequence of its rows. */
module JsonWriter {
  import opened Wrappers
  import opened Text
  import opened Python
  import opened JsonFields

  /** `json.loads` of a text: None where it raises `ValueError`. */
  type Loads = string -> Option<Value>

  /** The library functions the writer calls. */
  datatype JsonIo = JsonIo(dumps: Dumps, loads: Loads, show: Value -> string)

  /** What `arcpy.Describe` answers about the feature class: its feature
      type (None when it has none, as for a table), its fields, whether it
      holds Z and M values, and the factory code of its spatial reference. */
  datatype Description = Description(
    featureType: Option<string>, fields: seq<FieldDesc>, hasZ: bool, hasM: bool, factoryCode: int)

  /** `if feature_type:` */
  predicate HasGeometry(desc: Description) {
    desc.featureType.Some? && desc.featureType.value != []
  }

  function Newline(pjson: bool): string {
    if pjson then "\n" else ""
  }

  function Indent(pjson: bool): Option<nat> {
    if pjson then Some(4) else None
  }

  const ShapeToken: string := "shape@json"

  // ---------------------------------------------------------------------
  // The fields the cursor reads

  /** The names of the listed fields, in their order. */
  function ListedNames(fields: seq<FieldDesc>): (r: seq<string>)
    ensures |r| == |ListedFields(fields)|
    ensures forall i :: 0 <= i < |r| ==> r[i] == ListedFields(fields)[i].name
    decreases |fields|
  {
    if |fields| == 0 then []
    else
      var front := ListedNames(fields[..|fields| - 1]);
      if Listed(fields[|fields| - 1]) then front + [fields[|fields| - 1].name] else front
  }

  /** The field list of the cursor: the listed names and, for a feature
      class, the geometry as JSON last. */
  function FieldList(desc: Description): (r: seq<string>)
    ensures |r| == |ListedFields(desc.fields)| + (if HasGeometry(desc) then 1 else 0)
    ensures forall i :: 0 <= i < |ListedFields(desc.fields)| ==> r[i] == ListedFields(desc.fields)[i].name
    ensures HasGeometry(desc) ==> r[|r| - 1] == ShapeToken
  {
    ListedNames(desc.fields) + (if HasGeometry(desc) then [ShapeToken] else [])
  }

  /** `row_len_no_geom`: how many cells of a row are attributes. */
  function RowLength(desc: Description): (n: nat)
    ensures n == |ListedFields(desc.fields)|
  {
    |FieldList(desc)| - (if HasGeometry(desc) then 1 else 0)
  }

  /** The loop that builds `field_list`. */
  method BuildFieldList(desc: Description) returns (fieldList: seq<string>)
    ensures fieldList == FieldList(desc)
  {
    fieldList := [];
    var i := 0;
    while i < |desc.fields|
      invariant 0 <= i <= |desc.fields|
      invariant fieldList == ListedNames(desc.fields[..i])
    {
      var field := desc.fields[i];
      assert desc.fields[..i + 1][..i] == desc.fields[..i];
      if Listed(field) {
        fieldList := fieldList + [field.name];
      }
      i := i + 1;
    }
    assert desc.fields[..i] == desc.fields;
    if HasGeometry(desc) {
      fieldList := fieldList + [ShapeToken];
    }
  }

  // ---------------------------------------------------------------------
  // The attributes of one row

  /** A datetime cell is written as its text, any other cell as it is. */
  function Cell(v: Value): Value {
    if v.VDateTime? then VUnicode(v.text) else v
  }

  /** The attribute dict built for `row`: the cell at position `i` is stored
      under `fieldList[i]` while `i < rowLen`; the cells after are skipped. */
  function Attributes(fieldList: seq<string>, row: seq<Value>, rowLen: nat): (r: seq<(string, Value)>)
    requires rowLen <= |fieldList|
    ensures |r| <= Min(|row|, rowLen)
    decreases |row|
  {
    if |row| == 0 then []
    else
      var i := |row| - 1;
      var before := Attributes(fieldList, row[..i], rowLen);
      if i < rowLen then Put(before, fieldList[i], Cell(row[i])) else before
  }

  /** The inner loop over the cells of a row; `i` counts the cells stored
      and stops growing at `rowLen`. */
  method RowAttributes(fieldList: seq<string>, row: seq<Value>, rowLen: nat) returns (attributes: seq<(string, Value)>)
    requires rowLen <= |fieldList|
    ensures attributes == Attributes(fieldList, row, rowLen)
  {
    attributes := [];
    var i := 0;
    var position := 0;
    while position < |row|
      invariant 0 <= position <= |row|
      invariant i == Min(position, rowLen)
      invariant attributes == Attributes(fieldList, row[..position], rowLen)
    {
      var attr := row[position];
      assert row[..position + 1][..position] == row[..position];
      if i < rowLen {
        attributes := Put(attributes, fieldList[i], Cell(attr));
        i := i + 1;
      }
      position := position + 1;
    }
    assert row[..position] == row;
  }

  /** No two of the first `n` names are equal. */
  predicate DistinctPrefix(names: seq<string>, n: nat) {
    forall i, j :: 0 <= i < j < n && j < |names| ==> names[i] != names[j]
  }

  /** Storing a new key adds it at the end. */
  lemma {:induction false} PutAbsent(entries: seq<(string, Value)>, key: string, val: Value)
    requires forall j :: 0 <= j < |entries| ==> entries[j].0 != key
    ensures Put(entries, key, val) == entries + [(key, val)]
  {
    if |entries| > 0 {
      assert entries[0].0 != key;
      var rest := entries[1..];
      assert forall j :: 0 <= j < |rest| ==> rest[j] == entries[j + 1];
      PutAbsent(rest, key, val);
      assert [entries[0]] + (rest + [(key, val)]) == entries + [(key, val)];
    }
  }

  /** The attributes of a row whose cells are all stored. */
  predicate StoredPairs(attributes: seq<(string, Value)>, fieldList: seq<string>, row: seq<Value>) {
    |attributes| <= |row| && |attributes| <= |fieldList|
    && forall j :: 0 <= j < |attributes| ==> attributes[j] == (fieldList[j], Cell(row[j]))
  }

  /** One more cell stored under a name not used before. */
  lemma StoredPairsSnoc(before: seq<(string, Value)>, fieldList: seq<string>, row: seq<Value>, rowLen: nat)
    requires |row| > 0 && |row| - 1 < rowLen <= |fieldList|
    requires DistinctPrefix(fieldList, rowLen)
    requires |before| == |row| - 1
    requires StoredPairs(before, fieldList, row[..|row| - 1])
    ensures Put(before, fieldList[|row| - 1], Cell(row[|row| - 1])) == before + [(fieldList[|row| - 1], Cell(row[|row| - 1]))]
    ensures StoredPairs(before + [(fieldList[|row| - 1], Cell(row[|row| - 1]))], fieldList, row)
  {
    var i := |row| - 1;
    forall j | 0 <= j < |before|
      ensures before[j].0 != fieldList[i]
    {
      assert before[j].0 == fieldList[j];
    }
    PutAbsent(before, fieldList[i], Cell(row[i]));
  }

  /** With distinct field names, the attributes are the first cells of the
      row, as many as there are attribute fields, each under the name of its
      field and with a datetime turned into its text. */
  lemma {:induction false} AttributesPrefix(fieldList: seq<string>, row: seq<Value>, rowLen: nat)
    requires rowLen <= |fieldList|
    requires DistinctPrefix(fieldList, rowLen)
    ensures |Attributes(fieldList, row, rowLen)| == Min(|row|, rowLen)
    ensures StoredPairs(Attributes(fieldList, row, rowLen), fieldList, row)
  {
    if |row| > 0 {
      var i := |row| - 1;
      var front := row[..i];
      AttributesPrefix(fieldList, front, rowLen);
      var before := Attributes(fieldList, front, rowLen);
      if i < rowLen {
        StoredPairsSnoc(before, fieldList, row, rowLen);
      } else {
        assert StoredPairs(before, fieldList, row) by {
          forall j | 0 <= j < |before|
            ensures before[j] == (fieldList[j], Cell(row[j]))
          {
            assert front[j] == row[j];
          }
        }
      }
    }
  }

  /** With distinct field names, each attribute key is the name in the field
      record of the same position in the `fields` header. */
  lemma AttributeNamesInHeader(desc: Description, row: seq<Value>)
    requires DistinctPrefix(ListedNames(desc.fields), |ListedNames(desc.fields)|)
    ensures var attributes := Attributes(FieldList(desc), row, RowLength(desc));
      |attributes| == Min(|row|, |ListedFields(desc.fields)|)
      && forall j :: 0 <= j < |attributes| ==>
           attributes[j].1 == Cell(row[j])
           && Find(FieldRecords(desc.fields)[j].entries, "name") == Some(VUnicode(attributes[j].0))
  {
    var fieldList := FieldList(desc);
    var listed := ListedFields(desc.fields);
    assert DistinctPrefix(fieldList, RowLength(desc)) by {
      forall i, j | 0 <= i < j < RowLength(desc)
        ensures fieldList[i] != fieldList[j]
      {
        assert fieldList[i] == ListedNames(desc.fields)[i];
        assert fieldList[j] == ListedNames(desc.fields)[j];
      }
    }
    AttributesPrefix(fieldList, row, RowLength(desc));
    forall j | 0 <= j < Min(|row|, |listed|)
      ensures Find(FieldRecords(desc.fields)[j].entries, "name") == Some(VUnicode(listed[j].name))
    {
      FieldRecordEntries(listed[j]);
    }
  }

  // ---------------------------------------------------------------------
  // The geometry of one row

  /** The geometry text of a feature: the last cell of the row as text, or,
      under `pjson`, that cell read as JSON and dumped again with an
      indent of four. A row without cells has no last cell; `json.loads`
      refuses a cell that is not text, and text that is not JSON. */
  function GeometryText(row: seq<Value>, pjson: bool, io: JsonIo): (r: Result<string, PyError>)
    ensures |row| == 0 ==> r.Err? && r.error.IndexError?
    ensures |row| > 0 && !pjson ==> r == Ok(io.show(row[|row| - 1]))
    ensures |row| > 0 && pjson ==>
      (r.Err? <==> StringOf(row[|row| - 1]).None? || io.loads(StringOf(row[|row| - 1]).value).None?)
    ensures |row| > 0 && pjson && r.Ok? ==>
      r.value == io.dumps(io.loads(StringOf(row[|row| - 1]).value).value, Some(4))
  {
    if |row| == 0 then Err(IndexError("tuple index out of range"))
    else if !pjson then Ok(io.show(row[|row| - 1]))
    else match StringOf(row[|row| - 1])
      case None => Err(TypeError("expected string or buffer"))
      case Some(text) =>
        match io.loads(text)
        case None => Err(ValueError("No JSON object could be decoded"))
        case Some(geometry) => Ok(io.dumps(geometry, Some(4)))
  }

  // ---------------------------------------------------------------------
  // `%` formatting of the row template

  /** What `template % args` gives for a tuple of strings. */
  datatype FormatResult = Formatted(text: string) | FormatFailed(error: PyError) | OutsideModel

  function Prefixed(p: string, f: FormatResult): FormatResult {
    if f.Formatted? then Formatted(p + f.text) else f
  }

  /** The characters Python accepts after `%` other than `%` and `s`: a
      mapping key, a flag, a width or precision, a length modifier or
      another conversion. What they do is outside the model. */
  predicate OtherDirective(c: char) {
    c in "(#0- +*.123456789hlLdiouxXeEfFgGcr"
  }

  /** `template % args`: text up to the next `%` is copied, and the
      directive after it is interpreted. An argument left over at the end
      raises `TypeError`. */
  function PercentFormat(template: string, args: seq<string>): (r: FormatResult)
    ensures '%' !in template ==>
      r == if |args| == 0 then Formatted(template)
           else FormatFailed(TypeError("not all arguments converted during string formatting"))
    decreases |template|
  {
    if |template| == 0 then
      if |args| == 0 then Formatted([])
      else FormatFailed(TypeError("not all arguments converted during string formatting"))
    else if template[0] != '%' then
      assert template == [template[0]] + template[1..];
      Prefixed([template[0]], PercentFormat(template[1..], args))
    else Directive(template[1..], args)
  }

  /** The directive after a `%`: `%%` is a percent sign and `%s` takes the
      next argument. A lone `%` at the end raises `ValueError`; no argument
      left for a directive raises `TypeError`; an unknown conversion
      character raises `ValueError` once there is an argument for it. */
  function Directive(after: string, args: seq<string>): FormatResult
    decreases |after|
  {
    if |after| == 0 then FormatFailed(ValueError("incomplete format"))
    else if after[0] == '%' then Prefixed("%", PercentFormat(after[1..], args))
    else if OtherDirective(after[0]) then OutsideModel
    else if |args| == 0 then FormatFailed(TypeError("not enough arguments for format string"))
    else if after[0] == 's' then Prefixed(args[0], PercentFormat(after[1..], args[1..]))
    else FormatFailed(ValueError("unsupported format character"))
  }

  lemma PrefixedTwice(p: string, q: string, f: FormatResult)
    ensures Prefixed(p, Prefixed(q, f)) == Prefixed(p + q, f)
  {
    if f.Formatted? {
      AppendAssoc(p, q, f.text);
    }
  }

  /** Text without `%` is copied as it is. */
  lemma {:induction false} FormatLiteral(p: string, rest: string, args: seq<string>)
    requires '%' !in p
    ensures PercentFormat(p + rest, args) == Prefixed(p, PercentFormat(rest, args))
  {
    if |p| > 0 {
      assert p[0] in p;
      assert (p + rest)[0] == p[0];
      assert (p + rest)[1..] == p[1..] + rest;
      assert '%' !in p[1..] by {
        assert forall c :: c in p[1..] ==> c in p;
      }
      FormatLiteral(p[1..], rest, args);
      PrefixedTwice([p[0]], p[1..], PercentFormat(rest, args));
      assert [p[0]] + p[1..] == p;
    } else {
      assert p + rest == rest;
    }
  }

  /** A `%s` takes the next argument. */
  lemma FormatHole(rest: string, arg: string, args: seq<string>)
    ensures PercentFormat("%s" + rest, [arg] + args) == Prefixed(arg, PercentFormat(rest, args))
  {
    assert ("%s" + rest)[1..] == "s" + rest;
    assert ("s" + rest)[1..] == rest;
    assert !OtherDirective('s');
  }

  /** An unknown conversion character raises `ValueError` when an argument
      is left for it. */
  lemma FormatQuote(rest: string, arg: string, args: seq<string>)
    ensures PercentFormat("%\"" + rest, [arg] + args) == FormatFailed(ValueError("unsupported format character"))
  {
    assert ("%\"" + rest)[1..] == "\"" + rest;
    assert !OtherDirective('"');
  }

  /** `n` copies of the newline: the tuple `(NL, NL, ...)`. */
  function Newlines(nl: string, n: nat): (r: seq<string>)
    ensures |r| == n
  {
    if n == 0 then [] else [nl] + Newlines(nl, n - 1)
  }

  /** The row template after `.format(attributes_str, geometry_str)`: the
      doubled braces are single ones and the two texts are in place, with a
      `%s` wherever a newline is to go; the unenclosed writer has one more
      at the end. */
  function RowTemplate(attributes: string, geometry: Option<string>, unenclosed: bool): string {
    var close := "}" + (if unenclosed then "%s" else "");
    match geometry
    case Some(g) =>
      "{" + ("%s" + ("\"attributes\": " + (attributes + ("," + ("%s" + ("\"geometry\": " + (g + ("%s" + close))))))))
    case None =>
      "{" + ("%s" + ("\"attributes\": " + (attributes + ("%s" + close))))
  }

  /** The row text as the writers compute it: `%` formatting puts in the
      newlines after the texts are already in the template. */
  function RowTextAsWritten(nl: string, attributes: string, geometry: Option<string>, unenclosed: bool): FormatResult {
    var holes := (if geometry.Some? then 3 else 2) + (if unenclosed then 1 else 0);
    PercentFormat(RowTemplate(attributes, geometry, unenclosed), Newlines(nl, holes))
  }

  /** One feature as it is meant to be written, followed by `trailer`: the
      attributes and, for a feature class, the geometry, each on a line of
      its own under `pjson`. */
  function RowText(nl: string, attributes: string, geometry: Option<string>, trailer: string): string {
    match geometry
    case Some(g) =>
      "{" + (nl + ("\"attributes\": " + (attributes + ("," + (nl + ("\"geometry\": " + (g + (nl + ("}" + trailer)))))))))
    case None =>
      "{" + (nl + ("\"attributes\": " + (attributes + (nl + ("}" + trailer)))))
  }

  /** The end of the template: the closing brace and, in the unenclosed
      writer, a newline. */
  lemma FormatClose(nl: string, unenclosed: bool)
    ensures PercentFormat("}" + (if unenclosed then "%s" else ""), Newlines(nl, if unenclosed then 1 else 0))
         == Formatted("}" + (if unenclosed then nl else ""))
  {
    if unenclosed {
      FormatLiteral("}", "%s", [nl]);
      FormatHole("", nl, []);
      assert "%s" + "" == "%s";
      assert nl + "" == nl;
    } else {
      assert '%' !in "}" + "";
    }
  }

  /** The feature class row, when neither text holds a `%`. */
  lemma FeatureRowAgrees(nl: string, attributes: string, g: string, unenclosed: bool)
    requires '%' !in attributes && '%' !in g
    ensures RowTextAsWritten(nl, attributes, Some(g), unenclosed)
         == Formatted(RowText(nl, attributes, Some(g), if unenclosed then nl else ""))
  {
    var c := if unenclosed then 1 else 0;
    var close := "}" + (if unenclosed then "%s" else "");
    FormatClose(nl, unenclosed);
    var geometryPart := "\"geometry\": " + (g + ("%s" + close));
    FormatLiteral("\"geometry\": ", g + ("%s" + close), Newlines(nl, 1 + c));
    FormatLiteral(g, "%s" + close, Newlines(nl, 1 + c));
    FormatHole(close, nl, Newlines(nl, c));
    var attributesPart := "\"attributes\": " + (attributes + ("," + ("%s" + geometryPart)));
    FormatLiteral("\"attributes\": ", attributes + ("," + ("%s" + geometryPart)), Newlines(nl, 2 + c));
    FormatLiteral(attributes, "," + ("%s" + geometryPart), Newlines(nl, 2 + c));
    FormatLiteral(",", "%s" + geometryPart, Newlines(nl, 2 + c));
    FormatHole(geometryPart, nl, Newlines(nl, 1 + c));
    FormatLiteral("{", "%s" + attributesPart, Newlines(nl, 3 + c));
    FormatHole(attributesPart, nl, Newlines(nl, 2 + c));
  }

  /** The table row, when the attributes text holds no `%`. */
  lemma TableRowAgrees(nl: string, attributes: string, unenclosed: bool)
    requires '%' !in attributes
    ensures RowTextAsWritten(nl, attributes, None, unenclosed)
         == Formatted(RowText(nl, attributes, None, if unenclosed then nl else ""))
  {
    var c := if unenclosed then 1 else 0;
    var close := "}" + (if unenclosed then "%s" else "");
    FormatClose(nl, unenclosed);
    var attributesPart := "\"attributes\": " + (attributes + ("%s" + close));
    FormatLiteral("\"attributes\": ", attributes + ("%s" + close), Newlines(nl, 1 + c));
    FormatLiteral(attributes, "%s" + close, Newlines(nl, 1 + c));
    FormatHole(close, nl, Newlines(nl, c));
    FormatLiteral("{", "%s" + attributesPart, Newlines(nl, 2 + c));
    FormatHole(attributesPart, nl, Newlines(nl, 1 + c));
  }

  /** Whenever neither the attributes nor the geometry text holds a `%`,
      the row as written is the intended one, followed by a newline in the
      unenclosed writer. */
  lemma RowTextAgrees(nl: string, attributes: string, geometry: Option<string>, unenclosed: bool)
    requires '%' !in attributes
    requires geometry.Some? ==> '%' !in geometry.value
    ensures RowTextAsWritten(nl, attributes, geometry, unenclosed)
         == Formatted(RowText(nl, attributes, geometry, if unenclosed then nl else ""))
  {
    if geometry.Some? {
      FeatureRowAgrees(nl, attributes, geometry.value, unenclosed);
    } else {
      TableRowAgrees(nl, attributes, unenclosed);
    }
  }

  /** A `%` followed by a quote in the attributes text, which is how a text
      value ending in `%` is dumped, makes the row as written raise
      `ValueError` instead of being written. */
  lemma PercentQuoteRaises(nl: string, before: string, after: string, geometry: Option<string>, unenclosed: bool)
    requires '%' !in before
    ensures RowTextAsWritten(nl, before + ("%\"" + after), geometry, unenclosed)
         == FormatFailed(ValueError("unsupported format character"))
  {
    var attributes := before + ("%\"" + after);
    var c := (if geometry.Some? then 2 else 1) + (if unenclosed then 1 else 0);
    var close := "}" + (if unenclosed then "%s" else "");
    var rest := match geometry
      case Some(g) => "," + ("%s" + ("\"geometry\": " + (g + ("%s" + close))))
      case None => "%s" + close;
    AppendAssoc(before, "%\"" + after, rest);
    AppendAssoc("%\"", after, rest);
    var tail := "%\"" + (after + rest);
    FormatQuote(after + rest, nl, Newlines(nl, c - 1));
    FormatLiteral(before, tail, Newlines(nl, c));
    FormatLiteral("\"attributes\": ", before + tail, Newlines(nl, c));
    FormatLiteral("{", "%s" + ("\"attributes\": " + (before + tail)), Newlines(nl, c + 1));
    FormatHole("\"attributes\": " + (before + tail), nl, Newlines(nl, c));
  }

  // ---------------------------------------------------------------------
  // The rows

  /** What is written for one row (with the intended row text, followed by
      `trailer`), or the error that stops the writer there: only the
      geometry can fail. */
  function RowOutput(desc: Description, row: seq<Value>, pjson: bool, io: JsonIo, trailer: string): (r: Result<string, PyError>)
    ensures r.Err? <==> HasGeometry(desc) && GeometryText(row, pjson, io).Err?
  {
    var attributes := io.dumps(VDict(Attributes(FieldList(desc), row, RowLength(desc))), Indent(pjson));
    if HasGeometry(desc) then
      var geometry :- GeometryText(row, pjson, io);
      Ok(RowText(Newline(pjson), attributes, Some(geometry), trailer))
    else Ok(RowText(Newline(pjson), attributes, None, trailer))
  }

  /** One row: its attributes, their dump, and its geometry. */
  method RowJson(desc: Description, fieldList: seq<string>, row: seq<Value>, pjson: bool, io: JsonIo, trailer: string)
    returns (r: Result<string, PyError>)
    requires fieldList == FieldList(desc)
    ensures r == RowOutput(desc, row, pjson, io, trailer)
  {
    var rowLenNoGeom := |fieldList| - (if HasGeometry(desc) then 1 else 0);
    var attributes := RowAttributes(fieldList, row, rowLenNoGeom);
    var attributesStr := io.dumps(VDict(attributes), Indent(pjson));
    if HasGeometry(desc) {
      var geometry := GeometryText(row, pjson, io);
      if geometry.Err? {
        return Err(geometry.error);
      }
      r := Ok(RowText(Newline(pjson), attributesStr, Some(geometry.value), trailer));
    } else {
      r := Ok(RowText(Newline(pjson), attributesStr, None, trailer));
    }
  }

  predicate AllWritten(desc: Description, rows: seq<seq<Value>>, pjson: bool, io: JsonIo, trailer: string) {
    forall k :: 0 <= k < |rows| ==> RowOutput(desc, rows[k], pjson, io, trailer).Ok?
  }

  /** The text of every row, for rows that are written whole. */
  function RowTexts(desc: Description, rows: seq<seq<Value>>, pjson: bool, io: JsonIo, trailer: string): (r: seq<string>)
    ensures |r| == |rows|
    decreases |rows|
  {
    if |rows| == 0 then []
    else
      var output := RowOutput(desc, rows[|rows| - 1], pjson, io, trailer);
      RowTexts(desc, rows[..|rows| - 1], pjson, io, trailer) + [if output.Ok? then output.value else ""]
  }

  lemma AllWrittenFront(desc: Description, rows: seq<seq<Value>>, pjson: bool, io: JsonIo, trailer: string, n: nat)
    requires n <= |rows|
    requires AllWritten(desc, rows, pjson, io, trailer)
    ensures AllWritten(desc, rows[..n], pjson, io, trailer)
  {
    forall k | 0 <= k < n
      ensures RowOutput(desc, rows[..n][k], pjson, io, trailer).Ok?
    {
      assert rows[..n][k] == rows[k];
    }
  }

  /** The features `ConvertFC2JSON` writes for `rows`: one row after the
      other, each but the first after a comma and a newline; a row whose
      geometry fails stops the writer after its comma. */
  function Features(desc: Description, rows: seq<seq<Value>>, pjson: bool, io: JsonIo): (r: (string, Option<PyError>))
    decreases |rows|
  {
    if |rows| == 0 then ("", None)
    else
      var before := Features(desc, rows[..|rows| - 1], pjson, io);
      if before.1.Some? then before
      else
        var separator := if |rows| > 1 then "," + Newline(pjson) else "";
        match RowOutput(desc, rows[|rows| - 1], pjson, io, "")
        case Ok(text) => (before.0 + separator + text, None)
        case Err(e) => (before.0 + separator, Some(e))
  }

  /** One more row: written after the comma when it is not the first. */
  lemma FeaturesNext(desc: Description, rows: seq<seq<Value>>, pjson: bool, io: JsonIo, k: nat)
    requires k < |rows|
    requires Features(desc, rows[..k], pjson, io).1.None?
    ensures var separator := if k > 0 then "," + Newline(pjson) else "";
      var done := Features(desc, rows[..k], pjson, io).0;
      Features(desc, rows[..k + 1], pjson, io)
      == match RowOutput(desc, rows[k], pjson, io, "")
         case Ok(text) => (done + separator + text, None)
         case Err(e) => (done + separator, Some(e))
  {
    assert rows[..k + 1][..k] == rows[..k];
  }

  /** When every row is written, the features are the row texts joined by
      a comma and a newline. */
  lemma {:induction false} FeaturesJoined(desc: Description, rows: seq<seq<Value>>, pjson: bool, io: JsonIo)
    requires AllWritten(desc, rows, pjson, io, "")
    ensures Features(desc, rows, pjson, io) == (Join(RowTexts(desc, rows, pjson, io, ""), "," + Newline(pjson)), None)
  {
    if |rows| > 0 {
      var front := rows[..|rows| - 1];
      AllWrittenFront(desc, rows, pjson, io, "", |rows| - 1);
      FeaturesJoined(desc, front, pjson, io);
      var text := RowOutput(desc, rows[|rows| - 1], pjson, io, "").value;
      var texts := RowTexts(desc, front, pjson, io, "");
      assert RowTexts(desc, rows, pjson, io, "") == texts + [text];
      JoinSnoc(texts, text, "," + Newline(pjson));
      if |rows| == 1 {
        assert "" + "" + text == text;
      }
    }
  }

  /** Once a row has failed, no later row changes what was written. */
  lemma {:induction false} FeaturesStopped(desc: Description, rows: seq<seq<Value>>, pjson: bool, io: JsonIo, m: nat)
    requires m <= |rows|
    requires Features(desc, rows[..m], pjson, io).1.Some?
    ensures Features(desc, rows, pjson, io) == Features(desc, rows[..m], pjson, io)
  {
    if m < |rows| {
      var front := rows[..|rows| - 1];
      assert front[..m] == rows[..m];
      FeaturesStopped(desc, front, pjson, io, m);
    } else {
      assert rows[..m] == rows;
    }
  }

  /** When row `k` is the first to fail, the rows before it are written,
      joined by commas, then the comma in front of row `k`, and its error is
      raised. */
  lemma FeaturesStop(desc: Description, rows: seq<seq<Value>>, pjson: bool, io: JsonIo, k: nat)
    requires k < |rows|
    requires AllWritten(desc, rows[..k], pjson, io, "")
    requires RowOutput(desc, rows[k], pjson, io, "").Err?
    ensures var separator := "," + Newline(pjson);
      Features(desc, rows, pjson, io)
      == (Join(RowTexts(desc, rows[..k], pjson, io, ""), separator) + (if k > 0 then separator else ""),
          Some(RowOutput(desc, rows[k], pjson, io, "").error))
  {
    var upTo := rows[..k + 1];
    assert upTo[..k] == rows[..k] && upTo[k] == rows[k];
    FeaturesJoined(desc, rows[..k], pjson, io);
    FeaturesStopped(desc, rows, pjson, io, k + 1);
  }

  /** The features `ConvertFC2JSONUnenclosed` writes for `rows`: each row
      ends with a newline, and nothing goes between rows or around them; a
      row whose geometry fails stops the writer. */
  function UnenclosedFeatures(desc: Description, rows: seq<seq<Value>>, pjson: bool, io: JsonIo): (r: (string, Option<PyError>))
    decreases |rows|
  {
    if |rows| == 0 then ("", None)
    else
      var before := UnenclosedFeatures(desc, rows[..|rows| - 1], pjson, io);
      if before.1.Some? then before
      else
        match RowOutput(desc, rows[|rows| - 1], pjson, io, Newline(pjson))
        case Ok(text) => (before.0 + text, None)
        case Err(e) => (before.0, Some(e))
  }

  /** When every row is written, the unenclosed output is the row texts,
      each ending with the newline, with nothing between them. */
  lemma {:induction false} UnenclosedConcat(desc: Description, rows: seq<seq<Value>>, pjson: bool, io: JsonIo)
    requires AllWritten(desc, rows, pjson, io, Newline(pjson))
    ensures UnenclosedFeatures(desc, rows, pjson, io) == (Concat(RowTexts(desc, rows, pjson, io, Newline(pjson))), None)
  {
    if |rows| > 0 {
      var front := rows[..|rows| - 1];
      AllWrittenFront(desc, rows, pjson, io, Newline(pjson), |rows| - 1);
      UnenclosedConcat(desc, front, pjson, io);
      var texts := RowTexts(desc, rows, pjson, io, Newline(pjson));
      assert texts[..|texts| - 1] == RowTexts(desc, front, pjson, io, Newline(pjson));
    }
  }

  /** The unenclosed rows are the enclosed ones, each followed by the
      newline. */
  lemma UnenclosedRowText(desc: Description, row: seq<Value>, pjson: bool, io: JsonIo)
    ensures var enclosed := RowOutput(desc, row, pjson, io, "");
      var unenclosed := RowOutput(desc, row, pjson, io, Newline(pjson));
      enclosed.Ok? == unenclosed.Ok?
      && (enclosed.Ok? ==> unenclosed.value == enclosed.value + Newline(pjson))
  {
    var nl := Newline(pjson);
    var a := io.dumps(VDict(Attributes(FieldList(desc), row, RowLength(desc))), Indent(pjson));
    if HasGeometry(desc) && GeometryText(row, pjson, io).Ok? {
      var g := GeometryText(row, pjson, io).value;
      var s0 := "}";
      var s1 := nl + s0;
      var s2 := g + s1;
      var s3 := "\"geometry\": " + s2;
      var s4 := nl + s3;
      var s5 := "," + s4;
      var s6 := a + s5;
      var s7 := "\"attributes\": " + s6;
      var s8 := nl + s7;
      assert s0 + "" == s0;
      AppendAssoc("}", "", nl);
      AppendAssoc(nl, s0, nl);
      AppendAssoc(g, s1, nl);
      AppendAssoc("\"geometry\": ", s2, nl);
      AppendAssoc(nl, s3, nl);
      AppendAssoc(",", s4, nl);
      AppendAssoc(a, s5, nl);
      AppendAssoc("\"attributes\": ", s6, nl);
      AppendAssoc(nl, s7, nl);
      AppendAssoc("{", s8, nl);
    } else if !HasGeometry(desc) {
      var s0 := "}";
      var s1 := nl + s0;
      var s2 := a + s1;
      var s3 := "\"attributes\": " + s2;
      var s4 := nl + s3;
      assert s0 + "" == s0;
      AppendAssoc("}", "", nl);
      AppendAssoc(nl, s0, nl);
      AppendAssoc(a, s1, nl);
      AppendAssoc("\"attributes\": ", s2, nl);
      AppendAssoc(nl, s3, nl);
      AppendAssoc("{", s4, nl);
    }
  }

  /** Once a row has failed, no later row changes what was written. */
  lemma {:induction false} UnenclosedStopped(desc: Description, rows: seq<seq<Value>>, pjson: bool, io: JsonIo, m: nat)
    requires m <= |rows|
    requires UnenclosedFeatures(desc, rows[..m], pjson, io).1.Some?
    ensures UnenclosedFeatures(desc, rows, pjson, io) == UnenclosedFeatures(desc, rows[..m], pjson, io)
  {
    if m < |rows| {
      var front := rows[..|rows| - 1];
      assert front[..m] == rows[..m];
      UnenclosedStopped(desc, front, pjson, io, m);
    } else {
      assert rows[..m] == rows;
    }
  }

  // ---------------------------------------------------------------------
  // The whole document

  function BoolText(b: bool): string {
    if b then "true" else "false"
  }

  /** The Z, M and spatial reference lines, for a feature class only. */
  function GeometryHeader(desc: Description, nl: string): string {
    if HasGeometry(desc) then
      "\"hasZ\": " + BoolText(desc.hasZ) + "," + nl
      + ("\"hasM\": " + BoolText(desc.hasM) + "," + nl)
      + ("\"spatialReference\": {\"wkid\":" + IntToString(desc.factoryCode) + "}," + nl)
    else ""
  }

  /** Everything `ConvertFC2JSON` writes before the first feature. */
  function Header(desc: Description, pjson: bool, io: JsonIo): string {
    var nl := Newline(pjson);
    "{" + nl
    + ("\"fields\": " + io.dumps(VList(FieldRecords(desc.fields)), Indent(pjson)) + "," + nl)
    + GeometryHeader(desc, nl)
    + ("\"features\": [" + nl)
  }

  /** What `ConvertFC2JSON` writes, and the error it raises, if any. */
  function Document(desc: Description, rows: seq<seq<Value>>, pjson: bool, io: JsonIo): (string, Option<PyError>) {
    var features := Features(desc, rows, pjson, io);
    if features.1.Some? then (Header(desc, pjson, io) + features.0, features.1)
    else (Header(desc, pjson, io) + features.0 + ("]" + Newline(pjson)) + "}", None)
  }

  /** When every row is written, the document is the header, the rows
      joined by a comma and a newline, then the closing bracket and brace. */
  lemma DocumentWritten(desc: Description, rows: seq<seq<Value>>, pjson: bool, io: JsonIo)
    requires AllWritten(desc, rows, pjson, io, "")
    ensures var nl := Newline(pjson);
      Document(desc, rows, pjson, io)
      == (Header(desc, pjson, io) + Join(RowTexts(desc, rows, pjson, io, ""), "," + nl) + ("]" + nl) + "}", None)
  {
    FeaturesJoined(desc, rows, pjson, io);
  }

  /** The file the writers append to. */
  class OutputFile {
    var written: string

    constructor()
      ensures written == []
    {
      written := [];
    }

    method Write(s: string)
      modifies this
      ensures written == old(written) + s
    {
      written := written + s;
    }
  }

  /** The opening brace, the field records, the Z, M and spatial reference
      lines of a feature class, and the opening of the features array. */
  method WriteHeader(desc: Description, out: OutputFile, pjson: bool, io: JsonIo)
    modifies out
    ensures out.written == old(out.written) + Header(desc, pjson, io)
  {
    var nl := Newline(pjson);
    ghost var start := out.written;
    out.Write("{" + nl);
    var fieldsJsonString := DumpFields2JsonStr(desc.fields, pjson, io.dumps);
    var fieldsLine := "\"fields\": " + fieldsJsonString + "," + nl;
    out.Write(fieldsLine);
    AppendAssoc(start, "{" + nl, fieldsLine);
    ghost var fieldsDone := out.written;
    if HasGeometry(desc) {
      var zLine := "\"hasZ\": " + BoolText(desc.hasZ) + "," + nl;
      var mLine := "\"hasM\": " + BoolText(desc.hasM) + "," + nl;
      var srLine := "\"spatialReference\": {\"wkid\":" + IntToString(desc.factoryCode) + "}," + nl;
      out.Write(zLine);
      out.Write(mLine);
      out.Write(srLine);
      AppendAssoc(fieldsDone, zLine, mLine);
      AppendAssoc(fieldsDone, zLine + mLine, srLine);
    }
    var geometryLines := GeometryHeader(desc, nl);
    assert out.written == start + ("{" + nl + fieldsLine) + geometryLines;
    var featuresLine := "\"features\": [" + nl;
    out.Write(featuresLine);
    assert Header(desc, pjson, io) == "{" + nl + fieldsLine + geometryLines + featuresLine;
    AppendAssoc(start, "{" + nl + fieldsLine, geometryLines);
    AppendAssoc(start, "{" + nl + fieldsLine + geometryLines, featuresLine);
  }

  /** The row loop of `ConvertFC2JSON`: a comma and a newline before every
      row but the first, then the row; the first row whose geometry fails
      stops the loop. */
  method WriteFeatures(desc: Description, fieldList: seq<string>, rows: seq<seq<Value>>, out: OutputFile, pjson: bool, io: JsonIo)
    returns (error: Option<PyError>)
    requires fieldList == FieldList(desc)
    modifies out
    ensures out.written == old(out.written) + Features(desc, rows, pjson, io).0
    ensures error == Features(desc, rows, pjson, io).1
  {
    var nl := Newline(pjson);
    ghost var start := out.written;
    var addComma := false;
    var k := 0;
    while k < |rows|
      invariant 0 <= k <= |rows|
      invariant addComma == (k > 0)
      invariant Features(desc, rows[..k], pjson, io).1 == None
      invariant out.written == start + Features(desc, rows[..k], pjson, io).0
    {
      ghost var done := Features(desc, rows[..k], pjson, io).0;
      FeaturesNext(desc, rows, pjson, io, k);
      var separator := if addComma then "," + nl else "";
      if addComma {
        out.Write("," + nl);
      } else {
        addComma := true;
        assert out.written + separator == out.written;
      }
      AppendAssoc(start, done, separator);
      var rowJsonStr := RowJson(desc, fieldList, rows[k], pjson, io, "");
      if rowJsonStr.Err? {
        FeaturesStopped(desc, rows, pjson, io, k + 1);
        return Some(rowJsonStr.error);
      }
      out.Write(rowJsonStr.value);
      AppendAssoc(start, done + separator, rowJsonStr.value);
      k := k + 1;
    }
    assert rows[..k] == rows;
    error := None;
  }

  /** `ConvertFC2JSON`: writes the document, or stops at the first row whose
      geometry fails, leaving in the file what was written before. */
  method ConvertFc2Json(desc: Description, rows: seq<seq<Value>>, out: OutputFile, pjson: bool, io: JsonIo)
    returns (error: Option<PyError>)
    modifies out
    ensures out.written == old(out.written) + Document(desc, rows, pjson, io).0
    ensures error == Document(desc, rows, pjson, io).1
  {
    var nl := Newline(pjson);
    ghost var start := out.written;
    WriteHeader(desc, out, pjson, io);
    var fieldList := BuildFieldList(desc);
    ghost var head := Header(desc, pjson, io);
    error := WriteFeatures(desc, fieldList, rows, out, pjson, io);
    ghost var features := Features(desc, rows, pjson, io).0;
    AppendAssoc(start, head, features);
    if error.Some? {
      return;
    }
    out.Write("]" + nl);
    out.Write("}");
    AppendAssoc(start, head + features, "]" + nl);
    AppendAssoc(start, head + features + ("]" + nl), "}");
  }

  /** `ConvertFC2JSONUnenclosed`: writes the features alone, or stops at the
      first row whose geometry fails. */
  method ConvertFc2JsonUnenclosed(desc: Description, rows: seq<seq<Value>>, out: OutputFile, pjson: bool, io: JsonIo)
    returns (error: Option<PyError>)
    modifies out
    ensures out.written == old(out.written) + UnenclosedFeatures(desc, rows, pjson, io).0
    ensures error == UnenclosedFeatures(desc, rows, pjson, io).1
  {
    var nl := Newline(pjson);
    ghost var start := out.written;
    var fieldList := BuildFieldList(desc);
    var k := 0;
    while k < |rows|
      invariant 0 <= k <= |rows|
      invariant UnenclosedFeatures(desc, rows[..k], pjson, io).1 == None
      invariant out.written == start + UnenclosedFeatures(desc, rows[..k], pjson, io).0
    {
      assert rows[..k + 1][..k] == rows[..k];
      var rowJsonStr := RowJson(desc, fieldList, rows[k], pjson, io, nl);
      if rowJsonStr.Err? {
        UnenclosedStopped(desc, rows, pjson, io, k + 1);
        return Some(rowJsonStr.error);
      }
      out.Write(rowJsonStr.value);
      AppendAssoc(start, UnenclosedFeatures(desc, rows[..k], pjson, io).0, rowJsonStr.value);
      k := k + 1;
    }
    assert rows[..k] == rows;
    error := None;
  }
}
