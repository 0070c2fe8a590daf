/**
 * runway.js: the local record store. Record classes are registered by name; records are turned
 * into SQL statement text field by field and raw result rows are turned back into records.
 * Statements go to the storage driver through `executeSql`, which is modelled by a log of the
 * statements issued and a `query` oracle giving the rows a statement returns.
 */
module Runway {
  import opened Values
  import opened Dicts
  import opened Strings
  import opened Model

  /** The JavaScript type the store reads a field as: 'object', 'string' or 'number'. */
  datatype JsType = JsObject | JsString | JsNumber

  /** A raw result row: column name to the scalar the driver returned. */
  type Row = Dict<Value>

  /** `getSqlFieldType`: the column type; `None` is the `undefined` the source falls through to. */
  function SqlFieldType(kind: Kind): Option<string>
  {
    match kind
    case ListKind => Some("TEXT")
    case Irreducible(name) =>
      if name == "String" then Some("TEXT")
      else if name == "Number" then Some("Integer")
      else None
  }

  /** `getJSFieldType`. */
  function JsFieldType(kind: Kind): Option<JsType>
  {
    if kind.ListKind? || kind.name == "Object" then Some(JsObject)
    else if kind.name == "String" then Some(JsString)
    else if kind.name == "Number" then Some(JsNumber)
    else None
  }

  /**
   * The column type and the JavaScript type agree: numbers live in `Integer` columns, strings
   * and lists in `TEXT` columns, and every kind with a column type is read back as some type.
   * The one 'object' kind without a column type is the irreducible `Object`.
   */
  lemma ColumnTypeMatchesJsType(kind: Kind)
    ensures SqlFieldType(kind) == Some("Integer") <==> JsFieldType(kind) == Some(JsNumber)
    ensures SqlFieldType(kind) == Some("TEXT") <==> JsFieldType(kind) in {Some(JsString), Some(JsObject)} && kind != ObjectKind
    ensures SqlFieldType(kind).None? <==> JsFieldType(kind).None? || kind == ObjectKind
  {
  }

  /** `getFieldSql`: `name type`, the template literal writing a missing type as 'undefined'. */
  function FieldSql(name: string, kind: Kind): string
  {
    name + " " + match SqlFieldType(kind) case Some(t) => t case None => "undefined"
  }

  /**
   * `formatFieldValueForSql`: strings are wrapped in single quotes without any escaping, numbers
   * are returned as they are (still values, not text), objects are JSON-encoded (by `json`) and
   * quoted; any other type throws. The statement builders turn the result into text.
   */
  function FormatFieldValue(value: Value, t: Option<JsType>, json: Value -> string): (r: Result<Value>)
    ensures r.Err? <==> t.None?
    ensures r.Err? ==> r.error == UnknownType
    ensures t == Some(JsString) ==> r.value == Str("'" + ToText(value) + "'")
    ensures t == Some(JsNumber) ==> r.value == value
    ensures t == Some(JsObject) ==> r.value == Str("'" + json(value) + "'")
  {
    match t
    case Some(JsString) => Ok(Str("'" + ToText(value) + "'"))
    case Some(JsNumber) => Ok(value)
    case Some(JsObject) => Ok(Str("'" + json(value) + "'"))
    case None => Err(UnknownType)
  }

  /**
   * A number field left undefined or null is written as nothing by the join of an insert, but as
   * 'undefined' or 'null' by the template of the other statements.
   */
  lemma MissingNumberLiterals(json: Value -> string)
    ensures JoinElement(FormatFieldValue(Undefined, Some(JsNumber), json).value) == ""
    ensures ToText(FormatFieldValue(Undefined, Some(JsNumber), json).value) == "undefined"
    ensures JoinElement(FormatFieldValue(Null, Some(JsNumber), json).value) == ""
    ensures ToText(FormatFieldValue(Null, Some(JsNumber), json).value) == "null"
  {
  }

  /** How the database reads back a literal the store wrote: a quoted string or a decimal integer. */
  function ReadLiteral(lit: string): Option<Value>
  {
    if |lit| >= 2 && lit[0] == '\'' && lit[|lit| - 1] == '\'' then
      if '\'' in lit[1..|lit| - 1] then None else Some(Str(lit[1..|lit| - 1]))
    else if |lit| > 0 && AllDigits(lit) then Some(Num(DigitsValue(lit)))
    else if |lit| > 1 && lit[0] == '-' && AllDigits(lit[1..]) then Some(Num(-(DigitsValue(lit[1..]) as int)))
    else None
  }

  /**
   * `unpackRecord`'s conversion of one raw column value by the field's JavaScript type. `parse`
   * is `JSON.parse`, `None` where it throws.
   */
  function UnpackValue(raw: Value, t: Option<JsType>, parse: string -> Option<Value>): (r: Result<Value>)
    ensures r.Err? <==> t == Some(JsObject) && parse(ToText(raw)).None?
    ensures r.Err? ==> r.error == JsonSyntaxError
  {
    match t
    case Some(JsObject) => (match parse(ToText(raw)) case Some(v) => Ok(v) case None => Err(JsonSyntaxError))
    case Some(JsString) => Ok(raw)
    case Some(JsNumber) => Ok(ToNumber(raw))
    case None => Ok(Undefined)
  }

  /**
   * Writing a value as a literal and unpacking what the database reads back gives the value
   * again: a string without a quote in it, any integer, and an object whose JSON text has no
   * quote and parses back to it.
   */
  lemma LiteralRoundTrip(value: Value, t: JsType, json: Value -> string, parse: string -> Option<Value>)
    requires t == JsString ==> value.Str? && '\'' !in value.s
    requires t == JsNumber ==> value.Num?
    requires t == JsObject ==> '\'' !in json(value) && parse(json(value)) == Some(value)
    ensures var lit := ToText(FormatFieldValue(value, Some(t), json).value);
      && JoinElement(FormatFieldValue(value, Some(t), json).value) == lit
      && ReadLiteral(lit).Some? && UnpackValue(ReadLiteral(lit).value, Some(t), parse) == Ok(value)
  {
    var lit := ToText(FormatFieldValue(value, Some(t), json).value);
    match t
    case JsString =>
      assert lit[1..|lit| - 1] == value.s;
    case JsObject =>
      assert lit[1..|lit| - 1] == json(value);
    case JsNumber =>
      var n := value.n;
      if n >= 0 {
        DigitsValueOfNatToString(n);
        assert ReadLiteral(lit) == Some(Num(n));
      } else {
        DigitsValueOfNatToString(-n);
        assert lit[1..] == NatToString(-n);
        assert !IsDigit(lit[0]);
        assert ReadLiteral(lit) == Some(Num(n));
      }
  }

  /** Because nothing is escaped, a string holding a quote does not come back as one literal. */
  lemma QuoteBreaksStringLiteral(s: string, json: Value -> string)
    requires '\'' in s
    ensures ReadLiteral(ToText(FormatFieldValue(Str(s), Some(JsString), json).value)).None?
  {
    var lit := ToText(FormatFieldValue(Str(s), Some(JsString), json).value);
    assert lit[1..|lit| - 1] == s;
    assert !AllDigits(lit) by { assert !IsDigit(lit[0]); }
  }

  /** The column definitions of `getCreateTableSql`, one per declared field, in declaration order. */
  function ColumnDefs(props: Props): (r: seq<string>)
    ensures |r| == |props|
    ensures forall i :: 0 <= i < |props| ==> r[i] == FieldSql(props[i].0, props[i].1)
  {
    seq(|props|, i requires 0 <= i < |props| => FieldSql(props[i].0, props[i].1))
  }

  function CreateTableSql(rc: RecordClass): string
  {
    "CREATE TABLE IF NOT EXISTS " + ToLower(rc.name) + " (" + Join(", ", ColumnDefs(rc.props)) + ")"
  }

  /** `getRecordClassJSFieldTypes`: each declared field's JavaScript type, assigned in field order. */
  function JsFieldTypes(props: Props): Dict<Option<JsType>>
  {
    if props == [] then []
    else Put(JsFieldTypes(props[..|props| - 1]), props[|props| - 1].0, JsFieldType(props[|props| - 1].1))
  }

  /** For a declaration with distinct names, the types are listed field for field. */
  lemma {:induction false} JsFieldTypesOfDistinct(props: Props)
    requires DistinctKeys(props)
    ensures Keys(JsFieldTypes(props)) == Keys(props)
    ensures forall i :: 0 <= i < |props| ==> JsFieldTypes(props)[i].1 == JsFieldType(props[i].1)
  {
    if props != [] {
      var init := props[..|props| - 1];
      JsFieldTypesOfDistinct(init);
      assert props[|props| - 1].0 !in Keys(init);
      PutNew(JsFieldTypes(init), props[|props| - 1].0, JsFieldType(props[|props| - 1].1));
      assert props == init + [props[|props| - 1]];
    }
  }

  /** The type `field_types[field_name]` gives, a field outside the class reading as undefined. */
  function TypeOf(types: Dict<Option<JsType>>, field: string): Option<JsType>
  {
    match Get(types, field) case Some(t) => t case None => None
  }

  /**
   * `getRecordFieldValuesForSql`: each key of `record`, in key order, with its value formatted
   * by the field's type; the first key without a type throws.
   */
  function FieldValuesForSql(record: Dict<Value>, types: Dict<Option<JsType>>, json: Value -> string): (r: Result<Dict<Value>>)
    ensures r.Ok? <==> forall i :: 0 <= i < |record| ==> TypeOf(types, record[i].0).Some?
    ensures r.Err? ==> r.error == UnknownType
  {
    if record == [] then Ok([])
    else
      var last := record[|record| - 1];
      match FieldValuesForSql(record[..|record| - 1], types, json)
      case Err(e) => Err(e)
      case Ok(fv) =>
        match FormatFieldValue(last.1, TypeOf(types, last.0), json)
        case Err(e) => Err(e)
        case Ok(lit) => Ok(Put(fv, last.0, lit))
  }

  /** For a record with distinct keys the formatted values are listed key for key. */
  lemma {:induction false} FieldValuesOfDistinct(record: Dict<Value>, types: Dict<Option<JsType>>, json: Value -> string)
    requires DistinctKeys(record)
    requires FieldValuesForSql(record, types, json).Ok?
    ensures var fv := FieldValuesForSql(record, types, json).value;
      && Keys(fv) == Keys(record)
      && forall i :: 0 <= i < |record| ==> fv[i].1 == FormatFieldValue(record[i].1, TypeOf(types, record[i].0), json).value
  {
    if record != [] {
      var init := record[..|record| - 1];
      assert FieldValuesForSql(init, types, json).Ok? by {
        forall i | 0 <= i < |init| ensures TypeOf(types, init[i].0).Some? {
          assert init[i] == record[i];
        }
      }
      FieldValuesOfDistinct(init, types, json);
      var fv := FieldValuesForSql(init, types, json).value;
      assert record[|record| - 1].0 !in Keys(init);
      var lit := FormatFieldValue(record[|record| - 1].1, TypeOf(types, record[|record| - 1].0), json).value;
      PutNew(fv, record[|record| - 1].0, lit);
      assert record == init + [record[|record| - 1]];
    }
  }

  /** A failure on a prefix of the keys is the failure of the whole record. */
  lemma {:induction false} FieldValuesErrPrefix(record: Dict<Value>, n: nat, types: Dict<Option<JsType>>, json: Value -> string)
    requires n <= |record|
    requires FieldValuesForSql(record[..n], types, json).Err?
    ensures FieldValuesForSql(record, types, json) == FieldValuesForSql(record[..n], types, json)
    decreases |record| - n
  {
    if n < |record| {
      assert record[..n + 1][..n] == record[..n];
      FieldValuesErrPrefix(record, n + 1, types, json);
    } else {
      assert record[..n] == record;
    }
  }

  /** The raw column `field` of `row`, undefined when the row lacks it. */
  function Column(row: Row, field: string): Value
  {
    match Get(row, field) case Some(v) => v case None => Undefined
  }

  /**
   * The field values `unpackRecord` collects: one per typed field, in field order; the first
   * column `JSON.parse` rejects ends it with that error.
   */
  function Unpacked(row: Row, types: Dict<Option<JsType>>, parse: string -> Option<Value>): (r: Result<Dict<Value>>)
    ensures r.Ok? <==> forall i :: 0 <= i < |types| ==> UnpackValue(Column(row, types[i].0), types[i].1, parse).Ok?
    ensures r.Err? ==> r.error == JsonSyntaxError
  {
    if types == [] then Ok([])
    else
      var last := types[|types| - 1];
      match Unpacked(row, types[..|types| - 1], parse)
      case Err(e) => Err(e)
      case Ok(d) =>
        match UnpackValue(Column(row, last.0), last.1, parse)
        case Err(e) => Err(e)
        case Ok(v) => Ok(Put(d, last.0, v))
  }

  /** A failure on a prefix of the fields is the failure of the whole row. */
  lemma {:induction false} UnpackedErrPrefix(row: Row, types: Dict<Option<JsType>>, n: nat, parse: string -> Option<Value>)
    requires n <= |types|
    requires Unpacked(row, types[..n], parse).Err?
    ensures Unpacked(row, types, parse) == Unpacked(row, types[..n], parse)
    decreases |types| - n
  {
    if n < |types| {
      assert types[..n + 1][..n] == types[..n];
      UnpackedErrPrefix(row, types, n + 1, parse);
    } else {
      assert types[..n] == types;
    }
  }

  lemma {:induction false} UnpackedOfDistinct(row: Row, types: Dict<Option<JsType>>, parse: string -> Option<Value>)
    requires DistinctKeys(types)
    requires Unpacked(row, types, parse).Ok?
    ensures var u := Unpacked(row, types, parse).value;
      && Keys(u) == Keys(types)
      && DistinctKeys(u)
      && forall i :: 0 <= i < |types| ==> u[i].1 == UnpackValue(Column(row, types[i].0), types[i].1, parse).value
  {
    if types != [] {
      var init := types[..|types| - 1];
      var last := types[|types| - 1];
      assert Unpacked(row, init, parse).Ok? by {
        forall i | 0 <= i < |init| ensures UnpackValue(Column(row, init[i].0), init[i].1, parse).Ok? {
          assert init[i] == types[i];
        }
      }
      UnpackedOfDistinct(row, init, parse);
      assert last.0 !in Keys(init);
      var v := UnpackValue(Column(row, last.0), last.1, parse).value;
      PutNew(Unpacked(row, init, parse).value, last.0, v);
      assert types == init + [last];
    }
  }

  /** The record `unpackRecord` returns for a raw row, or the error of a column `JSON.parse` rejects. */
  function RecordFromRow(rc: RecordClass, row: Row, parse: string -> Option<Value>, now: int): (r: Result<Record>)
    ensures r.Err? ==> r.error == JsonSyntaxError
  {
    match Unpacked(row, JsFieldTypes(rc.props), parse)
    case Err(e) => Err(e)
    case Ok(attrs) => Ok(Construct(rc, attrs, now))
  }

  /**
   * `unpackRecord` fails exactly when `JSON.parse` rejects an object column. Otherwise the record
   * has every declared field, in declaration order, converted from the row by its type; since
   * every field is supplied, the constructor's defaults never show.
   */
  lemma UnpackedRecordFields(rc: RecordClass, row: Row, parse: string -> Option<Value>, now: int)
    requires DistinctKeys(rc.props)
    ensures var r := RecordFromRow(rc, row, parse, now);
      && (r.Ok? <==> forall i :: 0 <= i < |rc.props| ==>
            UnpackValue(Column(row, rc.props[i].0), JsFieldType(rc.props[i].1), parse).Ok?)
      && (r.Err? ==> r.error == JsonSyntaxError)
      && (r.Ok? ==>
            && Keys(r.value) == Keys(rc.props)
            && forall i :: 0 <= i < |rc.props| ==>
                 r.value[i].1 == UnpackValue(Column(row, rc.props[i].0), JsFieldType(rc.props[i].1), parse).value)
  {
    var types := JsFieldTypes(rc.props);
    JsFieldTypesOfDistinct(rc.props);
    DistinctKeysTransfer(rc.props, types);
    assert forall i :: 0 <= i < |rc.props| ==> types[i] == (rc.props[i].0, JsFieldType(rc.props[i].1)) by {
      forall i | 0 <= i < |rc.props| ensures types[i] == (rc.props[i].0, JsFieldType(rc.props[i].1)) {
        assert Keys(types)[i] == Keys(rc.props)[i];
      }
    }
    if Unpacked(row, types, parse).Ok? {
      var attrs := Unpacked(row, types, parse).value;
      UnpackedOfDistinct(row, types, parse);
      forall i | 0 <= i < |rc.props|
        ensures Construct(rc, attrs, now)[i].1 == UnpackValue(Column(row, rc.props[i].0), JsFieldType(rc.props[i].1), parse).value
      {
        ConstructedField(rc, attrs, now, i);
        assert Keys(attrs)[i] == rc.props[i].0;
        GetDistinctAt(attrs, i);
      }
      if rc.props != [] {
        ConstructedField(rc, attrs, now, 0);
      }
    }
  }

  /** `field = value` for each entry, in order, the value written as the template literal writes it. */
  function Assignments(fv: Dict<Value>): (r: seq<string>)
    ensures |r| == |fv|
    ensures forall i :: 0 <= i < |fv| ==> r[i] == fv[i].0 + " = " + ToText(fv[i].1)
  {
    seq(|fv|, i requires 0 <= i < |fv| => fv[i].0 + " = " + ToText(fv[i].1))
  }

  /** The literal the WHERE clause compares the index with; a record without it gives 'undefined'. */
  function IndexLiteral(fv: Dict<Value>, indexKey: string): string
  {
    ToText(Column(fv, indexKey))
  }

  /** The values of an insert go through `join`, which writes undefined and null as nothing. */
  function InsertSql(className: string, types: Dict<Option<JsType>>, fv: Dict<Value>): string
  {
    "INSERT INTO " + className + " (" + Join(", ", Keys(types)) + ") VALUES (" + JoinValues(", ", Vals(fv)) + ")"
  }

  function UpdateSql(className: string, indexKey: string, fv: Dict<Value>): string
  {
    "UPDATE " + className + " SET " + Join(", ", Assignments(Without(fv, [indexKey])))
      + " WHERE " + indexKey + " = " + IndexLiteral(fv, indexKey)
  }

  function DeleteSql(className: string, indexKey: string, fv: Dict<Value>): string
  {
    "DELETE FROM " + className + " WHERE " + indexKey + " = " + IndexLiteral(fv, indexKey)
  }

  function FindSql(className: string, fv: Dict<Value>): string
  {
    "SELECT * FROM " + className + " WHERE " + Join(" AND ", Assignments(fv))
  }

  /**
   * The SET list of an update never mentions the index key; every other field appears once,
   * in key order, and the WHERE literal is the text of the record's own index value.
   */
  lemma UpdateSetList(fv: Dict<Value>, indexKey: string)
    requires DistinctKeys(fv)
    ensures var set_ := Without(fv, [indexKey]);
      && (forall i :: 0 <= i < |set_| ==> set_[i].0 != indexKey && set_[i] in fv)
      && (forall i :: 0 <= i < |fv| && fv[i].0 != indexKey ==> fv[i] in set_)
      && |set_| == (if indexKey in Keys(fv) then |fv| - 1 else |fv|)
      && (indexKey in Keys(fv) ==>
            (indexKey, Get(fv, indexKey).value) in fv && IndexLiteral(fv, indexKey) == ToText(Get(fv, indexKey).value))
      && (indexKey !in Keys(fv) ==> IndexLiteral(fv, indexKey) == "undefined")
  {
    WithoutOneLength(fv, indexKey);
  }

  /** The records `findRecords` returns for the rows its query answers: one per row, or the first row's unpacking error. */
  function FoundRecords(rc: RecordClass, rows: seq<Row>, parse: string -> Option<Value>, now: int): Result<seq<Record>>
  {
    Collect(seq(|rows|, i requires 0 <= i < |rows| => RecordFromRow(rc, rows[i], parse, now)))
  }

  /**
   * The found records are the rows unpacked one by one, in row order; an error is a `JSON.parse`
   * failure of some row, every row before it unpacking cleanly.
   */
  lemma FoundRecordsResult(rc: RecordClass, rows: seq<Row>, parse: string -> Option<Value>, now: int)
    ensures var r := FoundRecords(rc, rows, parse, now);
      && (r.Ok? ==>
            && |r.value| == |rows|
            && forall i :: 0 <= i < |rows| ==> RecordFromRow(rc, rows[i], parse, now) == Ok(r.value[i]))
      && (r.Err? ==>
            && r.error == JsonSyntaxError
            && exists i :: 0 <= i < |rows| && RecordFromRow(rc, rows[i], parse, now).Err? &&
                 forall j :: 0 <= j < i ==> RecordFromRow(rc, rows[j], parse, now).Ok?)
  {
    var results := seq(|rows|, i requires 0 <= i < |rows| => RecordFromRow(rc, rows[i], parse, now));
    var r := Collect(results);
    assert FoundRecords(rc, rows, parse, now) == r;
    CollectResult(results);
    if r.Err? {
      var i :| 0 <= i < |results| && results[i] == Err(r.error) && forall j :: 0 <= j < i ==> results[j].Ok?;
      assert RecordFromRow(rc, rows[i], parse, now).Err?;
      forall j | 0 <= j < i ensures RecordFromRow(rc, rows[j], parse, now).Ok? {
        assert results[j].Ok?;
      }
    } else {
      forall i | 0 <= i < |rows| ensures RecordFromRow(rc, rows[i], parse, now) == Ok(r.value[i]) {
        assert results[i] == Ok(r.value[i]);
      }
    }
  }

  /** Dropping one key from an object with distinct keys shortens it by one exactly when the key is there. */
  lemma {:induction false} WithoutOneLength<V>(fv: Dict<V>, k: string)
    requires DistinctKeys(fv)
    ensures |Without(fv, [k])| == if k in Keys(fv) then |fv| - 1 else |fv|
  {
    if fv != [] {
      KeysCons(fv);
      WithoutOneLength(fv[1..], k);
      if fv[0].0 == k {
        assert k !in Keys(fv[1..]);
      }
    }
  }

  /**
   * An insert of a record whose keys are the declared fields names the columns and the values
   * pairwise: the i-th column is the i-th field and the i-th value is that field's literal.
   */
  lemma InsertColumnsMatchValues(rc: RecordClass, record: Record, json: Value -> string)
    requires DistinctKeys(rc.props) && Keys(record) == Keys(rc.props)
    requires FieldValuesForSql(record, JsFieldTypes(rc.props), json).Ok?
    ensures var types := JsFieldTypes(rc.props);
      var fv := FieldValuesForSql(record, types, json).value;
      && |Keys(types)| == |Vals(fv)| == |rc.props|
      && forall i :: 0 <= i < |rc.props| ==>
           && Keys(types)[i] == rc.props[i].0
           && JsFieldType(rc.props[i].1).Some?
           && Vals(fv)[i] == FormatFieldValue(record[i].1, JsFieldType(rc.props[i].1), json).value
  {
    var types := JsFieldTypes(rc.props);
    JsFieldTypesOfDistinct(rc.props);
    DistinctKeysTransfer(rc.props, record);
    DistinctKeysTransfer(rc.props, types);
    FieldValuesOfDistinct(record, types, json);
    forall i | 0 <= i < |rc.props| ensures TypeOf(types, record[i].0) == JsFieldType(rc.props[i].1) {
      assert Keys(record)[i] == Keys(types)[i];
      GetDistinctAt(types, i);
    }
  }

  /** `getRecordClassByName`: the registered class, or the error for a name never registered. */
  function LookupClass(classes: map<string, RecordClass>, className: string): (r: Result<RecordClass>)
    ensures r.Ok? <==> className in classes
    ensures r.Ok? ==> r.value == classes[className]
    ensures r.Err? ==> r.error == NoRecordClass(className)
  {
    if className in classes then Ok(classes[className]) else Err(NoRecordClass(className))
  }

  /** `getInsertRecordSql`. */
  function InsertStatement(classes: map<string, RecordClass>, className: string, record: Record, json: Value -> string): (r: Result<string>)
    ensures r.Ok? ==> className in classes
  {
    if className == "" then Err(MissingClassName)
    else match LookupClass(classes, className)
      case Err(e) => Err(e)
      case Ok(rc) =>
        var types := JsFieldTypes(rc.props);
        match FieldValuesForSql(record, types, json)
        case Err(e) => Err(e)
        case Ok(fv) => Ok(InsertSql(className, types, fv))
  }

  /** `getUpdateRecordSql`. */
  function UpdateStatement(classes: map<string, RecordClass>, className: string, record: Record, json: Value -> string): (r: Result<string>)
    ensures r.Ok? ==> className in classes
  {
    if className == "" then Err(MissingClassName)
    else match LookupClass(classes, className)
      case Err(e) => Err(e)
      case Ok(rc) =>
        match FieldValuesForSql(record, JsFieldTypes(rc.props), json)
        case Err(e) => Err(e)
        case Ok(fv) => Ok(UpdateSql(className, rc.indexKey, fv))
  }

  /** `getDeleteRecordSql`. */
  function DeleteStatement(classes: map<string, RecordClass>, className: string, record: Record, json: Value -> string): (r: Result<string>)
    ensures r.Ok? ==> className in classes
  {
    match LookupClass(classes, className)
    case Err(e) => Err(e)
    case Ok(rc) =>
      match FieldValuesForSql(record, JsFieldTypes(rc.props), json)
      case Err(e) => Err(e)
      case Ok(fv) => Ok(DeleteSql(className, rc.indexKey, fv))
  }

  /** `getFindRecordSql`. */
  function FindStatement(classes: map<string, RecordClass>, className: string, fields: Dict<Value>, json: Value -> string): (r: Result<string>)
    ensures r.Ok? ==> className in classes
  {
    match LookupClass(classes, className)
    case Err(e) => Err(e)
    case Ok(rc) =>
      match FieldValuesForSql(fields, JsFieldTypes(rc.props), json)
      case Err(e) => Err(e)
      case Ok(fv) => Ok(FindSql(className, fv))
  }

  /** The query `exists` runs (also `getRecordExistsSql`): a find on the index key alone. */
  function ExistsStatement(classes: map<string, RecordClass>, className: string, indexValue: Value, json: Value -> string): (r: Result<string>)
    ensures r.Ok? ==> className in classes
  {
    match LookupClass(classes, className)
    case Err(e) => Err(e)
    case Ok(rc) => FindStatement(classes, className, [(rc.indexKey, indexValue)], json)
  }

  /** The statement `saveRecord` runs after `exists`: an insert when the record exists, an update when it does not. */
  function SaveStatement(classes: map<string, RecordClass>, className: string, record: Record, json: Value -> string, exists_: bool): (r: Result<string>)
    ensures r.Ok? ==> className in classes
  {
    if exists_ then InsertStatement(classes, className, record, json) else UpdateStatement(classes, className, record, json)
  }

  class RunWay {
    const name: string
    /** `_RecordClasses`: the registered classes by name. */
    var recordClasses: map<string, RecordClass>
    /** Every statement handed to `executeSql`, oldest first. */
    var executed: seq<string>

    constructor (name: string)
      ensures this.name == name && recordClasses == map[] && executed == []
    {
      this.name := name;
      recordClasses := map[];
      executed := [];
    }

    /** `executeSql`: the statement goes to the driver, whose answer `query` gives. */
    method ExecuteSql(sql: string, query: string -> seq<Row>) returns (rows: seq<Row>)
      modifies this`executed
      ensures executed == old(executed) + [sql]
      ensures rows == query(sql)
    {
      executed := executed + [sql];
      rows := query(sql);
    }

    /** `registerRecordClass`: remembered under its name, then its table is created. */
    method RegisterRecordClass(rc: RecordClass)
      modifies this
      ensures recordClasses == old(recordClasses)[rc.name := rc]
      ensures executed == old(executed) + [CreateTableSql(rc)]
      ensures LookupClass(recordClasses, rc.name) == Ok(rc)
      ensures forall n :: n != rc.name ==> LookupClass(recordClasses, n) == LookupClass(old(recordClasses), n)
    {
      recordClasses := recordClasses[rc.name := rc];
      var sql := GetCreateTableSql(rc);
      var _ := ExecuteSql(sql, _ => []);
    }

    /** `getCreateTableSql`: one `name type` column per declared field, in order, joined by commas. */
    method GetCreateTableSql(rc: RecordClass) returns (sql: string)
      ensures sql == CreateTableSql(rc)
    {
      var parts: seq<string> := [];
      var i := 0;
      while i < |rc.props|
        invariant 0 <= i <= |rc.props|
        invariant |parts| == i
        invariant forall j :: 0 <= j < i ==> parts[j] == FieldSql(rc.props[j].0, rc.props[j].1)
      {
        parts := parts + [FieldSql(rc.props[i].0, rc.props[i].1)];
        i := i + 1;
      }
      assert parts == ColumnDefs(rc.props);
      sql := "CREATE TABLE IF NOT EXISTS " + ToLower(rc.name) + " (" + Join(", ", parts) + ")";
    }

    /** `getRecordClassJSFieldTypes`. */
    method GetRecordClassJSFieldTypes(rc: RecordClass) returns (types: Dict<Option<JsType>>)
      ensures types == JsFieldTypes(rc.props)
    {
      types := [];
      var i := 0;
      while i < |rc.props|
        invariant 0 <= i <= |rc.props|
        invariant types == JsFieldTypes(rc.props[..i])
      {
        assert rc.props[..i + 1][..i] == rc.props[..i];
        types := Put(types, rc.props[i].0, JsFieldType(rc.props[i].1));
        i := i + 1;
      }
      assert rc.props[..i] == rc.props;
    }

    /** `getRecordFieldValuesForSql`. */
    method GetRecordFieldValuesForSql(record: Dict<Value>, rc: RecordClass, json: Value -> string) returns (r: Result<Dict<Value>>)
      ensures r == FieldValuesForSql(record, JsFieldTypes(rc.props), json)
    {
      var types := GetRecordClassJSFieldTypes(rc);
      var fv: Dict<Value> := [];
      var i := 0;
      while i < |record|
        invariant 0 <= i <= |record|
        invariant FieldValuesForSql(record[..i], types, json) == Ok(fv)
      {
        assert record[..i + 1][..i] == record[..i];
        var lit := FormatFieldValue(record[i].1, TypeOf(types, record[i].0), json);
        if lit.Err? {
          FieldValuesErrPrefix(record, i + 1, types, json);
          return Err(lit.error);
        }
        fv := Put(fv, record[i].0, lit.value);
        i := i + 1;
      }
      assert record[..i] == record;
      return Ok(fv);
    }

    /** `unpackRecord`: each typed field converted from the raw row, then the record constructed. */
    method UnpackRecord(row: Row, className: string, parse: string -> Option<Value>, now: int) returns (r: Result<Record>)
      ensures className !in recordClasses ==> r == Err(NoRecordClass(className))
      ensures className in recordClasses ==> r == RecordFromRow(recordClasses[className], row, parse, now)
    {
      var found := LookupClass(recordClasses, className);
      if found.Err? {
        return Err(found.error);
      }
      var rc := found.value;
      var types := GetRecordClassJSFieldTypes(rc);
      var unpacked: Dict<Value> := [];
      var i := 0;
      while i < |types|
        invariant 0 <= i <= |types|
        invariant Unpacked(row, types[..i], parse) == Ok(unpacked)
      {
        assert types[..i + 1][..i] == types[..i];
        var value := UnpackValue(Column(row, types[i].0), types[i].1, parse);
        if value.Err? {
          UnpackedErrPrefix(row, types, i + 1, parse);
          return Err(value.error);
        }
        unpacked := Put(unpacked, types[i].0, value.value);
        i := i + 1;
      }
      assert types[..i] == types;
      return Ok(Construct(rc, unpacked, now));
    }

    /** `getInsertRecordSql`: the declared columns, then one literal per record key. */
    method GetInsertRecordSql(record: Record, className: string, json: Value -> string) returns (r: Result<string>)
      ensures r == InsertStatement(recordClasses, className, record, json)
    {
      if className == "" {
        return Err(MissingClassName);
      }
      var found := LookupClass(recordClasses, className);
      if found.Err? {
        return Err(found.error);
      }
      var types := GetRecordClassJSFieldTypes(found.value);
      var fv := GetRecordFieldValuesForSql(record, found.value, json);
      if fv.Err? {
        return Err(fv.error);
      }
      return Ok("INSERT INTO " + className + " (" + Join(", ", Keys(types)) + ") VALUES (" + JoinValues(", ", Vals(fv.value)) + ")");
    }

    /** `getUpdateRecordSql`: every formatted field but the index in the SET list, the index in the WHERE clause. */
    method GetUpdateRecordSql(record: Record, className: string, json: Value -> string) returns (r: Result<string>)
      ensures r == UpdateStatement(recordClasses, className, record, json)
    {
      if className == "" {
        return Err(MissingClassName);
      }
      var found := LookupClass(recordClasses, className);
      if found.Err? {
        return Err(found.error);
      }
      var fvr := GetRecordFieldValuesForSql(record, found.value, json);
      if fvr.Err? {
        return Err(fvr.error);
      }
      var indexKey := found.value.indexKey;
      var indexValue := IndexLiteral(fvr.value, indexKey);
      var fv := Without(fvr.value, [indexKey]);
      var parts := AssignmentList(fv);
      return Ok("UPDATE " + className + " SET " + Join(", ", parts) + " WHERE " + indexKey + " = " + indexValue);
    }

    /** The `field = literal` strings the update and find builders push, one per entry, in order. */
    method AssignmentList(fv: Dict<Value>) returns (parts: seq<string>)
      ensures parts == Assignments(fv)
    {
      parts := [];
      var i := 0;
      while i < |fv|
        invariant 0 <= i <= |fv|
        invariant |parts| == i
        invariant forall j :: 0 <= j < i ==> parts[j] == fv[j].0 + " = " + ToText(fv[j].1)
      {
        parts := parts + [fv[i].0 + " = " + ToText(fv[i].1)];
        i := i + 1;
      }
    }

    /** `getDeleteRecordSql`: targets the record by its index literal alone. */
    method GetDeleteRecordSql(record: Record, className: string, json: Value -> string) returns (r: Result<string>)
      ensures r == DeleteStatement(recordClasses, className, record, json)
    {
      var found := LookupClass(recordClasses, className);
      if found.Err? {
        return Err(found.error);
      }
      var fv := GetRecordFieldValuesForSql(record, found.value, json);
      if fv.Err? {
        return Err(fv.error);
      }
      var indexKey := found.value.indexKey;
      return Ok("DELETE FROM " + className + " WHERE " + indexKey + " = " + IndexLiteral(fv.value, indexKey));
    }

    /** `getFindRecordSql`: one `field = literal` conjunct per filter key, joined by AND. */
    method GetFindRecordSql(fields: Dict<Value>, className: string, json: Value -> string) returns (r: Result<string>)
      ensures r == FindStatement(recordClasses, className, fields, json)
    {
      var found := LookupClass(recordClasses, className);
      if found.Err? {
        return Err(found.error);
      }
      var fvr := GetRecordFieldValuesForSql(fields, found.value, json);
      if fvr.Err? {
        return Err(fvr.error);
      }
      var fv := fvr.value;
      var parts := AssignmentList(fv);
      return Ok("SELECT * FROM " + className + " WHERE " + Join(" AND ", parts));
    }

    /** `findRecords`: the rows the find statement returns, each unpacked. */
    method FindRecords(fields: Dict<Value>, className: string, json: Value -> string, parse: string -> Option<Value>,
                       now: int, query: string -> seq<Row>) returns (r: Result<seq<Record>>)
      modifies this`executed
      ensures var sql := FindStatement(recordClasses, className, fields, json);
        && (sql.Err? ==> r == Err(sql.error) && executed == old(executed))
        && (sql.Ok? ==>
              && className in recordClasses
              && executed == old(executed) + [sql.value]
              && r == FoundRecords(recordClasses[className], query(sql.value), parse, now))
    {
      var sql := GetFindRecordSql(fields, className, json);
      if sql.Err? {
        return Err(sql.error);
      }
      var rows := ExecuteSql(sql.value, query);
      ghost var rc := recordClasses[className];
      ghost var results := seq(|rows|, i requires 0 <= i < |rows| => RecordFromRow(rc, rows[i], parse, now));
      var records: seq<Record> := [];
      var i := 0;
      while i < |rows|
        invariant 0 <= i <= |rows|
        invariant className in recordClasses && rc == recordClasses[className]
        invariant executed == old(executed) + [sql.value]
        invariant Collect(results[..i]) == Ok(records)
      {
        var rec := UnpackRecord(rows[i], className, parse, now);
        CollectStep(results, i, records);
        if rec.Err? {
          return Err(rec.error);
        }
        records := records + [rec.value];
        i := i + 1;
      }
      assert results[..i] == results;
      return Ok(records);
    }

    /** `exists`: whether the find on the index value returns any record. */
    method Exists(indexValue: Value, className: string, json: Value -> string, parse: string -> Option<Value>,
                  now: int, query: string -> seq<Row>) returns (r: Result<bool>)
      modifies this`executed
      ensures var sql := ExistsStatement(recordClasses, className, indexValue, json);
        && (sql.Err? ==> r == Err(sql.error) && executed == old(executed))
        && (sql.Ok? ==>
              && className in recordClasses
              && executed == old(executed) + [sql.value]
              && var found := FoundRecords(recordClasses[className], query(sql.value), parse, now);
                 && (found.Err? ==> r == Err(found.error))
                 && (found.Ok? ==> r == Ok(|query(sql.value)| > 0)))
    {
      var found := LookupClass(recordClasses, className);
      if found.Err? {
        return Err(found.error);
      }
      var records := FindRecords([(found.value.indexKey, indexValue)], className, json, parse, now, query);
      if records.Err? {
        return Err(records.error);
      }
      FoundRecordsResult(found.value, query(executed[|executed| - 1]), parse, now);
      return Ok(|records.value| > 0);
    }

    /** `saveRecord`: as written, an existing record is inserted and a new one updated. */
    method SaveRecord(record: Record, className: string, json: Value -> string, parse: string -> Option<Value>,
                      now: int, query: string -> seq<Row>) returns (r: Result<()>)
      modifies this`executed
      ensures className in recordClasses ==>
        var find := ExistsStatement(recordClasses, className, Column(record, recordClasses[className].indexKey), json);
        && (find.Err? ==> r == Err(find.error) && executed == old(executed))
        && (find.Ok? ==>
              var found := FoundRecords(recordClasses[className], query(find.value), parse, now);
              && (found.Err? ==> r == Err(found.error) && executed == old(executed) + [find.value])
              && (found.Ok? ==>
                    var save := SaveStatement(recordClasses, className, record, json, |query(find.value)| > 0);
                    && (save.Err? ==> r == Err(save.error) && executed == old(executed) + [find.value])
                    && (save.Ok? ==> r == Ok(()) && executed == old(executed) + [find.value, save.value])))
      ensures className !in recordClasses ==> r == Err(NoRecordClass(className)) && executed == old(executed)
    {
      var found := LookupClass(recordClasses, className);
      if found.Err? {
        return Err(found.error);
      }
      var indexValue := Column(record, found.value.indexKey);
      var exists_ := Exists(indexValue, className, json, parse, now, query);
      if exists_.Err? {
        return Err(exists_.error);
      }
      var sql;
      if exists_.value {
        sql := GetInsertRecordSql(record, className, json);
      } else {
        sql := GetUpdateRecordSql(record, className, json);
      }
      if sql.Err? {
        return Err(sql.error);
      }
      var _ := ExecuteSql(sql.value, query);
      return Ok(());
    }
  }
}
