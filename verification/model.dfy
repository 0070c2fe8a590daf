/**
 * Model.js: a record class built from a field declaration, whose instances are immutable
 * values changed only through `set`, which stamps `updateTime` and refuses locked keys.
 */
module Model {
  import opened Values
  import opened Dicts
  import opened Strings

  /** A declared field type as the store reads it: a list type, or an irreducible type by name. */
  datatype Kind = ListKind | Irreducible(name: string)

  const StringKind: Kind := Irreducible("String")
  const NumberKind: Kind := Irreducible("Number")
  const ObjectKind: Kind := Irreducible("Object")

  /** The field declaration: field name to kind, in declaration order. */
  type Props = Dict<Kind>

  /** The `options` argument of `Model`. */
  datatype Options = Options(name: string, index: Option<string>, prohibitedUpdateKeys: seq<string>)

  /**
   * What `Model(attributes, options)` returns. `sqlIndex` is `RecordClass.sql.sql_index`;
   * `indexKey` is the key the store targets rows by, given explicitly (see README).
   */
  datatype RecordClass = RecordClass(
    name: string,
    props: Props,
    sqlIndex: Option<string>,
    indexKey: string,
    prohibited: seq<string>)

  /** An instance: field name to value, in declaration order. */
  type Record = Dict<Value>

  /** A tcomb update command; `set` only ever issues `$set`. */
  datatype Command = SetTo(value: Value)

  /** The bookkeeping fields every schema carries, in the order they are merged. */
  const DefaultProps: Props := [("updateTime", NumberKind), ("createTime", NumberKind), ("class_name", StringKind)]

  /** Whether `options.index` is truthy: present and not the empty string. */
  predicate HasIndex(options: Options)
  {
    options.index.Some? && options.index.value != ""
  }

  /** `prohibited_update_keys` after `Model` has pushed the index key and 'class_name'. */
  function ProhibitedKeys(options: Options): (r: seq<string>)
    ensures forall k :: k in r <==>
      k in options.prohibitedUpdateKeys || (HasIndex(options) && k in [options.index.value, "class_name"])
    ensures options.prohibitedUpdateKeys <= r
    ensures !HasIndex(options) ==> r == options.prohibitedUpdateKeys
  {
    options.prohibitedUpdateKeys + if HasIndex(options) then [options.index.value, "class_name"] else []
  }

  /** `Model(attributes, options)`, with the store's index key given as `indexKey`. */
  function MakeRecordClass(attributes: Props, options: Options, indexKey: string): (rc: RecordClass)
    ensures rc.name == options.name && rc.sqlIndex == options.index && rc.indexKey == indexKey
    ensures rc.prohibited == ProhibitedKeys(options)
  {
    RecordClass(options.name, Assign(DefaultProps, attributes), options.index, indexKey, ProhibitedKeys(options))
  }

  /** The schema holds the three bookkeeping fields first, and every declared field with its declared kind. */
  lemma SchemaOfModel(attributes: Props, options: Options, indexKey: string)
    requires DistinctKeys(attributes)
    ensures var props := MakeRecordClass(attributes, options, indexKey).props;
      && Keys(DefaultProps) <= Keys(props)
      && DistinctKeys(props)
      && (forall k :: k in Keys(attributes) ==> Get(props, k) == Get(attributes, k))
      && (forall k :: k in Keys(DefaultProps) && k !in Keys(attributes) ==> Get(props, k) == Get(DefaultProps, k))
      && (forall k :: k in Keys(props) <==> k in Keys(DefaultProps) || k in Keys(attributes))
  {
    AssignKeys(DefaultProps, attributes);
    forall k | k in Keys(attributes) || k in Keys(DefaultProps)
      ensures Get(Assign(DefaultProps, attributes), k) ==
        if k in Keys(attributes) then Get(attributes, k) else Get(DefaultProps, k)
    {
      AssignGet(DefaultProps, attributes, k);
    }
  }

  /** `new model(value)` of tcomb's struct: every declared field, read from `value`, in declaration order. */
  function Struct(props: Props, value: Dict<Value>): (r: Record)
    ensures Keys(r) == Keys(props)
    ensures forall i :: 0 <= i < |r| ==> r[i].1 == match Get(value, props[i].0) case Some(v) => v case None => Undefined
  {
    seq(|props|, i requires 0 <= i < |props| =>
      (props[i].0, match Get(value, props[i].0) case Some(v) => v case None => Undefined))
  }

  /** The values `RecordClass` fills in when the caller leaves them out. */
  function ConstructorDefaults(rc: RecordClass, now: int): Dict<Value>
  {
    [("class_name", Str(rc.name)), ("createTime", Num(now)), ("updateTime", Num(now))]
  }

  /** `new RecordClass(attrs)`, `now` being the current time in seconds. */
  function Construct(rc: RecordClass, attrs: Dict<Value>, now: int): Record
  {
    Struct(rc.props, Assign(ConstructorDefaults(rc, now), attrs))
  }

  /**
   * A constructed record has exactly the declared fields; a field the caller supplied has the
   * caller's value, 'class_name', 'createTime' and 'updateTime' otherwise default to the class
   * name and `now`, and any other field is undefined.
   */
  lemma ConstructedField(rc: RecordClass, attrs: Dict<Value>, now: int, i: nat)
    requires DistinctKeys(attrs)
    requires i < |rc.props|
    ensures var r := Construct(rc, attrs, now); var k := rc.props[i].0;
      && Keys(r) == Keys(rc.props)
      && r[i].1 == (if k in Keys(attrs) then Get(attrs, k).value
                    else if k == "class_name" then Str(rc.name)
                    else if k == "createTime" || k == "updateTime" then Num(now)
                    else Undefined)
  {
    var k := rc.props[i].0;
    var d := ConstructorDefaults(rc, now);
    AssignGet(d, attrs, k);
    if k != "class_name" {
      assert Get(d, k) == Get(d[1..], k);
      if k != "createTime" {
        assert Get(d[1..], k) == Get(d[1..][1..], k);
        if k != "updateTime" {
          assert d[1..][1..][1..] == [];
          assert Get(d[1..][1..], k) == Get(d[1..][1..][1..], k);
        }
      }
    }
  }

  /** `Object.keys(updateObj)` in `getUpdateCommands`: a plain key becomes a one-entry object. */
  function UpdateObject(key: Value, value: Value): Result<Dict<Value>>
  {
    match key
    case Obj(fields) => Ok(fields)
    case List(items) => Ok(seq(|items|, i requires 0 <= i < |items| => (IntToString(i), items[i])))
    case Null => Err(NotAnObject)
    case _ => Ok([(ToText(key), value)])
  }

  /** One `$set` command per key of `obj`, assigned in key order. */
  function SetCommands(obj: Dict<Value>): Dict<Command>
  {
    if obj == [] then []
    else Put(SetCommands(obj[..|obj| - 1]), obj[|obj| - 1].0, SetTo(obj[|obj| - 1].1))
  }

  /** The commands `getUpdateCommands` returns: the `$set`s of `obj`, then `updateTime` set to `now`. */
  function UpdateCommands(obj: Dict<Value>, now: int): Dict<Command>
  {
    Put(SetCommands(obj), "updateTime", SetTo(Num(now)))
  }

  /** For an object with distinct keys, the `$set` commands mirror it key for key. */
  lemma {:induction false} SetCommandsOfDistinct(obj: Dict<Value>)
    requires DistinctKeys(obj)
    ensures Keys(SetCommands(obj)) == Keys(obj)
    ensures forall i :: 0 <= i < |obj| ==> SetCommands(obj)[i].1 == SetTo(obj[i].1)
  {
    if obj != [] {
      var init := obj[..|obj| - 1];
      SetCommandsOfDistinct(init);
      assert obj[|obj| - 1].0 !in Keys(init);
      PutNew(SetCommands(init), obj[|obj| - 1].0, SetTo(obj[|obj| - 1].1));
      assert obj == init + [obj[|obj| - 1]];
    }
  }

  /** `getUpdateCommands(key, value)` with the time passed in. */
  method GetUpdateCommands(key: Value, value: Value, now: int) returns (r: Result<Dict<Command>>)
    ensures r.Err? <==> key.Null?
    ensures r.Ok? ==> r.value == UpdateCommands(UpdateObject(key, value).value, now)
  {
    var updateObj := UpdateObject(key, value);
    if updateObj.Err? {
      return Err(updateObj.error);
    }
    var obj := updateObj.value;
    var commands: Dict<Command> := [];
    var i := 0;
    while i < |obj|
      invariant 0 <= i <= |obj|
      invariant commands == SetCommands(obj[..i])
    {
      assert obj[..i + 1][..i] == obj[..i];
      commands := Put(commands, obj[i].0, SetTo(obj[i].1));
      i := i + 1;
    }
    assert obj[..i] == obj;
    commands := Put(commands, "updateTime", SetTo(Num(now)));
    return Ok(commands);
  }

  /** `set(key, value)` with a plain key gives exactly that key's `$set` followed by `updateTime`. */
  lemma SingleKeyCommands(key: string, value: Value, now: int)
    requires key != "updateTime"
    ensures UpdateObject(Str(key), value) == Ok([(key, value)])
    ensures UpdateCommands([(key, value)], now) == [(key, SetTo(value)), ("updateTime", SetTo(Num(now)))]
  {
    var c := [(key, SetTo(value))];
    assert SetCommands([(key, value)]) == c;
    assert c[1..] == [];
    assert Put(c, "updateTime", SetTo(Num(now))) == [c[0]] + Put(c[1..], "updateTime", SetTo(Num(now)));
  }

  /**
   * `set(patch)`: one `$set` per patch key, and `updateTime` is `now` whatever the patch says,
   * because it is written after the loop.
   */
  lemma PatchCommands(patch: Dict<Value>, now: int)
    requires DistinctKeys(patch)
    ensures var c := UpdateCommands(patch, now);
      && Get(c, "updateTime") == Some(SetTo(Num(now)))
      && (forall k :: k in Keys(c) <==> k in Keys(patch) || k == "updateTime")
      && (forall i :: 0 <= i < |patch| && patch[i].0 != "updateTime" ==> Get(c, patch[i].0) == Some(SetTo(patch[i].1)))
  {
    SetCommandsOfDistinct(patch);
    PutKeySet(SetCommands(patch), "updateTime", SetTo(Num(now)));
    PutGet(SetCommands(patch), "updateTime", SetTo(Num(now)), "updateTime");
    forall i | 0 <= i < |patch| && patch[i].0 != "updateTime"
      ensures Get(UpdateCommands(patch, now), patch[i].0) == Some(SetTo(patch[i].1))
    {
      PutGet(SetCommands(patch), "updateTime", SetTo(Num(now)), patch[i].0);
      GetDistinctAt(SetCommands(patch), i);
    }
  }

  /** `validateUpdates`: the first command key, in key order, that is prohibited raises an error. */
  method ValidateUpdates(commands: Dict<Command>, prohibited: seq<string>) returns (r: Result<()>)
    ensures r.Err? <==> exists k :: k in Keys(commands) && k in prohibited
    ensures r == match FirstProhibited(Keys(commands), prohibited)
                 case None => Ok(())
                 case Some(k) => Err(ProhibitedUpdate(k))
  {
    var i := 0;
    while i < |commands|
      invariant 0 <= i <= |commands|
      invariant forall j :: 0 <= j < i ==> Keys(commands)[j] !in prohibited
    {
      if commands[i].0 in prohibited {
        FirstProhibitedAt(Keys(commands), prohibited, i);
        return Err(ProhibitedUpdate(commands[i].0));
      }
      i := i + 1;
    }
    return Ok(());
  }

  /** The values the commands set. */
  function CommandValues(commands: Dict<Command>): (r: Dict<Value>)
    ensures Keys(r) == Keys(commands)
  {
    seq(|commands|, i requires 0 <= i < |commands| => (commands[i].0, commands[i].1.value))
  }

  /** The first prohibited key among the command keys, if any. */
  function FirstProhibited(keys: seq<string>, prohibited: seq<string>): (r: Option<string>)
    ensures r.None? <==> forall k :: k in keys ==> k !in prohibited
    ensures r.Some? ==> r.value in keys && r.value in prohibited
  {
    if keys == [] then None
    else if keys[0] in prohibited then Some(keys[0])
    else FirstProhibited(keys[1..], prohibited)
  }

  /** The key found is the one at the first prohibited position: every key before it is allowed. */
  lemma {:induction false} FirstProhibitedAt(keys: seq<string>, prohibited: seq<string>, i: nat)
    requires i < |keys| && keys[i] in prohibited
    requires forall j :: 0 <= j < i ==> keys[j] !in prohibited
    ensures FirstProhibited(keys, prohibited) == Some(keys[i])
  {
    if i > 0 {
      assert keys[0] !in prohibited;
      FirstProhibitedAt(keys[1..], prohibited, i - 1);
    }
  }

  /**
   * `record.set(key, value)`: the new record, or the error `getUpdateCommands` or `validateUpdates`
   * raises. tcomb's `update` copies the record, applies the `$set`s and rebuilds the struct.
   */
  function SetField(rc: RecordClass, record: Record, key: Value, value: Value, now: int): Result<Record>
  {
    match UpdateObject(key, value)
    case Err(e) => Err(e)
    case Ok(obj) =>
      var commands := UpdateCommands(obj, now);
      match FirstProhibited(Keys(commands), rc.prohibited)
      case Some(k) => Err(ProhibitedUpdate(k))
      case None => Ok(Struct(rc.props, Assign(record, CommandValues(commands))))
  }

  /** `set` fails exactly when some key it would write, `updateTime` included, is prohibited. */
  lemma SetFailsIffProhibited(rc: RecordClass, record: Record, key: Value, value: Value, now: int)
    requires !key.Null?
    ensures SetField(rc, record, key, value, now).Err? <==>
      exists k :: k in Keys(UpdateCommands(UpdateObject(key, value).value, now)) && k in rc.prohibited
  {
  }

  /** With a (non-empty) index declared, setting the index key or 'class_name' always throws. */
  lemma SetRejectsLockedKeys(attributes: Props, options: Options, indexKey: string,
                             record: Record, locked: string, value: Value, now: int)
    requires HasIndex(options) && locked in [options.index.value, "class_name"]
    ensures SetField(MakeRecordClass(attributes, options, indexKey), record, Str(locked), value, now).Err?
  {
    var obj := [(locked, value)];
    var c := UpdateCommands(obj, now);
    assert SetCommands(obj) == [(locked, SetTo(value))];
    PutKeySet(SetCommands(obj), "updateTime", SetTo(Num(now)));
    assert locked in Keys(c);
  }

  /**
   * A successful `set` on a record with the declared fields keeps those fields; each one is the
   * value the commands set, if any, and otherwise its old value. `updateTime` becomes `now`.
   */
  lemma SetUpdatesFields(rc: RecordClass, record: Record, key: Value, value: Value, now: int, i: nat)
    requires Keys(record) == Keys(rc.props) && DistinctKeys(record)
    requires SetField(rc, record, key, value, now).Ok?
    requires i < |rc.props|
    ensures var r := SetField(rc, record, key, value, now).value;
      var commands := UpdateCommands(UpdateObject(key, value).value, now);
      && Keys(r) == Keys(rc.props)
      && r[i].1 == (match Get(commands, rc.props[i].0) case Some(c) => c.value case None => record[i].1)
      && (rc.props[i].0 == "updateTime" ==> r[i].1 == Num(now))
  {
    var commands := UpdateCommands(UpdateObject(key, value).value, now);
    var k := rc.props[i].0;
    assert Keys(record)[i] == k;
    PutGet(SetCommands(UpdateObject(key, value).value), "updateTime", SetTo(Num(now)), k);
    CommandsDistinct(UpdateObject(key, value).value, now);
    AssignGet(record, CommandValues(commands), k);
    GetDistinctAt(record, i);
    CommandValuesGet(commands, k);
  }

  /** Command objects never repeat a key. */
  lemma CommandsDistinct(obj: Dict<Value>, now: int)
    ensures DistinctKeys(UpdateCommands(obj, now))
  {
    SetCommandsDistinct(obj);
    PutDistinct(SetCommands(obj), "updateTime", SetTo(Num(now)));
  }

  lemma {:induction false} SetCommandsDistinct(obj: Dict<Value>)
    ensures DistinctKeys(SetCommands(obj))
  {
    if obj != [] {
      SetCommandsDistinct(obj[..|obj| - 1]);
      PutDistinct(SetCommands(obj[..|obj| - 1]), obj[|obj| - 1].0, SetTo(obj[|obj| - 1].1));
    }
  }

  /** Reading a key of the command values reads the value of its command. */
  lemma {:induction false} CommandValuesGet(commands: Dict<Command>, k: string)
    ensures DistinctKeys(commands) ==> DistinctKeys(CommandValues(commands))
    ensures Get(CommandValues(commands), k) == match Get(commands, k) case Some(c) => Some(c.value) case None => None
  {
    if commands != [] {
      CommandValuesGet(commands[1..], k);
      assert CommandValues(commands)[1..] == CommandValues(commands[1..]);
    }
  }
}
