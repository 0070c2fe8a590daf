/** Dynamically typed JavaScript values as they flow through records, rows and remote objects. */
module Values {
  import opened Strings

  datatype Option<+T> = None | Some(value: T)

  /**
   * The errors the source raises with `throw new Error(...)`, the `TypeError` of reading
   * the local version ids when their query failed, and the `SyntaxError` of `JSON.parse`.
   */
  datatype Error =
    | NoRecordClass(className: string)
    | UnknownType
    | ProhibitedUpdate(key: string)
    | NoUserId
    | NotAnObject
    | MissingClassName
    | VersionIdsUnavailable
    | JsonSyntaxError

  datatype Result<+T> = Ok(value: T) | Err(error: Error)

  /** The values of `results`, in order, if all are `Ok`; the first error otherwise. */
  function Collect<T>(results: seq<Result<T>>): Result<seq<T>>
  {
    if results == [] then Ok([])
    else
      match Collect(results[..|results| - 1])
      case Err(e) => Err(e)
      case Ok(values) =>
        match results[|results| - 1]
        case Err(e) => Err(e)
        case Ok(v) => Ok(values + [v])
  }

  /** Collecting one more result: it is appended, unless it or an earlier one is an error. */
  lemma CollectSnoc<T>(results: seq<Result<T>>, last: Result<T>)
    ensures Collect(results + [last])
         == match Collect(results)
            case Err(e) => Err(e)
            case Ok(values) => (match last case Err(e) => Err(e) case Ok(v) => Ok(values + [v]))
  {
    assert (results + [last])[..|results|] == results;
  }

  /** Once a prefix of the results holds an error, so does the whole. */
  lemma {:induction false} CollectErrExtends<T>(results: seq<Result<T>>, n: nat)
    requires n <= |results| && Collect(results[..n]).Err?
    ensures Collect(results) == Collect(results[..n])
    decreases |results| - n
  {
    if n < |results| {
      assert results[..n + 1] == results[..n] + [results[n]];
      CollectSnoc(results[..n], results[n]);
      CollectErrExtends(results, n + 1);
    } else {
      assert results[..n] == results;
    }
  }

  /**
   * One step of a loop that collects results in order: an error ends the whole with that
   * error, a value is appended.
   */
  lemma CollectStep<T>(results: seq<Result<T>>, i: nat, values: seq<T>)
    requires i < |results| && Collect(results[..i]) == Ok(values)
    ensures results[i].Err? ==> Collect(results) == Err(results[i].error)
    ensures results[i].Ok? ==> Collect(results[..i + 1]) == Ok(values + [results[i].value])
  {
    assert results[..i + 1] == results[..i] + [results[i]];
    CollectSnoc(results[..i], results[i]);
    if results[i].Err? {
      CollectErrExtends(results, i + 1);
    }
  }

  /** `Collect` yields every value when all results are `Ok`, and the first error otherwise. */
  lemma {:induction false} CollectResult<T>(results: seq<Result<T>>)
    ensures Collect(results).Ok? ==> (|Collect(results).value| == |results| &&
      forall i :: 0 <= i < |results| ==> results[i] == Ok(Collect(results).value[i]))
    ensures Collect(results).Err? ==> exists i :: (0 <= i < |results| && results[i] == Err(Collect(results).error) &&
      forall j :: 0 <= j < i ==> results[j].Ok?)
  {
    if results != [] {
      var init := results[..|results| - 1];
      var last := results[|results| - 1];
      assert results == init + [last];
      CollectResult(init);
      CollectSnoc(init, last);
      if Collect(init).Err? {
        var i :| 0 <= i < |init| && init[i] == Err(Collect(init).error) && forall j :: 0 <= j < i ==> init[j].Ok?;
        assert results[i] == init[i];
      }
    }
  }

  /** A JavaScript value. Numbers are integers (the store keeps them in `Integer` columns). */
  datatype Value =
    | Undefined
    | Null
    | Bool(b: bool)
    | Num(n: int)
    | NaN
    | Str(s: string)
    | List(items: seq<Value>)
    | Obj(fields: seq<(string, Value)>)

  /** `String(v)`, the coercion a template literal or `+` with a string applies. */
  function ToText(v: Value): string
    decreases v, 0
  {
    match v
    case Undefined => "undefined"
    case Null => "null"
    case Bool(b) => if b then "true" else "false"
    case Num(n) => IntToString(n)
    case NaN => "NaN"
    case Str(s) => s
    case List(items) =>
      // Array.prototype.toString is join(',')
      Join(",", seq(|items|, i requires 0 <= i < |items| => JoinElement(items[i])))
    case Obj(_) => "[object Object]"
  }

  /** How `Array.prototype.join` writes an element: null and undefined as '', anything else as `String(v)`. */
  function JoinElement(v: Value): (r: string)
    decreases v, 1
    ensures !v.Undefined? && !v.Null? ==> r == ToText(v)
  {
    if v.Undefined? || v.Null? then "" else ToText(v)
  }

  /** `vs.join(sep)`. */
  function JoinValues(sep: string, vs: seq<Value>): string
  {
    Join(sep, seq(|vs|, i requires 0 <= i < |vs| => JoinElement(vs[i])))
  }

  predicate AllDigits(s: string)
  {
    forall i :: 0 <= i < |s| ==> IsDigit(s[i])
  }

  /**
   * `Number(v)` for the raw column values a row can hold: numbers, integer strings with an
   * optional sign, booleans and null. The empty string is 0, as `AllDigits("")` holds.
   */
  function ToNumber(v: Value): (r: Value)
    ensures r.Num? || r.NaN?
  {
    match v
    case Num(n) => Num(n)
    case Null => Num(0)
    case Bool(b) => Num(if b then 1 else 0)
    case Str(s) =>
      if AllDigits(s) then Num(DigitsValue(s))
      else if |s| > 1 && s[0] == '-' && AllDigits(s[1..]) then Num(-(DigitsValue(s[1..]) as int))
      else if |s| > 1 && s[0] == '+' && AllDigits(s[1..]) then Num(DigitsValue(s[1..]))
      else NaN
    case _ => NaN
  }

  /** An integer written as text and read back with `Number` is the same integer. */
  lemma NumberOfTextIsIdentity(n: int)
    ensures ToNumber(Str(ToText(Num(n)))) == Num(n)
  {
    if n >= 0 {
      DigitsValueOfNatToString(n);
    } else {
      var s := ToText(Num(n));
      DigitsValueOfNatToString(-n);
      assert s[1..] == NatToString(-n);
      assert !IsDigit(s[0]);
    }
  }

  /** JavaScript truthiness. */
  predicate Truthy(v: Value)
  {
    match v
    case Undefined => false
    case Null => false
    case Bool(b) => b
    case Num(n) => n != 0
    case NaN => false
    case Str(s) => s != ""
    case _ => true
  }
}
