/**
 * Request-parameter validation: a `Parameters` object wraps the JSON body of a
 * request; each accessor removes the named parameter and checks it, and leaving
 * the `with` block rejects whatever was not consumed. A failure is the HTTP
 * error the handler answers with, as a (code, message) pair.
 */
module Params {
  import opened Common
  import PyText

  /** A value decoded from a JSON request body. */
  datatype Json =
    | JNull
    | JBool(b: bool)
    | JInt(i: int)
    | JFloat(literal: string)  // a number with a fraction or an exponent, kept as written
    | JStr(s: string)
    | JList(items: seq<Json>)
    | JObject(fields: map<string, Json>)

  /** Python's `isinstance(v, int)`: booleans are integers too. */
  predicate IsInt(v: Json) {
    v.JInt? || v.JBool?
  }

  /** The integer a value of `IsInt` compares as (`True == 1`, `False == 0`). */
  function IntValue(v: Json): int
    requires IsInt(v)
  {
    match v
    case JInt(i) => i
    case JBool(b) => if b then 1 else 0
  }

  /** What a validator raised, with the arguments of the exception. */
  datatype Raised =
    | TypeError(args: seq<string>)
    | ValueError(args: seq<string>)
    | OtherException

  /** The outcome of running a validator on a value. */
  datatype Verdict = Accept | Reject(raised: Raised)

  type Validator = Json -> Verdict

  /** The default of an accessor: the `_MANDATORY` marker or a value to return. */
  datatype Fallback = Mandatory | Given(value: Json)

  /**
   * What `get` can end in besides a value: the HTTP error it answers with, or
   * the IndexError raised by `exc.args[0]` on an exception without arguments.
   */
  datatype Error = HttpError(code: int, message: string) | IndexError

  function MissingError(name: string): Error {
    HttpError(400, "missing parameter: " + name)
  }

  // ---------------------------------------------------------------------------
  // The checks the typed accessors install

  function StringCheck(choice: Option<set<string>>, v: Json): Verdict {
    if !v.JStr? then Reject(TypeError(["expect string"]))
    else if choice.Some? && v.s !in choice.value then Reject(ValueError(["not in set of possible values"]))
    else Accept
  }

  function IntegerCheck(minval: Option<int>, maxval: Option<int>, v: Json): Verdict {
    if !IsInt(v) then Reject(TypeError(["expect integer"]))
    else if minval.Some? && IntValue(v) < minval.value then Reject(ValueError(["too small"]))
    else if maxval.Some? && IntValue(v) > maxval.value then Reject(ValueError(["too large"]))
    else Accept
  }

  function StringElement(v: Json): Verdict {
    if v.JStr? then Accept else Reject(TypeError(["expect list of strings"]))
  }

  function IntegerElement(v: Json): Verdict {
    if IsInt(v) then Accept else Reject(TypeError(["expect list of integers"]))
  }

  /** `for elm in val: validate(elm)`: the verdict of the first element rejected. */
  function ElementsCheck(validate: Validator, items: seq<Json>): (r: Verdict)
    ensures r == Accept <==> forall i :: 0 <= i < |items| ==> validate(items[i]) == Accept
    ensures r.Reject? ==>
      exists i :: 0 <= i < |items| && validate(items[i]) == r && (forall j :: 0 <= j < i ==> validate(items[j]) == Accept)
  {
    if items == [] then Accept
    else if validate(items[0]).Reject? then validate(items[0])
    else
      var r := ElementsCheck(validate, items[1..]);
      assert forall i :: 1 <= i < |items| ==> items[i] == items[1..][i - 1];
      r
  }

  /** The check `get_list` installs: a list, not longer than `maxlen`, every element valid. */
  function ListCheck(validate: Option<Validator>, maxlen: Option<int>, v: Json): Verdict {
    if !v.JList? then Reject(TypeError(["expect list"]))
    else if maxlen.Some? && |v.items| > maxlen.value then Reject(ValueError(["list too long"]))
    else if validate.Some? then ElementsCheck(validate.value, v.items)
    else Accept
  }

  /**
   * The `try`/`except` of `get`: a value the validator accepts is returned as it
   * is; TypeError and ValueError become distinct 400 messages naming the
   * exception's first argument, any other exception "bad parameter".
   */
  function Validate(name: string, value: Json, validate: Option<Validator>): Result<Json, Error> {
    if validate.None? then Success(value)
    else match validate.value(value)
      case Accept => Success(value)
      case Reject(TypeError(args)) =>
        if |args| == 0 then Failure(IndexError)
        else Failure(HttpError(400, "invalid parameter type: " + name + ": " + args[0]))
      case Reject(ValueError(args)) =>
        if |args| == 0 then Failure(IndexError)
        else Failure(HttpError(400, "invalid parameter value: " + name + ": " + args[0]))
      case Reject(OtherException) => Failure(HttpError(400, "bad parameter: " + name))
  }

  // ---------------------------------------------------------------------------
  // Properties of the checks

  /** A validated value is returned unchanged; every failure of a validator is a 400 error or an IndexError. */
  lemma ValidateOutcome(name: string, value: Json, validate: Option<Validator>)
    ensures Validate(name, value, validate).Success? ==> Validate(name, value, validate).value == value
    ensures Validate(name, value, validate).Success? <==> validate.None? || validate.value(value) == Accept
    ensures Validate(name, value, validate).Failure? && Validate(name, value, validate).error.HttpError? ==>
      Validate(name, value, validate).error.code == 400
  {
  }

  /** `integer` accepts exactly the ints (booleans included) inside the inclusive bounds given. */
  lemma IntegerCheckAccepts(minval: Option<int>, maxval: Option<int>, v: Json)
    ensures IntegerCheck(minval, maxval, v) == Accept <==>
      IsInt(v) && (minval.Some? ==> minval.value <= IntValue(v)) && (maxval.Some? ==> IntValue(v) <= maxval.value)
    ensures !IsInt(v) ==> IntegerCheck(minval, maxval, v).raised.TypeError?
    ensures IsInt(v) && IntegerCheck(minval, maxval, v).Reject? ==> IntegerCheck(minval, maxval, v).raised.ValueError?
  {
  }

  /** `timestamp` (`integer` with `minval=0`) rejects every negative integer as a value error. */
  lemma TimestampRejectsNegative(n: int)
    requires n < 0
    ensures IntegerCheck(Some(0), None, JInt(n)) == Reject(ValueError(["too small"]))
  {
  }

  /** `isinstance(True, int)` holds, so a boolean passes `integer` as 1 or 0. */
  lemma BooleanPassesAsInteger(b: bool, minval: Option<int>, maxval: Option<int>)
    requires minval.None? || minval.value <= 0
    requires maxval.None? || maxval.value >= 1
    ensures IntegerCheck(minval, maxval, JBool(b)) == Accept
  {
  }

  /** `string` accepts exactly the strings, restricted to `choice` when one is given. */
  lemma StringCheckAccepts(choice: Option<set<string>>, v: Json)
    ensures StringCheck(choice, v) == Accept <==> v.JStr? && (choice.Some? ==> v.s in choice.value)
  {
  }

  /**
   * `get_list` rejects in this order: a non-list (TypeError), a list longer
   * than `maxlen` (ValueError; a length equal to `maxlen` passes), then the
   * first element the element check rejects.
   */
  lemma {:induction false} ListCheckAccepts(validate: Option<Validator>, maxlen: Option<int>, v: Json)
    ensures ListCheck(validate, maxlen, v) == Accept <==>
      && v.JList?
      && (maxlen.Some? ==> |v.items| <= maxlen.value)
      && (validate.Some? ==> forall i :: 0 <= i < |v.items| ==> validate.value(v.items[i]) == Accept)
    ensures !v.JList? ==> ListCheck(validate, maxlen, v) == Reject(TypeError(["expect list"]))
    ensures v.JList? && maxlen.Some? && |v.items| > maxlen.value ==>
      ListCheck(validate, maxlen, v) == Reject(ValueError(["list too long"]))
  {
  }

  /** `integer_list` accepts a list exactly when it is short enough and every element is an int. */
  lemma IntegerListAccepts(maxlen: Option<int>, items: seq<Json>)
    ensures ListCheck(Some(IntegerElement), maxlen, JList(items)) == Accept <==>
      (maxlen.Some? ==> |items| <= maxlen.value) && forall i :: 0 <= i < |items| ==> IsInt(items[i])
  {
    ListCheckAccepts(Some(IntegerElement), maxlen, JList(items));
  }

  /** `string_list` accepts a list exactly when it is short enough and every element is a string. */
  lemma StringListAccepts(maxlen: Option<int>, items: seq<Json>)
    ensures ListCheck(Some(StringElement), maxlen, JList(items)) == Accept <==>
      (maxlen.Some? ==> |items| <= maxlen.value) && forall i :: 0 <= i < |items| ==> items[i].JStr?
  {
    ListCheckAccepts(Some(StringElement), maxlen, JList(items));
  }

  // ---------------------------------------------------------------------------
  // The Parameters object

  predicate Distinct(keys: seq<string>) {
    forall i, j :: 0 <= i < j < |keys| ==> keys[i] != keys[j]
  }

  /** `keys` without `k`. */
  function Without(keys: seq<string>, k: string): (r: seq<string>)
    ensures forall x :: x in r <==> x in keys && x != k
    ensures Distinct(keys) ==> Distinct(r)
    ensures k !in keys ==> r == keys
  {
    if keys == [] then []
    else if keys[0] == k then Without(keys[1..], k)
    else
      var rest := Without(keys[1..], k);
      assert Distinct(keys) ==> keys[0] !in keys[1..];
      [keys[0]] + rest
  }

  /**
   * The validator of one request. `params` is the dictionary of parameters not
   * consumed yet and `order` its keys in insertion order (a Python dict is
   * ordered, and the order shows in the "unexpected parameter" message).
   */
  class Parameters {
    var params: map<string, Json>
    var order: seq<string>

    ghost predicate Valid()
      reads this
    {
      (forall k :: k in params <==> k in order) && Distinct(order)
    }

    constructor(parameters: map<string, Json>, keys: seq<string>)
      requires forall k :: k in parameters <==> k in keys
      requires Distinct(keys)
      ensures Valid()
      ensures params == parameters && order == keys
    {
      params := parameters;
      order := keys;
    }

    /**
     * `get`: pops `name`; a missing parameter yields the default, or the
     * "missing parameter" error when it is mandatory; a present one is
     * returned when the validator accepts it.
     */
    method Get(name: string, default: Fallback, validate: Option<Validator>) returns (r: Result<Json, Error>)
      requires Valid()
      modifies this
      ensures Valid()
      ensures params == old(params) - {name} && order == Without(old(order), name)
      ensures name !in old(params) && default.Given? ==> r == Success(default.value)
      ensures name !in old(params) && default.Mandatory? ==> r == Failure(MissingError(name))
      ensures name in old(params) ==> r == Validate(name, old(params)[name], validate)
    {
      if name !in params {
        if default.Given? {
          return Success(default.value);
        }
        return Failure(MissingError(name));
      }
      var value := params[name];
      params := params - {name};
      order := Without(order, name);
      r := Validate(name, value, validate);
    }

    /** `get_list`: `get` with the list check. */
    method GetList(name: string, default: Fallback, validate: Option<Validator>, maxlen: Option<int>)
      returns (r: Result<Json, Error>)
      requires Valid()
      modifies this
      ensures Valid()
      ensures params == old(params) - {name} && order == Without(old(order), name)
      ensures name !in old(params) && default.Given? ==> r == Success(default.value)
      ensures name !in old(params) && default.Mandatory? ==> r == Failure(MissingError(name))
      ensures name in old(params) ==>
        r == Validate(name, old(params)[name], Some(v => ListCheck(validate, maxlen, v)))
    {
      r := Get(name, default, Some(v => ListCheck(validate, maxlen, v)));
    }

    /** `any`: `get` with the caller's own validator, if any. */
    method Any(name: string, default: Fallback, validate: Option<Validator>) returns (r: Result<Json, Error>)
      requires Valid()
      modifies this
      ensures Valid()
      ensures params == old(params) - {name} && order == Without(old(order), name)
      ensures name !in old(params) && default.Given? ==> r == Success(default.value)
      ensures name !in old(params) && default.Mandatory? ==> r == Failure(MissingError(name))
      ensures name in old(params) ==> r == Validate(name, old(params)[name], validate)
    {
      r := Get(name, default, validate);
    }

    /** `string`: a present value is returned iff it is a string (within `choice` if given). */
    method String(name: string, default: Fallback, choice: Option<set<string>>) returns (r: Result<Json, Error>)
      requires Valid()
      modifies this
      ensures Valid()
      ensures params == old(params) - {name} && order == Without(old(order), name)
      ensures name !in old(params) && default.Given? ==> r == Success(default.value)
      ensures name !in old(params) && default.Mandatory? ==> r == Failure(MissingError(name))
      ensures name in old(params) ==> var v := old(params)[name];
        && (r.Success? <==> v.JStr? && (choice.Some? ==> v.s in choice.value))
        && (r.Success? ==> r.value == v)
        && (!v.JStr? ==> r == Failure(HttpError(400, "invalid parameter type: " + name + ": " + "expect string")))
        && (v.JStr? && r.Failure? ==>
              r == Failure(HttpError(400, "invalid parameter value: " + name + ": " + "not in set of possible values")))
    {
      var check: Validator := v => StringCheck(choice, v);
      r := Get(name, default, Some(check));
      if name in old(params) {
        assert check(old(params)[name]) == StringCheck(choice, old(params)[name]);
      }
    }

    /** `integer`: a present value is returned iff it is an int within the inclusive bounds given. */
    method Integer(name: string, default: Fallback, minval: Option<int>, maxval: Option<int>)
      returns (r: Result<Json, Error>)
      requires Valid()
      modifies this
      ensures Valid()
      ensures params == old(params) - {name} && order == Without(old(order), name)
      ensures name !in old(params) && default.Given? ==> r == Success(default.value)
      ensures name !in old(params) && default.Mandatory? ==> r == Failure(MissingError(name))
      ensures name in old(params) ==> var v := old(params)[name];
        && (r.Success? <==> IsInt(v) && (minval.Some? ==> minval.value <= IntValue(v))
                                     && (maxval.Some? ==> IntValue(v) <= maxval.value))
        && (r.Success? ==> r.value == v)
        && (!IsInt(v) ==> r == Failure(HttpError(400, "invalid parameter type: " + name + ": " + "expect integer")))
        && (IsInt(v) && minval.Some? && IntValue(v) < minval.value ==>
              r == Failure(HttpError(400, "invalid parameter value: " + name + ": " + "too small")))
        && (IsInt(v) && (minval.None? || minval.value <= IntValue(v)) && maxval.Some? && IntValue(v) > maxval.value ==>
              r == Failure(HttpError(400, "invalid parameter value: " + name + ": " + "too large")))
    {
      var check: Validator := v => IntegerCheck(minval, maxval, v);
      r := Get(name, default, Some(check));
      if name in old(params) {
        assert check(old(params)[name]) == IntegerCheck(minval, maxval, old(params)[name]);
      }
    }

    /** `string_list`: a present value is returned iff it is a short enough list of strings. */
    method StringList(name: string, default: Fallback, maxlen: Option<int>) returns (r: Result<Json, Error>)
      requires Valid()
      modifies this
      ensures Valid()
      ensures params == old(params) - {name} && order == Without(old(order), name)
      ensures name !in old(params) && default.Given? ==> r == Success(default.value)
      ensures name !in old(params) && default.Mandatory? ==> r == Failure(MissingError(name))
      ensures name in old(params) ==> var v := old(params)[name];
        && (r.Success? <==> v.JList? && (maxlen.Some? ==> |v.items| <= maxlen.value)
                                     && forall i :: 0 <= i < |v.items| ==> v.items[i].JStr?)
        && (r.Success? ==> r.value == v)
    {
      r := GetList(name, default, Some(StringElement), maxlen);
      if name in old(params) {
        ValidateOutcome(name, old(params)[name], Some(v => ListCheck(Some(StringElement), maxlen, v)));
        ListCheckAccepts(Some(StringElement), maxlen, old(params)[name]);
      }
    }

    /** `integer_list`: a present value is returned iff it is a short enough list of ints. */
    method IntegerList(name: string, default: Fallback, maxlen: Option<int>) returns (r: Result<Json, Error>)
      requires Valid()
      modifies this
      ensures Valid()
      ensures params == old(params) - {name} && order == Without(old(order), name)
      ensures name !in old(params) && default.Given? ==> r == Success(default.value)
      ensures name !in old(params) && default.Mandatory? ==> r == Failure(MissingError(name))
      ensures name in old(params) ==> var v := old(params)[name];
        && (r.Success? <==> v.JList? && (maxlen.Some? ==> |v.items| <= maxlen.value)
                                     && forall i :: 0 <= i < |v.items| ==> IsInt(v.items[i]))
        && (r.Success? ==> r.value == v)
    {
      r := GetList(name, default, Some(IntegerElement), maxlen);
      if name in old(params) {
        ValidateOutcome(name, old(params)[name], Some(v => ListCheck(Some(IntegerElement), maxlen, v)));
        ListCheckAccepts(Some(IntegerElement), maxlen, old(params)[name]);
      }
    }

    /** `timestamp`: `integer` with `minval=0`, so a negative value is rejected as too small. */
    method Timestamp(name: string, default: Fallback) returns (r: Result<Json, Error>)
      requires Valid()
      modifies this
      ensures Valid()
      ensures params == old(params) - {name} && order == Without(old(order), name)
      ensures name !in old(params) && default.Given? ==> r == Success(default.value)
      ensures name !in old(params) && default.Mandatory? ==> r == Failure(MissingError(name))
      ensures name in old(params) ==> var v := old(params)[name];
        && (r.Success? <==> IsInt(v) && 0 <= IntValue(v))
        && (r.Success? ==> r.value == v)
        && (IsInt(v) && IntValue(v) < 0 ==>
              r == Failure(HttpError(400, "invalid parameter value: " + name + ": " + "too small")))
    {
      r := Integer(name, default, Some(0), None);
    }

    /**
     * `__exit__`: leaving the block normally with parameters left over fails
     * with "unexpected parameter: k1, k2, ..." (in insertion order); an empty
     * dictionary, or a block left by an exception, adds no error.
     */
    method Exit(exceptional: bool) returns (r: Result<(), Error>)
      requires Valid()
      ensures r.Failure? <==> !exceptional && params != map[]
      ensures r.Failure? ==> r.error == HttpError(400, "unexpected parameter: " + PyText.Join(order, ", "))
    {
      if !exceptional && params != map[] {
        return Failure(HttpError(400, "unexpected parameter: " + PyText.Join(order, ", ")));
      }
      return Success(());
    }
  }
}
