/**
 * The agent's type-safety helpers `_safe_float`, `_safe_int` and `_safe_str`
 * (agents/agent.py): they turn a loosely typed parameter taken from the
 * language model's JSON reply into "absent", a value, or a described
 * failure. A raised `ValueError` is modelled as an `Err` carrying the parts
 * of its message.
 */
module Coercion {
  import opened Wrappers
  import opened Text
  import opened Numerals

  /** A parameter value as the JSON decoder hands it over. A float carries
      the text `str()` prints for it; a list or an object carries its type
      name and its `str()` text. */
  datatype RawValue =
    | Null
    | Str(s: string)
    | Int(i: int)
    | Real(r: real, text: string)
    | Bool(b: bool)
    | Other(typeName: string, text: string)

  /** `type(v).__name__`. */
  function TypeName(v: RawValue): string {
    match v
    case Null => "NoneType"
    case Str(_) => "str"
    case Int(_) => "int"
    case Real(_, _) => "float"
    case Bool(_) => "bool"
    case Other(t, _) => t
  }

  /** `str(v)`, which is also what an f-string prints for `{v}`. */
  function Display(v: RawValue): string {
    match v
    case Null => "None"
    case Str(s) => s
    case Int(i) => IntToString(i)
    case Real(_, t) => t
    case Bool(b) => if b then "True" else "False"
    case Other(_, t) => t
  }

  /** Python's `float(v)`: the number, or the text of the exception raised
      (a `ValueError` for a string that is not a numeral, a `TypeError` for
      a value of the wrong type). */
  function ToFloat(v: RawValue): Result<real, string> {
    match v
    case Str(s) =>
      (match ParseFloat(s)
       case Some(x) => Ok(x)
       case None => Err("could not convert string to float: '" + s + "'"))
    case Int(i) => Ok(i as real)
    case Real(r, _) => Ok(r)
    case Bool(b) => Ok(if b then 1.0 else 0.0)
    case _ => Err("float() argument must be a string or a real number, not '" + TypeName(v) + "'")
  }

  /** The values every helper treats as "not given": None, `""` and `"null"`. */
  predicate IsAbsent(v: RawValue) {
    v == Null || v == Str("") || v == Str("null")
  }

  /** The `ValueError` a helper raises when conversion fails. */
  datatype CoercionError = CoercionError(param: string, raw: string, typeName: string,
                                         target: string, reason: string)

  /** The text of that `ValueError`, its pieces grouped from the right. */
  function Message(e: CoercionError): string {
    "Cannot convert " + (e.param + ("='" + (e.raw + ("' (" + (("type: " + e.typeName)
      + (") to " + (e.target + (": " + e.reason))))))))
  }

  /** The message names the parameter, shows the raw value and its type. */
  predicate Explains(e: CoercionError, param: string, v: RawValue) {
    && Contains(Message(e), param)
    && Contains(Message(e), Display(v))
    && Contains(Message(e), "type: " + TypeName(v))
  }

  /** Every part of a coercion error shows up in its message. */
  lemma MessageMentions(e: CoercionError)
    ensures Contains(Message(e), e.param)
    ensures Contains(Message(e), e.raw)
    ensures Contains(Message(e), "type: " + e.typeName)
    ensures Contains(Message(e), e.reason)
  {
    var reasonPart := ": " + e.reason;
    var targetPart := ") to " + (e.target + reasonPart);
    var typePart := ("type: " + e.typeName) + targetPart;
    var rawPart := e.raw + ("' (" + typePart);
    var paramPart := e.param + ("='" + rawPart);
    ContainsStart(e.param, "='" + rawPart);
    ContainsAfter("Cannot convert ", paramPart, e.param);
    ContainsStart(e.raw, "' (" + typePart);
    ContainsAfter("='", rawPart, e.raw);
    ContainsAfter(e.param, "='" + rawPart, e.raw);
    ContainsAfter("Cannot convert ", paramPart, e.raw);
    ContainsStart("type: " + e.typeName, targetPart);
    ContainsAfter("' (", typePart, "type: " + e.typeName);
    ContainsAfter(e.raw, "' (" + typePart, "type: " + e.typeName);
    ContainsAfter("='", rawPart, "type: " + e.typeName);
    ContainsAfter(e.param, "='" + rawPart, "type: " + e.typeName);
    ContainsAfter("Cannot convert ", paramPart, "type: " + e.typeName);
    ContainsStart(e.reason, []);
    assert e.reason + [] == e.reason;
    ContainsAfter(": ", e.reason, e.reason);
    ContainsAfter(e.target, reasonPart, e.reason);
    ContainsAfter(") to ", e.target + reasonPart, e.reason);
    ContainsAfter("type: " + e.typeName, targetPart, e.reason);
    ContainsAfter("' (", typePart, e.reason);
    ContainsAfter(e.raw, "' (" + typePart, e.reason);
    ContainsAfter("='", rawPart, e.reason);
    ContainsAfter(e.param, "='" + rawPart, e.reason);
    ContainsAfter("Cannot convert ", paramPart, e.reason);
  }

  /** The error for `v` failing conversion to `target` with `float`'s reason. */
  function Failure(paramName: string, v: RawValue, target: string, reason: string): CoercionError {
    CoercionError(paramName, Display(v), TypeName(v), target, reason)
  }

  /** Such an error explains itself: parameter, value, type and reason are
      all in its message. */
  lemma FailureExplains(paramName: string, v: RawValue, target: string, reason: string)
    ensures var e := Failure(paramName, v, target, reason);
            Explains(e, paramName, v) && Contains(Message(e), reason)
  {
    MessageMentions(Failure(paramName, v, target, reason));
  }

  /** `_safe_float(value, param_name)`. */
  function SafeFloat(value: RawValue, paramName: string): (r: Result<Option<real>, CoercionError>)
    ensures r == Ok(None) <==> IsAbsent(value)
    ensures r.Err? <==> !IsAbsent(value) && ToFloat(value).Err?
    ensures r.Ok? && r.value.Some? ==> ToFloat(value) == Ok(r.value.value)
    ensures r.Err? ==> r.error == Failure(paramName, value, "float", ToFloat(value).error)
  {
    if IsAbsent(value) then Ok(None)
    else
      match ToFloat(value)
      case Ok(x) => Ok(Some(x))
      case Err(reason) => Err(Failure(paramName, value, "float", reason))
  }

  /** `_safe_int(value, param_name)`: `int(round(float(value)))`. */
  function SafeInt(value: RawValue, paramName: string): (r: Result<Option<int>, CoercionError>)
    ensures r == Ok(None) <==> IsAbsent(value)
    ensures r.Err? <==> !IsAbsent(value) && ToFloat(value).Err?
    ensures r.Ok? && r.value.Some? ==>
              ToFloat(value).Ok? && -0.5 <= ToFloat(value).value - r.value.value as real <= 0.5
    ensures r.Err? ==> r.error == Failure(paramName, value, "int", ToFloat(value).error)
  {
    if IsAbsent(value) then Ok(None)
    else
      match ToFloat(value)
      case Ok(x) => Ok(Some(RoundHalfEven(x)))
      case Err(reason) => Err(Failure(paramName, value, "int", reason))
  }

  /** `_safe_str(value)`: `str(value).strip()`, unless the value is absent. */
  function SafeStr(value: RawValue): (r: Option<string>)
    ensures r.None? <==> IsAbsent(value)
    ensures r.Some? ==> Trimmed(r.value)
    ensures r.Some? ==> r.value == Display(value)[StripStart(Display(value))..StripEnd(Display(value))]
    ensures r.Some? ==> forall k :: 0 <= k < StripStart(Display(value)) ==> IsSpace(Display(value)[k])
    ensures r.Some? ==> forall k :: StripEnd(Display(value)) <= k < |Display(value)| ==> IsSpace(Display(value)[k])
  {
    if value == Null || value == Str("null") then None
    else if value == Str("") then None
    else
      StripIsTrimmed(Display(value));
      StripRemovesSpace(Display(value));
      Some(Strip(Display(value)))
  }

  // ---------------------------------------------------------- properties

  /** A failed conversion explains itself: the message names the parameter,
      shows the raw value and its type, and gives `float`'s own reason. */
  lemma SafeErrorsExplain(value: RawValue, paramName: string)
    ensures SafeFloat(value, paramName).Err? ==>
              var e := SafeFloat(value, paramName).error;
              Explains(e, paramName, value) && e.target == "float" && Contains(Message(e), ToFloat(value).error)
    ensures SafeInt(value, paramName).Err? ==>
              var e := SafeInt(value, paramName).error;
              Explains(e, paramName, value) && e.target == "int" && Contains(Message(e), ToFloat(value).error)
  {
    if ToFloat(value).Err? {
      FailureExplains(paramName, value, "float", ToFloat(value).error);
      FailureExplains(paramName, value, "int", ToFloat(value).error);
    }
  }

  /** `_safe_int` is `_safe_float` followed by rounding: same absent values,
      same failures (only the target type in the message differs). */
  lemma SafeIntIsRoundedSafeFloat(value: RawValue, paramName: string)
    ensures match SafeFloat(value, paramName)
            case Ok(None) => SafeInt(value, paramName) == Ok(None)
            case Ok(Some(x)) => SafeInt(value, paramName) == Ok(Some(RoundHalfEven(x)))
            case Err(e) => SafeInt(value, paramName) == Err(e.(target := "int"))
  {
  }

  /** The integer `_safe_int` gives is a nearest integer to the float, and
      on a tie it is the even one. */
  lemma SafeIntNearest(value: RawValue, paramName: string, k: int)
    requires SafeInt(value, paramName).Ok? && SafeInt(value, paramName).value.Some?
    ensures var x := ToFloat(value).value;
            var n := SafeInt(value, paramName).value.value;
            && Abs(x - n as real) <= Abs(x - k as real)
            && (Abs(x - n as real) == 0.5 ==> n % 2 == 0)
  {
    RoundIsNearest(ToFloat(value).value, k);
  }

  lemma IntToStringNotNull(i: int)
    ensures IntToString(i) != "null" && IntToString(i) != ""
  {
    var s := IntToString(i);
    assert s[0] == '-' || IsDigit(s[0]);
  }

  /** Text that `float` reads as `x` is converted to `x` by `_safe_float`
      and to `round(x)` by `_safe_int`. */
  lemma SafeParsed(s: string, paramName: string, x: real)
    requires s != "" && s != "null" && ParseFloat(s) == Some(x)
    ensures SafeFloat(Str(s), paramName) == Ok(Some(x))
    ensures SafeInt(Str(s), paramName) == Ok(Some(RoundHalfEven(x)))
  {
  }

  lemma RoundWhole(i: int)
    ensures RoundHalfEven(i as real) == i
  {
  }

  /** Both numeric helpers read back the decimal text of any integer. */
  lemma SafeIntegerText(i: int, paramName: string)
    ensures SafeInt(Str(IntToString(i)), paramName) == Ok(Some(i))
    ensures SafeFloat(Str(IntToString(i)), paramName) == Ok(Some(i as real))
  {
    IntToStringNotNull(i);
    ParseFloatIntToString(i);
    SafeParsed(IntToString(i), paramName, i as real);
    RoundWhole(i);
  }

  /** Whitespace-only text is kept as an empty string, not treated as absent. */
  lemma SafeStrBlank(s: string)
    requires s != [] && forall k :: 0 <= k < |s| ==> IsSpace(s[k])
    ensures SafeStr(Str(s)) == Some("")
  {
    assert s[0] != 'n';
    StripEmptyIff(s);
  }

  /** Text already free of surrounding whitespace comes back unchanged. */
  lemma SafeStrTrimmedText(s: string)
    requires Trimmed(s) && s != "" && s != "null"
    ensures SafeStr(Str(s)) == Some(s)
  {
    StripTrimmed(s);
  }

  /** `_safe_str` applied to its own answer gives the same answer. */
  lemma SafeStrIdempotent(value: RawValue)
    requires SafeStr(value).Some? && SafeStr(value).value != "" && SafeStr(value).value != "null"
    ensures SafeStr(Str(SafeStr(value).value)) == SafeStr(value)
  {
    StripIdempotent(Display(value));
  }

  /** The conversions the unit tests expect of `_safe_int`: text, a float
      rounded up and one rounded down, an integer, and both absent values. */
  lemma SafeIntExamples()
    ensures SafeInt(Str("5"), "test_param") == Ok(Some(5))
    ensures SafeInt(Str("5.7"), "test_param") == Ok(Some(6))
    ensures SafeInt(Int(5), "test_param") == Ok(Some(5))
    ensures SafeInt(Real(5.3, "5.3"), "test_param") == Ok(Some(5))
    ensures SafeInt(Null, "test_param") == Ok(None)
    ensures SafeInt(Str(""), "test_param") == Ok(None)
  {
    SafeIntFive();
    SafeIntFivePointSeven();
    SafeIntFivePointThree();
    SafeIntNumbers(5, 5.3, "5.3", "test_param");
  }

  /** Numbers need no parsing: `_safe_int` keeps an int and rounds a float,
      `_safe_float` widens an int and keeps a float. */
  lemma SafeIntNumbers(i: int, r: real, text: string, paramName: string)
    ensures SafeInt(Int(i), paramName) == Ok(Some(i))
    ensures SafeInt(Real(r, text), paramName) == Ok(Some(RoundHalfEven(r)))
    ensures SafeFloat(Int(i), paramName) == Ok(Some(i as real))
    ensures SafeFloat(Real(r, text), paramName) == Ok(Some(r))
  {
    RoundWhole(i);
  }

  lemma SafeIntFivePointThree()
    ensures RoundHalfEven(5.3) == 5
  {
  }

  lemma SafeIntFive()
    ensures SafeInt(Str("5"), "test_param") == Ok(Some(5))
  {
    FiveReads();
    SafeParsed("5", "test_param", 5.0);
    RoundWhole(5);
  }

  lemma SafeIntFivePointSeven()
    ensures SafeInt(Str("5.7"), "test_param") == Ok(Some(6))
  {
    FivePointSeven();
    SafeParsed("5.7", "test_param", 5.7);
    assert RoundHalfEven(5.7) == 6;
  }

  lemma FiveReads()
    ensures ParseFloat("5") == Some(5.0)
  {
    FiveText();
    ParseFloatIntToString(5);
  }

  lemma FiveText()
    ensures NatToString(5) == "5" && IntToString(5) == "5"
  {
  }

  lemma FivePointSeven()
    ensures ParseFloat("5.7") == Some(5.7)
  {
    assert SignedText(false, "5" + "." + "7") == "5.7";
    assert Magnitude("5", "7", 0) == 5.7 by {
      assert DigitsValue("5") == DigitsValue("5"[..0]) * 10 + 5;
      assert DigitsValue("7") == DigitsValue("7"[..0]) * 10 + 7;
      assert Pow10(1) == 10;
    }
    ParseFixedDigits(false, "5", "7");
  }

  lemma FivePointZero()
    ensures ParseFloat("5.0") == Some(5.0)
  {
    assert SignedText(false, "5" + "." + "0") == "5.0";
    assert Magnitude("5", "0", 0) == 5.0 by {
      assert DigitsValue("5") == DigitsValue("5"[..0]) * 10 + 5;
      assert DigitsValue("0") == DigitsValue("0"[..0]) * 10 + 0;
    }
    ParseFixedDigits(false, "5", "0");
  }

  lemma NotANumber()
    ensures ParseFloat("not_a_number") == None
  {
    var s := "not_a_number";
    assert s[0] == 'n' && s[|s| - 1] == 'r';
    StripTrimmed(s);
    assert SplitSign(s) == (false, s);
    assert DigitRun(s) == 0;
    assert s[0..] == s;
  }

  /** The conversions the unit tests expect of `_safe_float`. */
  lemma SafeFloatExamples()
    ensures SafeFloat(Str("5.0"), "test_param") == Ok(Some(5.0))
    ensures SafeFloat(Str("5"), "test_param") == Ok(Some(5.0))
    ensures SafeFloat(Int(5), "test_param") == Ok(Some(5.0))
    ensures SafeFloat(Real(5.5, "5.5"), "test_param") == Ok(Some(5.5))
  {
    SafeFloatFivePointZero();
    SafeFloatFive();
    SafeIntNumbers(5, 5.5, "5.5", "test_param");
  }

  lemma SafeFloatFivePointZero()
    ensures SafeFloat(Str("5.0"), "test_param") == Ok(Some(5.0))
  {
    FivePointZero();
    SafeParsed("5.0", "test_param", 5.0);
  }

  lemma SafeFloatFive()
    ensures SafeFloat(Str("5"), "test_param") == Ok(Some(5.0))
  {
    FiveReads();
    SafeParsed("5", "test_param", 5.0);
  }

  /** Text that is not a numeral makes `_safe_int` fail with a message naming
      the parameter and showing the text and its type `str`. */
  lemma SafeIntRejects(s: string, paramName: string)
    requires ParseFloat(s) == None && s != "" && s != "null"
    ensures SafeInt(Str(s), paramName).Err?
    ensures var e := SafeInt(Str(s), paramName).error;
            Explains(e, paramName, Str(s)) && e.typeName == "str" && e.target == "int"
  {
    FailureExplains(paramName, Str(s), "int", ToFloat(Str(s)).error);
  }

  /** A message showing `type: <name>` shows the label `type:`. */
  lemma TypeLabel(m: string, v: RawValue)
    requires Contains(m, "type: " + TypeName(v))
    ensures Contains(m, "type:")
  {
    assert "type: " + TypeName(v) == "type:" + (" " + TypeName(v));
    ContainsPrefix(m, "type:", " " + TypeName(v));
  }

  /** The unit test's bad input. */
  lemma SafeIntErrorExample()
    ensures SafeInt(Str("not_a_number"), "test_param").Err?
    ensures var m := Message(SafeInt(Str("not_a_number"), "test_param").error);
            Contains(m, "test_param") && Contains(m, "not_a_number") && Contains(m, "type:")
  {
    NotANumber();
    SafeIntRejects("not_a_number", "test_param");
    TypeLabel(Message(SafeInt(Str("not_a_number"), "test_param").error), Str("not_a_number"));
  }
}
