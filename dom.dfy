/**
 * The slice of JavaScript and DOM value semantics the components depend on:
 * truthiness, loose comparison with `undefined`, the string conversions that
 * `setAttribute`, `textContent` and `input.value` apply, and how an array is
 * indexed by a property key that may be a number or a string.
 */
module Dom {
  import opened Wrappers

  /** A JavaScript value as far as these components inspect it. Numbers are integers here. */
  datatype Value = Undefined | Null | Bool(b: bool) | Num(n: int) | Str(s: string)

  /** `if (v)`: undefined, null, false, 0 and "" are falsy. */
  predicate Truthy(v: Value)
    ensures !Truthy(v) <==> v == Undefined || v == Null || v == Bool(false) || v == Num(0) || v == Str("")
  {
    match v
    case Undefined => false
    case Null => false
    case Bool(b) => b
    case Num(n) => n != 0
    case Str(s) => s != ""
  }

  /** `v != undefined` under loose equality holds exactly when `v` is neither undefined nor null. */
  predicate IsNullish(v: Value)
    ensures IsNullish(v) ==> !Truthy(v)
    ensures IsNullish(v) <==> v == Undefined || v == Null
  {
    v.Undefined? || v.Null?
  }

  predicate IsDigit(c: char)
  {
    '0' <= c <= '9'
  }

  function DigitChar(d: nat): (c: char)
    requires d < 10
    ensures IsDigit(c)
  {
    ('0' as int + d) as char
  }

  function DigitValue(c: char): nat
    requires IsDigit(c)
  {
    c as int - '0' as int
  }

  /** Decimal spelling of a natural number, as `String(n)` writes it. */
  function NatToString(n: nat): (r: string)
    ensures |r| >= 1
    ensures forall i :: 0 <= i < |r| ==> IsDigit(r[i])
    decreases n
  {
    if n < 10 then [DigitChar(n)] else NatToString(n / 10) + [DigitChar(n % 10)]
  }

  /** `String(v)`, the conversion `setAttribute` applies to its second argument. */
  function ToString(v: Value): (r: string)
    ensures r == "" <==> v == Str("")
    ensures v.Str? ==> r == v.s
    ensures v.Num? && v.n >= 0 ==> r == NatToString(v.n)
  {
    match v
    case Undefined => "undefined"
    case Null => "null"
    case Bool(b) => if b then "true" else "false"
    case Num(n) => if n < 0 then "-" + NatToString(-n) else NatToString(n)
    case Str(s) => s
  }

  /** Assignment to a nullable DOMString such as `textContent`: null and undefined become "". */
  function ToNullableString(v: Value): (r: string)
    ensures IsNullish(v) ==> r == ""
    ensures !IsNullish(v) ==> r == ToString(v)
    ensures r == "" <==> IsNullish(v) || v == Str("")
  {
    if IsNullish(v) then "" else ToString(v)
  }

  /** Assignment to a `[LegacyNullToEmptyString]` DOMString such as `input.value`: only null becomes "". */
  function ToLegacyNullString(v: Value): (r: string)
    ensures v == Undefined ==> r == "undefined"
    ensures r == "" <==> v == Null || v == Str("")
  {
    if v.Null? then "" else ToString(v)
  }

  /** `getAttribute(name)`: the attribute's text, or null when it is absent. */
  function FromAttribute(a: Option<string>): (v: Value)
    ensures v.Null? <==> a.None?
    ensures a.Some? ==> v == Str(a.value)
  {
    match a
    case None => Null
    case Some(s) => Str(s)
  }

  /**
   * The reflection idiom `if (v) setAttribute(name, v) else removeAttribute(name)`:
   * the attribute is present exactly for truthy values, and a present one is never empty,
   * so a later `getAttribute(name) !== null` reads back the truthiness of `v`.
   */
  function ReflectFlag(v: Value): (r: Option<string>)
    ensures r.Some? <==> Truthy(v)
    ensures r.Some? ==> r.value == ToString(v) && r.value != ""
  {
    if Truthy(v) then Some(ToString(v)) else None
  }

  function DigitsValue(s: string): nat
    requires forall i :: 0 <= i < |s| ==> IsDigit(s[i])
    decreases |s|
  {
    if s == [] then 0 else 10 * DigitsValue(s[..|s| - 1]) + DigitValue(s[|s| - 1])
  }

  /** A string that names an array index: decimal digits with no leading zero (except "0" itself). */
  predicate IsCanonicalIndex(s: string)
  {
    && |s| >= 1
    && (forall i :: 0 <= i < |s| ==> IsDigit(s[i]))
    && (s[0] == '0' ==> |s| == 1)
  }

  /** The array index a property key denotes, if any: a non-negative number or its canonical spelling. */
  function IndexOf(key: Value): (r: Option<nat>)
    ensures key.Num? ==> (r.Some? <==> key.n >= 0) && (r.Some? ==> r.value == key.n)
    ensures key.Str? && r.Some? ==> key.s == NatToString(r.value)
    ensures !key.Num? && !key.Str? ==> r.None?
  {
    match key
    case Num(n) => if n >= 0 then Some(n) else None
    case Str(s) => if IsCanonicalIndex(s) then NatToStringOfDigits(s); Some(DigitsValue(s)) else None
    case _ => None
  }

  /** The element `arr[key]` holds: present exactly when the key denotes an index below the length. */
  function At<T>(arr: seq<T>, key: Value): (r: Option<T>)
    ensures r.Some? <==> IndexOf(key).Some? && IndexOf(key).value < |arr|
    ensures r.Some? ==> r.value == arr[IndexOf(key).value]
  {
    match IndexOf(key)
    case Some(i) => if i < |arr| then Some(arr[i]) else None
    case None => None
  }

  /** The one own property of an array besides its elements. */
  const LengthKey: string := "length"

  /**
   * `arr[key]` as a JavaScript value: the element at an index key, the array's length for the key
   * "length", and `undefined` for any other own key. Inherited names (`push`, `constructor`, ...)
   * read functions, which `Value` does not represent.
   */
  function Read(arr: seq<Value>, key: Value): (r: Value)
    ensures At(arr, key).Some? ==> r == At(arr, key).value
    ensures key == Str(LengthKey) ==> r == Num(|arr|)
    ensures At(arr, key).None? && key != Str(LengthKey) ==> r == Undefined
  {
    if key == Str(LengthKey) then
      assert !IsDigit(LengthKey[0]);
      Num(|arr|)
    else
      match At(arr, key)
      case Some(v) => v
      case None => Undefined
  }

  lemma {:induction false} DigitsOfNatToString(n: nat)
    ensures IsCanonicalIndex(NatToString(n))
    ensures DigitsValue(NatToString(n)) == n
    decreases n
  {
    var s := NatToString(n);
    if n >= 10 {
      DigitsOfNatToString(n / 10);
      var p := NatToString(n / 10);
      assert s == p + [DigitChar(n % 10)];
      assert s[..|s| - 1] == p;
      assert s[0] == p[0];
    }
  }

  lemma {:induction false} DigitsValueLeading(s: string)
    requires IsCanonicalIndex(s) && s[0] != '0'
    ensures DigitsValue(s) >= 1
    ensures |s| >= 2 ==> DigitsValue(s) >= 10
    decreases |s|
  {
    if |s| >= 2 {
      var p := s[..|s| - 1];
      assert p[0] == s[0];
      DigitsValueLeading(p);
    } else {
      assert s[..0] == [];
    }
  }

  lemma {:induction false} NatToStringOfDigits(s: string)
    requires IsCanonicalIndex(s)
    ensures NatToString(DigitsValue(s)) == s
    decreases |s|
  {
    var n := DigitsValue(s);
    var p := s[..|s| - 1];
    if |s| == 1 {
      assert p == [] && DigitsValue(p) == 0;
      assert n == DigitValue(s[0]) < 10;
      assert DigitChar(n) == s[0];
      assert [DigitChar(n)] == s;
    } else {
      DigitsValueLeading(s);
      assert p[0] == s[0];
      NatToStringOfDigits(p);
      assert n / 10 == DigitsValue(p) && n % 10 == DigitValue(s[|s| - 1]);
      assert s == p + [s[|s| - 1]];
    }
  }

  /** A string key denotes index `n` exactly when it is `String(n)`: "2" reads `arr[2]`, "02" reads nothing. */
  lemma IndexKeyIsDecimalSpelling(s: string, n: nat)
    ensures IndexOf(Str(s)) == Some(n) <==> s == NatToString(n)
  {
    if s == NatToString(n) {
      DigitsOfNatToString(n);
    }
    if IndexOf(Str(s)) == Some(n) {
      NatToStringOfDigits(s);
    }
  }

  /** Reading `arr[String(i)]` is reading `arr[i]`. */
  lemma AtStringKey<T>(arr: seq<T>, i: nat)
    ensures At(arr, Str(NatToString(i))) == At(arr, Num(i))
  {
    IndexKeyIsDecimalSpelling(NatToString(i), i);
  }
}
