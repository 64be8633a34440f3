/** JavaScript values as the hooks and form helpers see them, with the two
    string-to-number conversions they rely on: `parseFloat` (longest decimal
    prefix after leading white space) and `Number` (the whole trimmed string).
    NaN is represented by `None` wherever a conversion can produce it. */
module JsValues {

  datatype Option<T> = None | Some(value: T)

  /** The outcome of a step that can fail: a value, or the reason it failed. */
  datatype Result<T, E> = Ok(value: T) | Err(error: E)
  {
    predicate IsFailure() { Err? }

    function PropagateFailure<U>(): Result<U, E>
      requires Err?
    {
      Err(error)
    }

    function Extract(): T
      requires Ok?
    {
      value
    }
  }

  /** A JavaScript value. `NaN` is the number NaN; every other number is `Num`. */
  datatype JsValue =
    | Undefined
    | Null
    | Bool(b: bool)
    | Num(n: real)
    | NaN
    | Str(s: string)
    | Arr(items: seq<JsValue>)
    | Obj(fields: map<string, JsValue>)

  /** ECMAScript ToBoolean. */
  predicate Truthy(v: JsValue) {
    match v
    case Undefined => false
    case Null => false
    case Bool(b) => b
    case Num(n) => n != 0.0
    case NaN => false
    case Str(s) => s != ""
    case Arr(_) => true
    case Obj(_) => true
  }

  /** `x || d` */
  function OrElse(x: JsValue, d: JsValue): (r: JsValue)
    ensures Truthy(x) ==> r == x
    ensures !Truthy(x) ==> r == d
  {
    if Truthy(x) then x else d
  }

  // ---------------------------------------------------------------------------
  // Characters and digit runs

  predicate IsDigit(c: char) { '0' <= c <= '9' }

  /** The white space that `trim` and the numeric conversions skip. */
  predicate IsSpace(c: char) {
    c == ' ' || c == '\t' || c == '\n' || c == '\r' || c == '\U{000B}' || c == '\U{000C}'
    || c == '\U{00A0}' || c == '\U{FEFF}'
  }

  function DigitValue(c: char): (d: nat)
    requires IsDigit(c)
    ensures d < 10
  {
    c as int - '0' as int
  }

  predicate AllDigits(s: string) {
    forall i :: 0 <= i < |s| ==> IsDigit(s[i])
  }

  /** Length of the run of decimal digits at the start of `s`. */
  function DigitRun(s: string): (n: nat)
    ensures n <= |s|
    ensures AllDigits(s[..n])
    ensures n < |s| ==> !IsDigit(s[n])
  {
    if s == [] || !IsDigit(s[0]) then 0
    else
      var k := DigitRun(s[1..]);
      assert s[..1 + k] == [s[0]] + s[1..][..k];
      1 + k
  }

  /** The number a string of decimal digits denotes. */
  function NatValue(ds: string): nat
    requires AllDigits(ds)
  {
    if ds == [] then 0 else 10 * NatValue(ds[..|ds| - 1]) + DigitValue(ds[|ds| - 1])
  }

  function Pow10(n: nat): (p: nat)
    ensures p >= 1
  {
    if n == 0 then 1 else 10 * Pow10(n - 1)
  }

  /** Decimal digits of a natural number, most significant first. */
  function NatToString(n: nat): (s: string)
    ensures s != [] && AllDigits(s)
  {
    if n < 10 then ['0' + n as char]
    else NatToString(n / 10) + ['0' + (n % 10) as char]
  }

  lemma {:induction false} NatToStringValue(n: nat)
    ensures NatValue(NatToString(n)) == n
  {
    if n >= 10 {
      NatToStringValue(n / 10);
      var s := NatToString(n);
      assert s[..|s| - 1] == NatToString(n / 10);
    }
  }

  // ---------------------------------------------------------------------------
  // Trimming

  function TrimStart(s: string): (t: string)
    ensures |t| <= |s| && t == s[|s| - |t|..]
    ensures t != [] ==> !IsSpace(t[0])
    ensures forall i :: 0 <= i < |s| - |t| ==> IsSpace(s[i])
  {
    if s != [] && IsSpace(s[0]) then TrimStart(s[1..]) else s
  }

  function TrimEnd(s: string): (t: string)
    ensures |t| <= |s| && t == s[..|t|]
    ensures t != [] ==> !IsSpace(t[|t| - 1])
    ensures forall i :: |t| <= i < |s| ==> IsSpace(s[i])
  {
    if s != [] && IsSpace(s[|s| - 1]) then TrimEnd(s[..|s| - 1]) else s
  }

  /** `String.prototype.trim` */
  function Trim(s: string): (t: string)
    ensures t == "" <==> forall i :: 0 <= i < |s| ==> IsSpace(s[i])
  {
    var u := TrimStart(s);
    var t := TrimEnd(u);
    if t == "" then
      t
    else
      assert !IsSpace(t[0]) && t[0] == s[|s| - |u|];
      t
  }

  // ---------------------------------------------------------------------------
  // Decimal literals: [+|-] (digits [. digits?] | . digits)

  /** A scanned literal: its value and how many characters it used. */
  datatype Scan = Scan(value: real, len: nat)

  /** The number written `whole.fraction`. */
  function DecimalValue(whole: string, fraction: string): real
    requires AllDigits(whole) && AllDigits(fraction)
  {
    NatValue(whole) as real + NatValue(fraction) as real / Pow10(|fraction|) as real
  }

  function ScanUnsigned(s: string): (r: Option<Scan>)
    ensures r.Some? ==> 0 < r.value.len <= |s|
  {
    var i := DigitRun(s);
    if i < |s| && s[i] == '.' then
      var f := DigitRun(s[i + 1..]);
      if i == 0 && f == 0 then None
      else
        Some(Scan(DecimalValue(s[..i], s[i + 1..][..f]), i + 1 + f))
    else if i == 0 then None
    else Some(Scan(NatValue(s[..i]) as real, i))
  }

  /** The longest decimal-literal prefix of `s`, if there is one. */
  function ScanDecimal(s: string): (r: Option<Scan>)
    ensures r.Some? ==> 0 < r.value.len <= |s|
  {
    if s != [] && (s[0] == '+' || s[0] == '-') then
      match ScanUnsigned(s[1..])
      case None => None
      case Some(sc) => Some(Scan(if s[0] == '-' then -sc.value else sc.value, sc.len + 1))
    else ScanUnsigned(s)
  }

  /** `parseFloat` on a string: skip leading white space, read the longest
      decimal prefix; `None` is NaN. */
  function ParseFloatString(s: string): (r: Option<real>)
    ensures r.Some? <==> ScanDecimal(TrimStart(s)).Some?
  {
    match ScanDecimal(TrimStart(s))
    case None => None
    case Some(sc) => Some(sc.value)
  }

  /** `Number` on a string: the whole trimmed string must be a literal; the
      empty (or all-blank) string is 0. */
  function StringToNumber(s: string): (r: Option<real>)
    ensures Trim(s) == "" ==> r == Some(0.0)
  {
    var t := Trim(s);
    if t == "" then Some(0.0)
    else
      match ScanDecimal(t)
      case Some(sc) => if sc.len == |t| then Some(sc.value) else None
      case None => None
  }

  /** `parseFloat(v)`: the argument is first turned into a string. A number
      prints and re-parses as itself; `undefined`, `null`, booleans and objects
      print as words that do not start with a number. */
  function ParseFloat(v: JsValue): (r: Option<real>)
    ensures v.Num? ==> r == Some(v.n)
    ensures v.Undefined? || v.Null? || v.NaN? || v.Bool? || v.Obj? ==> r == None
  {
    match v
    case Num(n) => Some(n)
    case Str(s) => ParseFloatString(s)
    case _ => None
  }

  /** `Number(v)`. An array is read through its string form: the empty
      array and a single `undefined`, `null` or empty array print as the
      empty string (0), a single number or string prints as itself, and two
      or more elements print with a comma, which is not a number. */
  function ToNumber(v: JsValue): (r: Option<real>)
    ensures v.Num? ==> r == Some(v.n)
    ensures v.Null? ==> r == Some(0.0)
    ensures v.Undefined? || v.NaN? || v.Obj? ==> r == None
    ensures v.Arr? && |v.items| == 1 && (v.items[0].Null? || v.items[0].Undefined? || v.items[0] == Arr([]))
      ==> r == Some(0.0)
    ensures v.Arr? && |v.items| >= 2 ==> r == None
  {
    match v
    case Undefined => None
    case Null => Some(0.0)
    case Bool(b) => Some(if b then 1.0 else 0.0)
    case Num(n) => Some(n)
    case NaN => None
    case Str(s) => StringToNumber(s)
    case Arr(items) =>
      if items == [] then Some(0.0)
      else if |items| >= 2 then None
      else
        (match items[0]
         case Undefined => Some(0.0)
         case Null => Some(0.0)
         case Num(n) => Some(n)
         case Str(s) => StringToNumber(s)
         case Arr(_) => ToNumber(items[0])
         case _ => None)
    case Obj(_) => None
  }

  /** `Math.abs`. */
  function Abs(x: real): (r: real)
    ensures r >= 0.0 && (r == x || r == -x)
  {
    if x < 0.0 then -x else x
  }

  /** `x` truncated toward zero. */
  function Truncar(x: real): (k: int)
    ensures x >= 0.0 ==> k as real <= x < k as real + 1.0
    ensures x < 0.0 ==> k as real - 1.0 < x <= k as real
  {
    if x >= 0.0 then x.Floor else -((-x).Floor)
  }

  /** `parseInt` on a string with no radix: skip leading white space, take an
      optional sign and the longest run of decimal digits after it; `None`
      is NaN. */
  function ParseIntString(s: string): (r: Option<int>)
  {
    var t := TrimStart(s);
    var u := if t != [] && (t[0] == '+' || t[0] == '-') then t[1..] else t;
    var n := DigitRun(u);
    if n == 0 then None
    else if t[0] == '-' then Some(-(NatValue(u[..n]) as int))
    else Some(NatValue(u[..n]))
  }

  /** `parseInt(v)`: a number is printed and read back up to its decimal
      point, which truncates it toward zero; `undefined`, `null`, booleans,
      NaN and objects print as words that do not start with a digit. An
      array prints as its elements joined by commas, and the digits stop at
      the first comma, so only the first element is read; an empty first
      element (`undefined`, `null` or an empty array) leaves nothing to
      read. */
  function ParseInt(v: JsValue): (r: Option<int>)
    ensures v.Num? ==> r == Some(Truncar(v.n))
    ensures v.Undefined? || v.Null? || v.NaN? || v.Bool? || v.Obj? ==> r == None
    ensures v.Arr? && v.items == [] ==> r == None
    ensures v.Arr? && v.items != [] && v.items[0].Num? ==> r == Some(Truncar(v.items[0].n))
    ensures v.Arr? && v.items != [] && (v.items[0].Null? || v.items[0].Undefined?) ==> r == None
  {
    match v
    case Num(n) => Some(Truncar(n))
    case Str(s) => ParseIntString(s)
    case Arr(items) =>
      if items == [] then None
      else
        (match items[0]
         case Num(n) => Some(Truncar(n))
         case Str(s) => ParseIntString(s)
         case Arr(_) => ParseInt(items[0])
         case _ => None)
    case _ => None
  }

  // ---------------------------------------------------------------------------
  // What the parsers do on well-formed input

  lemma {:induction false} DigitRunAll(ds: string)
    requires AllDigits(ds)
    ensures DigitRun(ds) == |ds|
  {
    if ds != [] { DigitRunAll(ds[1..]); }
  }

  lemma {:induction false} DigitRunStops(ds: string, rest: string)
    requires AllDigits(ds)
    requires rest == [] || !IsDigit(rest[0])
    ensures DigitRun(ds + rest) == |ds|
  {
    if ds != [] {
      assert (ds + rest)[1..] == ds[1..] + rest;
      DigitRunStops(ds[1..], rest);
    }
  }

  /** `parseFloat` reads the digits of a natural number and ignores a trailing
      suffix that cannot continue the literal (a unit, a word, a comma). */
  lemma ParseFloatNatPrefix(n: nat, rest: string)
    requires rest == [] || (!IsDigit(rest[0]) && rest[0] != '.')
    ensures ParseFloatString(NatToString(n) + rest) == Some(n as real)
  {
    var ds := NatToString(n);
    var s := ds + rest;
    assert !IsSpace(s[0]);
    assert TrimStart(s) == s;
    DigitRunStops(ds, rest);
    assert s[..|ds|] == ds;
    NatToStringValue(n);
  }

  /** `Number` converts the digits of a natural number back to that number. */
  lemma NumberOfNatString(n: nat)
    ensures StringToNumber(NatToString(n)) == Some(n as real)
  {
    var ds := NatToString(n);
    assert !IsSpace(ds[0]) && !IsSpace(ds[|ds| - 1]);
    assert TrimStart(ds) == ds;
    assert TrimEnd(ds) == ds;
    ScanDigits(ds);
    NatToStringValue(n);
  }

  /** A run of digits scans whole as the number it denotes. */
  lemma ScanDigits(m: string)
    requires m != [] && AllDigits(m)
    ensures ScanUnsigned(m) == Some(Scan(NatValue(m) as real, |m|))
  {
    DigitRunAll(m);
    assert m[..|m|] == m;
  }

  /** A string with no digit at all is NaN for `parseFloat`. */
  lemma ParseFloatNoDigits(s: string)
    requires forall i :: 0 <= i < |s| ==> !IsDigit(s[i])
    ensures ParseFloatString(s) == None
  {
    var t := TrimStart(s);
    assert forall i :: 0 <= i < |t| ==> !IsDigit(t[i]) by {
      forall i | 0 <= i < |t| ensures !IsDigit(t[i]) { assert t[i] == s[|s| - |t| + i]; }
    }
    if t != [] && (t[0] == '+' || t[0] == '-') {
      var u := t[1..];
      assert forall i :: 0 <= i < |u| ==> !IsDigit(u[i]) by {
        forall i | 0 <= i < |u| ensures !IsDigit(u[i]) { assert u[i] == t[i + 1]; }
      }
      NoDigitsUnsigned(u);
    } else {
      NoDigitsUnsigned(t);
    }
  }

  lemma NoDigitsUnsigned(s: string)
    requires forall i :: 0 <= i < |s| ==> !IsDigit(s[i])
    ensures ScanUnsigned(s) == None
  {
    assert DigitRun(s) == 0;
    if 0 < |s| && s[0] == '.' {
      assert s[1..] == [] || !IsDigit(s[1..][0]);
      assert DigitRun(s[1..]) == 0;
    }
  }

  /** `parseInt` reads the digits of a natural number back as that number,
      whatever non-digit text follows them. */
  lemma ParseIntNatPrefix(n: nat, rest: string)
    requires rest == [] || !IsDigit(rest[0])
    ensures ParseIntString(NatToString(n) + rest) == Some(n)
  {
    var ds := NatToString(n);
    var s := ds + rest;
    assert !IsSpace(s[0]) && IsDigit(s[0]);
    assert TrimStart(s) == s;
    DigitRunStops(ds, rest);
    assert s[..|ds|] == ds;
    NatToStringValue(n);
  }
}
