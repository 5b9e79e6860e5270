/** The PHP values the process pool moves around: scalars, arrays, the
    library's own exception objects, PHP truthiness, decimal rendering of
    integers, the `(int)` cast of a string and the class hierarchy used by
    `instanceof`/`is_a`. */
module Php {
  import opened Wrappers

  /** A byte of a PHP byte string. */
  newtype byte = b: int | 0 <= b < 256

  const ExceptionClass := "Exception"
  const ThrowableInterface := "Throwable"
  const InvalidArgumentClass := "InvalidArgumentException"
  const ParallelErrorClass := "Spatie\\Async\\Output\\ParallelError"
  const ParallelExceptionClass := "Spatie\\Async\\Output\\ParallelException"
  const SerializableExceptionClass := "Spatie\\Async\\Output\\SerializableException"
  const SerializableClosureClass := "Laravel\\SerializableClosure\\SerializableClosure"

  /** A Throwable object. `Native` is an instance of a class the library does
      not define, built with a single message argument. */
  datatype Throwable =
    | Native(cls: string, message: string)
    | ParallelError(message: string)
    | ParallelException(message: string, originalClass: string, originalTrace: string)
  {
    /** What `get_class` reports for the object. */
    function Class(): string {
      match this
      case Native(c, _) => c
      case ParallelError(_) => ParallelErrorClass
      case ParallelException(_, _, _) => ParallelExceptionClass
    }
  }

  /** The wire record of a failure: three plain strings, no behaviour. */
  datatype SerializableException = SerializableException(cls: string, message: string, trace: string)

  /** A PHP value (floats, references and resources are not modelled). */
  datatype Value =
    | Null
    | Bool(b: bool)
    | Int(i: int)
    | Str(s: string)
    | Arr(items: seq<Value>)
    /** An object of class `cls`; `text` is what its `__toString()` returns
        when the class declares one. */
    | Object(cls: string, props: seq<Value>, text: Option<string>)
    | Record(record: SerializableException)
    | Thrown(throwable: Throwable)

  /** The Error PHP raises when a typed property that was never assigned is
      read. */
  function UninitializedRead(cls: string, prop: string): (e: Throwable)
    ensures e.Class() == "Error"
  {
    Native("Error", "Typed property " + cls + "::$" + prop + " must not be accessed before initialization")
  }

  /** What running a piece of user code gives: a value, or a Throwable. */
  datatype Outcome = Returned(value: Value) | Raised(error: Throwable)

  /** PHP's conversion to bool: null, false, 0, "", "0" and the empty array
      are falsy; every object is truthy. */
  predicate Truthy(v: Value)
    ensures !Truthy(v) <==> v in {Null, Bool(false), Int(0), Str(""), Str("0"), Arr([])}
  {
    match v
    case Null => false
    case Bool(b) => b
    case Int(i) => i != 0
    case Str(s) => s != "" && s != "0"
    case Arr(items) => items != []
    case _ => true
  }

  // ---------------------------------------------------------------------
  // Decimal digits

  predicate IsDigit(c: char) { '0' <= c <= '9' }

  function DigitValue(c: char): (d: nat)
    requires IsDigit(c)
    ensures d < 10
  {
    c as int - '0' as int
  }

  function DigitChar(d: nat): (c: char)
    requires d < 10
    ensures IsDigit(c) && DigitValue(c) == d
  {
    ('0' as int + d) as char
  }

  predicate AllDigits(s: string) {
    forall i :: 0 <= i < |s| ==> IsDigit(s[i])
  }

  /** The decimal notation of `n`: at least one digit, and no leading zero
      unless `n` is zero. */
  function NatToDecimal(n: nat): (s: string)
    ensures |s| >= 1 && AllDigits(s)
    ensures s[0] == '0' ==> n == 0
  {
    if n < 10 then [DigitChar(n)] else NatToDecimal(n / 10) + [DigitChar(n % 10)]
  }

  /** The number a string of decimal digits denotes. */
  function DigitsValue(s: string): nat
    requires AllDigits(s)
  {
    if s == [] then 0 else DigitsValue(s[..|s| - 1]) * 10 + DigitValue(s[|s| - 1])
  }

  function Pow10(k: nat): (r: nat)
    ensures r >= 1
  {
    if k == 0 then 1 else 10 * Pow10(k - 1)
  }

  lemma {:induction false} DecimalRoundTrip(n: nat)
    ensures DigitsValue(NatToDecimal(n)) == n
  {
    if n >= 10 {
      var s := NatToDecimal(n);
      DecimalRoundTrip(n / 10);
      assert s[..|s| - 1] == NatToDecimal(n / 10);
    }
  }

  /** Reading a concatenation of digit strings: the left part is shifted by
      as many decimal places as the right part has digits. */
  lemma {:induction false} DigitsValueAppend(a: string, b: string)
    requires AllDigits(a) && AllDigits(b)
    ensures AllDigits(a + b)
    ensures DigitsValue(a + b) == DigitsValue(a) * Pow10(|b|) + DigitsValue(b)
  {
    if b == [] {
      assert a + b == a;
    } else {
      var b' := b[..|b| - 1];
      var last := DigitValue(b[|b| - 1]);
      assert (a + b)[..|a + b| - 1] == a + b';
      assert (a + b)[|a + b| - 1] == b[|b| - 1];
      DigitsValueAppend(a, b');
      assert DigitsValue(a + b) == DigitsValue(a + b') * 10 + last;
      assert DigitsValue(b) == DigitsValue(b') * 10 + last;
      ShiftStep(DigitsValue(a), Pow10(|b'|), DigitsValue(b'), last);
    }
  }

  lemma ShiftStep(x: nat, p: nat, y: nat, d: nat)
    ensures (x * p + y) * 10 + d == x * (10 * p) + (y * 10 + d)
  {
  }

  /** PHP's rendering of an integer as a string. */
  function IntToString(i: int): (s: string)
    ensures |s| >= 1
  {
    if i < 0 then "-" + NatToDecimal(-i) else NatToDecimal(i)
  }

  // ---------------------------------------------------------------------
  // The `(int)` cast of a string

  predicate IsSpace(c: char) {
    c == ' ' || c == '\t' || c == '\n' || c == '\r' || c == 11 as char || c == 12 as char
  }

  function SkipSpaces(s: string): (t: string)
    ensures |t| <= |s| && t == s[|s| - |t|..]
    ensures t != [] ==> !IsSpace(t[0])
  {
    if s != [] && IsSpace(s[0]) then SkipSpaces(s[1..]) else s
  }

  /** The longest prefix of `s` made of decimal digits. */
  function LeadingDigits(s: string): (d: string)
    ensures AllDigits(d) && d <= s
    ensures |d| < |s| ==> !IsDigit(s[|d|])
  {
    if s != [] && IsDigit(s[0]) then [s[0]] + LeadingDigits(s[1..]) else []
  }

  /** `(int)$s`: leading white space, an optional sign and the longest run of
      digits; a string with no leading number casts to 0. */
  function IntCast(s: string): (n: int)
    ensures LeadingDigits(SkipSpaces(s)) == [] && (SkipSpaces(s) == [] || SkipSpaces(s)[0] !in "+-") ==> n == 0
  {
    var t := SkipSpaces(s);
    if t != [] && t[0] == '-' then -(DigitsValue(LeadingDigits(t[1..])) as int)
    else if t != [] && t[0] == '+' then DigitsValue(LeadingDigits(t[1..]))
    else DigitsValue(LeadingDigits(t))
  }

  lemma {:induction false} LeadingDigitsOfDigits(s: string)
    requires AllDigits(s)
    ensures LeadingDigits(s) == s
  {
    if s != [] {
      LeadingDigitsOfDigits(s[1..]);
    }
  }

  /** A string of digits casts to the number it denotes. */
  lemma IntCastOfDigits(s: string)
    requires AllDigits(s) && s != []
    ensures IntCast(s) == DigitsValue(s)
  {
    assert SkipSpaces(s) == s;
    LeadingDigitsOfDigits(s);
  }

  /** A minus sign and a string of digits cast to the negated number. */
  lemma IntCastOfNegative(d: string)
    requires AllDigits(d) && d != []
    ensures IntCast("-" + d) == -(DigitsValue(d) as int)
  {
    var s := "-" + d;
    assert SkipSpaces(s) == s;
    assert s[1..] == d;
    LeadingDigitsOfDigits(d);
  }

  /** A one-digit number shifts by one decimal place. */
  lemma SingleDigitShift(d: nat)
    requires d < 10
    ensures Pow10(|NatToDecimal(d)|) == 10
  {
    assert NatToDecimal(d) == [DigitChar(d)];
    assert Pow10(1) == 10 * Pow10(0);
  }

  /** Casting the rendering of an integer back to int gives the integer. */
  lemma IntCastRoundTrip(i: int)
    ensures IntCast(IntToString(i)) == i
  {
    if i < 0 {
      DecimalRoundTrip(-i);
      IntCastOfNegative(NatToDecimal(-i));
    } else {
      DecimalRoundTrip(i);
      IntCastOfDigits(NatToDecimal(i));
    }
  }

  /** Distinct integers render as distinct strings. */
  lemma IntToStringInjective(i: int, j: int)
    requires IntToString(i) == IntToString(j)
    ensures i == j
  {
    IntCastRoundTrip(i);
    IntCastRoundTrip(j);
  }

  // ---------------------------------------------------------------------
  // Conversion to string

  /** The text of a value that PHP converts to a string. An array gives
      "Array". A Throwable converts through `__toString()`, whose text begins
      with the class and, when there is one, ": " and the message; the
      model stops there. An object converts through its `__toString()`; the
      other objects have no conversion (see `Interpolate` and
      `MessageArgument`), and the class name stands in for them here. */
  function ToPhpString(v: Value): (s: string)
    ensures v.Str? ==> s == v.s
    ensures v.Int? ==> IntCast(s) == v.i
    ensures v.Null? || v.Bool? || v.Int? || v.Str? ==> (Truthy(Str(s)) <==> Truthy(v))
    ensures v.Object? && v.text.Some? ==> s == v.text.value
  {
    match v
    case Null => ""
    case Bool(b) => if b then "1" else ""
    case Int(i) => IntCastRoundTrip(i); IntToString(i)
    case Str(s) => s
    case Arr(_) => "Array"
    case Object(cls, _, text) => if text.Some? then text.value else cls
    case Record(_) => SerializableExceptionClass
    case Thrown(t) => if t.message == "" then t.Class() else t.Class() + ": " + t.message
  }

  /** The type PHP names in a type error for a value. */
  function TypeName(v: Value): string {
    match v
    case Null => "null"
    case Bool(_) => "bool"
    case Int(_) => "int"
    case Str(_) => "string"
    case Arr(_) => "array"
    case Object(cls, _, _) => cls
    case Record(_) => SerializableExceptionClass
    case Thrown(t) => t.Class()
  }

  /** An object whose class declares no `__toString()`; the wire record
      `SerializableException` is one. Throwables have one. */
  predicate NotStringable(v: Value) {
    (v.Object? && v.text.None?) || v.Record?
  }

  /** String interpolation, `"...$v..."`: an object without `__toString()`
      raises Error; everything else converts, an array with a warning. */
  function Interpolate(v: Value): (r: Result<string, Throwable>)
    ensures r.Failure? <==> NotStringable(v)
    ensures r.Failure? ==> r.error == Native("Error", "Object of class " + TypeName(v) + " could not be converted to string")
    ensures r.Success? ==> r.value == ToPhpString(v)
    ensures v.Object? && v.text.Some? ==> r == Success(v.text.value)
  {
    if NotStringable(v) then Failure(Native("Error", "Object of class " + TypeName(v) + " could not be converted to string"))
    else Success(ToPhpString(v))
  }

  /** A value passed as the `string $message` of Exception's constructor,
      under PHP's coercive typing: an array, or an object without
      `__toString()`, raises TypeError; null passes as "". */
  function MessageArgument(v: Value): (r: Result<string, Throwable>)
    ensures r.Failure? <==> v.Arr? || NotStringable(v)
    ensures r.Failure? ==> r.error.Class() == "TypeError"
    ensures r.Success? ==> r.value == ToPhpString(v)
    ensures v.Object? && v.text.Some? ==> r == Success(v.text.value)
  {
    if v.Arr? || NotStringable(v) then
      Failure(Native("TypeError", "Exception::__construct(): Argument #1 ($message) must be of type string, " + TypeName(v) + " given"))
    else Success(ToPhpString(v))
  }

  // ---------------------------------------------------------------------
  // Classes

  /** Each class or interface mapped to the classes and interfaces it
      directly extends or implements. */
  type ClassTable = map<string, set<string>>

  /** ASCII lower case, as PHP folds class names. */
  function LowerChar(ch: char): char {
    if 'A' <= ch <= 'Z' then (ch as int + 32) as char else ch
  }

  function Lower(s: string): string {
    seq(|s|, i requires 0 <= i < |s| => LowerChar(s[i]))
  }

  /** Class names are compared without regard to case. */
  predicate SameClass(a: string, b: string) {
    Lower(a) == Lower(b)
  }

  /** `is_a($object, $d)` for an object of class `c`: `c` is `d`, or one of
      the types it extends or implements is, names compared without regard
      to case. */
  predicate IsA(t: ClassTable, c: string, d: string)
    ensures SameClass(c, d) ==> IsA(t, c, d)
    ensures c in t && d in t[c] ==> IsA(t, c, d)
    ensures c !in t ==> (IsA(t, c, d) <==> SameClass(c, d))
    decreases t.Keys
  {
    SameClass(c, d) || (c in t && exists p :: p in t[c] && IsA(t - {c}, p, d))
  }

  /** Only the case of the name asked about does not matter. */
  lemma {:induction false} IsACaseInsensitive(t: ClassTable, c: string, d: string, d': string)
    requires SameClass(d, d')
    ensures IsA(t, c, d) <==> IsA(t, c, d')
    decreases t.Keys
  {
    if c in t {
      forall p | p in t[c]
        ensures IsA(t - {c}, p, d) <==> IsA(t - {c}, p, d')
      {
        IsACaseInsensitive(t - {c}, p, d, d');
      }
    }
  }

  /** What the running PHP knows about classes: each class's parent, and
      which classes exist and can be built from a single message argument. */
  datatype Classes = Classes(parents: ClassTable, constructible: set<string>)

  /** The library's own classes are in the table with the parents the
      source declares, and Exception implements Throwable. */
  predicate HasLibraryClasses(t: ClassTable) {
    && ParallelErrorClass in t && ExceptionClass in t[ParallelErrorClass]
    && ParallelExceptionClass in t && ExceptionClass in t[ParallelExceptionClass]
    && ExceptionClass in t && ThrowableInterface in t[ExceptionClass]
  }

  lemma LibraryErrorsAreExceptions(t: ClassTable)
    requires HasLibraryClasses(t)
    ensures IsA(t, ParallelErrorClass, ExceptionClass)
    ensures IsA(t, ParallelExceptionClass, ExceptionClass)
    ensures IsA(t, ParallelErrorClass, ParallelErrorClass)
    ensures IsA(t, ParallelErrorClass, ThrowableInterface)
  {
    var t1 := t - {ParallelErrorClass};
    assert ExceptionClass in t1 && ThrowableInterface in t1[ExceptionClass];
    assert IsA(t1, ExceptionClass, ThrowableInterface);
  }
}
