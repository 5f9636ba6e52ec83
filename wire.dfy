/**
 * The JSON value tree the decoder walks, Swift's fixed-width integer types,
 * the `as? T` casts on stored values and the numeric-string coercion rule
 * shared by the three PBLite containers.
 */
module Wire {
  import opened Wrappers

  /** A value produced by the JSON parser (NSNull, NSNumber, String, arrays, dictionaries). */
  datatype Wire =
    | Null
    | Bool(b: bool)
    | Num(n: int)
    | Str(s: string)
    | Arr(elems: seq<Wire>)
    | Dict(entries: map<string, Wire>)

  datatype Width = W8 | W16 | W32 | W64

  /** A Swift `FixedWidthInteger` type: `Int8` ... `UInt64`; `Int`/`UInt` are the 64-bit ones. */
  datatype IntType = IntType(width: Width, signed: bool)

  const Int64: IntType := IntType(W64, true)

  /** 2 to the power of the width's bit count. */
  function Modulus(w: Width): nat {
    match w
    case W8 => 0x100
    case W16 => 0x1_0000
    case W32 => 0x1_0000_0000
    case W64 => 0x1_0000_0000_0000_0000
  }

  function MinValue(t: IntType): int {
    if t.signed then -(Modulus(t.width) / 2) else 0
  }

  function MaxValue(t: IntType): int {
    if t.signed then Modulus(t.width) / 2 - 1 else Modulus(t.width) - 1
  }

  predicate InRange(n: int, t: IntType) {
    MinValue(t) <= n <= MaxValue(t)
  }

  predicate IsDigit(c: char) {
    '0' <= c <= '9'
  }

  predicate AllDigits(s: string) {
    forall i :: 0 <= i < |s| ==> IsDigit(s[i])
  }

  function DigitValue(c: char): nat
    requires IsDigit(c)
  {
    (c as int) - ('0' as int)
  }

  function DigitChar(d: nat): (c: char)
    requires d < 10
    ensures IsDigit(c) && DigitValue(c) == d
  {
    ('0' as int + d) as char
  }

  /** The value of a run of decimal digits, most significant first. */
  function DigitsValue(ds: string): nat
    requires AllDigits(ds)
  {
    if ds == [] then 0 else DigitsValue(ds[..|ds| - 1]) * 10 + DigitValue(ds[|ds| - 1])
  }

  /**
   * Swift's `FixedWidthInteger.init?(_ text: String)` in radix 10: an optional
   * `+` or `-`, then at least one decimal digit and nothing else; `nil` when
   * the value does not fit the type.
   */
  function ParseInt(s: string, t: IntType): (r: Option<int>)
    ensures r.Some? ==> InRange(r.value, t)
    ensures r.Some? ==> |s| > 0 && (IsDigit(s[0]) || s[0] == '+' || s[0] == '-')
  {
    if |s| == 0 then None
    else
      var signed := s[0] == '-' || s[0] == '+';
      var ds := if signed then s[1..] else s;
      if |ds| == 0 || !AllDigits(ds) then None
      else
        var mag: int := DigitsValue(ds);
        var v := if s[0] == '-' then -mag else mag;
        if InRange(v, t) then Some(v) else None
  }

  /** Decimal rendering of a natural number, without leading zeros. */
  function ShowNat(n: nat): string {
    if n < 10 then [DigitChar(n)] else ShowNat(n / 10) + [DigitChar(n % 10)]
  }

  /** Decimal rendering of an integer, as Swift's string interpolation `"\(n)"` writes it. */
  function ShowInt(n: int): string {
    if n < 0 then "-" + ShowNat(-n) else ShowNat(n)
  }

  lemma {:induction false} ShowNatDigits(n: nat)
    ensures |ShowNat(n)| > 0 && AllDigits(ShowNat(n)) && DigitsValue(ShowNat(n)) == n
  {
    if n >= 10 {
      ShowNatDigits(n / 10);
      var s := ShowNat(n);
      assert s[..|s| - 1] == ShowNat(n / 10);
    }
  }

  /** Rendering an in-range integer in decimal and parsing it back gives the integer. */
  lemma ParseShowInt(n: int, t: IntType)
    requires InRange(n, t)
    ensures ParseInt(ShowInt(n), t) == Some(n)
  {
    if n < 0 {
      ShowNatDigits(-n);
      assert ShowInt(n)[1..] == ShowNat(-n);
    } else {
      ShowNatDigits(n);
    }
  }

  /** What the caller asks a container for: the Swift type of the `decode` call. */
  datatype Kind =
    | BoolKind
    | StringKind
    | FloatKind
    | DoubleKind
    | IntKind(t: IntType)
    | ArrayKind     // `Array<Any>`, or a generic `decode<T>` whose T is an array type
    | NestedKind    // any other generic `decode<T>` (a message type)

  /** A decoded primitive. Float and Double are kept as the stored JSON number. */
  datatype Value = VBool(b: bool) | VString(s: string) | VNumber(n: int) | VInt(i: int)

  /** `v as? T` on an integer type: an NSNumber whose value fits. */
  function AsInt(v: Wire, t: IntType): (r: Option<int>)
    ensures r.Some? <==> v.Num? && InRange(v.n, t)
    ensures r.Some? ==> r.value == v.n
  {
    if v.Num? && InRange(v.n, t) then Some(v.n) else None
  }

  /** `v as? T` for the primitive kinds; never converts a string into a number. */
  function Cast(v: Wire, k: Kind): (r: Option<Value>)
    ensures v.Str? && r.Some? ==> k == StringKind && r.value == VString(v.s)
    ensures v == Null ==> r.None?
    ensures k.IntKind? ==> r == if AsInt(v, k.t).Some? then Some(VInt(v.n)) else None
  {
    match k
    case BoolKind => if v.Bool? then Some(VBool(v.b)) else None
    case StringKind => if v.Str? then Some(VString(v.s)) else None
    case FloatKind => if v.Num? then Some(VNumber(v.n)) else None
    case DoubleKind => if v.Num? then Some(VNumber(v.n)) else None
    case IntKind(t) => if AsInt(v, t).Some? then Some(VInt(v.n)) else None
    case ArrayKind => None
    case NestedKind => None
  }

  /**
   * The numeric coercion rule of all three containers: a stored integer of
   * the requested type is taken as is, otherwise a stored string is parsed
   * as that type.
   */
  function Coerce(v: Wire, t: IntType): (r: Option<int>)
    ensures r.Some? ==> InRange(r.value, t)
    ensures r.Some? <==> AsInt(v, t).Some? || (v.Str? && ParseInt(v.s, t).Some?)
    ensures v == Null ==> r.None?
  {
    if AsInt(v, t).Some? then AsInt(v, t) else if v.Str? then ParseInt(v.s, t) else None
  }

  /** The wire's two spellings of an in-range integer, a number and its decimal string, decode alike. */
  lemma CoerceStringAgrees(n: int, t: IntType)
    requires InRange(n, t)
    ensures Coerce(Str(ShowInt(n)), t) == Coerce(Num(n), t) == Some(n)
  {
    ParseShowInt(n, t);
  }

  /** `"42"` and `42` both decode as the integer 42; `"abc"` does not decode. */
  lemma CoerceExamples(t: IntType)
    ensures Coerce(Str("42"), t) == Some(42)
    ensures Coerce(Num(42), t) == Some(42)
    ensures Coerce(Str("abc"), t) == None
  {
    assert ShowInt(42) == "42";
    CoerceStringAgrees(42, t);
  }
}
