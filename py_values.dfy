// Python values and the handful of built-ins the modelled code leans on:
// dict.get, truthiness, the float()/int()/bool()/str() conversions, and the
// str methods lower, upper, strip and split.

module PyValues {

  datatype Option<T> = None | Some(value: T)

  /** A value decoded from JSON (or built by the agents) in Python's object model.
      A Python dict is a map here: insertion order is not kept. */
  datatype Value =
    | Null
    | Bool(b: bool)
    | Int(i: int)
    | Num(r: real)
    | Str(s: string)
    | Arr(items: seq<Value>)
    | Obj(fields: map<string, Value>)

  type Dict = map<string, Value>

  /** `d.get(key, default)` */
  function Get(d: Dict, key: string, default: Value): Value
  {
    if key in d then d[key] else default
  }

  /** Python's truth value of an object (`bool(v)`, `if v:`). */
  predicate Truthy(v: Value)
  {
    match v
    case Null => false
    case Bool(b) => b
    case Int(i) => i != 0
    case Num(r) => r != 0.0
    case Str(s) => s != ""
    case Arr(xs) => xs != []
    case Obj(m) => m != map[]
  }

  /** The number a bool, int or float stands for in arithmetic and comparisons;
      None for every other value, on which Python's `<` and `+` raise TypeError. */
  function AsReal(v: Value): Option<real>
  {
    match v
    case Bool(b) => Some(if b then 1.0 else 0.0)
    case Int(i) => Some(i as real)
    case Num(r) => Some(r)
    case _ => None
  }

  predicate IsNumber(v: Value) { AsReal(v).Some? }

  /** The integer an int or a bool stands for. */
  function Whole(v: Value): int
    requires v.Int? || v.Bool?
  {
    if v.Int? then v.i else if v.b then 1 else 0
  }

  /** `a + b`: whole-number addition for ints and bools, float addition once a float
      is involved, concatenation of two strings or two lists; None where Python raises
      TypeError. */
  function Plus(a: Value, b: Value): (r: Option<Value>)
    ensures (a.Int? || a.Bool?) && (b.Int? || b.Bool?) ==> r == Some(Int(Whole(a) + Whole(b)))
    ensures (a.Int? || a.Bool?) && (b.Int? || b.Bool?) ==> AsReal(r.value).value == AsReal(a).value + AsReal(b).value
    ensures r.Some? && r.value.Num? ==> IsNumber(a) && IsNumber(b) && r.value.r == AsReal(a).value + AsReal(b).value
  {
    if (a.Int? || a.Bool?) && (b.Int? || b.Bool?) then Some(Int(Whole(a) + Whole(b)))
    else if IsNumber(a) && IsNumber(b) then Some(Num(AsReal(a).value + AsReal(b).value))
    else if a.Str? && b.Str? then Some(Str(a.s + b.s))
    else if a.Arr? && b.Arr? then Some(Arr(a.items + b.items))
    else None
  }

  /** `buf.append(x)` on a `deque(maxlen=maxLen)`: once the deque is full, the oldest
      entries fall off the front. */
  function Push<T>(buf: seq<T>, x: T, maxLen: nat): (r: seq<T>)
    ensures |r| == if |buf| + 1 <= maxLen then |buf| + 1 else maxLen
    ensures r == (buf + [x])[|buf| + 1 - |r|..]
    ensures maxLen > 0 ==> r[|r| - 1] == x
  {
    var all := buf + [x];
    if |all| <= maxLen then all else all[|all| - maxLen..]
  }

  /** `min(bound, x)`: the bound wins ties. */
  function Min(bound: real, x: real): (r: real)
    ensures r <= bound && r <= x && (r == bound || r == x)
  {
    if bound <= x then bound else x
  }

  /** `max(bound, x)` */
  function Max(bound: real, x: real): (r: real)
    ensures r >= bound && r >= x && (r == bound || r == x)
  {
    if bound >= x then bound else x
  }

  /** `abs(x)` */
  function Abs(x: real): (r: real)
    ensures r >= 0.0
  {
    if x < 0.0 then -x else x
  }

  function Sum(xs: seq<real>): real
  {
    if xs == [] then 0.0 else Sum(xs[..|xs| - 1]) + xs[|xs| - 1]
  }

  /** `np.mean` of a non-empty list. */
  function Mean(xs: seq<real>): real
    requires xs != []
  {
    Sum(xs) / |xs| as real
  }

  lemma {:induction false} SumBounds(xs: seq<real>, lo: real, hi: real)
    requires forall i :: 0 <= i < |xs| ==> lo <= xs[i] <= hi
    ensures lo * |xs| as real <= Sum(xs) <= hi * |xs| as real
  {
    if xs != [] {
      SumBounds(xs[..|xs| - 1], lo, hi);
    }
  }

  /** A mean lies between any bounds of its elements. */
  lemma MeanBounds(xs: seq<real>, lo: real, hi: real)
    requires xs != [] && forall i :: 0 <= i < |xs| ==> lo <= xs[i] <= hi
    ensures lo <= Mean(xs) <= hi
  {
    SumBounds(xs, lo, hi);
    var n := |xs| as real;
    assert lo * n <= Sum(xs) <= hi * n;
    DivBounds(Sum(xs), n, lo, hi);
  }

  lemma DivBounds(s: real, n: real, lo: real, hi: real)
    requires n > 0.0 && lo * n <= s <= hi * n
    ensures lo <= s / n <= hi
  {
  }

  /** Each value converted by `convert`, or None if one of them does not convert. */
  function Converted(vs: seq<Value>, convert: Value -> Option<real>): (r: Option<seq<real>>)
    ensures r.Some? ==> |r.value| == |vs|
  {
    if vs == [] then Some([])
    else match (convert(vs[0]), Converted(vs[1..], convert))
      case (Some(x), Some(rest)) => Some([x] + rest)
      case _ => None
  }

  lemma {:induction false} ConvertedNums(vs: seq<Value>, xs: seq<real>, convert: Value -> Option<real>)
    requires |vs| == |xs| && forall i :: 0 <= i < |vs| ==> convert(vs[i]) == Some(xs[i])
    ensures Converted(vs, convert) == Some(xs)
  {
    if vs != [] {
      ConvertedNums(vs[1..], xs[1..], convert);
      assert xs == [xs[0]] + xs[1..];
    }
  }

  /** A component's numeric configuration, as read from its YAML thresholds section. */
  type Settings = map<string, real>

  /** `thresholds.get(key, default)` on a numeric configuration section. */
  function Setting(t: Settings, key: string, default: real): real
  {
    if key in t then t[key] else default
  }

  /** `int(x)` of a float: truncation toward zero. */
  function Trunc(r: real): (n: int)
    ensures r >= 0.0 ==> n as real <= r < n as real + 1.0
    ensures r < 0.0 ==> n as real - 1.0 < r <= n as real
  {
    if r >= 0.0 then r.Floor else -((-r).Floor)
  }

  /** Python's `a // b` on integers: the quotient rounded toward minus infinity. */
  function FloorDiv(a: int, b: int): (q: int)
    requires b != 0
    ensures b > 0 ==> q * b <= a < q * b + b
    ensures b < 0 ==> q * b + b < a <= q * b
  {
    if b > 0 then a / b else (-a) / (-b)
  }

  /** Python's `a % b` on integers: the remainder takes the divisor's sign. */
  function FloorMod(a: int, b: int): (m: int)
    requires b != 0
    ensures b > 0 ==> 0 <= m < b
    ensures b < 0 ==> b < m <= 0
    ensures a == FloorDiv(a, b) * b + m
  {
    a - FloorDiv(a, b) * b
  }

  // ---------------------------------------------------------------- text

  predicate IsSpace(c: char)
  {
    c == ' ' || c == '\t' || c == '\n' || c == '\r' || c == '\U{0B}' || c == '\U{0C}'
    || ('\U{1C}' <= c <= '\U{1F}') || c == '\U{85}' || c == '\U{A0}'
  }

  predicate IsDigit(c: char) { '0' <= c <= '9' }

  function DigitValue(c: char): nat
    requires IsDigit(c)
  {
    (c as int - '0' as int) as nat
  }

  function LowerChar(c: char): char
  {
    if 'A' <= c <= 'Z' then (c as int + 32) as char else c
  }

  function UpperChar(c: char): char
  {
    if 'a' <= c <= 'z' then (c as int - 32) as char else c
  }

  /** `s.lower()` on ASCII letters. */
  function Lower(s: string): (t: string)
    ensures |t| == |s|
    ensures forall i :: 0 <= i < |s| ==> t[i] == LowerChar(s[i])
  {
    seq(|s|, i requires 0 <= i < |s| => LowerChar(s[i]))
  }

  /** `s.upper()` on ASCII letters. */
  function Upper(s: string): (t: string)
    ensures |t| == |s|
    ensures forall i :: 0 <= i < |s| ==> t[i] == UpperChar(s[i])
  {
    seq(|s|, i requires 0 <= i < |s| => UpperChar(s[i]))
  }

  /** Upper-casing is idempotent, ignores an earlier lower-casing (and the other way
      round), leaves no ASCII lower-case letter, and changes nothing in a text that
      has none. */
  lemma CaseMapping(s: string)
    ensures Upper(Upper(s)) == Upper(s) && Upper(Lower(s)) == Upper(s) && Lower(Upper(s)) == Lower(s)
    ensures forall i :: 0 <= i < |s| ==> !('a' <= Upper(s)[i] <= 'z')
    ensures (forall i :: 0 <= i < |s| ==> !('a' <= s[i] <= 'z')) ==> Upper(s) == s
  {
  }

  function StripLeft(s: string): string
  {
    if s != [] && IsSpace(s[0]) then StripLeft(s[1..]) else s
  }

  function StripRight(s: string): string
  {
    if s != [] && IsSpace(s[|s| - 1]) then StripRight(s[..|s| - 1]) else s
  }

  /** `s.strip()` */
  function Strip(s: string): string
  {
    StripRight(StripLeft(s))
  }

  /** `lstrip` drops a prefix of whitespace and stops at the first other character. */
  lemma {:induction false} StripLeftShape(s: string)
    ensures var t := StripLeft(s);
      |t| <= |s| && t == s[|s| - |t|..]
      && (forall j :: 0 <= j < |s| - |t| ==> IsSpace(s[j]))
      && (t != [] ==> !IsSpace(t[0]))
  {
    if s != [] && IsSpace(s[0]) {
      StripLeftShape(s[1..]);
      var t := StripLeft(s);
      forall j | 0 < j < |s| - |t|
        ensures IsSpace(s[j])
      {
        assert s[j] == s[1..][j - 1];
      }
    }
  }

  /** `rstrip` drops a suffix of whitespace and stops at the last other character. */
  lemma {:induction false} StripRightShape(s: string)
    ensures var t := StripRight(s);
      |t| <= |s| && t == s[..|t|]
      && (forall j :: |t| <= j < |s| ==> IsSpace(s[j]))
      && (t != [] ==> !IsSpace(t[|t| - 1]))
  {
    if s != [] && IsSpace(s[|s| - 1]) {
      var p := s[..|s| - 1];
      StripRightShape(p);
      var t := StripRight(s);
      assert t == p[..|t|];
      forall j | |t| <= j < |s| - 1
        ensures IsSpace(s[j])
      {
        assert s[j] == p[j];
      }
    }
  }

  /** The stripped text has no whitespace at either end. */
  lemma StripEnds(s: string)
    ensures var t := Strip(s); t != [] ==> !IsSpace(t[0]) && !IsSpace(t[|t| - 1])
  {
    var l := StripLeft(s);
    StripLeftShape(s);
    StripRightShape(l);
    var t := StripRight(l);
    if t != [] {
      assert t[0] == l[0];
    }
  }

  /** Every character of the stripped text comes from the original. */
  lemma StripInside(s: string)
    ensures forall c :: c in Strip(s) ==> c in s
  {
    var l := StripLeft(s);
    StripLeftShape(s);
    StripRightShape(l);
    forall c | c in Strip(s)
      ensures c in s
    {
      var i :| 0 <= i < |Strip(s)| && Strip(s)[i] == c;
      assert l[i] == c;
      assert s[|s| - |l| + i] == c;
    }
  }

  /** `s.split(sep)` with an explicit one-character separator. */
  function Split(s: string, sep: char): (parts: seq<string>)
    ensures |parts| >= 1
  {
    if s == [] then [""]
    else
      var rest := Split(s[1..], sep);
      if s[0] == sep then [""] + rest else [[s[0]] + rest[0]] + rest[1..]
  }

  /** A separator makes a boundary: splitting `a + sep + b` splits a and b separately. */
  lemma {:induction false} SplitAppend(a: string, sep: char, b: string)
    ensures Split(a + [sep] + b, sep) == Split(a, sep) + Split(b, sep)
  {
    if a == [] {
      assert a + [sep] + b == [sep] + b;
      assert ([sep] + b)[1..] == b;
    } else {
      assert (a + [sep] + b)[1..] == a[1..] + [sep] + b;
      SplitAppend(a[1..], sep, b);
    }
  }

  /** A text without the separator is a single segment. */
  lemma {:induction false} SplitNoSep(s: string, sep: char)
    requires sep !in s
    ensures Split(s, sep) == [s]
  {
    if s != [] {
      SplitNoSep(s[1..], sep);
      assert [s[0]] + s[1..] == s;
    }
  }

  /** There are at least two segments exactly when the separator occurs. */
  lemma {:induction false} SplitCount(s: string, sep: char)
    ensures |Split(s, sep)| >= 2 <==> sep in s
  {
    if sep in s {
      var i :| 0 <= i < |s| && s[i] == sep;
      assert s == s[..i] + [sep] + s[i + 1..];
      SplitAppend(s[..i], sep, s[i + 1..]);
    } else {
      SplitNoSep(s, sep);
    }
  }

  /** No segment contains the separator. */
  lemma {:induction false} SplitSegmentsClean(s: string, sep: char)
    ensures forall k :: 0 <= k < |Split(s, sep)| ==> sep !in Split(s, sep)[k]
  {
    if s != [] {
      SplitSegmentsClean(s[1..], sep);
      var rest := Split(s[1..], sep);
      if s[0] != sep {
        assert sep !in [s[0]] + rest[0];
      }
    }
  }

  // ---------------------------------------------------------------- numbers as text

  function DigitChar(d: nat): char
    requires d < 10
  {
    ('0' as int + d) as char
  }

  /** Decimal text of a natural number, as Python's `str(n)` writes it. */
  function NatText(n: nat): (t: string)
    ensures t != [] && forall i :: 0 <= i < |t| ==> IsDigit(t[i])
  {
    if n < 10 then [DigitChar(n)] else NatText(n / 10) + [DigitChar(n % 10)]
  }

  /** `str(n)` for an int. */
  function IntText(n: int): (t: string)
    ensures t != [] && IsDigit(t[|t| - 1])
  {
    if n < 0 then "-" + NatText(-n) else NatText(n)
  }

  /** The number a run of digits denotes. */
  function DigitsValue(s: string): nat
    requires forall i :: 0 <= i < |s| ==> IsDigit(s[i])
  {
    if s == [] then 0 else DigitsValue(s[..|s| - 1]) * 10 + DigitValue(s[|s| - 1])
  }

  predicate AllDigits(s: string) { forall i :: 0 <= i < |s| ==> IsDigit(s[i]) }

  /** Python's `int(text)`: optional sign then at least one digit, surrounding whitespace
      allowed; anything else raises ValueError (None here). */
  function ParseIntText(text: string): Option<int>
  {
    var t := Strip(text);
    if t == [] then None
    else if t[0] == '-' || t[0] == '+' then
      var body := t[1..];
      if body != [] && AllDigits(body) then
        Some(if t[0] == '-' then -(DigitsValue(body) as int) else DigitsValue(body))
      else None
    else if AllDigits(t) then Some(DigitsValue(t))
    else None
  }

  lemma {:induction false} DigitsOfNatText(n: nat)
    ensures DigitsValue(NatText(n)) == n
  {
    if n >= 10 {
      DigitsOfNatText(n / 10);
      var t := NatText(n / 10) + [DigitChar(n % 10)];
      assert t[..|t| - 1] == NatText(n / 10);
    }
  }

  lemma StripDigits(t: string)
    requires t != [] && AllDigits(t)
    ensures Strip(t) == t
  {
    assert !IsSpace(t[0]);
    assert StripLeft(t) == t;
    assert !IsSpace(t[|t| - 1]);
  }

  /** Reading back the text `str(n)` gives n. */
  lemma IntTextRoundTrip(n: int)
    ensures ParseIntText(IntText(n)) == Some(n)
  {
    DigitsOfNatText(if n < 0 then -n else n);
    var t := IntText(n);
    if n < 0 {
      assert t[0] == '-' && !IsSpace(t[0]);
      assert StripLeft(t) == t;
      assert Strip(t) == t;
      assert t[1..] == NatText(-n);
    } else {
      StripDigits(t);
    }
  }

  /** Value of `digits` read as the fraction after a decimal point. */
  function FractionValue(s: string): real
    requires AllDigits(s)
  {
    if s == [] then 0.0 else (DigitValue(s[0]) as real + FractionValue(s[1..])) / 10.0
  }

  /** Python's `float(text)` for plain decimal notation: optional sign, digits, an optional
      point with digits, at least one digit in all, surrounding whitespace allowed. */
  function ParseFloatText(text: string): Option<real>
  {
    var t := Strip(text);
    var neg := t != [] && t[0] == '-';
    var body := if t != [] && (t[0] == '-' || t[0] == '+') then t[1..] else t;
    var dot := if '.' in body then IndexOf(body, '.') else |body|;
    var whole := body[..dot];
    var frac := if dot < |body| then body[dot + 1..] else "";
    if |whole| + |frac| >= 1 && AllDigits(whole) && AllDigits(frac) then
      var mag := DigitsValue(whole) as real + FractionValue(frac);
      Some(if neg then -mag else mag)
    else None
  }

  function IndexOf(s: string, c: char): (i: nat)
    requires c in s
    ensures i < |s| && s[i] == c && c !in s[..i]
  {
    if s[0] == c then 0 else 1 + IndexOf(s[1..], c)
  }

  // ---------------------------------------------------------------- conversions

  /** `float(v)`: None where Python raises ValueError or TypeError. */
  function PyFloat(v: Value): Option<real>
  {
    match v
    case Bool(b) => Some(if b then 1.0 else 0.0)
    case Int(i) => Some(i as real)
    case Num(r) => Some(r)
    case Str(s) => ParseFloatText(s)
    case _ => None
  }

  /** `int(v)`: floats truncate toward zero; strings must be integer text. */
  function PyInt(v: Value): Option<int>
  {
    match v
    case Bool(b) => Some(if b then 1 else 0)
    case Int(i) => Some(i)
    case Num(r) => Some(Trunc(r))
    case Str(s) => ParseIntText(s)
    case _ => None
  }

  /** `bool(v)` never raises. */
  function PyBool(v: Value): Option<bool>
  {
    Some(Truthy(v))
  }

  /** Decimal expansion of a fraction in [0, 1), at most `n` digits. */
  function FractionText(f: real, n: nat): string
    requires 0.0 <= f < 1.0
    decreases n
  {
    if n == 0 || f == 0.0 then ""
    else
      var d := (f * 10.0).Floor;
      assert 0 <= d < 10;
      [DigitChar(d)] + FractionText(f * 10.0 - d as real, n - 1)
  }

  function FloatText(r: real): (t: string)
    ensures '.' in t
  {
    var m := if r < 0.0 then -r else r;
    var w := m.Floor;
    var f := m - w as real;
    var fr := FractionText(f, 17);
    (if r < 0.0 then "-" else "") + NatText(w) + "." + (if fr == "" then "0" else fr)
  }

  function Pow10(n: nat): (p: nat)
    ensures p >= 1
  {
    if n == 0 then 1 else 10 * Pow10(n - 1)
  }

  /** The nearest whole number, ties to the even one. */
  function RoundHalfEven(m: real): (n: nat)
    requires m >= 0.0
    ensures n as real - 0.5 <= m <= n as real + 0.5
  {
    var f := m.Floor;
    var d := m - f as real;
    if d < 0.5 then f else if d > 0.5 then f + 1 else if f % 2 == 0 then f else f + 1
  }

  function ZeroPadded(s: string, width: nat): (t: string)
    ensures |t| == if |s| >= width then |s| else width
    decreases width - |s|
  {
    if |s| >= width then s else ZeroPadded("0" + s, width)
  }

  /** The text of n / 10^digits with exactly `digits` decimals. */
  function ScaledText(n: nat, digits: nat): string
  {
    var scale := Pow10(digits);
    NatDivision(n, scale);
    NatText(n / scale) + (if digits == 0 then "" else "." + ZeroPadded(NatText(n % scale), digits))
  }

  /** `format(r, '.Nf')` with N = `digits`: fixed-point text, rounded half to even on
      the exact value, with a sign for any negative value. */
  function FixedText(r: real, digits: nat): string
  {
    (if r < 0.0 then "-" else "") + ScaledText(Rounded(r, digits), digits)
  }

  /** |r| in units of 10^-digits, rounded half to even. */
  function Rounded(r: real, digits: nat): nat
  {
    var m := Abs(r) * Pow10(digits) as real;
    NonNegativeProduct(Abs(r), Pow10(digits) as real);
    RoundHalfEven(m)
  }

  lemma NatDivision(n: nat, d: nat)
    requires d > 0
    ensures n / d >= 0 && 0 <= n % d < d
  {
  }

  lemma NonNegativeProduct(a: real, b: real)
    requires a >= 0.0 && b >= 0.0
    ensures a * b >= 0.0
  {
  }

  /** `k` zero digits. */
  function Zeros(k: nat): (z: string)
    ensures |z| == k
  {
    seq(k, _ => '0')
  }

  /** A whole number prints with all-zero decimals. */
  lemma FixedWhole(n: nat, digits: nat)
    ensures FixedText(n as real, digits) == NatText(n) + (if digits == 0 then "" else "." + Zeros(digits))
  {
    RoundedWhole(n, digits);
    ScaledWhole(n, digits);
  }

  lemma ScaledWhole(n: nat, digits: nat)
    ensures ScaledText(n * Pow10(digits), digits) == NatText(n) + (if digits == 0 then "" else "." + Zeros(digits))
  {
    MultipleDivision(n, Pow10(digits));
    if digits > 0 {
      assert NatText(0) == Zeros(1);
      ZeroPaddedZeros(1, digits);
    }
  }

  lemma RoundedWhole(n: nat, digits: nat)
    ensures Rounded(n as real, digits) == n * Pow10(digits)
  {
    var p := Pow10(digits);
    assert Abs(n as real) == n as real;
    CastProduct(n, p);
    RoundWhole(n * p);
  }

  /** A whole number is its own nearest whole number. */
  lemma RoundWhole(k: nat)
    ensures RoundHalfEven(k as real) == k
  {
    assert (k as real).Floor == k;
  }

  lemma CastProduct(n: nat, p: nat)
    ensures n as real * p as real == (n * p) as real
  {
  }

  lemma MultipleDivision(n: nat, p: nat)
    requires p > 0
    ensures (n * p) / p == n && (n * p) % p == 0
  {
    var q, r := (n * p) / p, (n * p) % p;
    assert n * p == q * p + r;
    assert (n - q) * p == r;
    if n > q {
      AtLeastOnce(n - q, p);
    } else if n < q {
      AtLeastOnce(q - n, p);
    }
  }

  lemma {:induction false} AtLeastOnce(k: int, p: nat)
    requires k >= 1
    ensures k * p >= p
    decreases k
  {
    if k > 1 {
      AtLeastOnce(k - 1, p);
      assert k * p == (k - 1) * p + p;
    }
  }

  lemma {:induction false} ZeroPaddedZeros(k: nat, width: nat)
    requires k <= width
    ensures ZeroPadded(Zeros(k), width) == Zeros(width)
    decreases width - k
  {
    if k < width {
      assert "0" + Zeros(k) == Zeros(k + 1);
      ZeroPaddedZeros(k + 1, width);
    }
  }

  /** Ties round to the even last digit, and a negative value keeps its sign even
      when it rounds to zero. */
  lemma FixedTies()
    ensures FixedText(0.125, 2) == "0.12" && FixedText(0.375, 2) == "0.38"
    ensures FixedText(-0.04, 1) == "-0.0"
  {
    assert Pow10(2) == 100 && Pow10(1) == 10;
    assert RoundHalfEven(12.5) == 12;
    assert RoundHalfEven(37.5) == 38;
    assert RoundHalfEven(0.4) == 0;
    assert NatText(12) == "12" && NatText(38) == "38";
    assert ScaledText(12, 2) == "0.12";
    assert ScaledText(38, 2) == "0.38";
    assert ScaledText(0, 1) == "0.0";
  }

  /** `format(v, '.Nf')` of a bool, int or float; None where it raises (any other
      value). */
  function FormatFixed(v: Value, digits: nat): Option<string>
  {
    match AsReal(v)
    case None => None
    case Some(r) => Some(FixedText(r, digits))
  }

  /** `len(v)`; None where it raises. */
  function Len(v: Value): Option<nat>
  {
    match v
    case Arr(items) => Some(|items|)
    case Str(s) => Some(|s|)
    case Obj(m) => Some(|m|)
    case _ => None
  }

  /** `str(v)`. Lists and dicts are rendered only by their brackets. */
  function PyStr(v: Value): string
  {
    match v
    case Null => "None"
    case Bool(b) => if b then "True" else "False"
    case Int(i) => IntText(i)
    case Num(r) => FloatText(r)
    case Str(s) => s
    case Arr(_) => "[...]"
    case Obj(_) => "{...}"
  }

  function PyStrConv(v: Value): Option<string>
  {
    Some(PyStr(v))
  }

  /** A word made only of lower-case ASCII letters, such as every label-table key. */
  predicate LowerWord(s: string)
  {
    forall i :: 0 <= i < |s| ==> 'a' <= s[i] <= 'z'
  }

  /** Only a string argument can make `str(v).lower()` a lower-case word other than
      "true", "false" or "none". */
  lemma StrOfNonStringIsNoWord(v: Value)
    requires !v.Str?
    ensures var w := Lower(PyStr(v));
      LowerWord(w) ==> w == "true" || w == "false" || w == "none"
  {
    var t := PyStr(v);
    var w := Lower(t);
    match v
    case Int(i) =>
      var last := |t| - 1;
      assert w[last] == LowerChar(t[last]);
    case Num(r) =>
      var k := IndexOf(t, '.');
      assert w[k] == '.';
    case Arr(_) =>
      assert w[0] == '[';
    case Obj(_) =>
      assert w[0] == '{';
    case Null =>
      assert w == "none";
    case Bool(b) =>
      if b { assert w == "true"; } else { assert w == "false"; }
  }
}
