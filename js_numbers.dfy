/** The part of JavaScript's number semantics the slot machine relies on:
    `parseInt(text)` without a radix, the conversion of an integer back to text
    (what `localStorage.setItem` stores), and arithmetic and comparison with
    NaN. Numbers are modelled as NaN or an unbounded integer. */
module JsNumbers {

  /** A JavaScript number as this code meets it: NaN or an integer. */
  datatype Num = NaN | Int(v: int)

  /** The white space `parseInt` skips before the number (ECMAScript
      StrWhiteSpaceChar: white space and line terminators). */
  predicate IsStrWhiteSpace(c: char)
  {
    var n := c as int;
    n == 0x09 || n == 0x0A || n == 0x0B || n == 0x0C || n == 0x0D || n == 0x20 ||
    n == 0xA0 || n == 0x1680 || (0x2000 <= n <= 0x200A) || n == 0x2028 || n == 0x2029 ||
    n == 0x202F || n == 0x205F || n == 0x3000 || n == 0xFEFF
  }

  /** `s` without its leading white space. */
  function TrimStart(s: string): (t: string)
    ensures |t| <= |s| && t == s[|s| - |t|..]
    ensures forall i :: 0 <= i < |s| - |t| ==> IsStrWhiteSpace(s[i])
    ensures t == [] || !IsStrWhiteSpace(t[0])
  {
    if |s| > 0 && IsStrWhiteSpace(s[0]) then TrimStart(s[1..]) else s
  }

  /** The value of `c` as a digit of radix up to 36; 36 for every other character. */
  function DigitValue(c: char): (d: nat)
    ensures d <= 36
    ensures d < 10 <==> '0' <= c <= '9'
  {
    if '0' <= c <= '9' then c as int - '0' as int
    else if 'a' <= c <= 'z' then c as int - 'a' as int + 10
    else if 'A' <= c <= 'Z' then c as int - 'A' as int + 10
    else 36
  }

  /** The longest prefix of `s` made of digits of `radix`. */
  function DigitPrefix(s: string, radix: nat): (z: string)
    ensures |z| <= |s| && z == s[..|z|]
    ensures forall i :: 0 <= i < |z| ==> DigitValue(z[i]) < radix
    ensures |z| == |s| || DigitValue(s[|z|]) >= radix
  {
    if |s| > 0 && DigitValue(s[0]) < radix then [s[0]] + DigitPrefix(s[1..], radix) else []
  }

  /** The mathematical value of the digit string `z` in `radix`. */
  function Value(z: string, radix: nat): nat
  {
    if z == [] then 0 else Value(z[..|z| - 1], radix) * radix + DigitValue(z[|z| - 1])
  }

  /** `parseInt(s)` with no radix argument: skip leading white space, read an
      optional sign, switch to radix 16 after a `0x`/`0X` prefix, and take the
      longest run of digits; NaN when that run is empty. JavaScript's `-0` is
      read as 0, which no comparison or addition in this code can tell apart.
      Text whose first non-blank character is neither a sign nor a digit reads
      as NaN, and only a leading `-` gives a negative number. */
  function ParseInt(s: string): (r: Num)
    ensures var t := TrimStart(s);
      t == [] || (t[0] != '-' && t[0] != '+' && DigitValue(t[0]) >= 10) ==> r == NaN
    ensures r.Int? && r.v < 0 ==> TrimStart(s) != [] && TrimStart(s)[0] == '-'
  {
    var (negative, u) := ReadSign(TrimStart(s));
    var (radix, w) := ReadRadix(u);
    var z := DigitPrefix(w, radix);
    if z == [] then NaN
    else if negative then Int(-(Value(z, radix) as int))
    else Int(Value(z, radix))
  }

  /** Whether `t` starts with `-`, and `t` without a leading `-` or `+`. */
  function ReadSign(t: string): (bool, string)
  {
    if |t| > 0 && (t[0] == '-' || t[0] == '+') then (t[0] == '-', t[1..]) else (false, t)
  }

  /** Radix 16 and the rest of `u` after a `0x` or `0X` prefix; radix 10 and
      `u` otherwise. */
  function ReadRadix(u: string): (nat, string)
  {
    if |u| >= 2 && u[0] == '0' && (u[1] == 'x' || u[1] == 'X') then (16, u[2..]) else (10, u)
  }

  /** The decimal digit character for `d`. */
  function DigitChar(d: nat): (c: char)
    requires d < 10
    ensures '0' <= c <= '9' && DigitValue(c) == d
  {
    ('0' as int + d) as char
  }

  /** The decimal rendering of `n`, without leading zeros. */
  function DecimalDigits(n: nat): (s: string)
    ensures |s| >= 1
    ensures forall i :: 0 <= i < |s| ==> '0' <= s[i] <= '9'
    ensures s[0] == '0' ==> n == 0 && |s| == 1
  {
    if n < 10 then [DigitChar(n)] else DecimalDigits(n / 10) + [DigitChar(n % 10)]
  }

  /** `String(x)`: the text JavaScript stores for a number. It is `"NaN"`
      for NaN; for an integer it is never empty, starts with `-` exactly when
      the integer is negative, and is decimal digits after that sign. */
  function ToStr(x: Num): (s: string)
    ensures x.NaN? ==> s == "NaN"
    ensures x.Int? ==> |s| >= 1 && (s[0] == '-' <==> x.v < 0)
    ensures x.Int? ==> forall i :: (if x.v < 0 then 1 else 0) <= i < |s| ==> '0' <= s[i] <= '9'
  {
    match x
    case NaN => "NaN"
    case Int(n) => if n < 0 then "-" + DecimalDigits(-n) else DecimalDigits(n)
  }

  /** Reading the decimal rendering of `n` back gives `n`. */
  lemma {:induction false} ValueOfDecimalDigits(n: nat)
    ensures Value(DecimalDigits(n), 10) == n
    decreases n
  {
    var s := DecimalDigits(n);
    if n < 10 {
      assert s[..|s| - 1] == [];
    } else {
      var p := DecimalDigits(n / 10);
      assert s == p + [DigitChar(n % 10)];
      assert s[..|s| - 1] == p;
      ValueOfDecimalDigits(n / 10);
    }
  }

  /** The digit run of a decimal string followed by a non-digit is that decimal string. */
  lemma {:induction false} DigitPrefixOfDecimal(d: string, rest: string)
    requires forall i :: 0 <= i < |d| ==> '0' <= d[i] <= '9'
    requires rest == [] || DigitValue(rest[0]) >= 10
    ensures DigitPrefix(d + rest, 10) == d
    decreases |d|
  {
    if d != [] {
      assert (d + rest)[1..] == d[1..] + rest;
      DigitPrefixOfDecimal(d[1..], rest);
      assert [d[0]] + d[1..] == d;
    } else {
      assert d + rest == rest;
    }
  }

  /** `parseInt` reads back what `String` wrote for an integer, and stops at
      the first character that is not a decimal digit (so `"25.7"` and
      `"25 chips"` both read as 25). */
  lemma {:induction false} ParseIntOfDecimal(n: int, rest: string)
    requires rest == [] || DigitValue(rest[0]) == 36
    ensures ParseInt(ToStr(Int(n)) + rest) == Int(n)
  {
    var m: nat := if n < 0 then -n else n;
    var d := DecimalDigits(m);
    var u := d + rest;
    var s := ToStr(Int(n)) + rest;
    SignedText(n, rest);
    DecimalReading(m, rest);
    TrimStartOfSigned(s);
    ReadSignOfDecimal(n < 0, u, s);
    ParseIntDecimalForm(s, n < 0, u, d);
  }

  /** The text of `n` followed by `rest` is an optional `-` and the digits of |n| followed by `rest`. */
  lemma SignedText(n: int, rest: string)
    ensures var m: nat := if n < 0 then -n else n;
      ToStr(Int(n)) + rest == if n < 0 then "-" + (DecimalDigits(m) + rest) else DecimalDigits(m) + rest
  {
  }

  /** The unsigned part: decimal digits followed by a non-alphanumeric tail
      are read in radix 10, up to the tail, with their value. */
  lemma DecimalReading(m: nat, rest: string)
    requires rest == [] || DigitValue(rest[0]) == 36
    ensures var d := DecimalDigits(m);
      ReadRadix(d + rest) == (10, d + rest) && DigitPrefix(d + rest, 10) == d && Value(d, 10) == m
  {
    var d := DecimalDigits(m);
    ReadRadixOfDecimal(d, rest);
    DigitPrefixOfDecimal(d, rest);
    ValueOfDecimalDigits(m);
  }

  /** Text that starts with a sign or a digit has no white space to skip. */
  lemma TrimStartOfSigned(s: string)
    requires s != [] && (s[0] == '-' || '0' <= s[0] <= '9')
    ensures TrimStart(s) == s
  {
    assert !IsStrWhiteSpace(s[0]);
  }

  /** `parseInt` of decimal text once its three reading stages are known. */
  lemma ParseIntDecimalForm(s: string, negative: bool, u: string, z: string)
    requires TrimStart(s) == s && ReadSign(s) == (negative, u)
    requires ReadRadix(u) == (10, u) && DigitPrefix(u, 10) == z && z != []
    ensures ParseInt(s) == if negative then Int(-(Value(z, 10) as int)) else Int(Value(z, 10))
  {
  }

  /** A leading `-` is taken as the sign; text starting with a digit has none. */
  lemma ReadSignOfDecimal(negative: bool, u: string, s: string)
    requires u != [] && '0' <= u[0] <= '9'
    requires s == if negative then "-" + u else u
    ensures ReadSign(s) == (negative, u)
  {
    if negative {
      assert s[1..] == u;
    }
  }

  /** A decimal rendering never starts with `0x`. */
  lemma ReadRadixOfDecimal(d: string, rest: string)
    requires |d| >= 1 && (d[0] == '0' ==> |d| == 1)
    requires rest == [] || DigitValue(rest[0]) == 36
    ensures ReadRadix(d + rest) == (10, d + rest)
  {
    var u := d + rest;
    if |u| >= 2 && u[0] == '0' {
      assert u[1] == rest[0];
    }
  }

  /** The round trip through storage: `parseInt(String(x))` is `x`, NaN included. */
  lemma ParseIntToStr(x: Num)
    ensures ParseInt(ToStr(x)) == x
  {
    match x
    case NaN =>
      var s := "NaN";
      assert TrimStart(s) == s;
      assert ReadSign(s) == (false, s);
      assert ReadRadix(s) == (10, s);
      assert DigitPrefix(s, 10) == [];
    case Int(n) =>
      ParseIntOfDecimal(n, []);
      assert ToStr(x) + [] == ToStr(x);
  }

  /** `x + d` for an integer `d`: NaN absorbs. */
  function Add(x: Num, d: int): Num
  {
    match x
    case NaN => NaN
    case Int(n) => Int(n + d)
  }

  /** `x < k`; every comparison with NaN is false. */
  predicate Less(x: Num, k: int) { x.Int? && x.v < k }

  /** `x > k`. */
  predicate Greater(x: Num, k: int) { x.Int? && x.v > k }

  /** `x >= k`. */
  predicate AtLeast(x: Num, k: int) { x.Int? && x.v >= k }
}
