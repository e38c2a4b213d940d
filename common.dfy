/** Small helpers shared by every part of the model: an optional value, the outcome of one of
    Python's conversions (`int(...)`, `float(...)`, `Decimal(...)`), and the decimal rendering
    and parsing of integers that Python's `str(n)` and `int(s)` perform. */
module Common {

  datatype Option<+T> = None | Some(value: T) {
    function GetOr(default: T): T {
      match this
      case Some(v) => v
      case None => default
    }
  }

  /** What a view got when it converted one request value: the key was absent or falsy, the
      conversion gave a value, or the conversion raised (`ValueError`, `TypeError`). */
  datatype Parsed<+T> = Absent | Value(v: T) | Invalid

  function Max(a: int, b: int): (m: int)
    ensures m >= a && m >= b && (m == a || m == b)
  {
    if a < b then b else a
  }

  predicate IsDigit(c: char) {
    '0' <= c <= '9'
  }

  predicate AllDigits(s: string) {
    forall i :: 0 <= i < |s| ==> IsDigit(s[i])
  }

  function DigitChar(d: nat): (c: char)
    requires d < 10
    ensures IsDigit(c) && c as int - '0' as int == d
  {
    (d + '0' as int) as char
  }

  /** `str(n)` for a non-negative integer: no sign, no leading zeros. */
  function NatToString(n: nat): (s: string)
    ensures |s| >= 1 && AllDigits(s)
    ensures n > 0 ==> s[0] != '0'
    decreases n
  {
    if n < 10 then [DigitChar(n)] else NatToString(n / 10) + [DigitChar(n % 10)]
  }

  /** `str(n)` for any integer. */
  function IntToString(n: int): (s: string)
    ensures |s| >= 1
    ensures n < 0 <==> s[0] == '-'
  {
    if n < 0 then "-" + NatToString(-n) else NatToString(n)
  }

  /** The value of a string of decimal digits (leading zeros allowed). */
  function DigitsValue(s: string): nat
    requires AllDigits(s)
  {
    if s == [] then 0 else DigitsValue(s[..|s| - 1]) * 10 + (s[|s| - 1] as int - '0' as int)
  }

  /** The value of a non-empty string of ASCII digits, `None` for any other text. */
  function ParseNat(s: string): (r: Option<nat>)
    ensures r.Some? <==> s != [] && AllDigits(s)
  {
    if s != [] && AllDigits(s) then Some(DigitsValue(s)) else None
  }

  lemma {:induction false} DigitsValueOfNatToString(n: nat)
    ensures DigitsValue(NatToString(n)) == n
    decreases n
  {
    if n >= 10 {
      var s := NatToString(n / 10) + [DigitChar(n % 10)];
      assert s[..|s| - 1] == NatToString(n / 10);
      DigitsValueOfNatToString(n / 10);
    }
  }

  /** Rendering then parsing gives back the number: `int(str(n)) == n`. */
  lemma ParseNatToString(n: nat)
    ensures ParseNat(NatToString(n)) == Some(n)
  {
    DigitsValueOfNatToString(n);
  }

  /** Distinct numbers render differently, so a rendered id identifies its row. */
  lemma NatToStringInjective(a: nat, b: nat)
    requires NatToString(a) == NatToString(b)
    ensures a == b
  {
    ParseNatToString(a);
    ParseNatToString(b);
  }

  function Pow10(k: nat): (p: nat)
    ensures p >= 1
  {
    if k == 0 then 1 else 10 * Pow10(k - 1)
  }

  /** A number below 10^k takes at most k digits. */
  lemma {:induction false} NatToStringBounded(n: nat, k: nat)
    requires k >= 1 && n < Pow10(k)
    ensures |NatToString(n)| <= k
    decreases n
  {
    if n >= 10 {
      assert Pow10(1) == 10;
      assert k >= 2;
      NatToStringBounded(n / 10, k - 1);
    }
  }

  // ===== PostgreSQL integer columns =====

  /** The largest value of a `bigint` column (`BigIntegerField`, `BigAutoField`). */
  const MaxBigInt := 0x7FFF_FFFF_FFFF_FFFF

  /** What an `integer` column (`IntegerField`) stores; the save of any other value raises
      `DataError`. */
  predicate IsInt32(n: int) {
    -0x8000_0000 <= n < 0x8000_0000
  }

  /** A `bigint` key is written with at most 19 digits. */
  lemma BigIntDigits(n: nat)
    requires n <= MaxBigInt
    ensures |NatToString(n)| <= 19
  {
    assert Pow10(6) == 1_000_000;
    assert Pow10(12) == 1_000_000_000_000;
    assert Pow10(19) == 10_000_000_000_000_000_000;
    NatToStringBounded(n, 19);
  }

  /** Index of the first `c` in `s`, or `|s|` when there is none. */
  function IndexOf(s: string, c: char): (k: nat)
    ensures k <= |s|
    ensures k < |s| ==> s[k] == c
    ensures forall i :: 0 <= i < k ==> s[i] != c
  {
    if s == [] then 0 else if s[0] == c then 0 else 1 + IndexOf(s[1..], c)
  }

  // ===== Python's whitespace and str.strip() =====

  /** The characters `str.isspace` accepts, which `str.strip()` and `Decimal()` drop around a
      value (`int()` drops fewer: see `IsIntSpace`). */
  predicate IsSpace(c: char) {
    || 0x09 <= c as int <= 0x0D || 0x1C <= c as int <= 0x20
    || c as int in {0x85, 0xA0, 0x1680, 0x2028, 0x2029, 0x202F, 0x205F, 0x3000}
    || 0x2000 <= c as int <= 0x200A
  }

  predicate AllSpace(s: string) {
    forall i :: 0 <= i < |s| ==> IsSpace(s[i])
  }

  /** How many spaces `s` starts with. */
  function LeadingSpaces(s: string): (i: nat)
    ensures i <= |s| && AllSpace(s[..i])
    ensures i < |s| ==> !IsSpace(s[i])
  {
    if s == [] || !IsSpace(s[0]) then 0
    else
      var i := 1 + LeadingSpaces(s[1..]);
      assert s[..i] == [s[0]] + s[1..][..i - 1];
      i
  }

  /** Where the trailing spaces of `s` begin. */
  function TrailingStart(s: string): (j: nat)
    ensures j <= |s| && AllSpace(s[j..])
    ensures j > 0 ==> !IsSpace(s[j - 1])
  {
    if s == [] || !IsSpace(s[|s| - 1]) then |s|
    else
      var j := TrailingStart(s[..|s| - 1]);
      assert s[j..] == s[..|s| - 1][j..] + [s[|s| - 1]];
      j
  }

  /** `str.strip()`: `s` without its leading and trailing spaces. */
  function Strip(s: string): (r: string)
    ensures exists i, j :: 0 <= i <= j <= |s| && r == s[i..j] && AllSpace(s[..i]) && AllSpace(s[j..])
    ensures r != [] ==> !IsSpace(r[0]) && !IsSpace(r[|r| - 1])
    ensures r == [] <==> AllSpace(s)
  {
    var i := LeadingSpaces(s);
    var t := s[i..];
    var j := TrailingStart(t);
    assert s[i..][..j] == s[i..i + j];
    assert s[i + j..] == t[j..];
    t[..j]
  }

  /** Stripping twice is stripping once. */
  lemma StripIdempotent(s: string)
    ensures Strip(Strip(s)) == Strip(s)
  {
    var r := Strip(s);
    if r != [] {
      assert LeadingSpaces(r) == 0;
      assert r[0..] == r;
      assert TrailingStart(r) == |r|;
      assert r[..|r|] == r;
    }
  }

  /** Text that neither starts nor ends with a space is its own strip. */
  lemma StripUnpadded(s: string)
    requires s != [] ==> !IsSpace(s[0]) && !IsSpace(s[|s| - 1])
    ensures Strip(s) == s
  {
    if s != [] {
      assert LeadingSpaces(s) == 0;
      assert s[0..] == s;
      assert TrailingStart(s) == |s|;
      assert s[..|s|] == s;
    }
  }

  // ===== Python's int() on text =====

  predicate NoUnderscore(s: string) {
    forall i :: 0 <= i < |s| ==> s[i] != '_'
  }

  /** `s` without its underscores. */
  function WithoutUnderscores(s: string): string {
    if s == [] then ""
    else WithoutUnderscores(s[..|s| - 1]) + (if s[|s| - 1] == '_' then "" else [s[|s| - 1]])
  }

  /** Dropping underscores never lengthens the text. */
  lemma {:induction false} WithoutUnderscoresShorter(s: string)
    ensures |WithoutUnderscores(s)| <= |s|
    decreases |s|
  {
    if s != [] {
      WithoutUnderscoresShorter(s[..|s| - 1]);
    }
  }

  /** No underscore is left. */
  lemma {:induction false} WithoutUnderscoresHasNone(s: string)
    ensures NoUnderscore(WithoutUnderscores(s))
  {
    if s != [] {
      WithoutUnderscoresHasNone(s[..|s| - 1]);
    }
  }

  /** Digits and underscores leave only digits. */
  lemma {:induction false} WithoutUnderscoresOfGroups(s: string)
    requires forall i :: 0 <= i < |s| ==> IsDigit(s[i]) || s[i] == '_'
    ensures AllDigits(WithoutUnderscores(s))
  {
    if s != [] {
      WithoutUnderscoresOfGroups(s[..|s| - 1]);
    }
  }

  /** Text without underscores is kept as it is. */
  lemma {:induction false} WithoutUnderscoresKeeps(s: string)
    requires NoUnderscore(s)
    ensures WithoutUnderscores(s) == s
  {
    if s != [] {
      WithoutUnderscoresKeeps(s[..|s| - 1]);
      assert s == s[..|s| - 1] + [s[|s| - 1]];
    }
  }

  /** Digits, grouped by single underscores between them (PEP 515): the digit strings `int()`
      accepts. */
  predicate IsDigitGroups(s: string) {
    && s != [] && IsDigit(s[0]) && IsDigit(s[|s| - 1])
    && (forall i :: 0 <= i < |s| ==> IsDigit(s[i]) || s[i] == '_')
    && (forall i :: 0 <= i < |s| - 1 ==> s[i] == '_' ==> s[i + 1] != '_')
  }

  /** The number the grouped digits write. */
  function GroupsValue(s: string): nat
    requires IsDigitGroups(s)
  {
    WithoutUnderscoresOfGroups(s);
    DigitsValue(WithoutUnderscores(s))
  }

  /** An optional `+` or `-` followed by grouped digits. */
  function SignedGroups(t: string): (r: Option<int>)
    ensures r.Some? && r.value < 0 ==> t != [] && t[0] == '-'
  {
    if t != [] && (t[0] == '+' || t[0] == '-') then
      if IsDigitGroups(t[1..]) then
        var v: int := GroupsValue(t[1..]);
        Some(if t[0] == '-' then -v else v)
      else None
    else if IsDigitGroups(t) then Some(GroupsValue(t))
    else None
  }

  /** The whitespace `int()` skips around a number. It first turns every non-ASCII whitespace
      character into a plain space and leaves ASCII characters alone, then skips the ASCII
      whitespace: tab, line feed, vertical tab, form feed, carriage return and space. The
      separators U+001C to U+001F, which `str.isspace` accepts, are not skipped. */
  predicate IsIntSpace(c: char) {
    0x09 <= c as int <= 0x0D || c == ' ' || (c as int >= 0x80 && IsSpace(c))
  }

  /** `s` without the whitespace `int()` skips at either end. */
  function IntStrip(s: string): (r: string)
    ensures |r| <= |s|
    ensures r != [] ==> !IsIntSpace(r[0]) && !IsIntSpace(r[|r| - 1])
    decreases |s|
  {
    if s != [] && IsIntSpace(s[0]) then IntStrip(s[1..])
    else if s != [] && IsIntSpace(s[|s| - 1]) then IntStrip(s[..|s| - 1])
    else s
  }

  /** The whitespace `int()` skips is whitespace to `str.isspace` too, but not the other way. */
  lemma IntSpaceIsSpace(c: char)
    ensures IsIntSpace(c) ==> IsSpace(c)
    ensures IsSpace(c) && !IsIntSpace(c) <==> 0x1C <= c as int <= 0x1F
  {
  }

  /** The most digits `int()` reads from text: `sys.get_int_max_str_digits()`, 4300 unless
      changed. */
  const MaxStrDigits := 4300

  /** The digits of the text `int()` reads: what follows an optional sign, without underscores. */
  function DigitCount(t: string): (n: nat)
    ensures n <= |t|
  {
    var u := if t != [] && (t[0] == '+' || t[0] == '-') then t[1..] else t;
    WithoutUnderscoresShorter(u);
    |WithoutUnderscores(u)|
  }

  /** Python's `int(s)` on text: the whitespace of `IsIntSpace` around the number is ignored,
      one `+` or `-` may lead, and the digits may be grouped with single underscores. More than
      `MaxStrDigits` digits are refused (only text longer than that can hold so many). `None`
      stands for the `ValueError` raised on any other text. */
  function PyInt(s: string): Option<int> {
    var t := IntStrip(s);
    if |t| > MaxStrDigits && DigitCount(t) > MaxStrDigits then None else SignedGroups(t)
  }

  /** Digit strings hold no underscore. */
  lemma DigitsHaveNoUnderscore(s: string)
    requires AllDigits(s)
    ensures NoUnderscore(s)
  {
    forall i | 0 <= i < |s| ensures s[i] != '_' {
      assert IsDigit(s[i]);
    }
  }

  /** Plain digits are grouped digits whose value is theirs. */
  lemma DigitsAreGroups(s: string)
    requires s != [] && AllDigits(s)
    ensures IsDigitGroups(s) && GroupsValue(s) == DigitsValue(s)
  {
    assert IsDigit(s[0]) && IsDigit(s[|s| - 1]);
    DigitsHaveNoUnderscore(s);
    WithoutUnderscoresKeeps(s);
  }

  /** Text without surrounding spaces goes straight to the sign rule. */
  lemma PyIntOfPlain(s: string)
    requires s != [] ==> !IsIntSpace(s[0]) && !IsIntSpace(s[|s| - 1])
    requires DigitCount(s) <= MaxStrDigits
    ensures PyInt(s) == SignedGroups(s)
  {
  }

  /** Short text without surrounding spaces goes straight to the sign rule. */
  lemma PyIntOfShort(s: string)
    requires s != [] ==> !IsIntSpace(s[0]) && !IsIntSpace(s[|s| - 1])
    requires |s| <= MaxStrDigits
    ensures PyInt(s) == SignedGroups(s)
  {
    PyIntOfPlain(s);
  }

  /** A digit string without a sign or spaces is read as its value. */
  lemma PyIntOfDigits(s: string)
    requires s != [] && AllDigits(s) && |s| <= MaxStrDigits
    ensures PyInt(s) == Some(DigitsValue(s))
  {
    assert IsDigit(s[0]) && IsDigit(s[|s| - 1]);
    PyIntOfShort(s);
    DigitsAreGroups(s);
  }

  lemma SignedGroupsOfNegative(d: string)
    requires d != [] && AllDigits(d)
    ensures SignedGroups("-" + d) == Some(-(DigitsValue(d) as int))
  {
    assert ("-" + d)[1..] == d;
    DigitsAreGroups(d);
  }

  /** A digit is not whitespace. */
  lemma DigitNotSpace(c: char)
    requires IsDigit(c)
    ensures !IsSpace(c) && !IsIntSpace(c)
  {
  }

  /** A minus sign before digits is read as the negated value. */
  lemma PyIntOfMinusDigits(d: string)
    requires d != [] && AllDigits(d) && |d| <= MaxStrDigits
    ensures PyInt("-" + d) == Some(-(DigitsValue(d) as int))
  {
    var s := "-" + d;
    assert s[0] == '-' && s[|s| - 1] == d[|d| - 1] && s[1..] == d;
    DigitNotSpace(d[|d| - 1]);
    WithoutUnderscoresShorter(d);
    PyIntOfPlain(s);
    SignedGroupsOfNegative(d);
  }

  lemma PyIntOfNegative(n: int)
    requires n < 0 && |NatToString(-n)| <= MaxStrDigits
    ensures PyInt(IntToString(n)) == Some(n)
  {
    var m: nat := -n;
    var d := NatToString(m);
    assert IntToString(n) == "-" + d;
    DigitsValueOfNatToString(m);
    PyIntOfMinusDigits(d);
  }

  /** `int(str(n)) == n` for every integer of at most `MaxStrDigits` digits. */
  lemma PyIntOfIntToString(n: int)
    requires |NatToString(if n < 0 then -n else n)| <= MaxStrDigits
    ensures PyInt(IntToString(n)) == Some(n)
  {
    if n < 0 {
      PyIntOfNegative(n);
    } else {
      DigitsValueOfNatToString(n);
      PyIntOfDigits(NatToString(n));
    }
  }

  /** Text that neither starts nor ends with the whitespace `int()` skips is its own strip. */
  lemma IntStripUnpadded(s: string)
    requires s != [] ==> !IsIntSpace(s[0]) && !IsIntSpace(s[|s| - 1])
    ensures IntStrip(s) == s
  {
  }

  /** The whitespace `int()` skips around the text never changes what it reads. */
  lemma PyIntIgnoresPadding(s: string)
    ensures PyInt(IntStrip(s)) == PyInt(s)
  {
    IntStripUnpadded(IntStrip(s));
  }

  /** `int()` does not skip a separator character that `str.strip()` drops: `int("\x1c5")`
      raises `ValueError` where `int("5")` is 5. */
  lemma PyIntRefusesSeparator()
    ensures Strip("\U{1c}5") == "5"
    ensures PyInt("\U{1c}5") == None
  {
    var s := "\U{1c}5";
    assert LeadingSpaces(s) == 1 by {
      assert s[1..] == "5";
    }
    assert s[1..] == "5" && TrailingStart("5") == 1 && "5"[..1] == "5";
    PyIntOfShort(s);
    assert !IsDigit(s[0]);
  }

  /** Dropping underscores works piece by piece. */
  lemma {:induction false} WithoutUnderscoresAppend(a: string, b: string)
    ensures WithoutUnderscores(a + b) == WithoutUnderscores(a) + WithoutUnderscores(b)
    decreases |b|
  {
    if b != [] {
      var init := b[..|b| - 1];
      assert (a + b)[..|a + b| - 1] == a + init;
      assert (a + b)[|a + b| - 1] == b[|b| - 1];
      WithoutUnderscoresAppend(a, init);
    } else {
      assert a + b == a;
    }
  }

  lemma WithoutUnderscoresExample()
    ensures WithoutUnderscores("1_000") == "1000"
  {
    assert "1_000" == "1" + ("_" + "000");
    WithoutUnderscoresAppend("1", "_" + "000");
    WithoutUnderscoresAppend("_", "000");
    WithoutUnderscoresKeeps("1");
    WithoutUnderscoresKeeps("000");
    assert WithoutUnderscores("_") == "" by {
      assert "_"[..0] == "";
    }
  }

  /** `int()` ignores the whitespace around a number. */
  lemma PyIntPadded(d: string)
    requires d != [] && AllDigits(d) && |d| <= MaxStrDigits
    ensures PyInt(" " + d) == Some(DigitsValue(d))
  {
    assert IsDigit(d[0]) && IsDigit(d[|d| - 1]);
    DigitNotSpace(d[0]);
    DigitNotSpace(d[|d| - 1]);
    assert (" " + d)[1..] == d;
    assert IntStrip(" " + d) == IntStrip(d);
    IntStripUnpadded(d);
    DigitsAreGroups(d);
  }

  /** `int()` reads a leading sign. */
  lemma PyIntPlus()
    ensures PyInt("+5") == Some(5)
  {
    PyIntOfShort("+5");
    assert "+5"[1..] == "5";
    DigitsAreGroups("5");
    assert DigitsValue("5") == 5;
  }

  lemma PyIntMinus()
    ensures PyInt("-1") == Some(-1)
  {
    PyIntOfShort("-1");
    SignedGroupsOfNegative("1");
  }

  lemma GroupedExample()
    ensures IsDigitGroups("1_000")
  {
    var s := "1_000";
    assert s[0] == '1' && s[1] == '_' && s[2] == '0' && s[3] == '0' && s[4] == '0';
  }

  lemma DigitsValueExample()
    ensures DigitsValue("1000") == 1000
  {
    assert "1000"[..3] == "100" && "100"[..2] == "10" && "10"[..1] == "1" && "1"[..0] == "";
  }

  /** `int()` reads digits grouped by single underscores. */
  lemma PyIntGrouped()
    ensures PyInt("1_000") == Some(1000)
  {
    PyIntOfShort("1_000");
    GroupedExample();
    WithoutUnderscoresExample();
    DigitsValueExample();
    assert GroupsValue("1_000") == 1000;
  }

  /** `int()` refuses two underscores in a row. */
  lemma PyIntRefusesDoubleUnderscore()
    ensures PyInt("1__000") == None
  {
    PyIntOfShort("1__000");
    assert !IsDigitGroups("1__000") by {
      assert "1__000"[1] == '_' && "1__000"[2] == '_';
    }
  }

  /** `int()` refuses a decimal point. */
  lemma PyIntRefusesPoint()
    ensures PyInt("5.0") == None
  {
    PyIntOfShort("5.0");
    assert !IsDigitGroups("5.0") by {
      assert !IsDigit("5.0"[1]);
    }
  }

  /** `int()` refuses a well-formed digit string longer than `MaxStrDigits`. */
  lemma PyIntRefusesLongDigits(d: string)
    requires AllDigits(d) && |d| > MaxStrDigits
    ensures IsDigitGroups(d) && PyInt(d) == None
  {
    assert IsDigit(d[0]) && IsDigit(d[|d| - 1]);
    DigitNotSpace(d[0]);
    DigitNotSpace(d[|d| - 1]);
    IntStripUnpadded(d);
    DigitsAreGroups(d);
    DigitsHaveNoUnderscore(d);
    WithoutUnderscoresKeeps(d);
  }

  // ===== Python's Decimal() on text =====

  /** The value of a `Decimal`: a finite number, a signed infinity, or a quiet or signalling NaN. */
  datatype DecimalValue = Finite(v: real) | Infinite(negative: bool) | QuietNaN | SignalingNaN

  /** ASCII letters in lower case; `Decimal()` reads "NaN", "Inf" and the exponent mark in either
      case. */
  function Lower(c: char): char {
    if 'A' <= c <= 'Z' then (c as int + 32) as char else c
  }

  function LowerAll(s: string): (r: string)
    ensures |r| == |s| && forall i :: 0 <= i < |s| ==> r[i] == Lower(s[i])
  {
    seq(|s|, i requires 0 <= i < |s| => Lower(s[i]))
  }

  /** `digits[.digits]` or `.digits`. */
  function ParseMantissa(s: string): (r: Option<real>)
    ensures r.Some? ==> r.value >= 0.0
  {
    var k := IndexOf(s, '.');
    var whole := s[..k];
    var frac := if k < |s| then s[k + 1..] else "";
    if AllDigits(whole) && AllDigits(frac) && |whole| + |frac| > 0 then
      Some(DigitsValue(whole) as real + DigitsValue(frac) as real / Pow10(|frac|) as real)
    else
      None
  }

  /** The exponent after `e` or `E`: an optional sign and at least one digit. */
  function ParseExponent(s: string): Option<int> {
    if s != [] && (s[0] == '+' || s[0] == '-') then
      if s[1..] != [] && AllDigits(s[1..]) then
        var v: int := DigitsValue(s[1..]);
        Some(if s[0] == '-' then -v else v)
      else None
    else if s != [] && AllDigits(s) then Some(DigitsValue(s))
    else None
  }

  /** m · 10^e. */
  function Scale(m: real, e: int): real {
    if e >= 0 then m * Pow10(e) as real else m / Pow10(-e) as real
  }

  /** An unsigned finite number: a mantissa and an optional exponent. */
  function ParseUnsignedNumber(s: string): Option<real> {
    var k := IndexOf(LowerAll(s), 'e');
    match ParseMantissa(s[..k])
    case None => None
    case Some(m) =>
      if k == |s| then Some(m)
      else
        match ParseExponent(s[k + 1..])
        case None => None
        case Some(e) => Some(Scale(m, e))
  }

  predicate NaNPayload(low: string, prefix: string) {
    |low| >= |prefix| && low[..|prefix|] == prefix && AllDigits(low[|prefix|..])
  }

  /** An optional `+` or `-` followed by an infinity, a NaN or a finite number. */
  function SignedDecimal(t: string): Option<DecimalValue> {
    var signed := t != [] && (t[0] == '+' || t[0] == '-');
    var negative := signed && t[0] == '-';
    var body := if signed then t[1..] else t;
    var low := LowerAll(body);
    if low == "inf" || low == "infinity" then Some(Infinite(negative))
    else if NaNPayload(low, "nan") then Some(QuietNaN)
    else if NaNPayload(low, "snan") then Some(SignalingNaN)
    else
      match ParseUnsignedNumber(body)
      case None => None
      case Some(v) => Some(Finite(if negative then -v else v))
  }

  /** Python's `Decimal(s)` on text: whitespace around the value is ignored and then every
      underscore is dropped; then one `+` or `-` may lead "Inf", "Infinity", "NaN", "sNaN" (any case, a NaN
      with optional payload digits) or a mantissa with an optional exponent. `None` stands for
      the `InvalidOperation` raised on any other text. */
  function PyDecimal(s: string): Option<DecimalValue> {
    SignedDecimal(WithoutUnderscores(Strip(s)))
  }

  /** Text without underscores or surrounding spaces goes straight to the sign rule. */
  lemma PyDecimalOfPlain(s: string)
    requires NoUnderscore(s) && (s != [] ==> !IsSpace(s[0]) && !IsSpace(s[|s| - 1]))
    ensures PyDecimal(s) == SignedDecimal(s)
  {
    StripUnpadded(s);
    WithoutUnderscoresKeeps(s);
  }

  /** A digit string is read by the mantissa rule as its value. */
  lemma UnsignedNumberOfDigits(s: string)
    requires s != [] && AllDigits(s)
    ensures ParseUnsignedNumber(s) == Some(DigitsValue(s) as real)
  {
    var low := LowerAll(s);
    forall i | 0 <= i < |s| ensures low[i] != 'e' && s[i] != '.' {
      assert IsDigit(s[i]);
    }
    CharAbsent(low, 'e');
    CharAbsent(s, '.');
    MantissaOfDigits(s);
    assert s[..|s|] == s;
  }

  lemma CharAbsent(s: string, c: char)
    requires forall i :: 0 <= i < |s| ==> s[i] != c
    ensures IndexOf(s, c) == |s|
  {
  }

  lemma MantissaOfDigits(s: string)
    requires s != [] && AllDigits(s) && IndexOf(s, '.') == |s|
    ensures ParseMantissa(s) == Some(DigitsValue(s) as real)
  {
    assert s[..|s|] == s;
    assert Pow10(0) == 1;
  }

  /** A digit string is no infinity and no NaN. */
  lemma DigitsAreNotSpecial(s: string)
    requires s != [] && AllDigits(s)
    ensures var low := LowerAll(s);
      low != "inf" && low != "infinity" && !NaNPayload(low, "nan") && !NaNPayload(low, "snan")
  {
    var low := LowerAll(s);
    assert IsDigit(s[0]) && low[0] == s[0];
    assert "inf"[0] == 'i' && "infinity"[0] == 'i' && "nan"[0] == 'n' && "snan"[0] == 's';
  }

  /** A digit string is read by the sign rule as its value. */
  lemma SignedDecimalOfDigits(s: string)
    requires s != [] && AllDigits(s)
    ensures SignedDecimal(s) == Some(Finite(DigitsValue(s) as real))
  {
    assert IsDigit(s[0]);
    DigitsAreNotSpecial(s);
    UnsignedNumberOfDigits(s);
  }

  /** A rendered whole number is read back by `Decimal` as that number, so the callback amount
      "67000" equals a stored amount of 67000.00. */
  lemma PyDecimalOfNatToString(n: nat)
    ensures PyDecimal(NatToString(n)) == Some(Finite(n as real))
  {
    var s := NatToString(n);
    assert IsDigit(s[0]) && IsDigit(s[|s| - 1]);
    DigitsHaveNoUnderscore(s);
    PyDecimalOfPlain(s);
    DigitsValueOfNatToString(n);
    SignedDecimalOfDigits(s);
  }

  lemma ExponentTextNotSpecial()
    ensures var low := LowerAll("67e3");
      low != "inf" && low != "infinity" && !NaNPayload(low, "nan") && !NaNPayload(low, "snan")
  {
    var low := LowerAll("67e3");
    assert low[0] == '6';
    assert "inf"[0] == 'i' && "infinity"[0] == 'i' && "nan"[0] == 'n' && "snan"[0] == 's';
  }

  lemma MantissaExample()
    ensures ParseMantissa("67") == Some(67.0)
  {
    assert IndexOf("67", '.') == 2;
    assert "67"[..2] == "67" && "67"[..1] == "6" && "6"[..0] == "";
  }

  lemma UnsignedNumberExample()
    ensures ParseUnsignedNumber("67e3") == Some(67000.0)
  {
    var s := "67e3";
    assert LowerAll(s) == s;
    assert IndexOf(s, 'e') == 2;
    assert s[..2] == "67" && s[3..] == "3";
    MantissaExample();
    assert ParseExponent("3") == Some(3) by {
      assert "3"[..0] == "";
    }
    assert Scale(67.0, 3) == 67000.0;
  }

  lemma SignedDecimalExponent()
    ensures SignedDecimal("67e3") == Some(Finite(67000.0))
  {
    ExponentTextNotSpecial();
    UnsignedNumberExample();
  }

  /** `Decimal()` reads an exponent: "67e3" is 67000. */
  lemma PyDecimalExponent()
    ensures PyDecimal("67e3") == Some(Finite(67000.0))
  {
    assert NoUnderscore("67e3");
    PyDecimalOfPlain("67e3");
    SignedDecimalExponent();
  }

  lemma SignedDecimalNaN()
    ensures SignedDecimal("NaN") == Some(QuietNaN)
  {
    var low := LowerAll("NaN");
    assert low[0] == 'n' && low[1] == 'a' && low[2] == 'n';
    assert low == "nan";
    assert low[..3] == "nan" && low[3..] == "";
  }

  /** `Decimal()` reads "NaN" as a quiet NaN. */
  lemma PyDecimalNaN()
    ensures PyDecimal("NaN") == Some(QuietNaN)
  {
    assert NoUnderscore("NaN");
    PyDecimalOfPlain("NaN");
    SignedDecimalNaN();
  }

  lemma SignedDecimalInfinity()
    ensures SignedDecimal("-Inf") == Some(Infinite(true))
  {
    assert "-Inf"[1..] == "Inf";
    var low := LowerAll("Inf");
    assert low[0] == 'i' && low[1] == 'n' && low[2] == 'f';
    assert low == "inf";
  }

  /** `Decimal()` reads a signed infinity. */
  lemma PyDecimalInfinity()
    ensures PyDecimal("-Inf") == Some(Infinite(true))
  {
    assert NoUnderscore("-Inf");
    PyDecimalOfPlain("-Inf");
    SignedDecimalInfinity();
  }

  /** Underscores go only after the whitespace is stripped. */
  lemma UnderscoreThenSpace()
    ensures WithoutUnderscores(Strip("_ 5")) == " 5"
  {
    var s := "_ 5";
    StripUnpadded(s);
    assert s == "_" + " 5";
    WithoutUnderscoresAppend("_", " 5");
    WithoutUnderscoresKeeps(" 5");
    assert WithoutUnderscores("_") == "" by {
      assert "_"[..0] == "";
    }
  }

  /** A space is not the start of a number. */
  lemma SignedDecimalRefusesSpace()
    ensures SignedDecimal(" 5") == None
  {
    var t := " 5";
    var low := LowerAll(t);
    assert low[0] == ' ';
    assert IndexOf(low, 'e') == 2;
    assert IndexOf(t, '.') == 2;
    assert t[..2] == t;
    assert !IsDigit(t[0]);
  }

  /** `Decimal()` strips whitespace before it drops underscores, so an underscore outside a space
      leaves that space inside the text: `Decimal("_ 5")` raises `InvalidOperation`. */
  lemma PyDecimalRefusesUnderscoreBeforeSpace()
    ensures PyDecimal("_ 5") == None
  {
    UnderscoreThenSpace();
    SignedDecimalRefusesSpace();
  }

  /** A set holding two distinct elements has at least two elements. */
  lemma TwoElements<T>(s: set<T>, a: T, b: T)
    requires a in s && b in s && a != b
    ensures |s| >= 2
  {
    var rest := s - {a, b};
    assert s == {a, b} + rest;
    assert {a, b} * rest == {};
  }
}
