/**
 * The text helpers of the material dumper: integer and fixed-point
 * formatting, the trimming of trailing zeros, a material property's text
 * and the sanitisation of a material name into a file name.
 */
module MaterialStrings {
  import opened Wrappers
  import opened Numeric
  import opened Gpu

  /** The first position of `c` in `s` (`std::string::find`). */
  function IndexOf(s: string, c: char): (r: Option<nat>)
    ensures r.Some? ==> r.value < |s| && s[r.value] == c && forall i :: 0 <= i < r.value ==> s[i] != c
    ensures r.None? ==> forall i :: 0 <= i < |s| ==> s[i] != c
  {
    if |s| == 0 then None
    else if s[0] == c then Some(0)
    else match IndexOf(s[1..], c)
      case None => None
      case Some(i) => Some(i + 1)
  }

  /** The last position holding a character other than `c` (`std::string::find_last_not_of`). */
  function LastNotOf(s: string, c: char): (r: Option<nat>)
    ensures r.Some? ==> r.value < |s| && s[r.value] != c && forall i :: r.value < i < |s| ==> s[i] == c
    ensures r.None? ==> forall i :: 0 <= i < |s| ==> s[i] == c
  {
    if |s| == 0 then None
    else if s[|s| - 1] != c then Some(|s| - 1)
    else LastNotOf(s[..|s| - 1], c)
  }

  /** `s.substr(0, count)`: at most the first `count` characters. */
  function Prefix(s: string, count: nat): (r: string)
    ensures r <= s && |r| == Min(count, |s|)
  {
    s[..Min(count, |s|)]
  }

  predicate IsDigit(c: char) {
    '0' <= c <= '9'
  }

  function Digit(d: nat): (c: char)
    requires d < 10
    ensures IsDigit(c)
  {
    ('0' as int + d) as char
  }

  /** `std::to_string` of a non-negative integer: its decimal digits, most significant first. */
  function NatToString(n: nat): (s: string)
    ensures |s| >= 1 && forall i :: 0 <= i < |s| ==> IsDigit(s[i])
  {
    if n < 10 then [Digit(n)] else NatToString(n / 10) + [Digit(n % 10)]
  }

  /** The number a string of decimal digits denotes. */
  function DigitsValue(s: string): int {
    if |s| == 0 then 0 else DigitsValue(s[..|s| - 1]) * 10 + (s[|s| - 1] as int - '0' as int)
  }

  /** Reading the digits back gives the number printed. */
  lemma {:induction false} NatToStringRoundTrip(n: nat)
    ensures DigitsValue(NatToString(n)) == n
  {
    if n >= 10 {
      var s := NatToString(n);
      assert s[..|s| - 1] == NatToString(n / 10);
      NatToStringRoundTrip(n / 10);
    }
  }

  /** `std::to_string` of a signed integer. */
  function IntToString(i: int): (s: string)
    ensures |s| >= 1
    ensures i >= 0 ==> s == NatToString(i)
    ensures i < 0 ==> s == "-" + NatToString(-i)
  {
    if i < 0 then "-" + NatToString(-i) else NatToString(i)
  }

  /**
   * A printed integer reads back: it starts with '-' exactly when it is
   * negative, and the digits after the sign denote its magnitude.
   */
  lemma IntToStringRoundTrip(i: int)
    ensures IntToString(i)[0] == '-' <==> i < 0
    ensures DigitsValue(IntToString(i)[if i < 0 then 1 else 0..]) == if i < 0 then -i else i
  {
    var n := if i < 0 then -i else i;
    NatToStringRoundTrip(n);
    assert IsDigit(NatToString(n)[0]);
    if i < 0 {
      assert IntToString(i)[1..] == NatToString(n);
    }
  }

  /** The value of digits followed by more digits. */
  lemma {:induction false} DigitsValueAppend(a: string, b: string)
    ensures DigitsValue(a + b) == DigitsValue(a) * Pow10(|b|) + DigitsValue(b)
  {
    if |b| > 0 {
      assert (a + b)[..|a + b| - 1] == a + b[..|b| - 1];
      assert (a + b)[|a + b| - 1] == b[|b| - 1];
      DigitsValueAppend(a, b[..|b| - 1]);
      assert Pow10(|b|) == 10 * Pow10(|b| - 1);
    } else {
      assert a + b == a;
    }
  }

  /** Leading zeros do not change the value of a digit string. */
  lemma {:induction false} DigitsValueZeros(k: nat, b: string)
    ensures DigitsValue(seq(k, _ => '0') + b) == DigitsValue(b)
  {
    DigitsValueAppend(seq(k, _ => '0'), b);
    ZerosValue(k);
  }

  lemma {:induction false} ZerosValue(k: nat)
    ensures DigitsValue(seq(k, _ => '0')) == 0
  {
    if k > 0 {
      assert seq(k, _ => '0')[..k - 1] == seq(k - 1, _ => '0');
      ZerosValue(k - 1);
    }
  }

  /** `s` with leading zeros added to reach `width` characters. */
  function PadZeros(s: string, width: nat): (r: string)
    ensures |r| == if |s| < width then width else |s|
    ensures r[|r| - |s|..] == s
    ensures forall i :: 0 <= i < |r| - |s| ==> r[i] == '0'
  {
    if |s| < width then seq(width - |s|, _ => '0') + s else s
  }

  /**
   * The nearest whole number, an exact half going to the even neighbour,
   * as `%.6f` rounds under the default rounding mode.
   */
  function Round(x: real): (n: nat)
    requires x >= 0.0
    ensures -0.5 <= n as real - x <= 0.5
    ensures n as real - x == 0.5 || x - n as real == 0.5 ==> n % 2 == 0
  {
    var f := x.Floor;
    var r := x - f as real;
    if r > 0.5 || (r == 0.5 && f % 2 == 1) then f + 1 else f
  }

  /**
   * `std::fixed << std::setprecision(6)`: the sign of a negative value,
   * the whole part, a point and six decimals.
   */
  function FixedSix(x: real): (s: string)
    ensures |s| >= 8 && s[|s| - 7] == '.'
    ensures forall i :: 0 <= i < |s| - 7 ==> s[i] != '.'
    ensures forall i :: |s| - 7 < i < |s| ==> IsDigit(s[i])
    ensures forall i :: 0 <= i < |s| ==> s[i] == '-' || s[i] == '.' || IsDigit(s[i])
  {
    var n := Round(Abs(x) * 1000000.0);
    var whole := NatToString(n / 1000000);
    var decimals := PadZeros(NatToString(n % 1000000), 6);
    assert |NatToString(n % 1000000)| <= 6 by { DigitsBound(n % 1000000); }
    var sign := if x < 0.0 then "-" else "";
    var s := sign + whole + "." + decimals;
    assert forall i :: |s| - 7 < i < |s| ==> s[i] == decimals[i - (|s| - 6)];
    assert forall i :: |sign| <= i < |sign| + |whole| ==> s[i] == whole[i - |sign|];
    s
  }

  function SignText(negative: bool): string {
    if negative then "-" else ""
  }

  /** The digits before the point of `n` millionths. */
  function WholeText(n: nat): string {
    NatToString(n / 1000000)
  }

  /** The six digits after the point of `n` millionths. */
  function DecimalsText(n: nat): string {
    PadZeros(NatToString(n % 1000000), 6)
  }

  /**
   * What the six-decimal text denotes. With n the magnitude of x in
   * millionths rounded to the nearest: the text is the sign, the whole
   * digits, a point and the six decimals; it starts with '-' exactly when
   * x is negative; the whole digits read back to n / 10^6 and the decimals
   * to n % 10^6; and n millionths are within half a millionth of |x|.
   */
  lemma FixedSixValue(x: real)
    ensures var n := Round(Abs(x) * 1000000.0);
            FixedSix(x) == SignText(x < 0.0) + WholeText(n) + "." + DecimalsText(n)
    ensures FixedSix(x)[0] == '-' <==> x < 0.0
    ensures var n := Round(Abs(x) * 1000000.0);
            DigitsValue(WholeText(n)) == n / 1000000 && DigitsValue(DecimalsText(n)) == n % 1000000
    ensures var n := Round(Abs(x) * 1000000.0);
            -0.0000005 <= n as real / 1000000.0 - Abs(x) <= 0.0000005
  {
    var n := Round(Abs(x) * 1000000.0);
    assert IsDigit(WholeText(n)[0]);
    NatToStringRoundTrip(n / 1000000);
    DecimalsValue(n);
    WithinHalfMillionth(n, Abs(x));
  }

  /** The padded decimals read back to the remainder. */
  lemma DecimalsValue(n: nat)
    ensures DigitsValue(DecimalsText(n)) == n % 1000000
  {
    var low := NatToString(n % 1000000);
    DigitsBound(n % 1000000);
    assert DecimalsText(n) == seq(6 - |low|, _ => '0') + low;
    NatToStringRoundTrip(n % 1000000);
    DigitsValueZeros(6 - |low|, low);
  }

  /** A nearest whole number of millionths is within half a millionth. */
  lemma WithinHalfMillionth(n: nat, a: real)
    requires -0.5 <= n as real - a * 1000000.0 <= 0.5
    ensures -0.0000005 <= n as real / 1000000.0 - a <= 0.0000005
  {
  }

  /** An exact half of a millionth goes to the even neighbour: 2^-7 prints as "0.007812". */
  lemma FixedSixTieToEven()
    ensures Round(7812.5) == 7812
    ensures FixedSix(0.0078125) == "0.007812"
  {
    TieRound();
    FixedSixValue(0.0078125);
    DecimalsTie();
    assert WholeText(7812) == "0";
    assert SignText(false) + "0" + "." + "007812" == "0.007812";
  }

  lemma TieRound()
    ensures Round(7812.5) == 7812
    ensures Round(Abs(0.0078125) * 1000000.0) == 7812
  {
    assert (7812.5).Floor == 7812;
    assert Abs(0.0078125) * 1000000.0 == 7812.5;
  }

  lemma DecimalsTie()
    ensures DecimalsText(7812) == "007812"
  {
    assert NatToString(78) == "78";
    assert NatToString(781) == NatToString(78) + "1";
    assert NatToString(7812) == NatToString(781) + "2";
    assert 7812 % 1000000 == 7812;
    assert PadZeros("7812", 6) == seq(2, _ => '0') + "7812";
    assert seq(2, _ => '0') == "00";
  }

  /** A number below 10^6 has at most six digits. */
  lemma {:induction false} DigitsBound(n: nat)
    requires n < 1000000
    ensures |NatToString(n)| <= 6
  {
    if n >= 10 {
      DigitsBoundBelow(n / 10, 5);
    }
  }

  lemma {:induction false} DigitsBoundBelow(n: nat, k: nat)
    requires n < Pow10(k)
    ensures |NatToString(n)| <= if k == 0 then 1 else k
  {
    if n >= 10 {
      assert Pow10(0) == 1 && Pow10(1) == 10;
      assert Pow10(k) == 10 * Pow10(k - 1);
      DigitsBoundBelow(n / 10, k - 1);
    }
  }

  function Pow10(k: nat): nat {
    if k == 0 then 1 else 10 * Pow10(k - 1)
  }

  /**
   * The trimming in `format_float`: with a point, the trailing zeros are
   * cut, but one digit after the point is kept; without one, the text is
   * unchanged.
   */
  function TrimZeros(str: string): (r: string)
    ensures r <= str
    ensures forall i :: |r| <= i < |str| ==> str[i] == '0'
    ensures IndexOf(str, '.').None? ==> r == str
    ensures IndexOf(str, '.').Some? ==> |r| >= Min(IndexOf(str, '.').value + 2, |str|)
    ensures IndexOf(str, '.').Some? && |r| > IndexOf(str, '.').value + 2 ==> r[|r| - 1] != '0'
  {
    match IndexOf(str, '.')
    case None => str
    case Some(dot) =>
      match LastNotOf(str, '0')
      case None => str
      case Some(last) =>
        if last > dot then str[..last + 1]
        else if last == dot then Prefix(str, dot + 2)
        else str
  }

  /**
   * `format_float`: the fixed six-decimal text with its trailing zeros
   * cut, keeping the point and at least one decimal.
   */
  function FormatFloat(x: real): (r: string)
    ensures r <= FixedSix(x)
    ensures |r| >= |FixedSix(x)| - 5
    ensures |r| > |FixedSix(x)| - 5 ==> r[|r| - 1] != '0'
    ensures forall i :: |r| <= i < |FixedSix(x)| ==> FixedSix(x)[i] == '0'
  {
    var s := FixedSix(x);
    assert IndexOf(s, '.') == Some(|s| - 7);
    TrimZeros(s)
  }

  /**
   * Putting the cut zeros back gives the six-decimal text, so the trimmed
   * text denotes the same value as `FixedSix(x)` (see `FixedSixValue`).
   */
  lemma FormatFloatValue(x: real)
    ensures FormatFloat(x) + seq(|FixedSix(x)| - |FormatFloat(x)|, _ => '0') == FixedSix(x)
  {
    var s := FixedSix(x);
    var r := FormatFloat(x);
    var t := r + seq(|s| - |r|, _ => '0');
    forall i | 0 <= i < |s|
      ensures t[i] == s[i]
    {
      if i < |r| {
        assert t[i] == r[i];
      }
    }
  }

  /** The examples the dumper is written for: "1.000000" becomes "1.0", "2.500000" becomes "2.5". */
  lemma TrimZerosExamples()
    ensures TrimZeros("1.000000") == "1.0"
    ensures TrimZeros("2.500000") == "2.5"
    ensures TrimZeros("12") == "12"
  {
    var one := "1.000000";
    assert one[1] == '.' && one[0] != '.';
    assert forall k :: 2 <= k < |one| ==> one[k] == '0';
    var r := TrimZeros(one);
    assert forall k :: 0 <= k < |r| ==> r[k] == one[k];
    assert r == one[..3];
    var half := "2.500000";
    assert half[1] == '.' && half[0] != '.';
    assert forall k :: 3 <= k < |half| ==> half[k] == '0';
    var t := TrimZeros(half);
    assert forall k :: 0 <= k < |t| ==> t[k] == half[k];
    assert t == half[..3];
  }

  /** The value of a material property, one case per `Material_var` type the dumper knows. */
  datatype PropertyValue =
    | FloatVar(f: real)
    | BoolVar(b: bool)
    | Vec2Var(v2: Vec2)
    | Vec3Var(v3: Vec3)
    | Vec4Var(v4: Vec4)
    | Int32Var(i: int)
    | UInt32Var(u: nat)
    | IVec2Var(ix: int, iy: int)
    | IVec3Var(ix: int, iy: int, iz: int)
    | IVec4Var(ix: int, iy: int, iz: int, iw: int)
    | UVec2Var(ux: nat, uy: nat)
    | UVec3Var(ux: nat, uy: nat, uz: nat)
    | UVec4Var(ux: nat, uy: nat, uz: nat, uw: nat)

  /** The number of components of a value. */
  function Arity(v: PropertyValue): nat {
    match v
    case Vec2Var(_) => 2
    case IVec2Var(_, _) => 2
    case UVec2Var(_, _) => 2
    case Vec3Var(_) => 3
    case IVec3Var(_, _, _) => 3
    case UVec3Var(_, _, _) => 3
    case Vec4Var(_) => 4
    case IVec4Var(_, _, _, _) => 4
    case UVec4Var(_, _, _, _) => 4
    case _ => 1
  }

  /** Components separated by ", ". */
  function Join(parts: seq<string>): string {
    if |parts| <= 1 then (if |parts| == 0 then "" else parts[0])
    else Join(parts[..|parts| - 1]) + ", " + parts[|parts| - 1]
  }

  /** Components formatted one by one and separated by ", ". */
  function FloatsText(xs: seq<real>): string {
    Join(seq(|xs|, k requires 0 <= k < |xs| => FormatFloat(xs[k])))
  }

  function IntsText(xs: seq<int>): string {
    Join(seq(|xs|, k requires 0 <= k < |xs| => IntToString(xs[k])))
  }

  function NatsText(xs: seq<nat>): string {
    Join(seq(|xs|, k requires 0 <= k < |xs| => NatToString(xs[k])))
  }

  /** `property_to_string`: numbers formatted per component, booleans as "yes" or "no". */
  function PropertyToString(v: PropertyValue): string {
    match v
    case FloatVar(f) => FormatFloat(f)
    case BoolVar(b) => if b then "yes" else "no"
    case Vec2Var(u) => FloatsText([u.x, u.y])
    case Vec3Var(u) => FloatsText([u.x, u.y, u.z])
    case Vec4Var(u) => FloatsText([u.x, u.y, u.z, u.w])
    case Int32Var(i) => IntToString(i)
    case UInt32Var(u) => NatToString(u)
    case IVec2Var(x, y) => IntsText([x, y])
    case IVec3Var(x, y, z) => IntsText([x, y, z])
    case IVec4Var(x, y, z, w) => IntsText([x, y, z, w])
    case UVec2Var(x, y) => NatsText([x, y])
    case UVec3Var(x, y, z) => NatsText([x, y, z])
    case UVec4Var(x, y, z, w) => NatsText([x, y, z, w])
  }

  /** A boolean reads "yes" or "no", and the two are told apart. */
  lemma BoolText(b: bool)
    ensures PropertyToString(BoolVar(b)) == (if b then "yes" else "no")
    ensures PropertyToString(BoolVar(b)) != PropertyToString(BoolVar(!b))
  {
  }

  function CountChar(s: string, c: char): nat {
    if |s| == 0 then 0 else CountChar(s[..|s| - 1], c) + (if s[|s| - 1] == c then 1 else 0)
  }

  lemma {:induction false} CountCharAppend(a: string, b: string, c: char)
    ensures CountChar(a + b, c) == CountChar(a, c) + CountChar(b, c)
  {
    if |b| > 0 {
      assert (a + b)[..|a + b| - 1] == a + b[..|b| - 1];
      assert (a + b)[|a + b| - 1] == b[|b| - 1];
      CountCharAppend(a, b[..|b| - 1], c);
    } else {
      assert a + b == a;
    }
  }

  lemma {:induction false} CountCharNone(s: string, c: char)
    requires forall i :: 0 <= i < |s| ==> s[i] != c
    ensures CountChar(s, c) == 0
  {
    if |s| > 0 {
      CountCharNone(s[..|s| - 1], c);
    }
  }

  predicate NoComma(s: string) {
    forall i :: 0 <= i < |s| ==> s[i] != ','
  }

  lemma {:induction false} JoinCommas(parts: seq<string>)
    requires |parts| >= 1 && forall k :: 0 <= k < |parts| ==> NoComma(parts[k])
    ensures CountChar(Join(parts), ',') == |parts| - 1
  {
    if |parts| == 1 {
      CountCharNone(parts[0], ',');
    } else {
      var init := parts[..|parts| - 1];
      JoinCommas(init);
      CountCharAppend(Join(init) + ", ", parts[|parts| - 1], ',');
      CountCharAppend(Join(init), ", ", ',');
      CountCharNone(parts[|parts| - 1], ',');
    }
  }

  lemma FormatFloatNoComma(x: real)
    ensures NoComma(FormatFloat(x))
  {
    var s := FixedSix(x);
    var r := FormatFloat(x);
    forall i | 0 <= i < |r| ensures r[i] != ',' {
      assert r[i] == s[i];
    }
  }

  lemma IntToStringNoComma(i: int)
    ensures NoComma(IntToString(i)) && NoComma(NatToString(if i < 0 then -i else i))
  {
    var s := IntToString(i);
    forall k | 0 <= k < |s| ensures s[k] != ',' {
      if i < 0 {
        assert k == 0 || s[k] == NatToString(-i)[k - 1];
      }
    }
  }

  /** A property's text has one component per component of its value, separated by commas. */
  lemma ComponentCount(v: PropertyValue)
    ensures CountChar(PropertyToString(v), ',') == Arity(v) - 1
  {
    match v
    case FloatVar(f) => FormatFloatNoComma(f); CountCharNone(FormatFloat(f), ',');
    case BoolVar(b) => CountCharNone(if b then "yes" else "no", ',');
    case Vec2Var(u) => FloatsCommas([u.x, u.y]);
    case Vec3Var(u) => FloatsCommas([u.x, u.y, u.z]);
    case Vec4Var(u) => FloatsCommas([u.x, u.y, u.z, u.w]);
    case Int32Var(i) => IntToStringNoComma(i); CountCharNone(IntToString(i), ',');
    case UInt32Var(u) => IntToStringNoComma(u); CountCharNone(NatToString(u), ',');
    case IVec2Var(x, y) => IntsCommas([x, y]);
    case IVec3Var(x, y, z) => IntsCommas([x, y, z]);
    case IVec4Var(x, y, z, w) => IntsCommas([x, y, z, w]);
    case UVec2Var(x, y) => NatsCommas([x, y]);
    case UVec3Var(x, y, z) => NatsCommas([x, y, z]);
    case UVec4Var(x, y, z, w) => NatsCommas([x, y, z, w]);
  }

  lemma FloatsCommas(xs: seq<real>)
    requires |xs| >= 1
    ensures CountChar(FloatsText(xs), ',') == |xs| - 1
  {
    var parts := seq(|xs|, k requires 0 <= k < |xs| => FormatFloat(xs[k]));
    forall k | 0 <= k < |xs| ensures NoComma(parts[k]) {
      FormatFloatNoComma(xs[k]);
    }
    JoinCommas(parts);
  }

  lemma IntsCommas(xs: seq<int>)
    requires |xs| >= 1
    ensures CountChar(IntsText(xs), ',') == |xs| - 1
  {
    var parts := seq(|xs|, k requires 0 <= k < |xs| => IntToString(xs[k]));
    forall k | 0 <= k < |xs| ensures NoComma(parts[k]) {
      IntToStringNoComma(xs[k]);
    }
    JoinCommas(parts);
  }

  lemma NatsCommas(xs: seq<nat>)
    requires |xs| >= 1
    ensures CountChar(NatsText(xs), ',') == |xs| - 1
  {
    var parts := seq(|xs|, k requires 0 <= k < |xs| => NatToString(xs[k]));
    forall k | 0 <= k < |xs| ensures NoComma(parts[k]) {
      IntToStringNoComma(xs[k]);
    }
    JoinCommas(parts);
  }

  /** The characters a file name may not hold. */
  predicate Reserved(c: char) {
    c == '/' || c == '\\' || c == ':' || c == '*' || c == '?' || c == '"' || c == '<' || c == '>' || c == '|'
  }

  /** A character of a file name: '_' for a reserved one. */
  function SanitisedChar(c: char): (r: char)
    ensures !Reserved(r)
    ensures !Reserved(c) ==> r == c
  {
    if Reserved(c) then '_' else c
  }

  /** What the sanitisation makes of a name. */
  function SanitisedName(name: string): (r: string)
    ensures |r| == |name| && forall i :: 0 <= i < |r| ==> !Reserved(r[i])
  {
    seq(|name|, i requires 0 <= i < |name| => SanitisedChar(name[i]))
  }

  /**
   * The sanitisation in `dump_material_to_mtrl`: every reserved character
   * of the material name becomes '_', every other stays.
   */
  method SanitiseFilename(name: string) returns (filename: string)
    ensures |filename| == |name|
    ensures forall i :: 0 <= i < |name| ==> filename[i] == (if Reserved(name[i]) then '_' else name[i])
    ensures forall i :: 0 <= i < |filename| ==> !Reserved(filename[i])
    ensures filename == SanitisedName(name)
  {
    filename := name;
    for i := 0 to |filename|
      invariant |filename| == |name|
      invariant forall j :: 0 <= j < i ==> filename[j] == (if Reserved(name[j]) then '_' else name[j])
      invariant forall j :: i <= j < |name| ==> filename[j] == name[j]
    {
      if Reserved(filename[i]) {
        filename := filename[i := '_'];
      }
    }
  }
}
