/**
 * The slice of the PHP runtime and of the Bitrix library that the Epayment
 * handler leans on: decoded JSON values, fixed-point prices and their
 * rounding, the string-to-integer cast, str_pad, and the library calls the
 * handler makes but does not implement (JSON, parse_str, message lookup),
 * which the model takes as parameters.
 */
module Platform {
  import opened Wrappers

  // ---------------------------------------------------------------------
  // Values

  /** The decimal number `digits / 10^scale`, as a JSON number or a price is written. */
  datatype Decimal = Decimal(digits: int, scale: nat)

  /**
   * A value produced by `Json::decode` with associative arrays. JSON arrays
   * and objects both become PHP arrays; numbers keep their decimal form.
   */
  datatype Value =
    | Null
    | Bool(b: bool)
    | Number(n: Decimal)
    | Str(s: string)
    | List(items: seq<Value>)
    | Object(fields: map<string, Value>)

  /** `$array[$key]`: a missing key reads as null. */
  function Get(m: map<string, Value>, key: string): Value {
    if key in m then m[key] else Null
  }

  /** `$array[$key]` on the string array parse_str produces: null or the string. */
  function Lookup(m: map<string, string>, key: string): Option<string> {
    if key in m then Some(m[key]) else None
  }

  /** A business value (a string, or null when it is not configured) as an array element. */
  function Setting(v: Option<string>): Value {
    match v
    case Some(s) => Str(s)
    case None => Null
  }

  /** PHP truthiness of a string: the empty string and "0" are false. */
  predicate IsTruthy(s: string) {
    s != "" && s != "0"
  }

  // ---------------------------------------------------------------------
  // Library calls taken as parameters

  /**
   * The library calls the handler uses without implementing them.
   * `decode` is `Main\Web\Json::decode` as the handler's `decode` wraps it:
   * None where the library throws, and also for the JSON literal `false`,
   * which the handler cannot tell apart from a failure. `parseQuery` is
   * `parse_str` applied to an array element. `encode` is
   * `Main\Web\Json::encode` applied to a response body.
   */
  datatype Codec = Codec(
    decode: string -> Option<map<string, Value>>,
    parseQuery: Value -> map<string, string>,
    encode: string -> string)

  /** What the real library calls do on empty input: "" does not decode, and parse_str(null) yields no keys. */
  predicate Sound(codec: Codec) {
    codec.decode("") == None && codec.parseQuery(Null) == map[]
  }

  /** The localized texts `Loc::getMessage` returns, with their placeholders filled in. */
  datatype Messages = Messages(
    transaction: (Value, Option<string>) -> string,  // SALE_HPS_EPAYMENT_TRANSACTION (#ID#, #PAYMENT_NUMBER#)
    sumError: string,                                 // SALE_HPS_EPAYMENT_ERROR_SUM
    queryError: string,                               // SALE_HPS_EPAYMENT_CHECKOUT_ERROR_QUERY
    httpStatus: int -> string)                        // SALE_HPS_EPAYMENT_ERROR_HTTP_STATUS (#STATUS_CODE#)

  // ---------------------------------------------------------------------
  // Digits and integer text

  const IntMin: int := -0x8000_0000_0000_0000
  const IntMax: int := 0x7FFF_FFFF_FFFF_FFFF

  predicate IsDigit(c: char) {
    '0' <= c <= '9'
  }

  predicate AllDigits(s: string) {
    forall i :: 0 <= i < |s| ==> IsDigit(s[i])
  }

  /** The white space PHP skips in front of a numeric string. */
  predicate IsSpace(c: char) {
    c == ' ' || c == '\t' || c == '\n' || c == '\r' || c as int == 11 || c as int == 12
  }

  function DigitValue(c: char): nat
    requires IsDigit(c)
  {
    c as int - '0' as int
  }

  function DigitChar(d: nat): (c: char)
    requires d < 10
    ensures IsDigit(c) && DigitValue(c) == d
  {
    (d + '0' as int) as char
  }

  /** The number a run of decimal digits denotes. */
  function DigitsValue(ds: string): nat
    requires AllDigits(ds)
  {
    if ds == [] then 0 else 10 * DigitsValue(ds[..|ds| - 1]) + DigitValue(ds[|ds| - 1])
  }

  /** The longest prefix of `s` made of digits. */
  function LeadingDigits(s: string): (r: string)
    ensures |r| <= |s| && r == s[..|r|]
    ensures AllDigits(r)
    ensures |r| < |s| ==> !IsDigit(s[|r|])
  {
    if s != [] && IsDigit(s[0]) then [s[0]] + LeadingDigits(s[1..]) else []
  }

  /** `s` without its leading white space. */
  function TrimSpace(s: string): (r: string)
    ensures r != [] ==> !IsSpace(r[0])
  {
    if s != [] && IsSpace(s[0]) then TrimSpace(s[1..]) else s
  }

  /** A 64-bit PHP integer: values out of range stick at the nearest bound. */
  function Saturate(x: int): (r: int)
    ensures IntMin <= r <= IntMax
    ensures IntMin <= x <= IntMax ==> r == x
  {
    if x < IntMin then IntMin else if x > IntMax then IntMax else x
  }

  /**
   * `(int) $s`: leading white space is skipped, an optional sign is read,
   * then the leading digits; anything after them is ignored, a string with
   * no digits gives 0, and values beyond 64 bits saturate.
   */
  function IntCast(s: string): (r: int)
    ensures IntMin <= r <= IntMax
  {
    var t := TrimSpace(s);
    if t != [] && (t[0] == '-' || t[0] == '+') then
      var magnitude: int := DigitsValue(LeadingDigits(t[1..]));
      Saturate(if t[0] == '-' then -magnitude else magnitude)
    else
      Saturate(DigitsValue(LeadingDigits(t)))
  }

  /** The decimal text of a natural number, without leading zeros. */
  function NatText(n: nat): (r: string)
    ensures r != [] && AllDigits(r)
  {
    if n < 10 then [DigitChar(n)] else NatText(n / 10) + [DigitChar(n % 10)]
  }

  /** How PHP writes an integer as a string. */
  function IntText(n: int): string {
    if n < 0 then "-" + NatText(-n) else NatText(n)
  }

  function Zeros(k: nat): (z: string)
    ensures |z| == k && AllDigits(z)
  {
    seq(k, _ => '0')
  }

  function Pow10(k: nat): (r: nat)
    ensures r > 0
  {
    if k == 0 then 1 else 10 * Pow10(k - 1)
  }

  lemma {:induction false} AllDigitsAreLeading(s: string)
    requires AllDigits(s)
    ensures LeadingDigits(s) == s
    ensures TrimSpace(s) == s
  {
    if s != [] {
      AllDigitsAreLeading(s[1..]);
    }
  }

  /** Appending a digit multiplies the value by ten and adds the digit. */
  lemma DigitsValueSnoc(ds: string, c: char)
    requires AllDigits(ds) && IsDigit(c)
    ensures AllDigits(ds + [c])
    ensures DigitsValue(ds + [c]) == 10 * DigitsValue(ds) + DigitValue(c)
  {
    assert (ds + [c])[..|ds|] == ds;
  }

  /** Reading back the text of a natural number gives the number. */
  lemma {:induction false} NatTextValue(n: nat)
    ensures DigitsValue(NatText(n)) == n
  {
    if n >= 10 {
      NatTextValue(n / 10);
      DigitsValueSnoc(NatText(n / 10), DigitChar(n % 10));
    }
  }

  /** The text of `n` has at most `k` digits exactly when `n < 10^k`. */
  lemma {:induction false} NatTextLength(n: nat, k: nat)
    requires k > 0
    ensures |NatText(n)| <= k <==> n < Pow10(k)
  {
    Pow10AtLeastTen(k);
    if n >= 10 {
      if k > 1 {
        NatTextLength(n / 10, k - 1);
      } else {
        assert |NatText(n)| == |NatText(n / 10)| + 1;
      }
    }
  }

  lemma {:induction false} Pow10AtLeastTen(k: nat)
    requires k > 0
    ensures Pow10(k) >= 10
  {
    if k > 1 {
      Pow10AtLeastTen(k - 1);
    }
  }

  /** Leading zeros do not change the value of a digit string. */
  lemma {:induction false} LeadingZerosValue(k: nat, ds: string)
    requires AllDigits(ds)
    ensures AllDigits(Zeros(k) + ds)
    ensures DigitsValue(Zeros(k) + ds) == DigitsValue(ds)
  {
    var z := Zeros(k);
    if ds == [] {
      assert z + ds == z;
      ZerosValue(k);
    } else {
      var init, last := ds[..|ds| - 1], ds[|ds| - 1];
      assert ds == init + [last];
      assert z + ds == (z + init) + [last];
      LeadingZerosValue(k, init);
      DigitsValueSnoc(z + init, last);
      DigitsValueSnoc(init, last);
    }
  }

  lemma {:induction false} ZerosValue(k: nat)
    ensures DigitsValue(Zeros(k)) == 0
  {
    if k > 0 {
      assert Zeros(k)[..k - 1] == Zeros(k - 1);
      ZerosValue(k - 1);
    }
  }

  /** The integer cast of a digit string is its value, up to the 64-bit bound. */
  lemma IntCastOfDigits(s: string)
    requires AllDigits(s)
    ensures IntCast(s) == Saturate(DigitsValue(s))
  {
    AllDigitsAreLeading(s);
    if s != [] {
      assert IsDigit(s[0]);
    }
  }

  /** The integer cast reads back every 64-bit integer from its text. */
  lemma IntCastOfIntText(n: int)
    requires IntMin <= n <= IntMax
    ensures IntCast(IntText(n)) == n
  {
    if n < 0 {
      var t := NatText(-n);
      var s := "-" + t;
      assert s[0] == '-' && s[1..] == t;
      assert !IsSpace(s[0]);
      assert TrimSpace(s) == s;
      AllDigitsAreLeading(t);
      NatTextValue(-n);
      var v: int := DigitsValue(t);
      assert IntCast(s) == Saturate(-v);
    } else {
      IntCastOfDigits(NatText(n));
      NatTextValue(n);
    }
  }

  /** The integer cast reads back a natural number from its text however many zeros precede it. */
  lemma IntCastOfPaddedText(k: nat, n: nat)
    requires n <= IntMax
    ensures IntCast(Zeros(k) + NatText(n)) == n
  {
    LeadingZerosValue(k, NatText(n));
    NatTextValue(n);
    IntCastOfDigits(Zeros(k) + NatText(n));
  }

  // ---------------------------------------------------------------------
  // str_pad

  /** `str_pad($s, $length, $pad, STR_PAD_LEFT)` with a one-character pad: it lengthens, never truncates. */
  function StrPadLeft(s: string, length: nat, pad: char): (r: string)
    ensures |r| == if |s| < length then length else |s|
    ensures r[|r| - |s|..] == s
    ensures forall i :: 0 <= i < |r| - |s| ==> r[i] == pad
  {
    if |s| >= length then s else seq(length - |s|, _ => pad) + s
  }

  // ---------------------------------------------------------------------
  // Prices

  /** The leading decimal number of a string, as `(float) $s` reads it; 0 when there is none. */
  function LeadingDecimal(s: string): Decimal {
    var t := TrimSpace(s);
    if t != [] && t[0] == '-' then
      var d := UnsignedDecimal(t[1..]);
      Decimal(-d.digits, d.scale)
    else if t != [] && t[0] == '+' then UnsignedDecimal(t[1..])
    else UnsignedDecimal(t)
  }

  /** Digits, optionally followed by a point and more digits, at the start of `u`. */
  function UnsignedDecimal(u: string): (d: Decimal)
    ensures d.digits >= 0
  {
    var whole := LeadingDigits(u);
    var fraction := FractionDigits(u[|whole|..]);
    Decimal(DigitsValue(whole + fraction), |fraction|)
  }

  /** The digits after a leading decimal point. */
  function FractionDigits(rest: string): (f: string)
    ensures AllDigits(f)
  {
    if rest != [] && rest[0] == '.' then LeadingDigits(rest[1..]) else []
  }

  /** The leading digits stop at the first character that is not a digit. */
  lemma {:induction false} LeadingDigitsStop(ds: string, rest: string)
    requires AllDigits(ds)
    requires rest == [] || !IsDigit(rest[0])
    ensures LeadingDigits(ds + rest) == ds
  {
    if ds != [] {
      assert (ds + rest)[1..] == ds[1..] + rest;
      LeadingDigitsStop(ds[1..], rest);
    } else {
      assert ds + rest == rest;
    }
  }

  /** A plain decimal such as "1500.00" reads as its digits over ten to the number of its decimals. */
  lemma LeadingDecimalOfPlain(whole: string, fraction: string)
    requires whole != [] && AllDigits(whole) && AllDigits(fraction)
    ensures AllDigits(whole + fraction)
    ensures LeadingDecimal(whole + "." + fraction) == Decimal(DigitsValue(whole + fraction), |fraction|)
  {
    var s := whole + ("." + fraction);
    assert whole + "." + fraction == s;
    UnsignedIsLeading(s);
    UnsignedOfPlain(whole, "." + fraction, fraction);
  }

  lemma UnsignedIsLeading(s: string)
    requires s != [] && IsDigit(s[0])
    ensures LeadingDecimal(s) == UnsignedDecimal(s)
  {
    assert TrimSpace(s) == s;
  }

  lemma UnsignedOfPlain(whole: string, rest: string, fraction: string)
    requires AllDigits(whole) && AllDigits(fraction) && rest == "." + fraction
    ensures AllDigits(whole + fraction)
    ensures UnsignedDecimal(whole + rest) == Decimal(DigitsValue(whole + fraction), |fraction|)
  {
    LeadingDigitsStop(whole, rest);
    assert (whole + rest)[|whole|..] == rest;
    assert rest[1..] == fraction;
    AllDigitsAreLeading(fraction);
  }

  /** The number a decoded value stands for when a float is expected. */
  function FloatOf(v: Value): Decimal {
    match v
    case Null => Decimal(0, 0)
    case Bool(b) => Decimal(if b then 1 else 0, 0)
    case Number(d) => d
    case Str(s) => LeadingDecimal(s)
    case List(items) => Decimal(if items == [] then 0 else 1, 0)
    case Object(fields) => Decimal(if fields == map[] then 0 else 1, 0)
  }

  function Abs(x: int): nat {
    if x < 0 then -x else x
  }

  /**
   * `PriceMaths::roundPrecision` at two decimal places, in hundredths,
   * taken to be exact rounding to the nearest hundredth with halves rounded
   * away from zero (the library itself is not part of this model).
   */
  function RoundPrecision(d: Decimal): int {
    if d.scale <= 2 then
      d.digits * Pow10(2 - d.scale)
    else
      var q := Pow10(d.scale - 2);
      if d.digits >= 0 then (2 * d.digits + q) / (2 * q)
      else -((2 * -d.digits + q) / (2 * q))
  }

  lemma {:induction false} Pow10Add(a: nat, b: nat)
    ensures Pow10(a + b) == Pow10(a) * Pow10(b)
  {
    if a > 0 {
      Pow10Add(a - 1, b);
      assert Pow10(a + b) == 10 * Pow10(a - 1 + b);
    }
  }

  /** The rounded price is within half a hundredth of the number. */
  lemma RoundPrecisionNearest(d: Decimal)
    ensures 2 * Abs(100 * d.digits - RoundPrecision(d) * Pow10(d.scale)) <= Pow10(d.scale)
  {
    if d.scale <= 2 {
      var p := Pow10(2 - d.scale);
      Pow10Add(2 - d.scale, d.scale);
      assert Pow10(2) == 100;
      MulAssoc(d.digits, p, Pow10(d.scale));
    } else {
      var q := Pow10(d.scale - 2);
      Pow10Add(d.scale - 2, 2);
      assert Pow10(2) == 100;
      RoundedGap(d.digits, q);
    }
  }

  lemma MulAssoc(x: int, y: int, z: int)
    ensures (x * y) * z == x * (y * z)
  {
  }

  /** With `q = 10^(scale - 2)`, the half-up quotient is within half a unit of `digits / q`. */
  lemma RoundedGap(digits: int, q: nat)
    requires q > 0
    ensures var a := Abs(digits);
            var m := (2 * a + q) / (2 * q);
            var r := if digits >= 0 then m else -m;
            2 * Abs(100 * digits - r * (q * 100)) <= q * 100
  {
    var a := Abs(digits);
    var m := (2 * a + q) / (2 * q);
    HalfUpNearest(a, q);
    var gap := a - q * m;
    if digits >= 0 {
      assert 100 * digits - m * (q * 100) == 100 * gap;
    } else {
      assert 100 * digits - (-m) * (q * 100) == -100 * gap;
    }
  }

  /** Rounding `a / q` half up lands within half of one unit. */
  lemma HalfUpNearest(a: nat, q: nat)
    requires q > 0
    ensures 2 * Abs(a - q * ((2 * a + q) / (2 * q))) <= q
  {
    var m := (2 * a + q) / (2 * q);
    DivBounds(2 * a + q, 2 * q);
    assert 2 * q * m == 2 * (q * m);
  }

  lemma DivBounds(x: int, y: int)
    requires y > 0
    ensures y * (x / y) <= x < y * (x / y) + y
  {
  }

  /** Trailing zeros after the point do not change the rounded price: "1500.0" and "1500.00" round alike. */
  lemma {:induction false} RoundPrecisionTrailingZeros(d: Decimal, k: nat)
    ensures RoundPrecision(Decimal(d.digits * Pow10(k), d.scale + k)) == RoundPrecision(d)
  {
    if k > 0 {
      var e := Decimal(d.digits * Pow10(k - 1), d.scale + k - 1);
      RoundPrecisionTrailingZeros(d, k - 1);
      assert d.digits * Pow10(k) == e.digits * 10;
      RoundPrecisionOneZero(e);
    }
  }

  lemma RoundPrecisionOneZero(d: Decimal)
    ensures RoundPrecision(Decimal(d.digits * 10, d.scale + 1)) == RoundPrecision(d)
  {
    var e := Decimal(d.digits * 10, d.scale + 1);
    var a := Abs(d.digits);
    if e.scale <= 2 {
      assert Pow10(2 - d.scale) == 10 * Pow10(2 - e.scale);
    } else if d.scale == 2 {
      assert Pow10(e.scale - 2) == 10;
      assert (2 * (10 * a) + 10) / 20 == a;
    } else {
      var q := Pow10(d.scale - 2);
      assert Pow10(e.scale - 2) == 10 * q;
      assert 2 * (10 * a) + 10 * q == 10 * (2 * a + q);
      DivCancel(2 * a + q, 2 * q, 10);
    }
  }

  lemma DivCancel(x: nat, y: nat, k: nat)
    requires y > 0 && k > 0
    ensures (k * x) / (k * y) == x / y
  {
    var m := x / y;
    DivBounds(x, y);
    assert k * y * m <= k * x < k * y * m + k * y;
    DivUnique(k * x, k * y, m);
  }

  lemma DivUnique(x: int, y: int, m: int)
    requires y > 0
    requires y * m <= x < y * m + y
    ensures x / y == m
  {
    var r := x / y;
    DivBounds(x, y);
    if r > m {
      assert y * r == y * m + y * (r - m);
      MulAtLeast(y, r - m);
    } else if r < m {
      assert y * m == y * r + y * (m - r);
      MulAtLeast(y, m - r);
    }
  }

  lemma MulAtLeast(y: int, d: int)
    requires y > 0 && d >= 1
    ensures y * d >= y
  {
  }

  /** `(int)` of a price given in hundredths: the whole units, truncated toward zero. */
  function IntOfPrice(h: int): (r: int)
    ensures 0 <= h ==> 0 <= r && 100 * r <= h < 100 * r + 100
    ensures h < 0 ==> r <= 0 && 100 * r - 100 < h <= 100 * r
  {
    if h >= 0 then h / 100 else -((-h) / 100)
  }
}
