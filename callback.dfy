/**
 * The processor's result notification: `processRequest`, which decides
 * whether the money counts as received, the amount check it relies on,
 * and the two helpers the order subsystem uses to route a notification to
 * its pay system and payment (`isMyResponse`, `getPaymentIdFromRequest`).
 * The raw body is `php://input`, read as a parameter.
 */
module Callback {
  import opened Wrappers
  import opened Platform
  import opened ServiceResults
  import Initiation

  /** `PAYMENT_STATUS_SUCCEEDED`: the only `code` that means the payment went through. */
  const Succeeded: string := "ok"

  /** The status code every "ok" notification reports, whatever its reasonCode. */
  const FixedStatusCode: int := 2

  /** `parse_str($response['data'], $data)`: the tracking fields embedded in the notification. */
  function Tracking(codec: Codec, response: map<string, Value>): map<string, string> {
    codec.parseQuery(Get(response, "data"))
  }

  /** `$response["code"] === "ok"`: strict, so only the string "ok" qualifies. */
  predicate IsSucceeded(response: map<string, Value>) {
    Get(response, "code") == Str(Succeeded)
  }

  /** `isSumCorrect`: both amounts rounded to hundredths alike, then compared exactly. */
  predicate IsSumCorrect(paymentSum: Decimal, amount: Value)
    // an amount that reads as the payment sum itself, string or number, always passes
    ensures FloatOf(amount) == paymentSum ==> IsSumCorrect(paymentSum, amount)
  {
    RoundPrecision(FloatOf(amount)) == RoundPrecision(paymentSum)
  }

  /** The amount check does not care how many zeros follow the point. */
  lemma SumCheckIgnoresTrailingZeros(paymentSum: Decimal, amount: Decimal, k: nat)
    ensures IsSumCorrect(paymentSum, Number(Decimal(amount.digits * Pow10(k), amount.scale + k)))
            == IsSumCorrect(paymentSum, Number(amount))
  {
    RoundPrecisionTrailingZeros(amount, k);
  }

  /**
   * The exact acceptance window: for a payment of `c` hundredths, a
   * non-negative amount passes iff it lies in [c - 1/2, c + 1/2) hundredths.
   */
  lemma SumCheckWindow(c: int, amount: Decimal)
    requires amount.digits >= 0
    ensures var p := Pow10(amount.scale);
            IsSumCorrect(Decimal(c, 2), Number(amount))
            <==> (2 * c - 1) * p <= 200 * amount.digits < (2 * c + 1) * p
  {
    var d, p := amount.digits, Pow10(amount.scale);
    assert RoundPrecision(Decimal(c, 2)) == c;
    assert Pow10(2) == 100;
    if amount.scale <= 2 {
      var m := Pow10(2 - amount.scale);
      Pow10Add(2 - amount.scale, amount.scale);
      assert m * p == 100;
      MulAssoc(d, m, p);
      assert 200 * d == 2 * (d * m) * p;
      DoubledWindow(d * m, c, p);
    } else {
      var q := Pow10(amount.scale - 2);
      Pow10Add(amount.scale - 2, 2);
      assert p == q * 100;
      HalfUpWindow(d, q, c);
      WindowInHundredths(c, q, p);
    }
  }

  /** `2r` lies in [2c - 1, 2c + 1), scaled by `p`, exactly when `r` is `c`. */
  lemma DoubledWindow(r: int, c: int, p: nat)
    requires p > 0
    ensures (2 * c - 1) * p <= 2 * r * p < (2 * c + 1) * p <==> r == c
  {
    if r > c {
      MulSub(2 * r, 2 * c + 1, p);
      MulAtLeast(p, 2 * r - (2 * c + 1));
    } else if r < c {
      MulSub(2 * c - 1, 2 * r, p);
      MulAtLeast(p, 2 * c - 1 - 2 * r);
    }
  }

  /** Half-up rounding of `d / q` gives `c` exactly when `d` is within half a unit below or above `c * q`. */
  lemma HalfUpWindow(d: int, q: nat, c: int)
    requires d >= 0 && q > 0
    ensures (2 * d + q) / (2 * q) == c <==> 2 * q * c <= 2 * d + q < 2 * q * c + 2 * q
  {
    DivBounds(2 * d + q, 2 * q);
    if 2 * q * c <= 2 * d + q < 2 * q * c + 2 * q {
      DivUnique(2 * d + q, 2 * q, c);
    }
  }

  /** The half-up window in units of `q`, rewritten in units of `p = 100 q`. */
  lemma WindowInHundredths(c: int, q: nat, p: nat)
    requires p == q * 100
    ensures (2 * c - 1) * p == 100 * (2 * q * c - q)
    ensures (2 * c + 1) * p == 100 * (2 * q * c + q)
  {
  }

  /** Any amount that passes is within one hundredth of the payment sum, whichever way both were rounded. */
  lemma SumCheckIsTight(paymentSum: Decimal, amount: Decimal)
    requires IsSumCorrect(paymentSum, Number(amount))
    ensures var p, a := Pow10(paymentSum.scale), Pow10(amount.scale);
            Abs(100 * amount.digits * p - 100 * paymentSum.digits * a) <= a * p
  {
    var r := RoundPrecision(amount);
    RoundPrecisionNearest(amount);
    RoundPrecisionNearest(paymentSum);
    SharedRounding(amount.digits, paymentSum.digits, r, Pow10(amount.scale), Pow10(paymentSum.scale));
  }

  /** Two numbers `u / a` and `v / p` rounding to the same hundredths `r` lie within a hundredth of each other. */
  lemma SharedRounding(u: int, v: int, r: int, a: nat, p: nat)
    requires 2 * Abs(100 * u - r * a) <= a && 2 * Abs(100 * v - r * p) <= p
    ensures Abs(100 * u * p - 100 * v * a) <= a * p
  {
    var x, y := 100 * u - r * a, 100 * v - r * p;
    ScaledGap(x, y, a, p);
    MulSub(100 * u, r * a, p);
    MulSub(100 * v, r * p, a);
    assert r * a * p == r * p * a by { MulAssoc3(r, a, p); }
    assert x * p - y * a == 100 * u * p - 100 * v * a;
  }

  lemma ScaledGap(x: int, y: int, a: nat, p: nat)
    requires 2 * Abs(x) <= a && 2 * Abs(y) <= p
    ensures Abs(x * p - y * a) <= a * p
  {
    var m := a * p;
    AbsMul(x, p);
    TwiceMulLe(Abs(x), a, p);
    AbsMul(y, a);
    TwiceMulLe(Abs(y), p, a);
    MulComm(p, a);
    HalfGaps(x * p, y * a, m);
  }

  lemma HalfGaps(s: int, t: int, m: int)
    requires 2 * Abs(s) <= m && 2 * Abs(t) <= m
    ensures Abs(s - t) <= m
  {
  }

  lemma MulSub(s: int, t: int, k: int)
    ensures (s - t) * k == s * k - t * k
  {
  }

  lemma MulAssoc3(r: int, a: int, p: int)
    ensures r * a * p == r * p * a
  {
  }

  lemma AbsMul(x: int, k: nat)
    ensures Abs(x * k) == Abs(x) * k
  {
  }

  lemma TwiceMulLe(u: nat, v: nat, k: nat)
    requires 2 * u <= v
    ensures 2 * (u * k) <= v * k
  {
  }

  lemma MulComm(s: int, t: int)
    ensures s * t == t * s
  {
  }

  /**
   * The result `processRequest` is evidently meant to give for the body
   * `body` of a notification about a payment of `paymentSum`, with
   * PS_CHANGE_STATUS_PAY set to `changeStatusPay`, at time `now`.
   */
  function Classify(body: string, paymentSum: Decimal, changeStatusPay: Option<string>, now: int, codec: Codec, msgs: Messages)
    : (o: Outcome<map<string, Value>>)
    ensures o.data == NoData
    // a body that does not decode: one generic error and nothing else
    ensures codec.decode(body).None? ==> o == Failed([msgs.queryError], NoData)
    // a well-formed notification that is not "ok": a successful, empty result
    ensures codec.decode(body).Some? && !IsSucceeded(codec.decode(body).value) ==> o == Started(NoData)
    // an "ok" notification: PS data always, with the processor's fields verbatim and status code 2
    ensures codec.decode(body).Some? && IsSucceeded(codec.decode(body).value) ==>
              var response := codec.decode(body).value;
              var description := msgs.transaction(Get(response, "id"), Lookup(Tracking(codec, response), "BX_PAYMENT_NUMBER"));
              && o.psData.Some?
              && o.psData.value.invoiceId == Get(response, "invoiceId")
              && o.psData.value.sum == Get(response, "amount")
              && o.psData.value.currency == Get(response, "currency")
              && o.psData.value.statusCode == FixedStatusCode
              && o.psData.value.responseDate == now
              && (if IsSumCorrect(paymentSum, Get(response, "amount")) then
                    && o.psData.value.status == "Y"
                    && o.psData.value.description == description
                    && o.errors == []
                    && (o.operation == Some(MoneyComing) <==> changeStatusPay == Some("Y"))
                  else
                    && o.psData.value.status == "N"
                    && o.psData.value.description == description + " " + msgs.sumError
                    && o.errors == [msgs.sumError]
                    && o.operation == None)
  {
    match codec.decode(body)
    case None => Failed([msgs.queryError], NoData)
    case Some(response) =>
      if !IsSucceeded(response) then Started(NoData)
      else
        var description := msgs.transaction(Get(response, "id"), Lookup(Tracking(codec, response), "BX_PAYMENT_NUMBER"));
        var fields := PsFields(Get(response, "invoiceId"), FixedStatusCode, description, Get(response, "amount"), "N", Get(response, "currency"), now);
        if IsSumCorrect(paymentSum, Get(response, "amount")) then
          Outcome([], NoData, Some(fields.(status := "Y")),
                  if changeStatusPay == Some("Y") then Some(MoneyComing) else None)
        else
          Outcome([msgs.sumError], NoData, Some(fields.(description := description + " " + msgs.sumError)), None)
  }

  /**
   * The decision that matters: the order subsystem is told the money came
   * exactly when the body decodes, its code is "ok", the amount matches and
   * PS_CHANGE_STATUS_PAY is "Y"; the PS data says "Y" exactly when the first
   * three hold; and a result that announces money is always a success.
   */
  lemma MoneyComingExactly(body: string, paymentSum: Decimal, changeStatusPay: Option<string>, now: int, codec: Codec, msgs: Messages)
    ensures var o := Classify(body, paymentSum, changeStatusPay, now, codec, msgs);
            var confirmed := codec.decode(body).Some?
                             && IsSucceeded(codec.decode(body).value)
                             && IsSumCorrect(paymentSum, Get(codec.decode(body).value, "amount"));
            && (o.operation == Some(MoneyComing) <==> confirmed && changeStatusPay == Some("Y"))
            && (o.psData.Some? && o.psData.value.status == "Y" <==> confirmed)
            && (o.operation.Some? ==> o.IsSuccess() && o.psData.Some?)
            && (o.psData.Some? <==> codec.decode(body).Some? && IsSucceeded(codec.decode(body).value))
  {
  }

  /**
   * `parse_str` takes a string: a `data` entry that decoded to a JSON array
   * or object makes it raise a TypeError (scalars and null are coerced).
   */
  predicate RejectedByParseStr(v: Value) {
    v.List? || v.Object?
  }

  /**
   * `processRequest` as written. A `data` entry that `parse_str` rejects
   * raises before anything else; a body that does not decode builds its
   * error from `Localization\Loc`, which does not resolve in the handler's
   * namespace, so PHP raises "class not found" instead of returning.
   */
  function ClassifyAsWritten(body: string, paymentSum: Decimal, changeStatusPay: Option<string>, now: int, codec: Codec, msgs: Messages)
    : (c: Completion<map<string, Value>>)
    ensures c.Raised? <==> codec.decode(body).None? || RejectedByParseStr(Get(codec.decode(body).value, "data"))
    ensures c.Returned? ==> c.outcome == Classify(body, paymentSum, changeStatusPay, now, codec, msgs)
  {
    if codec.decode(body).None? then Raised("Error: Class 'Sale\\Handlers\\PaySystem\\Localization\\Loc' not found")
    else if RejectedByParseStr(Get(codec.decode(body).value, "data")) then
      Raised("TypeError: parse_str(): Argument #1 ($string) must be of type string, array given")
    else Returned(Classify(body, paymentSum, changeStatusPay, now, codec, msgs))
  }

  /** `processRequest`: fills in a new result from the notification body. */
  method ProcessRequest(body: string, paymentSum: Decimal, changeStatusPay: Option<string>, now: int, codec: Codec, msgs: Messages)
    returns (result: ServiceResult<map<string, Value>>)
    ensures fresh(result)
    ensures result.Snapshot() == Classify(body, paymentSum, changeStatusPay, now, codec, msgs)
  {
    result := new ServiceResult(NoData);
    var decoded := codec.decode(body);
    if decoded.None? {
      result.AddError(msgs.queryError);
      return;
    }
    var response := decoded.value;
    var data := Tracking(codec, response);
    if Get(response, "code") == Str(Succeeded) {
      var description := msgs.transaction(Get(response, "id"), Lookup(data, "BX_PAYMENT_NUMBER"));
      var fields := PsFields(Get(response, "invoiceId"), FixedStatusCode, description, Get(response, "amount"), "N", Get(response, "currency"), now);
      if IsSumCorrect(paymentSum, Get(response, "amount")) {
        fields := fields.(status := "Y");
        if changeStatusPay == Some("Y") {
          result.SetOperationType(MoneyComing);
        }
      } else {
        var error := msgs.sumError;
        fields := fields.(description := fields.description + " " + error);
        result.AddError(error);
      }
      result.SetPsData(fields);
    }
  }

  // ---------------------------------------------------------------------
  // Routing a notification

  /**
   * `isMyResponse`: the body is truthy, decodes, and its tracking data has a
   * BX_PAYSYSTEM_CODE whose integer cast is the given pay-system id.
   */
  predicate IsMyResponse(body: string, paySystemId: int, codec: Codec)
    // the cast saturates, so only ids within the 64-bit range can ever be claimed
    ensures IsMyResponse(body, paySystemId, codec) ==> IntMin <= paySystemId <= IntMax
  {
    if !IsTruthy(body) then false
    else
      match codec.decode(body)
      case None => false
      case Some(response) =>
        var data := Tracking(codec, response);
        "BX_PAYSYSTEM_CODE" in data && IntCast(data["BX_PAYSYSTEM_CODE"]) == paySystemId
  }

  /** What `getPaymentIdFromRequest` returns: false, null for a missing key, or the payment number. */
  datatype PaymentRef = NotReadable | NoNumber | PaymentNumber(number: string)

  /** `getPaymentIdFromRequest`: the BX_PAYMENT_NUMBER of the tracking data. */
  function PaymentIdFromRequest(body: string, codec: Codec): (r: PaymentRef)
    ensures r.NotReadable? <==> !IsTruthy(body) || codec.decode(body).None?
    ensures r.PaymentNumber? ==>
              "BX_PAYMENT_NUMBER" in Tracking(codec, codec.decode(body).value)
              && Tracking(codec, codec.decode(body).value)["BX_PAYMENT_NUMBER"] == r.number
    ensures r.NoNumber? ==> "BX_PAYMENT_NUMBER" !in Tracking(codec, codec.decode(body).value)
  {
    if !IsTruthy(body) then NotReadable
    else
      match codec.decode(body)
      case None => NotReadable
      case Some(response) =>
        var data := Tracking(codec, response);
        if "BX_PAYMENT_NUMBER" in data then PaymentNumber(data["BX_PAYMENT_NUMBER"]) else NoNumber
  }

  /**
   * A body is claimed by at most one pay-system id, never when it is falsy
   * or does not decode, and never by an id other than its tracking code's
   * integer cast.
   */
  lemma IsMyResponseSingleOwner(body: string, id1: int, id2: int, codec: Codec)
    ensures IsMyResponse(body, id1, codec) && IsMyResponse(body, id2, codec) ==> id1 == id2
    ensures !IsTruthy(body) || codec.decode(body).None? ==> !IsMyResponse(body, id1, codec)
    ensures codec.decode(body).Some? && "BX_PAYSYSTEM_CODE" in Tracking(codec, codec.decode(body).value)
            && IntCast(Tracking(codec, codec.decode(body).value)["BX_PAYSYSTEM_CODE"]) != id1
            ==> !IsMyResponse(body, id1, codec)
  {
  }

  /** With a sound library, a body without `data` is nobody's, and the empty body is never claimed. */
  lemma NoTrackingDataIsNotMine(body: string, paySystemId: int, codec: Codec)
    requires Sound(codec)
    requires codec.decode(body).Some? ==> "data" !in codec.decode(body).value
    ensures !IsMyResponse(body, paySystemId, codec)
    ensures !IsMyResponse("", paySystemId, codec)
  {
  }

  /** A body `isMyResponse` claims always yields a readable answer from `getPaymentIdFromRequest`. */
  lemma ClaimedBodiesAreReadable(body: string, paySystemId: int, codec: Codec)
    requires IsMyResponse(body, paySystemId, codec)
    ensures !PaymentIdFromRequest(body, codec).NotReadable?
  {
  }

  /**
   * The round trip of the tracking data: a notification that echoes the DATA
   * `prepareParams` sent, with each integer written as PHP writes it, is
   * claimed by exactly the pay system that sent it and names its payment.
   */
  lemma RecognizesOwnTrackingData(
    body: string, codec: Codec, payment: Initiation.PaymentContext, config: Initiation.BusinessValues,
    site: Initiation.Site, auth: map<string, Value>, otherId: int)
    requires IsTruthy(body) && codec.decode(body).Some?
    requires IntMin <= payment.paySystemId <= IntMax
    requires var sent := Initiation.PaymentParams(payment, config, site, auth).data;
             var data := Tracking(codec, codec.decode(body).value);
             && "BX_PAYSYSTEM_CODE" in data && data["BX_PAYSYSTEM_CODE"] == IntText(sent.paySystemCode)
             && "BX_PAYMENT_NUMBER" in data && data["BX_PAYMENT_NUMBER"] == IntText(sent.paymentNumber)
    ensures IsMyResponse(body, otherId, codec) <==> otherId == payment.paySystemId
    ensures PaymentIdFromRequest(body, codec) == PaymentNumber(IntText(payment.paymentId))
  {
    IntCastOfIntText(payment.paySystemId);
  }

  // ---------------------------------------------------------------------
  // A worked notification

  /**
   * A body decoding to a notification with code "ok", amount "1500.00",
   * invoiceId "00000042" and data "BX_PAYMENT_NUMBER=7&BX_PAYSYSTEM_CODE=3",
   * about a payment of 1500.00 with PS_CHANGE_STATUS_PAY = "Y", is confirmed
   * and announces the money, and the routing helpers send it to pay system 3
   * and payment 7.
   */
  lemma ExampleConfirmedPayment(body: string, response: map<string, Value>, codec: Codec, msgs: Messages, now: int)
    requires IsTruthy(body) && codec.decode(body) == Some(response)
    requires Get(response, "code") == Str("ok") && Get(response, "amount") == Str("1500.00")
    requires Get(response, "invoiceId") == Str("00000042")
    requires Get(response, "data") == Str("BX_PAYMENT_NUMBER=7&BX_PAYSYSTEM_CODE=3")
    requires codec.parseQuery(Str("BX_PAYMENT_NUMBER=7&BX_PAYSYSTEM_CODE=3"))
             == map["BX_PAYMENT_NUMBER" := "7", "BX_PAYSYSTEM_CODE" := "3"]
    ensures var o := Classify(body, Decimal(150000, 2), Some("Y"), now, codec, msgs);
            && o.IsSuccess()
            && o.psData.Some? && o.psData.value.status == "Y"
            && o.psData.value.invoiceId == Str("00000042")
            && o.operation == Some(MoneyComing)
    ensures IsMyResponse(body, 3, codec)
    ensures PaymentIdFromRequest(body, codec) == PaymentNumber("7")
  {
    AmountOfExample();
    assert IntCast("3") == 3 by { IntCastOfDigits("3"); }
  }

  lemma AmountOfExample()
    ensures LeadingDecimal("1500.00") == Decimal(150000, 2)
  {
    var whole, fraction := "1500", "00";
    assert AllDigits(whole) && AllDigits(fraction) && |fraction| == 2;
    LeadingDecimalOfPlain(whole, fraction);
    assert whole + "." + fraction == "1500.00";
    assert whole + fraction == "150000";
    DigitsOfExample();
  }

  lemma DigitsOfExample()
    ensures DigitsValue("150000") == 150000
  {
    assert "150000"[..5] == "15000" && "15000"[..4] == "1500" && "1500"[..3] == "150";
    assert "150"[..2] == "15" && "15"[..1] == "1" && "1"[..0] == "";
  }
}
