/**
 * Payment initiation: the authorization-token request
 * (`requestAuthorizationToken`) and the parameter set for the payment
 * widget (`prepareParams`), with the endpoint table, test-mode flag and
 * currency list they draw on.
 */
module Initiation {
  import opened Wrappers
  import opened Platform
  import opened ServiceResults
  import opened Transport

  /** What the handler reads from the payment, its order and its pay-system service. */
  datatype PaymentContext = PaymentContext(
    paymentId: int,          // $payment->getId()
    orderId: int,            // $order->getId()
    sum: Decimal,            // $payment->getSum()
    currency: string,        // $payment->getField("CURRENCY")
    paySystemId: int,        // $this->service->getField('ID')
    email: Option<string>,   // the order's e-mail property, when it has one
    phone: Option<string>)   // the order's phone property, when it has one

  /** The business values configured for the pay system; None where a value is not set. */
  datatype BusinessValues = BusinessValues(
    clientId: Option<string>,         // EPAYMENT_CLIENT_ID
    clientSecret: Option<string>,     // EPAYMENT_CLIENT_SECRET
    terminalId: Option<string>,       // EPAYMENT_TERMINAL_ID
    changeStatusPay: Option<string>,  // PS_CHANGE_STATUS_PAY
    isTest: Option<string>)           // PS_IS_TEST

  /** The current request: its scheme, the HTTP_HOST header and the site language. */
  datatype Site = Site(https: bool, host: string, language: string)

  // ---------------------------------------------------------------------
  // Endpoints, test mode, currency

  datatype Action = OAuth2 | Pay | Confirm

  datatype UrlPair = UrlPair(test: string, active: string)

  /** The scheme of every processor endpoint. */
  const Https: string := "https://"

  /** `getUrlList`, entry by entry as written (the confirm pair has test and active the other way round). */
  function UrlList(action: Action): (pair: UrlPair)
    ensures pair.test != pair.active
    ensures |pair.test| > |Https| && pair.test[..|Https|] == Https
    ensures |pair.active| > |Https| && pair.active[..|Https|] == Https
  {
    match action
    case OAuth2 => UrlPair(Https + "testoauth.homebank.kz/epay2/oauth2/token", Https + "epay-oauth.homebank.kz/oauth2/token")
    case Pay => UrlPair(Https + "test-epay.homebank.kz/payform/payment-api.js", Https + "epay.homebank.kz/payform/payment-api.js")
    case Confirm => UrlPair(Https + "epay-api.homebank.kz/operation/:id/charge", Https + "testepay.homebank.kz/api/operation/:id/charge")
  }

  /** `isTestMode`: on only when PS_IS_TEST is exactly "Y"; an unset value means production. */
  predicate IsTestMode(config: BusinessValues) {
    config.isTest == Some("Y")
  }

  /** The endpoint for an action: the test entry in test mode, the active entry otherwise. */
  function GetUrl(action: Action, config: BusinessValues): (url: string)
    ensures url == UrlList(action).test || url == UrlList(action).active
    ensures url == UrlList(action).test <==> config.isTest == Some("Y")
  {
    if IsTestMode(config) then UrlList(action).test else UrlList(action).active
  }

  /** `getCurrencyList`: the handler takes payments in tenge only. */
  function CurrencyList(): (currencies: seq<string>)
    ensures |currencies| == 1
    ensures forall c :: c in currencies <==> c == "KZT"
  {
    ["KZT"]
  }

  // ---------------------------------------------------------------------
  // requestAuthorizationToken

  /** The invoice id sent to the processor: the order id left-padded with '0' to eight characters. */
  function InvoiceId(orderId: int): (id: string)
    ensures |id| == if |IntText(orderId)| < 8 then 8 else |IntText(orderId)|
    ensures id[|id| - |IntText(orderId)|..] == IntText(orderId)
    ensures forall i :: 0 <= i < |id| - |IntText(orderId)| ==> id[i] == '0'
  {
    StrPadLeft(IntText(orderId), 8, '0')
  }

  /** Order ids below 10^8 give an invoice id of exactly eight characters. */
  lemma InvoiceIdEightChars(orderId: int)
    requires 0 <= orderId < 100_000_000
    ensures |InvoiceId(orderId)| == 8
  {
    NatTextLength(orderId, 8);
    assert Pow10(8) == 100_000_000;
  }

  /** The padding is harmless: the integer cast of the invoice id is the order id again. */
  lemma InvoiceIdReadsBack(orderId: int)
    requires 0 <= orderId <= IntMax
    ensures IntCast(InvoiceId(orderId)) == orderId
  {
    var t := NatText(orderId);
    var id := InvoiceId(orderId);
    var k := |id| - |t|;
    assert id == Zeros(k) + t by {
      assert id[k..] == t;
      assert id[..k] == Zeros(k);
      assert id == id[..k] + id[k..];
    }
    IntCastOfPaddedText(k, orderId);
  }

  const TokenScope: string := "webapi usermanagement email_send verification statement statistics payment"

  /** The keys of the token request body. */
  const TokenKeys: set<string> :=
    {"grant_type", "scope", "client_id", "client_secret", "invoiceID", "amount", "currency", "terminal", "postLink", "failurePostLink"}

  /** The client-credentials body of the token request. */
  function TokenFields(payment: PaymentContext, config: BusinessValues): (fields: map<string, Value>)
    ensures fields.Keys == TokenKeys
    ensures fields["grant_type"] == Str("client_credentials") && fields["scope"] == Str(TokenScope)
    ensures fields["client_id"] == Setting(config.clientId) && fields["client_secret"] == Setting(config.clientSecret)
    ensures fields["terminal"] == Setting(config.terminalId)
    ensures fields["invoiceID"] == Str(InvoiceId(payment.orderId))
    ensures fields["currency"] == Str(payment.currency)
    ensures fields["postLink"] == Str("") && fields["failurePostLink"] == Str("")
    ensures fields["amount"] == Number(Decimal(IntOfPrice(RoundPrecision(payment.sum)), 0))
  {
    map[
      "grant_type" := Str("client_credentials"),
      "scope" := Str(TokenScope),
      "client_id" := Setting(config.clientId),
      "client_secret" := Setting(config.clientSecret),
      "invoiceID" := Str(InvoiceId(payment.orderId)),
      "amount" := Number(Decimal(IntOfPrice(RoundPrecision(payment.sum)), 0)),
      "currency" := Str(payment.currency),
      "terminal" := Setting(config.terminalId),
      "postLink" := Str(""),
      "failurePostLink" := Str("")
    ]
  }

  /** The token request: a POST of the body to the oauth2 endpoint. */
  function TokenRequest(payment: PaymentContext, config: BusinessValues): (request: HttpRequest)
    ensures request.verb == Post
    ensures request.url == GetUrl(OAuth2, config)
    ensures request.fields == TokenFields(payment, config)
    ensures request.url == UrlList(OAuth2).test <==> config.isTest == Some("Y")
    ensures request.fields.Keys == TokenKeys
    ensures request.fields["invoiceID"] == Str(InvoiceId(payment.orderId))
  {
    HttpRequest(Post, GetUrl(OAuth2, config), TokenFields(payment, config))
  }

  /** The result of `requestAuthorizationToken`: the exchange's errors unchanged, or its data. */
  function Authorization(payment: PaymentContext, config: BusinessValues, net: Network, codec: Codec, msgs: Messages)
    : (o: Outcome<map<string, Value>>)
    ensures o == Sent(net(TokenRequest(payment, config)), codec, msgs)
  {
    var sent := Sent(net(TokenRequest(payment, config)), codec, msgs);
    if !sent.IsSuccess() then Failed(sent.errors, NoData) else Started(sent.data)
  }

  method RequestAuthorizationToken(payment: PaymentContext, config: BusinessValues, net: Network, codec: Codec, msgs: Messages)
    returns (result: ServiceResult<map<string, Value>>)
    ensures fresh(result)
    ensures result.Snapshot() == Authorization(payment, config, net, codec, msgs)
  {
    result := new ServiceResult(NoData);
    var sendResult := SendRequest(net, TokenRequest(payment, config), codec, msgs);
    if !sendResult.IsSuccess() {
      result.AddErrors(sendResult.errors);
      return;
    }
    result.SetData(sendResult.data);
  }

  // ---------------------------------------------------------------------
  // prepareParams

  /** Scheme and host of the current request. */
  function Host(site: Site): (host: string)
    ensures site.https ==> |host| >= 8 && host[..8] == "https://" && host[8..] == site.host
    ensures !site.https ==> |host| >= 7 && host[..7] == "http://" && host[7..] == site.host
  {
    (if site.https then "https://" else "http://") + site.host
  }

  const ResultPath: string := "/bitrix/tools/sale_ps_result.php"

  const Description: string := "Payment in the online store."

  /** The DATA entry: what the processor echoes back in its callback to identify the payment. */
  datatype TrackingData = TrackingData(
    paymentNumber: int,  // BX_PAYMENT_NUMBER
    paySystemCode: int,  // BX_PAYSYSTEM_CODE
    handler: string)     // BX_HANDLER

  /**
   * The parameter array `prepareParams` hands to the template, one field
   * per key. The twelve keys URL to DATA are always there; EMAIL and PHONE
   * are keys only when the order has those properties (None otherwise).
   */
  datatype PaymentRequestParams = PaymentRequestParams(
    url: string,              // URL
    orderId: string,          // ORDER_ID
    backLink: string,         // BACK_LINK
    failureBackLink: string,  // FAILURE_BACK_LINK
    postLink: string,         // POST_LINK
    failurePostLink: string,  // FAILURE_POST_LINK
    language: string,         // LANG
    description: string,      // DESCRIPTION
    sum: int,                 // SUM, in hundredths
    currency: string,         // CURRENCY
    auth: map<string, Value>, // AUTH, the token response as decoded
    data: TrackingData,       // DATA
    email: Option<string>,    // EMAIL
    phone: Option<string>)    // PHONE

  /** The parameter set for the payment widget, given the token data. */
  function PaymentParams(payment: PaymentContext, config: BusinessValues, site: Site, auth: map<string, Value>)
    : (params: PaymentRequestParams)
    ensures params.url == GetUrl(Pay, config)
    ensures params.orderId == InvoiceId(payment.orderId)
    ensures params.language == site.language && params.description == Description
    ensures params.currency == payment.currency
    ensures params.backLink == params.failureBackLink == Host(site)
    ensures params.postLink == params.backLink + ResultPath
    ensures params.failurePostLink == ""
    ensures RoundPrecision(payment.sum) == params.sum
    ensures params.auth == auth
    ensures params.data == TrackingData(payment.paymentId, payment.paySystemId, "EPAYMENT")
    ensures params.email == payment.email && params.phone == payment.phone
  {
    var host := Host(site);
    PaymentRequestParams(
      GetUrl(Pay, config), InvoiceId(payment.orderId), host, host, host + ResultPath, "",
      site.language, Description, RoundPrecision(payment.sum), payment.currency, auth,
      TrackingData(payment.paymentId, payment.paySystemId, "EPAYMENT"),
      payment.email, payment.phone)
  }

  /**
   * The result of `prepareParams`: the token exchange's errors passed on
   * unchanged with no parameters, or the parameter set built on the token data.
   */
  function Prepared(payment: PaymentContext, config: BusinessValues, site: Site, net: Network, codec: Codec, msgs: Messages)
    : (o: Outcome<Option<PaymentRequestParams>>)
    ensures o.errors == Sent(net(TokenRequest(payment, config)), codec, msgs).errors
    ensures o.psData == None && o.operation == None
    ensures o.data.Some? <==> o.IsSuccess()
    ensures o.IsSuccess() ==>
              o.data == Some(PaymentParams(payment, config, site, Sent(net(TokenRequest(payment, config)), codec, msgs).data))
  {
    var auth := Authorization(payment, config, net, codec, msgs);
    if !auth.IsSuccess() then Failed(auth.errors, None)
    else Started(Some(PaymentParams(payment, config, site, auth.data)))
  }

  method PrepareParams(payment: PaymentContext, config: BusinessValues, site: Site, net: Network, codec: Codec, msgs: Messages)
    returns (result: ServiceResult<Option<PaymentRequestParams>>)
    ensures fresh(result)
    ensures result.Snapshot() == Prepared(payment, config, site, net, codec, msgs)
  {
    result := new ServiceResult(None);
    var authorization := RequestAuthorizationToken(payment, config, net, codec, msgs);
    if !authorization.IsSuccess() {
      result.AddErrors(authorization.errors);
      return;
    }
    var host := Host(site);
    var params := PaymentRequestParams(
      GetUrl(Pay, config), InvoiceId(payment.orderId), host, host, host + ResultPath, "",
      site.language, Description, RoundPrecision(payment.sum), payment.currency, authorization.data,
      TrackingData(payment.paymentId, payment.paySystemId, "EPAYMENT"),
      None, None);
    if payment.email.Some? {
      params := params.(email := Some(payment.email.value));
    }
    if payment.phone.Some? {
      params := params.(phone := Some(payment.phone.value));
    }
    result.SetData(Some(params));
  }
}
