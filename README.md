# Epayment pay-system handler — a Dafny model

This project models `EpaymentHandler`, the Bitrix sale module's handler for
the Epayment (Halyk Bank "homebank.kz") processor. The model covers four parts:

- **Payment initiation.** `requestAuthorizationToken` sends a
  client-credentials POST to the oauth2 endpoint. `prepareParams` builds
  the parameter set for the payment widget from the token response.
- **Transport.** `sendRequest` sends one HTTP exchange. It sorts the outcome
  into a transport failure, a non-200 status or a decoded 200 body.
- **The result notification.** `processRequest` decodes the processor's
  callback and fills in the PS fields. It checks the amount with
  `isSumCorrect` and announces MONEY_COMING only when the sum matches and
  PS_CHANGE_STATUS_PAY is "Y".
- **Routing.** `isMyResponse` and `getPaymentIdFromRequest` read back the
  tracking data (BX_PAYSYSTEM_CODE, BX_PAYMENT_NUMBER) that `prepareParams`
  embedded in the request.

The modules are:

- `Wrappers`: `Option`.
- `Platform`: the PHP and Bitrix behaviour the handler relies on:
  - truthiness of a string;
  - the `(int)` cast;
  - `str_pad`;
  - `(float)` of a string;
  - `PriceMaths::roundPrecision` at two places, on exact decimals;
  - the JSON and `parse_str` calls and the localized messages, passed in as
    function-valued parameters (`Codec`, `Messages`).
- `ServiceResults`: `PaySystem\ServiceResult`. It is a class whose methods
  update its fields in place. `Snapshot()` is its value as an `Outcome`.
- `Transport`: `sendRequest`.
- `Initiation`: `requestAuthorizationToken`, `prepareParams`, `getUrlList`,
  `isTestMode` and `getCurrencyList`.
- `Callback`: `processRequest`, `isSumCorrect`, `isMyResponse` and
  `getPaymentIdFromRequest`.

Each imperative source method is a Dafny `method` that updates a
`ServiceResult` as the PHP does. Its `ensures` ties the final state to a
specification function (`Sent`, `Authorization`, `Prepared`, `Classify`).
The lemmas and the functions' own contracts state what those functions
guarantee.

Four behaviours of the code are easy to misread. The model follows the
code in each:

- A 200 response whose body does not decode is a success with empty data,
  not a malformed-response error, because `sendRequest` only sets data
  when the decoded value is truthy.
- EMAIL and PHONE are added whenever the order has the property, whatever
  its value.
- PS_STATUS_CODE is always 2, because the array literal's second entry
  overwrites `reasonCode`.
- The `confirm` entry of `getUrlList` has the test URL and the active URL
  the other way round from the other two entries.

## Model

| member | source | states |
|---|---|---|
| Callback.Classify | handler.php:196-259 | An undecodable body gives exactly one error (the query error) and nothing else. A decodable body whose code is not strictly "ok" gives an empty, successful result. An "ok" body always gives PS data: invoice id, sum and currency copied from the notification, status code 2 and the response date. If the amount matches, status is "Y", there are no errors, and MONEY_COMING is set iff PS_CHANGE_STATUS_PAY is "Y". Otherwise status is "N", the description is suffixed with the sum error, that error is the only one, and no operation is set. |
| Callback.MoneyComingExactly | handler.php:204-245 | MONEY_COMING is set iff the body decodes, its code is "ok", the sum matches and PS_CHANGE_STATUS_PAY is "Y". PS status is "Y" iff the first three hold. PS data exists iff the code is "ok". A result announcing money is a success. |
| Callback.ClassifyAsWritten | handler.php:200-250 | As written, processRequest raises instead of returning iff the body does not decode, or its `data` entry decoded to a JSON array or object, which `parse_str` rejects with a TypeError. Otherwise it returns what Classify gives. |
| Callback.ProcessRequest | handler.php:196-259 | Changing the result field by field as processRequest does leaves it equal to Classify (with the query error built correctly). |
| Callback.SumCheckIgnoresTrailingZeros | handler.php:354-361 | Appending zeros after the decimal point does not change whether the amount check passes. |
| Callback.IsSumCorrect | handler.php:354-361 | An amount that reads as the payment sum, whether it came as a string or a number, passes. The acceptance window is stated by SumCheckWindow and SumCheckIsTight. |
| Callback.SumCheckWindow | handler.php:354-361 | For a payment of c hundredths, a non-negative amount passes iff it lies in [c - 1/2, c + 1/2) hundredths, at any number of decimals. Both directions are stated. |
| Callback.SumCheckIsTight | handler.php:354-361 | An amount that passes is within one hundredth of the payment sum. |
| Callback.IsMyResponse | handler.php:369-392 | Only ids in the 64-bit range can be claimed, because the cast of the tracking code saturates. The other properties are stated by IsMyResponseSingleOwner, NoTrackingDataIsNotMine, ClaimedBodiesAreReadable and RecognizesOwnTrackingData. |
| Callback.IsMyResponseSingleOwner | handler.php:373-391 | A body is claimed by at most one pay-system id. A falsy or undecodable body is never claimed. An id other than the tracking code's integer cast never claims it. |
| Callback.NoTrackingDataIsNotMine | handler.php:373-388 | With JSON and parse_str behaving as the library does on empty input, a body with no `data` key is never claimed, and neither is the empty body. |
| Callback.PaymentIdFromRequest | handler.php:408-426 | The result is false iff the body is falsy or does not decode. Otherwise it is the BX_PAYMENT_NUMBER of the tracking data, or null when that key is missing. |
| Callback.ClaimedBodiesAreReadable | handler.php:369-426 | A body that isMyResponse claims always gives getPaymentIdFromRequest a readable result (not false). |
| Callback.RecognizesOwnTrackingData | handler.php:102-106 | A notification that echoes the DATA sent by prepareParams is claimed by exactly the pay system that sent it, and names that payment's number. |
| Callback.ExampleConfirmedPayment | handler.php:204-236 | Worked example: an "ok" notification for 1500.00 on a payment of 1500.00 with PS_CHANGE_STATUS_PAY=Y gives status "Y", invoice "00000042", MONEY_COMING and no errors. It is routed to pay system 3 and payment 7. |
| Transport.Sent | handler.php:296-341 | No response gives exactly the query error. A non-200 gives exactly the HTTP-status message and the encoded body. A 200 is a success whose data is the decoded body, or empty when the body does not decode. None of these sets PS data or an operation. |
| Transport.SentAsWritten | handler.php:312-328 | As written, sendRequest raises for every exchange other than a 200, and returns Sent for a 200. |
| Transport.SendRequest | handler.php:274-342 | Sending the request and updating a new result step by step leaves it equal to Sent applied to the client's answer. |
| Transport.ClientErrorEntries | handler.php:298-309 | The loop builds one entry per client error, in order, each "code=message". SendRequest runs it when there is no response and the client reported errors. |
| Initiation.UrlList | handler.php:432-448 | Each action has two distinct endpoints, and every endpoint is an https URL. The confirm pair is kept swapped as written. |
| Initiation.GetUrl | handler.php:432-458 | The endpoint is one of the action's two URLs. It is the test URL iff PS_IS_TEST is exactly "Y", so an unset value means production. |
| Initiation.CurrencyList | handler.php:464-467 | The only currency is KZT. |
| Initiation.InvoiceId | handler.php:90-91 | The invoice id is the order id's text, left-padded with '0' to at least eight characters and never truncated. |
| Initiation.InvoiceIdEightChars | handler.php:151-152 | Order ids below 10^8 give exactly eight characters. |
| Initiation.InvoiceIdReadsBack | handler.php:151-152 | The integer cast of the padded invoice id gives the order id back. |
| Initiation.TokenFields | handler.php:159-170 | The token body has exactly the ten keys, with the fixed grant type and scope, the configured credentials and terminal, the padded invoice id, the currency, and empty postLink and failurePostLink. The amount is IntOfPrice of the rounded sum, for every sign. |
| Initiation.TokenRequest | handler.php:150-172 | The token request is a POST of exactly TokenFields to GetUrl(OAuth2), so it has the ten token keys and the padded invoice id. It goes to the oauth2 test endpoint iff PS_IS_TEST is "Y". |
| Initiation.Authorization | handler.php:172-182 | requestAuthorizationToken passes the exchange's outcome, as the corrected Sent gives it, through unchanged: the same errors on failure, the same data on success. As written, every failed exchange raises out of sendRequest instead (see Findings). |
| Initiation.RequestAuthorizationToken | handler.php:142-183 | Running the method leaves a new result equal to Authorization. |
| Initiation.Host | handler.php:83-84 | The host is "https://" followed by HTTP_HOST on an https request, and "http://" followed by HTTP_HOST otherwise. |
| Initiation.PaymentParams | handler.php:83-121 | URL is the pay endpoint for the mode. LANG is the site language. DESCRIPTION is the fixed text. CURRENCY is the payment's currency. ORDER_ID is the padded invoice id. BACK_LINK = FAILURE_BACK_LINK = scheme plus host. POST_LINK is that plus the result path. FAILURE_POST_LINK is empty. SUM is the sum rounded to hundredths. AUTH is the token data. DATA carries the payment number, the pay-system id and "EPAYMENT". EMAIL and PHONE are present iff the order has them. |
| Initiation.Prepared | handler.php:70-135 | The errors are exactly the token exchange's, as the corrected Sent gives them. As written, a failed exchange raises out of prepareParams instead (see Findings). There is a parameter set iff the result is a success, and it is PaymentParams built on the token data. No PS data or operation is set. |
| Initiation.PrepareParams | handler.php:70-135 | Building the parameter array and adding EMAIL and PHONE conditionally leaves a new result equal to Prepared. |
| Platform.StrPadLeft | handler.php:91 | str_pad to the left: the length is the maximum of the target and the input length, the input is the suffix, and the rest is the pad character. |
| Platform.IntCastOfIntText | handler.php:385 | The (int) cast reads every 64-bit integer back from the text PHP writes for it. |
| Platform.IntCastOfPaddedText | handler.php:152 | Zeros in front of a natural number's text do not change its (int) cast. |
| Platform.NatTextValue | handler.php:103-104 | The decimal text of a natural number denotes that number. |
| Platform.NatTextLength | handler.php:91 | The text of n has at most k digits iff n < 10^k. |
| Platform.IntCastOfDigits | handler.php:385 | The (int) cast of a digit string is its value, saturated to 64 bits. |
| Platform.RoundPrecisionNearest | handler.php:100 | roundPrecision gives a number of hundredths within half a hundredth of the exact amount. |
| Platform.RoundPrecisionTrailingZeros | handler.php:360 | roundPrecision does not depend on trailing zeros after the decimal point. |
| Platform.LeadingDecimalOfPlain | handler.php:218-224 | (float) of a plain decimal string such as "1500.00" is its digits over ten to the number of decimals. |
| Platform.IntOfPrice | handler.php:155 | (int) of the rounded price is its whole units, truncated toward zero. |

## Left out

- Reading `php://input`, the HTTP client, headers and logging. The body and the client's answer are parameters, and the `Logger` calls have no effect on the result.
- `new DateTime()`: the response date is the parameter `now`.
- `Loc::getMessage`, `Json::decode`, `Json::encode` and `parse_str`. They are the function-valued parameters `Messages` and `Codec`. The JSON literal `false` and decode failures are therefore not told apart, as the handler itself cannot tell them apart.
- The JSON grammar: a body that decodes to a scalar or a list, and array-valued query parameters from `parse_str`, are not modelled.
- Callback.IsMyResponse: a `data` entry that decoded to a JSON array or object makes `parse_str` raise a TypeError at handler.php:382. The predicate instead treats it as whatever `parseQuery` yields. Only ClassifyAsWritten models that raise.
- Callback.PaymentIdFromRequest: the same `parse_str` TypeError at handler.php:421 is not modelled. The function reads the tracking data through `parseQuery` instead.
- `getUrl` in the parent class is not part of this model. It is modelled as choosing the test entry or the active entry of `getUrlList` by `isTestMode`.
- `initiatePay`, `showTemplate` and the widget template are outside the core and are not modelled.
- Platform.IntCast: exponent forms such as "1e3", which PHP 7.1+ reads as 1000, are not modelled. Only sign, digits and 64-bit saturation are.
- Platform.LeadingDecimal: exponents and floating-point representation error are not modelled. Amounts are exact decimals.
- Platform.RoundPrecision: `PriceMaths::roundPrecision` is not part of this model. It is assumed to round exactly to the nearest hundredth, with halves rounded away from zero, at a fixed precision of two decimals. Any epsilon nudge the library adds before rounding, float pre-rounding, and how it coerces a non-numeric string are not modelled. The acceptance window proved by SumCheckWindow is therefore the window of this assumed rounding.
- Transport.Sent: the HTTP verb and the GET branch are kept in the request, but the request body's wire encoding is not modelled.
- Callback.Classify: the overwritten `reasonCode` entry is not modelled, because the second `PS_STATUS_CODE` entry replaces it.

## Findings

| source | as written | input that shows it | evidently intended | confidence | as-written member | corrected member |
|---|---|---|---|---|---|---|
| handler.php:312 | The transport-failure error is built with `Localization\Loc`, which resolves to `Sale\Handlers\PaySystem\Localization\Loc` and does not exist. | The HTTP client returns false (no response). | Return a result whose only error is the query error. | not executed | Transport.SentAsWritten | Transport.SendRequest |
| handler.php:328 | `self::encode($response)` passes the body, a string, to `encode(array $data)`. | Any response with a status other than 200. | Return a result with the HTTP-status error and the encoded body. | not executed | Transport.SentAsWritten | Transport.SendRequest |
| handler.php:249 | The error for an undecodable notification is built with the same unresolved `Localization\Loc`. | A callback body that is not valid JSON. | Return a result whose only error is the query error. | not executed | Callback.ClassifyAsWritten | Callback.ProcessRequest |
