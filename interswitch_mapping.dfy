/** The pure parts of the Interswitch (Quickteller) adapter: the approval
    rule and the three result mappers, the purchase and validation payloads,
    the request signing and the client-credentials token grant. */
module InterswitchMapping {
  import opened Php
  import opened Numeric
  import opened Http
  import opened Results
  import opened Requests

  const Provider := "interswitch"

  // ----- mapping replies to results -----

  /** `$result['json'] ?? []`. */
  function Body(reply: Reply): (json: Json)
    ensures json != JNull
  {
    Coalesce(reply.json, EmptyArray)
  }

  /** The one approval rule of every Interswitch call: a 2xx reply whose
      `ResponseCode` is the string "00" or "90000" (compared strictly), or
      whose `ResponseCodeGrouping` is "SUCCESSFUL". */
  predicate Approved(reply: Reply) {
    var json := Body(reply);
    reply.ok &&
    (Index(json, "ResponseCode") in [JStr("00"), JStr("90000")] || Index(json, "ResponseCodeGrouping") == JStr("SUCCESSFUL"))
  }

  /** An approving code inside a non-2xx reply approves nothing, and the
      numeric code 0 is not the string "00". */
  lemma ApprovedNeedsOkAndStrictCode(reply: Reply)
    ensures !reply.ok ==> !Approved(reply)
    ensures Index(Body(reply), "ResponseCode") == JInt(0) && Index(Body(reply), "ResponseCodeGrouping") != JStr("SUCCESSFUL")
      ==> !Approved(reply)
    ensures Approved(reply) ==> Body(reply).JObj?
  {
  }

  /** The status text `Status ?? (ResponseCodeGrouping ?? last)`. */
  function StatusText(json: Json, last: string): Json {
    Coalesce(Index(json, "Status"), Coalesce(Index(json, "ResponseCodeGrouping"), JStr(last)))
  }

  /** `$json['x'] ?? null` passed to a `?string` parameter. */
  function OptField(json: Json, key: string): Result<Option<string>> {
    NullableString(Index(json, key))
  }

  function FieldOr(json: Json, key: string, default: string): Result<Option<string>> {
    NullableString(Coalesce(Index(json, key), JStr(default)))
  }

  const PurchaseFailed := "Bill transaction failed."
  const ValidationFailed := "Customer validation failed."
  const StatusUnavailable := "Unable to retrieve transaction status."

  /** `mapTransactionResult`. Passing a payload value to a DTO parameter of
      the wrong type raises a TypeError, and so does `Amount / 100` on an
      array or a string that does not start with a number; a number with
      trailing text raises the `ErrorException` of its warning. So the
      mapping is partial. */
  function MapTransactionResult(reference: string, reply: Reply): (r: Result<BillTransactionResult>)
    ensures r.Ok? ==> r.value.success == Approved(reply) && r.value.reference == reference && r.value.provider == Provider
    ensures r.Ok? ==> r.value.raw == Some(Body(reply))
    ensures r.Err? ==> r.error.TypeError? || (r.error == ErrorException(NonNumericValue) && Approved(reply))
    ensures !IsArray(Body(reply)) ==> r.Err?
    ensures Approved(reply) && Index(Body(reply), "Amount") != JNull && !ArithmeticOperand(Index(Body(reply), "Amount"))
      ==> r.Err? && r.error.TypeError?
    ensures Approved(reply) && ArithmeticOperand(Index(Body(reply), "Amount")) && !QuietOperand(Index(Body(reply), "Amount"))
      ==> r == Err(ErrorException(NonNumericValue))
    ensures r.Ok? && r.value.success ==>
      r.value.amount == (if Index(Body(reply), "Amount") == JNull then None else Some(MinorUnits(Index(Body(reply), "Amount"))))
  {
    var json := Body(reply);
    if !Approved(reply) then
      var status :- NullableString(StatusText(json, "failed"));
      var message :- FieldOr(json, "ResponseDescription", PurchaseFailed);
      var errorCode :- OptField(json, "ResponseCode");
      var raw :- NullableArray(json);
      Ok(TransactionFailure(reference, Provider, status, message, errorCode, raw))
    else
      var amount :- Quotient(Index(json, "Amount"));
      var providerReference :- OptField(json, "TransactionRef");
      var status :- NullableString(StatusText(json, "success"));
      var message :- OptField(json, "ResponseDescription");
      var raw :- NullableArray(json);
      Ok(TransactionSuccess(reference, providerReference, amount, Provider, status, message, raw))
  }

  /** `isset($json['Amount']) ? $json['Amount'] / 100 : null`: the division
      is evaluated before the DTO is built. It raises a TypeError on an
      operand PHP cannot divide, and a string with trailing text after its
      number draws the warning "A non-numeric value encountered", which
      Laravel throws as an `ErrorException`. Its floating-point value is
      not carried out. */
  function Quotient(amount: Json): (r: Result<Option<Amount>>)
    ensures r.Ok? <==> amount == JNull || QuietOperand(amount)
    ensures r.Err? ==> (r.error.TypeError? <==> !ArithmeticOperand(amount))
    ensures r.Err? ==> (r.error.ErrorException? <==> ArithmeticOperand(amount))
    ensures r.Ok? ==> (r.value.None? <==> amount == JNull) && (r.value.Some? ==> r.value.value == MinorUnits(amount))
  {
    NumericIsOperand(amount);
    if amount == JNull then Ok(None)
    else if !ArithmeticOperand(amount) then
      Err(TypeError("Unsupported operand types: " + (if IsArray(amount) then "array" else "string") + " / int"))
    else if !QuietOperand(amount) then Err(ErrorException(NonNumericValue))
    else Ok(Some(MinorUnits(amount)))
  }

  const NonNumericValue := "A non-numeric value encountered"

  /** Example: an `Amount` of "12abc" divides with the non-numeric warning,
      which raises. */
  lemma AmountWithTrailingTextRaises()
    ensures Quotient(JStr("12abc")) == Err(ErrorException(NonNumericValue))
  {
    var s := "12abc";
    assert TrimSpace(s) == s by { assert !IsSpace(s[0]) && !IsSpace(s[4]); }
    assert SplitSign(s) == (false, s);
    assert DigitSpan(s) == 2 by {
      assert s[1..] == "2abc" && s[1..][1..] == "abc";
      assert DigitSpan("abc") == 0;
    }
    assert s[2..] == "abc" && s[..2] == "12";
    assert SplitMantissa(s) == ("12", "", "abc");
    assert ParseExponent("abc") == None;
  }


  /** `validateCustomer`'s mapping of the reply. */
  function MapValidationResult(customerId: string, reply: Reply): (r: Result<CustomerValidationResult>)
    ensures r.Ok? ==> r.value.success == Approved(reply) && r.value.customerId == customerId && r.value.provider == Provider
    ensures r.Ok? ==> r.value.raw == Some(Body(reply))
    ensures r.Err? ==> r.error.TypeError?
    ensures !IsArray(Body(reply)) ==> r.Err?
  {
    var json := Body(reply);
    if !Approved(reply) then
      var message :- FieldOr(json, "ResponseDescription", ValidationFailed);
      var errorCode :- OptField(json, "ResponseCode");
      var raw :- NullableArray(json);
      Ok(ValidationFailure(customerId, Provider, message, errorCode, raw))
    else
      var customerName :- OptField(json, "CustomerName");
      var message :- OptField(json, "ResponseDescription");
      var raw :- NullableArray(json);
      Ok(ValidationSuccess(customerId, customerName, Provider, message, raw))
  }

  /** `checkTransactionStatus`'s mapping of the reply. The success status
      goes to a `string` parameter. */
  function MapStatusResult(reference: string, reply: Reply): (r: Result<BillTransactionStatusResult>)
    ensures r.Ok? ==> r.value.success == Approved(reply) && r.value.reference == reference && r.value.provider == Provider
    ensures r.Ok? ==> r.value.raw == Some(Body(reply))
    ensures r.Err? ==> r.error.TypeError?
    ensures !IsArray(Body(reply)) ==> r.Err?
  {
    var json := Body(reply);
    if !Approved(reply) then
      var status :- NullableString(StatusText(json, "failed"));
      var message :- FieldOr(json, "ResponseDescription", StatusUnavailable);
      var errorCode :- OptField(json, "ResponseCode");
      var raw :- NullableArray(json);
      Ok(StatusFailure(reference, Provider, status, message, errorCode, raw))
    else
      var status :- StringParam(StatusText(json, "success"));
      var providerReference :- OptField(json, "TransactionRef");
      var message :- OptField(json, "ResponseDescription");
      var raw :- NullableArray(json);
      Ok(StatusSuccess(status, reference, providerReference, Provider, message, raw))
  }

  /** The text a `Status` / grouping fallback chain yields, defined on the
      fields directly. */
  function ExpectedStatus(json: Json, last: string): string {
    if Member(json, "Status").Some? && Member(json, "Status").value != JNull then ToStr(Member(json, "Status").value)
    else if Member(json, "ResponseCodeGrouping").Some? && Member(json, "ResponseCodeGrouping").value != JNull
    then ToStr(Member(json, "ResponseCodeGrouping").value)
    else last
  }

  /** The status text the chain yields, cast to string. */
  lemma StatusTextMeaning(json: Json, last: string)
    ensures !IsArray(StatusText(json, last)) ==> ToStr(StatusText(json, last)) == ExpectedStatus(json, last)
  {
  }

  /** Status fallbacks of a purchase: `Status`, else the grouping, else
      "failed" on failure and "success" on success. */
  lemma TransactionStatusFallback(reference: string, reply: Reply)
    ensures var r := MapTransactionResult(reference, reply);
      r.Ok? ==> r.value.status == ExpectedStatus(Body(reply), if r.value.success then "success" else "failed")
  {
    StatusTextMeaning(Body(reply), "success");
    StatusTextMeaning(Body(reply), "failed");
  }

  /** The same fallbacks in the status check. */
  lemma StatusCheckFallback(reference: string, reply: Reply)
    ensures var r := MapStatusResult(reference, reply);
      r.Ok? ==> r.value.status == ExpectedStatus(Body(reply), if r.value.success then "success" else "failed")
  {
    StatusTextMeaning(Body(reply), "success");
    StatusTextMeaning(Body(reply), "failed");
  }

  /** A failure carries the upstream `ResponseCode` as its error code; a
      successful purchase carries `TransactionRef` as its provider reference. */
  lemma FailureCarriesResponseCode(reference: string, customerId: string, reply: Reply)
    ensures var r := MapTransactionResult(reference, reply);
      r.Ok? && !r.value.success ==> r.value.errorCode == NullableString(Index(Body(reply), "ResponseCode")).value
    ensures var r := MapValidationResult(customerId, reply);
      r.Ok? && !r.value.success ==> r.value.errorCode == NullableString(Index(Body(reply), "ResponseCode")).value
    ensures var r := MapStatusResult(reference, reply);
      r.Ok? && !r.value.success ==> r.value.errorCode == NullableString(Index(Body(reply), "ResponseCode")).value
    ensures var r := MapTransactionResult(reference, reply);
      r.Ok? && r.value.success ==> r.value.providerReference == NullableString(Index(Body(reply), "TransactionRef")).value
  {
    TransactionCodes(reference, reply);
    ValidationCode(customerId, reply);
    StatusCode(reference, reply);
  }

  lemma TransactionCodes(reference: string, reply: Reply)
    ensures var r := MapTransactionResult(reference, reply);
      r.Ok? && !r.value.success ==> r.value.errorCode == NullableString(Index(Body(reply), "ResponseCode")).value
    ensures var r := MapTransactionResult(reference, reply);
      r.Ok? && r.value.success ==> r.value.providerReference == NullableString(Index(Body(reply), "TransactionRef")).value
  {
  }

  lemma ValidationCode(customerId: string, reply: Reply)
    ensures var r := MapValidationResult(customerId, reply);
      r.Ok? && !r.value.success ==> r.value.errorCode == NullableString(Index(Body(reply), "ResponseCode")).value
  {
  }

  lemma StatusCode(reference: string, reply: Reply)
    ensures var r := MapStatusResult(reference, reply);
      r.Ok? && !r.value.success ==> r.value.errorCode == NullableString(Index(Body(reply), "ResponseCode")).value
  {
  }

  /** The messages a failure defaults to when `ResponseDescription` is absent. */
  lemma FailureMessages(reference: string, customerId: string, reply: Reply)
    requires Index(Body(reply), "ResponseDescription") == JNull
    ensures var r := MapTransactionResult(reference, reply);
      r.Ok? && !r.value.success ==> r.value.message == Some(PurchaseFailed)
    ensures var r := MapValidationResult(customerId, reply);
      r.Ok? && !r.value.success ==> r.value.message == Some(ValidationFailed)
    ensures var r := MapStatusResult(reference, reply);
      r.Ok? && !r.value.success ==> r.value.message == Some(StatusUnavailable)
    ensures var r := MapValidationResult(customerId, reply);
      r.Ok? && r.value.success ==> r.value.message == None
  {
    TransactionMessage(reference, reply);
    ValidationMessages(customerId, reply);
    StatusMessage(reference, reply);
  }

  lemma TransactionMessage(reference: string, reply: Reply)
    requires Index(Body(reply), "ResponseDescription") == JNull
    ensures var r := MapTransactionResult(reference, reply);
      r.Ok? && !r.value.success ==> r.value.message == Some(PurchaseFailed)
  {
  }

  lemma ValidationMessages(customerId: string, reply: Reply)
    requires Index(Body(reply), "ResponseDescription") == JNull
    ensures var r := MapValidationResult(customerId, reply);
      r.Ok? && !r.value.success ==> r.value.message == Some(ValidationFailed)
    ensures var r := MapValidationResult(customerId, reply);
      r.Ok? && r.value.success ==> r.value.message == None
  {
  }

  lemma StatusMessage(reference: string, reply: Reply)
    requires Index(Body(reply), "ResponseDescription") == JNull
    ensures var r := MapStatusResult(reference, reply);
      r.Ok? && !r.value.success ==> r.value.message == Some(StatusUnavailable)
  {
  }

  // ----- payloads -----

  datatype Purchase = Airtime | DataBundle | Power | Tv

  /** The prefix of a generated `RequestReference`. */
  function ReferencePrefix(kind: Purchase): string {
    match kind
    case Airtime => "airtime_"
    case DataBundle => "data_"
    case Power => "power_"
    case Tv => "tv_"
  }

  /** `$request->reference ?? uniqid(prefix, true)`: a given reference, even
      an empty one, is kept; `uniq` stands for what `uniqid` appends. */
  function RequestReference(given: Option<string>, kind: Purchase, uniq: string): (r: string)
    ensures given.Some? ==> r == given.value
    ensures given.None? ==> ReferencePrefix(kind) <= r
  {
    if given.Some? then given.value else ReferencePrefix(kind) + uniq
  }

  /** A generated reference tells which purchase made it. */
  lemma GeneratedReferenceNamesKind(k1: Purchase, k2: Purchase, u1: string, u2: string)
    requires RequestReference(None, k1, u1) == RequestReference(None, k2, u2)
    ensures k1 == k2
  {
    var r := RequestReference(None, k1, u1);
    assert r[0] == ReferencePrefix(k1)[0] && r[0] == ReferencePrefix(k2)[0];
  }

  /** The purchase body. */
  function PurchasePayload(customerId: string, paymentCode: Json, amount: Decimal, reference: string): (p: Json)
    ensures Index(p, "RequestReference") == JStr(reference)
    ensures Index(p, "CustomerId") == JStr(customerId)
    ensures Index(p, "Amount") == JInt(ToKobo(amount))
    ensures Member(p, "PaymentCode") == Some(paymentCode)
  {
    var fields := [("CustomerId", JStr(customerId)), ("PaymentCode", paymentCode),
                   ("Amount", JInt(ToKobo(amount))), ("RequestReference", JStr(reference))];
    FindFirst(fields, "CustomerId", 0);
    FindFirst(fields, "PaymentCode", 1);
    FindFirst(fields, "Amount", 2);
    FindFirst(fields, "RequestReference", 3);
    JObj(fields)
  }

  /** Airtime pays with the product code, else `meta.payment_code`. */
  function AirtimePaymentCode(req: AirtimeRequest): (code: Json)
    ensures req.productCode.Some? ==> code == JStr(req.productCode.value)
    ensures req.productCode.None? ==> code == ArrGet(req.meta, "payment_code", JNull)
  {
    if req.productCode.Some? then JStr(req.productCode.value) else ArrGet(req.meta, "payment_code", JNull)
  }

  function AirtimePayload(req: AirtimeRequest, uniq: string): Json {
    PurchasePayload(req.phoneNumber, AirtimePaymentCode(req), req.amount, RequestReference(req.reference, Airtime, uniq))
  }

  function DataPayload(req: DataRequest, uniq: string): Json {
    PurchasePayload(req.phoneNumber, JStr(req.productCode), req.amount, RequestReference(req.reference, DataBundle, uniq))
  }

  function PowerPayload(req: PowerBillRequest, uniq: string): Json {
    PurchasePayload(req.meterNumber, JStr(req.productCode), req.amount, RequestReference(req.reference, Power, uniq))
  }

  function TvPayload(req: TvSubscriptionRequest, uniq: string): Json {
    PurchasePayload(req.smartcardNumber, JStr(req.productCode), req.amount, RequestReference(req.reference, Tv, uniq))
  }

  /** The customer-validation body: one customer and the terminal id. */
  function ValidationPayload(req: CustomerValidationRequest, terminalId: Json): (p: Json)
    ensures Index(p, "customers") == JList([JObj([("PaymentCode", JStr(req.productCode)), ("CustomerId", JStr(req.customerId))])])
    ensures Member(p, "TerminalId") == Some(terminalId)
  {
    var fields := [("customers", JList([JObj([("PaymentCode", JStr(req.productCode)), ("CustomerId", JStr(req.customerId))])])),
                   ("TerminalId", terminalId)];
    FindFirst(fields, "customers", 0);
    FindFirst(fields, "TerminalId", 1);
    JObj(fields)
  }

  // ----- signing -----

  /** The keyed hash and the encoding the signature uses, as oracles. */
  datatype Crypto = Crypto(hmacSha256: (string, string) -> seq<bv8>, base64: seq<bv8> -> string)

  /** A configuration value cast to string. */
  function ConfigString(config: Json, key: string): string { ToStr(ArrGet(config, key, JNull)) }

  function SignedUrl(config: Json, path: string): string {
    RTrimSlash(ConfigString(config, "base_url")) + path
  }

  function StringToSign(clientId: string, timestamp: string, nonce: string, url: string, verb: string): string {
    clientId + timestamp + nonce + url + Upper(verb)
  }

  /** HMAC-SHA256 of the signing string under `client_secret`, base64-encoded. */
  function Signature(config: Json, crypto: Crypto, stringToSign: string): string {
    crypto.base64(crypto.hmacSha256(stringToSign, ConfigString(config, "client_secret")))
  }

  /** The seven headers of a signed call, always all present. */
  function SignedHeaders(config: Json, token: string, timestamp: string, nonce: string, signature: string): (h: seq<(string, Json)>)
    ensures |h| == 7
    ensures [h[0].0, h[1].0, h[2].0, h[3].0, h[4].0, h[5].0, h[6].0] ==
      ["Authorization", "TerminalId", "Timestamp", "Nonce", "SignatureMethod", "Signature", "Accept"]
    ensures h[0].1 == JStr("Bearer " + token) && h[5].1 == JStr(signature)
    ensures h[2].1 == JStr(timestamp) && h[3].1 == JStr(nonce)
    ensures h[4].1 == ArrGet(config, "signature_method", JStr("SHA256"))
  {
    [("Authorization", JStr("Bearer " + token)),
     ("TerminalId", ArrGet(config, "terminal_id", JNull)),
     ("Timestamp", JStr(timestamp)),
     ("Nonce", JStr(nonce)),
     ("SignatureMethod", ArrGet(config, "signature_method", JStr("SHA256"))),
     ("Signature", JStr(signature)),
     ("Accept", JStr("application/json"))]
  }

  /** The request `signedRequest` sends, once it has a token, a timestamp
      and a nonce; a verb other than GET or POST raises. */
  function SignedCall(config: Json, crypto: Crypto, token: string, timestamp: string, nonce: string,
                      verb: string, path: string, options: Json): (r: Result<Request>)
    ensures r.Err? <==> Upper(verb) != "GET" && Upper(verb) != "POST"
    ensures r.Err? ==> r.error == RuntimeError("Unsupported HTTP method [" + verb + "].")
    ensures r.Ok? ==>
      var url := SignedUrl(config, path);
      var sts := StringToSign(ConfigString(config, "client_id"), timestamp, nonce, url, verb);
      && r.value.url == url
      && r.value.verb == Upper(verb)
      && r.value.headers == SignedHeaders(config, token, timestamp, nonce, Signature(config, crypto, sts))
      && r.value.basicAuth.None?
      && r.value.query == Index(options, "query")
      && (r.value.encoding == AsForm <==> Index(options, "as") == JStr("form"))
    ensures r.Ok? && Upper(verb) == "GET" ==> r.value.body == JNull
    ensures r.Ok? && Upper(verb) == "POST" ==>
      r.value.body == Coalesce(Index(options, "json"), Coalesce(Index(options, "form"), EmptyArray))
  {
    var url := SignedUrl(config, path);
    var sts := StringToSign(ConfigString(config, "client_id"), timestamp, nonce, url, verb);
    var headers := SignedHeaders(config, token, timestamp, nonce, Signature(config, crypto, sts));
    var encoding := if Index(options, "as") == JStr("form") then AsForm else AsJson;
    var verbUpper := Upper(verb);
    if verbUpper == "GET" then
      Ok(Request("GET", url, headers, None, Index(options, "query"), JNull, encoding))
    else if verbUpper == "POST" then
      Ok(Request("POST", url, headers, None, Index(options, "query"),
                 Coalesce(Index(options, "json"), Coalesce(Index(options, "form"), EmptyArray)), encoding))
    else Err(RuntimeError("Unsupported HTTP method [" + verb + "]."))
  }

  /** The signing string starts with the client id and ends with the
      upper-cased verb, with the timestamp, nonce and URL between. */
  lemma SigningStringParts(clientId: string, timestamp: string, nonce: string, url: string, verb: string)
    ensures var sts := StringToSign(clientId, timestamp, nonce, url, verb);
      |sts| == |clientId| + |timestamp| + |nonce| + |url| + |verb| &&
      sts[..|clientId|] == clientId && sts[|sts| - |verb|..] == Upper(verb) &&
      sts[|clientId| + |timestamp| + |nonce|..|sts| - |verb|] == url
  {
    var sts := StringToSign(clientId, timestamp, nonce, url, verb);
    var front := clientId + timestamp + nonce;
    assert sts == front + url + Upper(verb);
    assert sts[..|clientId|] == clientId;
    assert sts[|sts| - |verb|..] == Upper(verb);
    assert sts[|front|..|sts| - |verb|] == url;
  }

  /** The signature is HMAC-SHA256 whatever `signature_method` says: it
      depends on `client_id`, `client_secret` and `base_url` only, so two
      configurations that agree there sign identically; the setting shows
      only in the `SignatureMethod` header. */
  lemma SignatureIgnoresSignatureMethod(c1: Json, c2: Json, crypto: Crypto, timestamp: string,
                                        nonce: string, verb: string, path: string)
    requires ArrGet(c1, "client_id", JNull) == ArrGet(c2, "client_id", JNull)
    requires ArrGet(c1, "client_secret", JNull) == ArrGet(c2, "client_secret", JNull)
    requires ArrGet(c1, "base_url", JNull) == ArrGet(c2, "base_url", JNull)
    ensures SignedUrl(c1, path) == SignedUrl(c2, path)
    ensures Signature(c1, crypto, StringToSign(ConfigString(c1, "client_id"), timestamp, nonce, SignedUrl(c1, path), verb))
         == Signature(c2, crypto, StringToSign(ConfigString(c2, "client_id"), timestamp, nonce, SignedUrl(c2, path), verb))
  {
  }

  // ----- the token grant -----

  const CredentialsMissing := "Interswitch client credentials are not configured."
  const GrantFailed := "Failed to obtain Interswitch access token."
  const TokenMissing := "Interswitch token response missing access_token."

  /** Both credentials must be truthy before the grant is attempted. */
  predicate HasCredentials(config: Json) {
    Truthy(ArrGet(config, "client_id", JNull)) && Truthy(ArrGet(config, "client_secret", JNull))
  }

  /** The client-credentials grant: a form POST with HTTP Basic client
      authentication. */
  function GrantRequest(config: Json): (req: Request)
    ensures req.verb == "POST" && req.encoding == AsForm
    ensures req.url == RTrimSlash(ConfigString(config, "login_url")) + "/passport/oauth/token"
    ensures req.basicAuth == Some((ConfigString(config, "client_id"), ConfigString(config, "client_secret")))
    ensures req.body == JObj([("grant_type", JStr("client_credentials"))])
  {
    Request("POST", RTrimSlash(ConfigString(config, "login_url")) + "/passport/oauth/token", [],
            Some((ConfigString(config, "client_id"), ConfigString(config, "client_secret"))),
            JNull, JObj([("grant_type", JStr("client_credentials"))]), AsForm)
  }

  /** The token a grant response yields: an exception from the client goes
      through, a non-2xx response and a body without `access_token` raise. */
  function GrantToken(response: Result<Response>): (r: Result<Json>)
    ensures r.Ok? <==> response.Ok? && Successful(response.value) && Index(response.value.json, "access_token") != JNull
    ensures r.Ok? ==> r.value == Index(response.value.json, "access_token")
    ensures response.Err? ==> r == Err(response.error)
    ensures response.Ok? && !Successful(response.value) ==> r == Err(RuntimeError(GrantFailed))
    ensures response.Ok? && Successful(response.value) && Index(response.value.json, "access_token") == JNull
      ==> r == Err(RuntimeError(TokenMissing))
  {
    match response
    case Err(e) => Err(e)
    case Ok(resp) =>
      if !Successful(resp) then Err(RuntimeError(GrantFailed))
      else if Index(resp.json, "access_token") == JNull then Err(RuntimeError(TokenMissing))
      else Ok(Index(resp.json, "access_token"))
  }
}
