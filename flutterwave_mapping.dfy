/** The pure parts of the Flutterwave bills adapter: the request wrapper
    that turns every exception of a call into a failure record, the purchase
    and validation payloads, and the mappers from replies to results. */
module FlutterwaveMapping {
  import opened Php
  import opened Numeric
  import opened Http
  import opened Results
  import opened Requests

  const Provider := "flutterwave"
  const DefaultBaseUrl := "https://api.flutterwave.com/v3"
  const SecretMissing := "Flutterwave secret key is not configured"

  /** What stays fixed during the adapter's life: its configuration, the
      transport, and `urlencode`, taken as an oracle. */
  datatype Env = Env(config: Json, http: Transport, urlencode: string -> string)

  // ----- the request wrapper -----

  /** `rtrim(getConfig('base_url', default), '/')`. */
  function BaseUrl(config: Json): string {
    RTrimSlash(ToStr(ArrGet(config, "base_url", JStr(DefaultBaseUrl))))
  }

  /** `getConfig('country', 'NG')`. */
  function Country(config: Json): Json {
    ArrGet(config, "country", JStr("NG"))
  }

  predicate HasSecret(config: Json) {
    Truthy(ArrGet(config, "secret_key", JNull))
  }

  /** The bearer token and the two JSON headers of every call. */
  function Headers(config: Json): seq<(string, Json)> {
    [("Authorization", JStr("Bearer " + ToStr(ArrGet(config, "secret_key", JNull)))),
     ("Content-Type", JStr("application/json")),
     ("Accept", JStr("application/json"))]
  }

  /** The request for a verb: GET sends the payload as the query, POST as a
      JSON body; any other verb raises inside the call. */
  function BuildRequest(config: Json, verb: string, path: string, payload: Json): (r: Result<Request>)
    ensures r.Err? <==> Upper(verb) != "GET" && Upper(verb) != "POST"
    ensures r.Err? ==> r.error == RuntimeError("Unsupported HTTP method [" + verb + "] for Flutterwave bills.")
    ensures r.Ok? ==> r.value.url == BaseUrl(config) + path && r.value.headers == Headers(config)
    ensures r.Ok? ==> r.value.verb == Upper(verb) && r.value.encoding == AsJson && r.value.basicAuth.None?
    ensures r.Ok? && Upper(verb) == "GET" ==> r.value.query == payload && r.value.body == JNull
    ensures r.Ok? && Upper(verb) == "POST" ==> r.value.query == JNull && r.value.body == payload
  {
    var url := BaseUrl(config) + path;
    if Upper(verb) == "GET" then Ok(Request("GET", url, Headers(config), None, payload, JNull, AsJson))
    else if Upper(verb) == "POST" then Ok(Request("POST", url, Headers(config), None, JNull, payload, AsJson))
    else Err(RuntimeError("Unsupported HTTP method [" + verb + "] for Flutterwave bills."))
  }

  /** The record a caught exception becomes. */
  function Failed(message: string): Reply {
    Reply(false, 500, JObj([("message", JStr(message))]))
  }

  /** The record for what the transport did: a response keeps its status,
      with a null body read as `[]`; an exception becomes a failure record. */
  function Received(response: Result<Response>): (r: Reply)
    ensures response.Err? ==> r == Failed(response.error.message)
    ensures response.Ok? ==> r.ok == Successful(response.value) && r.status == response.value.status
    ensures response.Ok? ==> r.json == Coalesce(response.value.json, EmptyArray) && r.json != JNull
  {
    match response
    case Err(e) => Failed(e.message)
    case Ok(resp) => Reply(Successful(resp), resp.status, Coalesce(resp.json, EmptyArray))
  }

  /** `request`: its result and the requests it sent. Only a missing secret
      escapes as an exception, and it is raised before anything is sent;
      everything that goes wrong inside the call is reported as a record. */
  function Call(env: Env, verb: string, path: string, payload: Json): (Result<Reply>, seq<Request>) {
    if !HasSecret(env.config) then (Err(RuntimeError(SecretMissing)), [])
    else match BuildRequest(env.config, verb, path, payload)
      case Err(e) => (Ok(Failed(e.message)), [])
      case Ok(req) => (Ok(Received(env.http(req))), [req])
  }

  /** The wrapper raises exactly when the secret is missing, and then sends
      nothing; an unsupported verb sends nothing and yields a 500 record; a
      supported one sends one request and reports what came back. */
  lemma CallOutcomes(env: Env, verb: string, path: string, payload: Json)
    ensures var (r, sent) := Call(env, verb, path, payload);
      (r.Err? <==> !HasSecret(env.config)) &&
      (r.Err? ==> r.error == RuntimeError(SecretMissing) && sent == [])
    ensures var (r, sent) := Call(env, verb, path, payload);
      HasSecret(env.config) && Upper(verb) != "GET" && Upper(verb) != "POST" ==>
        sent == [] && r == Ok(Reply(false, 500, JObj([("message", JStr("Unsupported HTTP method [" + verb + "] for Flutterwave bills."))])))
    ensures var (r, sent) := Call(env, verb, path, payload);
      HasSecret(env.config) && (Upper(verb) == "GET" || Upper(verb) == "POST") ==>
        |sent| == 1 && sent[0].url == BaseUrl(env.config) + path && r == Ok(Received(env.http(sent[0])))
  {
  }

  /** With a secret, a POST sends exactly the request built for it, with the payload as its body. */
  lemma PostSendsBuilt(env: Env, path: string, payload: Json)
    requires HasSecret(env.config)
    ensures var req := BuildRequest(env.config, "POST", path, payload);
      req.Ok? && req.value.verb == "POST" && req.value.url == BaseUrl(env.config) + path &&
      req.value.body == payload && Call(env, "POST", path, payload).1 == [req.value]
  {
    UpperPost();
  }

  /** With a secret, a GET sends exactly the request built for it, with the payload as its query. */
  lemma GetSendsBuilt(env: Env, path: string, payload: Json)
    requires HasSecret(env.config)
    ensures var req := BuildRequest(env.config, "GET", path, payload);
      req.Ok? && req.value.verb == "GET" && req.value.url == BaseUrl(env.config) + path &&
      req.value.query == payload && Call(env, "GET", path, payload).1 == [req.value]
  {
    UpperGet();
  }

  lemma UpperPost()
    ensures Upper("POST") == "POST"
  {
  }

  lemma UpperGet()
    ensures Upper("GET") == "GET"
  {
  }

  /** A transport exception becomes `{ok: false, status: 500, json: {message}}`. */
  lemma TransportFailureIsRecorded(env: Env, verb: string, path: string, payload: Json, e: Error)
    requires HasSecret(env.config) && Upper(verb) == "GET"
    requires env.http(BuildRequest(env.config, verb, path, payload).value) == Err(e)
    ensures Call(env, verb, path, payload).0 == Ok(Reply(false, 500, JObj([("message", JStr(e.message))])))
  {
  }

  // ----- mapping replies to results -----

  /** `$json['data'] ?? []`. */
  function Data(json: Json): Json {
    Coalesce(Index(json, "data"), EmptyArray)
  }

  /** `$data['status'] ?? $json['status'] ?? ''`. */
  function StatusValue(json: Json): Json {
    Coalesce(Index(Data(json), "status"), Coalesce(Index(json, "status"), JStr("")))
  }

  /** `strtolower((string) ...)` of the status, when the cast succeeds. */
  function StatusText(json: Json): string {
    Lower(ToStr(StatusValue(json)))
  }

  /** The status cast, which raises on an array. */
  function StatusCast(json: Json): (r: Result<string>)
    ensures r.Err? <==> IsArray(StatusValue(json))
    ensures r.Err? ==> r.error == ErrorException(ArrayToString)
    ensures r.Ok? ==> r.value == StatusText(json)
  {
    var s :- Cast(StatusValue(json));
    Ok(Lower(s))
  }

  /** `$text ?: $default`. */
  function OrDefault(text: string, default: string): (r: string)
    ensures TruthyString(text) ==> r == text
    ensures !TruthyString(text) ==> r == default
  {
    if TruthyString(text) then text else default
  }

  const PurchaseFailed := "Transaction failed"

  /** `mapPurchaseResult`. An array status raises on its cast before
      anything else, and a payload value of the wrong type for a result
      field raises a TypeError, so the mapping is partial. */
  function MapPurchaseResult(reference: string, reply: Reply): Result<BillTransactionResult> {
    var json := Coalesce(reply.json, EmptyArray);
    var data := Data(json);
    var text :- StatusCast(json);
    if !reply.ok then
      var message :- NullableString(Coalesce(Index(json, "message"), JStr(PurchaseFailed)));
      var raw :- NullableArray(json);
      Ok(TransactionFailure(reference, Provider, Some(OrDefault(text, "failed")), message, None, raw))
    else
      var providerReference :- NullableString(Index(data, "flw_ref"));
      var amount := if Index(data, "amount") != JNull then Some(MajorUnits(Index(data, "amount"))) else None;
      var raw :- NullableArray(json);
      Ok(TransactionSuccess(reference, providerReference, amount, Provider, Some(OrDefault(text, "successful")), None, raw))
  }

  /** A purchase succeeds exactly when the call was a 2xx, whatever the
      status text says; the status is the lower-cased text, else "failed" /
      "successful"; the mapping fails only on a field of the wrong type,
      first on an array status. */
  lemma PurchaseSucceedsIffOk(reference: string, reply: Reply)
    ensures var r := MapPurchaseResult(reference, reply);
      var json := Coalesce(reply.json, EmptyArray);
      (r.Ok? <==> (IsArray(json) && !IsArray(StatusValue(json)) &&
                   (reply.ok ==> !IsArray(Index(Data(json), "flw_ref"))) &&
                   (!reply.ok ==> !IsArray(Index(json, "message"))))) &&
      (r.Err? ==> (if IsArray(StatusValue(json)) then r.error == ErrorException(ArrayToString) else r.error.TypeError?))
    ensures var r := MapPurchaseResult(reference, reply);
      var json := Coalesce(reply.json, EmptyArray);
      r.Ok? ==>
        r.value.success == reply.ok && r.value.reference == reference && r.value.provider == Provider &&
        r.value.status == OrDefault(StatusText(json), if reply.ok then "successful" else "failed") &&
        r.value.raw == Some(json)
  {
  }

  /** A failed purchase falls back to "Transaction failed" and carries no
      error code; a successful one carries `data.flw_ref` and `data.amount`. */
  lemma PurchaseResultFields(reference: string, reply: Reply)
    ensures var r := MapPurchaseResult(reference, reply);
      var json := Coalesce(reply.json, EmptyArray);
      r.Ok? && !reply.ok ==>
        r.value.errorCode == None &&
        r.value.message == (if Index(json, "message") == JNull then Some(PurchaseFailed) else NullableString(Index(json, "message")).value)
    ensures var r := MapPurchaseResult(reference, reply);
      var data := Data(Coalesce(reply.json, EmptyArray));
      r.Ok? && reply.ok ==>
        r.value.providerReference == NullableString(Index(data, "flw_ref")).value &&
        (r.value.amount.Some? <==> Index(data, "amount") != JNull) &&
        r.value.message == None
  {
  }

  /** `checkTransactionStatus`'s mapping: always a success record, unless
      the status cast or a result field raises. */
  function MapStatusResult(reference: string, reply: Reply): Result<BillTransactionStatusResult> {
    var json := Coalesce(reply.json, EmptyArray);
    var text :- StatusCast(json);
    var providerReference :- NullableString(Index(Data(json), "flw_ref"));
    var raw :- NullableArray(json);
    Ok(StatusSuccess(OrDefault(text, "successful"), reference, providerReference, Provider, None, raw))
  }

  /** The status check reports success whatever the reply, even a failed
      call, with the status text defaulting to "successful". */
  lemma StatusAlwaysSucceeds(reference: string, reply: Reply)
    ensures var r := MapStatusResult(reference, reply);
      var json := Coalesce(reply.json, EmptyArray);
      (r.Ok? <==> (IsArray(json) && !IsArray(StatusValue(json)) && !IsArray(Index(Data(json), "flw_ref")))) &&
      (r.Err? ==> (if IsArray(StatusValue(json)) then r.error == ErrorException(ArrayToString) else r.error.TypeError?))
    ensures var r := MapStatusResult(reference, reply);
      var json := Coalesce(reply.json, EmptyArray);
      r.Ok? ==>
        r.value.success && r.value.errorCode == None &&
        r.value.status == OrDefault(StatusText(json), "successful") && TruthyString(r.value.status) &&
        r.value.reference == reference && r.value.provider == Provider && r.value.raw == Some(json)
  {
  }

  const Validated := "Customer validated successfully"
  const ValidationFailed := "Failed to validate customer"
  const ValidationCode := "VALIDATION_FAILED"

  /** The validation rule: a 2xx reply with a non-empty `data.customer`. */
  predicate CustomerFound(reply: Reply) {
    reply.ok && Truthy(Index(Data(reply.json), "customer"))
  }

  /** `validateCustomer`'s mapping of the reply. The failure's error code
      is cast while the arguments are evaluated, so an array status raises
      before any parameter is checked. */
  function MapValidationResult(customerId: string, reply: Reply): Result<CustomerValidationResult> {
    var data := Data(reply.json);
    if CustomerFound(reply) then
      var id :- StringParam(Coalesce(Index(data, "customer"), JStr(customerId)));
      var name :- NullableString(Index(data, "name"));
      var message :- NullableString(Coalesce(Index(data, "message"), JStr(Validated)));
      var raw :- NullableArray(data);
      Ok(ValidationSuccess(id, name, Provider, message, raw))
    else
      var code :- Cast(Coalesce(Index(reply.json, "status"), JStr(ValidationCode)));
      var message :- NullableString(Coalesce(Index(data, "message"), JStr(ValidationFailed)));
      var raw :- NullableArray(data);
      Ok(ValidationFailure(customerId, Provider, message, Some(code), raw))
  }

  /** Validation succeeds exactly when the call was a 2xx and named a
      customer; a success reports the customer upstream returned, a failure
      the one asked about, with the upstream status as its error code. */
  lemma ValidationSucceedsIffCustomer(customerId: string, reply: Reply)
    ensures var r := MapValidationResult(customerId, reply);
      (r.Err? ==> r.error.TypeError? ||
                  (r.error == ErrorException(ArrayToString) && !CustomerFound(reply) &&
                   IsArray(Coalesce(Index(reply.json, "status"), JStr(ValidationCode))))) &&
      (r.Ok? ==> r.value.success == CustomerFound(reply) && r.value.provider == Provider &&
                 r.value.raw == Some(Data(reply.json)))
    ensures var r := MapValidationResult(customerId, reply);
      r.Ok? && r.value.success ==> r.value.customerId == ToStr(Index(Data(reply.json), "customer"))
    ensures var r := MapValidationResult(customerId, reply);
      r.Ok? && !r.value.success ==>
        r.value.customerId == customerId && r.value.customerName == None &&
        r.value.errorCode == Some(ToStr(Coalesce(Index(reply.json, "status"), JStr(ValidationCode))))
    ensures var r := MapValidationResult(customerId, reply);
      !CustomerFound(reply) && Index(Data(reply.json), "message") == JNull ==>
        (r.Ok? <==> IsArray(Data(reply.json)) && !IsArray(Index(reply.json, "status")))
  {
  }

  // ----- payloads -----

  datatype BillType = AirtimeBill | DataBill | ElectricityBill | CableBill

  /** The `type` a purchase sends. */
  function TypeName(t: BillType): string {
    match t
    case AirtimeBill => "AIRTIME"
    case DataBill => "DATA"
    case ElectricityBill => "ELECTRICITY"
    case CableBill => "CABLE"
  }

  /** `$reference ?: uniqid(strtolower($type) . '_', true)`: an empty or
      "0" reference is replaced too; `uniq` stands for what `uniqid` appends. */
  function PurchaseReference(given: Option<string>, t: BillType, uniq: string): (r: string)
    ensures given.Some? && TruthyString(given.value) ==> r == given.value
    ensures !(given.Some? && TruthyString(given.value)) ==> r == Lower(TypeName(t)) + "_" + uniq
  {
    if given.Some? && TruthyString(given.value) then given.value else Lower(TypeName(t)) + "_" + uniq
  }

  /** The prefix a generated reference starts with. */
  function GeneratedPrefix(t: BillType): string {
    match t
    case AirtimeBill => "airtime_"
    case DataBill => "data_"
    case ElectricityBill => "electricity_"
    case CableBill => "cable_"
  }

  /** A generated reference is the lower-cased type, an underscore and the
      `uniqid` suffix. */
  lemma GeneratedReferencePrefix(t: BillType, uniq: string)
    ensures PurchaseReference(None, t, uniq) == GeneratedPrefix(t) + uniq
  {
    var name := TypeName(t);
    match t {
      case AirtimeBill => LowerWord(name, "airtime");
      case DataBill => LowerWord(name, "data");
      case ElectricityBill => LowerWord(name, "electricity");
      case CableBill => LowerWord(name, "cable");
    }
    assert Lower(name) + "_" == GeneratedPrefix(t);
  }

  lemma LowerWord(s: string, lower: string)
    requires |s| == |lower| && forall i :: 0 <= i < |s| ==> LowerChar(s[i]) == lower[i]
    ensures Lower(s) == lower
  {
  }

  /** The five fields every purchase body has. */
  function PurchaseFields(config: Json, t: BillType, customer: string, kobo: int, reference: string,
                          meta: Json): seq<(string, Json)> {
    [("country", Coalesce(Index(meta, "country"), Country(config))), ("customer", JStr(customer)),
     ("amount", JInt(kobo)), ("type", JStr(TypeName(t))), ("reference", JStr(reference))]
  }

  /** The purchase body; `biller_code` is present only when a product code
      is given. The amount is carried in minor units, as `ToKobo` gives them. */
  function PurchasePayload(config: Json, t: BillType, customer: string, kobo: int, reference: string,
                           productCode: Option<string>, meta: Json): Json {
    JObj(PurchaseFields(config, t, customer, kobo, reference, meta) +
         (if productCode.Some? then [("biller_code", JStr(productCode.value))] else []))
  }

  /** A key found among the leading fields is found there in the whole object. */
  lemma {:induction false} FindInPrefix(fields: seq<(string, Json)>, extra: seq<(string, Json)>, k: string)
    requires Find(fields, k).Some?
    ensures Find(fields + extra, k) == Find(fields, k)
  {
    if fields[0].0 != k {
      assert (fields + extra)[1..] == fields[1..] + extra;
      FindInPrefix(fields[1..], extra, k);
    }
  }

  /** Each of the five leading fields reads back from the body. */
  lemma PurchasePayloadField(config: Json, t: BillType, customer: string, kobo: int, reference: string,
                             productCode: Option<string>, meta: Json, i: nat)
    requires 1 <= i < 5
    ensures var fields := PurchaseFields(config, t, customer, kobo, reference, meta);
      Index(PurchasePayload(config, t, customer, kobo, reference, productCode, meta), fields[i].0) == fields[i].1
  {
    var fields := PurchaseFields(config, t, customer, kobo, reference, meta);
    var extra := if productCode.Some? then [("biller_code", JStr(productCode.value))] else [];
    FindFirst(fields, fields[i].0, i);
    FindInPrefix(fields, extra, fields[i].0);
  }

  /** The body names the customer, the reference, the type and the amount. */
  lemma PurchasePayloadFields(config: Json, t: BillType, customer: string, kobo: int, reference: string,
                              productCode: Option<string>, meta: Json)
    ensures var p := PurchasePayload(config, t, customer, kobo, reference, productCode, meta);
      Index(p, "customer") == JStr(customer) && Index(p, "reference") == JStr(reference) &&
      Index(p, "type") == JStr(TypeName(t)) && Index(p, "amount") == JInt(kobo)
  {
    PurchasePayloadField(config, t, customer, kobo, reference, productCode, meta, 1);
    PurchasePayloadField(config, t, customer, kobo, reference, productCode, meta, 2);
    PurchasePayloadField(config, t, customer, kobo, reference, productCode, meta, 3);
    PurchasePayloadField(config, t, customer, kobo, reference, productCode, meta, 4);
  }

  /** The country comes from `meta`, else the configuration, else "NG"; the
      product code is sent as `biller_code` only when there is one. */
  lemma PurchasePayloadCountryAndCode(config: Json, t: BillType, customer: string, kobo: int, reference: string,
                                      productCode: Option<string>, meta: Json)
    ensures var p := PurchasePayload(config, t, customer, kobo, reference, productCode, meta);
      Member(p, "country") == Some(Coalesce(Index(meta, "country"), Country(config))) &&
      (productCode.Some? ==> Index(p, "biller_code") == JStr(productCode.value)) &&
      (productCode.None? ==> Member(p, "biller_code") == None)
  {
    var fields := PurchasePayload(config, t, customer, kobo, reference, productCode, meta).fields;
    FindFirst(fields, "country", 0);
    if productCode.Some? {
      FindFirst(fields, "biller_code", 5);
    }
  }

  /** The validation query. */
  function ValidationQuery(config: Json, req: CustomerValidationRequest): (q: Json)
    ensures Index(q, "item_code") == JStr(req.productCode) && Index(q, "customer") == JStr(req.customerId)
    ensures Member(q, "code") == Some(if req.billerCode.Some? then JStr(req.billerCode.value) else JNull)
    ensures Member(q, "country") == Some(if req.country.Some? then JStr(req.country.value) else Country(config))
  {
    var fields := [("item_code", JStr(req.productCode)),
                   ("code", if req.billerCode.Some? then JStr(req.billerCode.value) else JNull),
                   ("customer", JStr(req.customerId)),
                   ("country", if req.country.Some? then JStr(req.country.value) else Country(config))];
    FindFirst(fields, "item_code", 0);
    FindFirst(fields, "code", 1);
    FindFirst(fields, "customer", 2);
    FindFirst(fields, "country", 3);
    JObj(fields)
  }
}
