/** The Interswitch (Quickteller) adapter as an object: its configuration,
    the oracles it calls (transport, HMAC and base64, nonce source, clock
    formatting), the access-token cache entry, and the catalog store the
    sync writes to. Each signed call is proved to behave as the pure
    `SignedExchange`, and the sync to issue exactly the upserts of
    `SyncRun`. */
module Interswitch {
  import opened Php
  import opened Http
  import opened Results
  import opened Requests
  import opened Catalog
  import opened InterswitchCatalog
  import opened InterswitchMapping

  /** The token is cached for 50 minutes, in seconds. */
  const TokenTtl := 3000

  /** The cache entry under `billing.interswitch.access_token`. */
  datatype CacheEntry = CacheEntry(value: Json, expiresAt: int)

  /** What stays fixed during a provider's life: its configuration and the
      oracles. `nonces(k)` is the k-th `bin2hex(random_bytes(16))` drawn and
      `formatTime(t)` is `now()->format('Y-m-d H:i:s')` at time `t`. */
  datatype Env = Env(
    config: Json,
    http: Transport,
    crypto: Crypto,
    nonces: nat -> string,
    formatTime: int -> string)

  /** The state a call runs in: the clock reading, the cache entry and the
      number of nonces drawn. Calls change the cache entry and the draws;
      the clock moves only by `AdvanceClock`. */
  datatype Session = Session(now: int, entry: Option<CacheEntry>, draws: nat)

  /** An entry `Cache::remember` answers from: present, not expired, and
      not null (a stored null counts as a miss). */
  predicate Fresh(entry: Option<CacheEntry>, now: int) {
    entry.Some? && now < entry.value.expiresAt && entry.value.value != JNull
  }

  /** One `getAccessToken`: its result, the cache entry after it, and the
      requests it sent. */
  datatype TokenRun = TokenRun(result: Result<string>, entry: Option<CacheEntry>, requests: seq<Request>)

  /** `Cache::remember`: a fresh entry is used as it is; on a miss the
      credentials are checked, the grant is run and its token stored for
      50 minutes. The value goes back through the `string` return type. */
  function TokenLookup(env: Env, s: Session): TokenRun {
    if Fresh(s.entry, s.now) then TokenRun(StringParam(s.entry.value.value), s.entry, [])
    else TokenGrant(env, s)
  }

  /** The closure `Cache::remember` runs on a miss. */
  function TokenGrant(env: Env, s: Session): TokenRun {
    if !HasCredentials(env.config) then TokenRun(Err(RuntimeError(CredentialsMissing)), s.entry, [])
    else
      var req := GrantRequest(env.config);
      var (result, entry) := GrantOutcome(GrantToken(env.http(req)), s.entry, s.now);
      TokenRun(result, entry, [req])
  }

  /** What a grant leaves: a failure raises and keeps the old entry; a
      token is stored for 50 minutes and returned as a `string`. */
  function GrantOutcome(grant: Result<Json>, entry: Option<CacheEntry>, now: int): (Result<string>, Option<CacheEntry>) {
    if grant.Err? then (Err(grant.error), entry)
    else (StringParam(grant.value), Some(CacheEntry(grant.value, now + TokenTtl)))
  }

  /** A cache hit sends nothing, checks no credentials and returns the cached token. */
  lemma TokenHit(env: Env, s: Session)
    requires Fresh(s.entry, s.now)
    ensures var run := TokenLookup(env, s);
      run.requests == [] && run.entry == s.entry && run.result == StringParam(s.entry.value.value)
  {
  }

  /** On a miss with a falsy credential the call raises before sending
      anything, and the cache is left as it was. */
  lemma TokenMissWithoutCredentials(env: Env, s: Session)
    requires !Fresh(s.entry, s.now) && !HasCredentials(env.config)
    ensures TokenLookup(env, s) == TokenRun(Err(RuntimeError(CredentialsMissing)), s.entry, [])
  {
  }

  /** On a miss with both credentials exactly the grant request is sent. The
      call succeeds exactly when the grant yields a token that is not an
      array; a failed grant raises and leaves the cache as it was, and a
      token obtained is cached until now + 50 minutes. */
  lemma TokenMissGrant(env: Env, s: Session)
    requires !Fresh(s.entry, s.now) && HasCredentials(env.config)
    ensures var g := GrantToken(env.http(GrantRequest(env.config)));
      var run := TokenLookup(env, s);
      && run.requests == [GrantRequest(env.config)]
      && (run.result.Ok? <==> g.Ok? && !IsArray(g.value))
      && (g.Err? ==> run.result == Err(g.error) && run.entry == s.entry)
      && (g.Ok? ==> run.entry.Some? && run.entry.value.value == g.value && run.entry.value.expiresAt == s.now + TokenTtl)
  {
  }

  /** A token obtained by a grant is reused, with no request and the same
      outcome, by every later call within the next 50 minutes, whatever the
      transport then does. A granted token is never null, since a reply
      without one fails the grant. */
  lemma TokenReuse(env: Env, s: Session, env2: Env, later: int, draws: nat)
    requires !Fresh(s.entry, s.now) && HasCredentials(env.config)
    requires GrantToken(env.http(GrantRequest(env.config))).Ok?
    requires s.now <= later < s.now + TokenTtl
    ensures var first := TokenLookup(env, s);
      var second := TokenLookup(env2, Session(later, first.entry, draws));
      second.requests == [] && second.result == first.result && second.entry == first.entry
  {
  }

  /** What a signed call returns for what the transport did. */
  function Deliver(response: Result<Response>): (r: Result<Reply>)
    ensures response.Ok? ==> r == Ok(ReplyOf(response.value))
    ensures response.Err? ==> r == Err(response.error)
  {
    match response
    case Ok(resp) => Ok(ReplyOf(resp))
    case Err(e) => Err(e)
  }

  /** One signed call: its reply, the session after it and the requests sent. */
  datatype Exchange = Exchange(reply: Result<Reply>, session: Session, requests: seq<Request>)

  /** `signedRequest`: the token first (which may raise or fill the cache),
      then the signed call. */
  function SignedExchange(env: Env, s: Session, verb: string, path: string, options: Json): Exchange {
    var t := TokenLookup(env, s);
    if t.result.Err? then Exchange(Err(t.result.error), s.(entry := t.entry), t.requests)
    else
      var x := SignedSend(env, s.(entry := t.entry), t.result.value, verb, path, options);
      Exchange(x.reply, x.session, t.requests + x.requests)
  }

  /** The rest of `signedRequest` once it holds a token: a timestamp and a
      nonce are drawn, the method is checked and the call is sent. */
  function SignedSend(env: Env, s: Session, token: string, verb: string, path: string, options: Json): Exchange {
    var call := SignedCall(env.config, env.crypto, token, env.formatTime(s.now), env.nonces(s.draws),
                           verb, path, options);
    var (reply, requests) := SendOutcome(call, env.http);
    Exchange(reply, s.(draws := s.draws + 1), requests)
  }

  /** A call that could not be built raises and sends nothing; one that
      could is sent, and its reply or exception is the result. */
  function SendOutcome(call: Result<Request>, http: Transport): (Result<Reply>, seq<Request>) {
    if call.Err? then (Err(call.error), []) else (Deliver(http(call.value)), [call.value])
  }

  /** An unsupported verb raises, but only once the token has been obtained
      (so a miss still runs the grant and fills the cache) and a nonce drawn;
      the call itself is never sent. */
  lemma UnsupportedVerbAfterToken(env: Env, s: Session, verb: string, path: string, options: Json)
    requires Upper(verb) != "GET" && Upper(verb) != "POST"
    ensures var x := SignedExchange(env, s, verb, path, options);
      var t := TokenLookup(env, s);
      x.session.entry == t.entry && x.requests == t.requests &&
      (t.result.Ok? ==> x.reply == Err(RuntimeError("Unsupported HTTP method [" + verb + "].")) && x.session.draws == s.draws + 1) &&
      (t.result.Err? ==> x.reply == Err(t.result.error) && x.session.draws == s.draws)
  {
  }

  /** A call that is sent carries the seven signing headers, is signed over
      the URL it goes to, and takes the reply of the transport. */
  lemma SentCallIsSigned(env: Env, s: Session, verb: string, path: string, options: Json)
    requires TokenLookup(env, s).result.Ok?
    requires SignedCall(env.config, env.crypto, TokenLookup(env, s).result.value, env.formatTime(s.now),
                        env.nonces(s.draws), verb, path, options).Ok?
    ensures var x := SignedExchange(env, s, verb, path, options);
      var req := x.requests[|x.requests| - 1];
      var sts := StringToSign(ConfigString(env.config, "client_id"), env.formatTime(s.now), env.nonces(s.draws),
                              SignedUrl(env.config, path), verb);
      |x.requests| >= 1 && req.url == SignedUrl(env.config, path) && |req.headers| == 7 &&
      req.headers[5].1 == JStr(Signature(env.config, env.crypto, sts)) &&
      req.headers[3].1 == JStr(env.nonces(s.draws)) &&
      x.reply == Deliver(env.http(req))
  {
    var t := TokenLookup(env, s);
    var call := SignedCall(env.config, env.crypto, t.result.value, env.formatTime(s.now), env.nonces(s.draws),
                           verb, path, options);
    ExchangeSendsCall(env, s, verb, path, options);
    var x := SignedExchange(env, s, verb, path, options);
    assert x.requests[|x.requests| - 1] == call.value;
  }

  /** Once a token is held and the call can be built, the exchange appends
      exactly that call to the token's requests and takes its reply. */
  lemma ExchangeSendsCall(env: Env, s: Session, verb: string, path: string, options: Json)
    requires TokenLookup(env, s).result.Ok?
    requires SignedCall(env.config, env.crypto, TokenLookup(env, s).result.value, env.formatTime(s.now),
                        env.nonces(s.draws), verb, path, options).Ok?
    ensures var t := TokenLookup(env, s);
      var call := SignedCall(env.config, env.crypto, t.result.value, env.formatTime(s.now), env.nonces(s.draws),
                             verb, path, options);
      var x := SignedExchange(env, s, verb, path, options);
      x.requests == t.requests + [call.value] && x.reply == Deliver(env.http(call.value))
  {
  }

  /** With a token in hand, the exchange is the token lookup followed by
      the signed send, and their requests are logged in that order. */
  lemma ExchangeAfterToken(env: Env, s: Session, verb: string, path: string, options: Json,
                           sent0: seq<Request>, sent1: seq<Request>, sent2: seq<Request>)
    requires TokenLookup(env, s).result.Ok?
    requires sent1 == sent0 + TokenLookup(env, s).requests
    requires sent2 == sent1 + SignedSend(env, s.(entry := TokenLookup(env, s).entry),
                                         TokenLookup(env, s).result.value, verb, path, options).requests
    ensures var t := TokenLookup(env, s);
      var x := SignedSend(env, s.(entry := t.entry), t.result.value, verb, path, options);
      SignedExchange(env, s, verb, path, options) == Exchange(x.reply, x.session, t.requests + x.requests) &&
      sent2 == sent0 + SignedExchange(env, s, verb, path, options).requests
  {
    var t := TokenLookup(env, s);
    var x := SignedSend(env, s.(entry := t.entry), t.result.value, verb, path, options);
    assert sent2 == sent0 + (t.requests + x.requests);
  }

  /** A call to a configured endpoint: `getConfig('endpoints.x')` goes to a
      `string` parameter, so a missing endpoint raises before anything else. */
  function EndpointExchange(env: Env, s: Session, endpoint: string, verb: string, options: Json): (x: Exchange)
    ensures StringParam(ArrGet(env.config, "endpoints." + endpoint, JNull)).Err? ==>
      x == Exchange(Err(TypeError("string expected")), s, [])
    ensures StringParam(ArrGet(env.config, "endpoints." + endpoint, JNull)).Ok? ==>
      x == SignedExchange(env, s, verb, StringParam(ArrGet(env.config, "endpoints." + endpoint, JNull)).value, options)
  {
    match StringParam(ArrGet(env.config, "endpoints." + endpoint, JNull))
    case Err(e) => Exchange(Err(e), s, [])
    case Ok(path) => SignedExchange(env, s, verb, path, options)
  }

  /** Whether the sync got far enough to fetch the services. */
  predicate FetchesServices(categories: Result<Reply>) {
    categories.Ok? && categories.value.ok && CategoriesRun(Coalesce(categories.value.json, EmptyArray)).err.None?
  }

  class InterswitchProvider {
    const config: Json
    const http: Transport
    const crypto: Crypto
    const nonces: nat -> string
    const formatTime: int -> string
    const store: CatalogStore
    var now: int
    var tokenEntry: Option<CacheEntry>
    var draws: nat
    /** Every request sent so far, in order. */
    var sent: seq<Request>

    function Environment(): Env {
      Env(config, http, crypto, nonces, formatTime)
    }

    function State(): Session
      reads this
    {
      Session(now, tokenEntry, draws)
    }

    constructor (config: Json, http: Transport, crypto: Crypto, nonces: nat -> string, formatTime: int -> string,
                 store: CatalogStore, now: int, tokenEntry: Option<CacheEntry>)
      ensures this.config == config && this.http == http && this.crypto == crypto
      ensures this.nonces == nonces && this.formatTime == formatTime && this.store == store
      ensures this.now == now && this.tokenEntry == tokenEntry && draws == 0 && sent == []
    {
      this.config := config;
      this.http := http;
      this.crypto := crypto;
      this.nonces := nonces;
      this.formatTime := formatTime;
      this.store := store;
      this.now := now;
      this.tokenEntry := tokenEntry;
      draws := 0;
      sent := [];
    }

    /** Time passes between calls: the clock reads `t`, and nothing else
        changes. */
    method AdvanceClock(t: int)
      requires t >= now
      modifies this
      ensures now == t && tokenEntry == old(tokenEntry) && draws == old(draws) && sent == old(sent)
    {
      now := t;
    }

    /** `getAccessToken`. */
    method GetAccessToken() returns (token: Result<string>)
      modifies this
      ensures var run := TokenLookup(Environment(), old(State()));
        token == run.result && tokenEntry == run.entry && sent == old(sent) + run.requests
      ensures now == old(now) && draws == old(draws)
    {
      if Fresh(tokenEntry, now) {
        return StringParam(tokenEntry.value.value);
      }
      token := GrantAccessToken();
    }

    /** The grant run on a cache miss. */
    method GrantAccessToken() returns (token: Result<string>)
      modifies this
      ensures var run := TokenGrant(Environment(), old(State()));
        token == run.result && tokenEntry == run.entry && sent == old(sent) + run.requests
      ensures now == old(now) && draws == old(draws)
    {
      if !HasCredentials(config) {
        return Err(RuntimeError(CredentialsMissing));
      }
      token := SendGrant();
    }

    /** The grant request itself, once both credentials are present. */
    method SendGrant() returns (token: Result<string>)
      requires HasCredentials(config)
      modifies this
      ensures var run := TokenGrant(Environment(), old(State()));
        token == run.result && tokenEntry == run.entry && sent == old(sent) + run.requests
      ensures now == old(now) && draws == old(draws)
    {
      var req := GrantRequest(config);
      var grant := GrantToken(http(req));
      var outcome := GrantOutcome(grant, tokenEntry, now);
      sent := sent + [req];
      tokenEntry := outcome.1;
      token := outcome.0;
    }

    /** `signedRequest`. */
    method SignedRequest(verb: string, path: string, options: Json) returns (r: Result<Reply>)
      modifies this
      ensures var x := SignedExchange(Environment(), old(State()), verb, path, options);
        r == x.reply && State() == x.session && sent == old(sent) + x.requests
    {
      ghost var s0 := State();
      ghost var sent0 := sent;
      var token := GetAccessToken();
      if token.Err? {
        return Err(token.error);
      }
      ghost var s1 := State();
      ghost var sent1 := sent;
      r := SendSigned(token.value, verb, path, options);
      ExchangeAfterToken(Environment(), s0, verb, path, options, sent0, sent1, sent);
    }

    /** The signed call made with a token in hand. */
    method SendSigned(token: string, verb: string, path: string, options: Json) returns (r: Result<Reply>)
      modifies this
      ensures var x := SignedSend(Environment(), old(State()), token, verb, path, options);
        r == x.reply && State() == x.session && sent == old(sent) + x.requests
    {
      var call := SignedCall(config, crypto, token, formatTime(now), nonces(draws), verb, path, options);
      draws := draws + 1;
      r := Transmit(call);
    }

    /** Sends a call that could be built; one that could not raises. */
    method Transmit(call: Result<Request>) returns (r: Result<Reply>)
      modifies this
      ensures r == SendOutcome(call, http).0 && sent == old(sent) + SendOutcome(call, http).1
      ensures State() == old(State())
    {
      var outcome := SendOutcome(call, http);
      sent := sent + outcome.1;
      r := outcome.0;
    }

    /** A signed call to `endpoints.<endpoint>`. */
    method CallEndpoint(endpoint: string, verb: string, options: Json) returns (r: Result<Reply>)
      modifies this
      ensures var x := EndpointExchange(Environment(), old(State()), endpoint, verb, options);
        r == x.reply && State() == x.session && sent == old(sent) + x.requests
    {
      var path := StringParam(ArrGet(config, "endpoints." + endpoint, JNull));
      if path.Err? {
        return Err(path.error);
      }
      r := SignedRequest(verb, path.value, options);
    }

    /** The `['json' => $payload]` options of a POST. */
    static function JsonOptions(payload: Json): (options: Json)
      ensures Index(options, "json") == payload || payload == JNull
      ensures Index(options, "query") == JNull && Index(options, "as") == JNull
    {
      FindFirst([("json", payload)], "json", 0);
      JObj([("json", payload)])
    }

    /** A purchase: POST the payload to `endpoints.purchase`, map the reply. */
    method Purchase(payload: Json, reference: string) returns (r: Result<BillTransactionResult>)
      modifies this
      ensures var x := EndpointExchange(Environment(), old(State()), "purchase", "POST", JsonOptions(payload));
        State() == x.session && sent == old(sent) + x.requests &&
        r == (match x.reply case Err(e) => Err(e) case Ok(reply) => MapTransactionResult(reference, reply))
    {
      var reply := CallEndpoint("purchase", "POST", JsonOptions(payload));
      if reply.Err? {
        return Err(reply.error);
      }
      r := MapTransactionResult(reference, reply.value);
    }

    /** `purchaseAirtime`: the result carries the payload's reference. */
    method PurchaseAirtime(req: AirtimeRequest, uniq: string) returns (r: Result<BillTransactionResult>)
      modifies this
      ensures var x := EndpointExchange(Environment(), old(State()), "purchase", "POST", JsonOptions(AirtimePayload(req, uniq)));
        State() == x.session && sent == old(sent) + x.requests &&
        r == (match x.reply case Err(e) => Err(e) case Ok(reply) => MapTransactionResult(RequestReference(req.reference, Airtime, uniq), reply))
      ensures r.Ok? ==> r.value.reference == RequestReference(req.reference, Airtime, uniq)
    {
      r := Purchase(AirtimePayload(req, uniq), RequestReference(req.reference, Airtime, uniq));
    }

    method PurchaseData(req: DataRequest, uniq: string) returns (r: Result<BillTransactionResult>)
      modifies this
      ensures var x := EndpointExchange(Environment(), old(State()), "purchase", "POST", JsonOptions(DataPayload(req, uniq)));
        State() == x.session && sent == old(sent) + x.requests &&
        r == (match x.reply case Err(e) => Err(e) case Ok(reply) => MapTransactionResult(RequestReference(req.reference, DataBundle, uniq), reply))
      ensures r.Ok? ==> r.value.reference == RequestReference(req.reference, DataBundle, uniq)
    {
      r := Purchase(DataPayload(req, uniq), RequestReference(req.reference, DataBundle, uniq));
    }

    method PayPowerBill(req: PowerBillRequest, uniq: string) returns (r: Result<BillTransactionResult>)
      modifies this
      ensures var x := EndpointExchange(Environment(), old(State()), "purchase", "POST", JsonOptions(PowerPayload(req, uniq)));
        State() == x.session && sent == old(sent) + x.requests &&
        r == (match x.reply case Err(e) => Err(e) case Ok(reply) => MapTransactionResult(RequestReference(req.reference, Power, uniq), reply))
      ensures r.Ok? ==> r.value.reference == RequestReference(req.reference, Power, uniq)
    {
      r := Purchase(PowerPayload(req, uniq), RequestReference(req.reference, Power, uniq));
    }

    method PayTvSubscription(req: TvSubscriptionRequest, uniq: string) returns (r: Result<BillTransactionResult>)
      modifies this
      ensures var x := EndpointExchange(Environment(), old(State()), "purchase", "POST", JsonOptions(TvPayload(req, uniq)));
        State() == x.session && sent == old(sent) + x.requests &&
        r == (match x.reply case Err(e) => Err(e) case Ok(reply) => MapTransactionResult(RequestReference(req.reference, Tv, uniq), reply))
      ensures r.Ok? ==> r.value.reference == RequestReference(req.reference, Tv, uniq)
    {
      r := Purchase(TvPayload(req, uniq), RequestReference(req.reference, Tv, uniq));
    }

    /** `validateCustomer`: POST the customer and terminal id, map the reply. */
    method ValidateCustomer(req: CustomerValidationRequest) returns (r: Result<CustomerValidationResult>)
      modifies this
      ensures var payload := ValidationPayload(req, ArrGet(config, "terminal_id", JNull));
        var x := EndpointExchange(Environment(), old(State()), "validate_customer", "POST", JsonOptions(payload));
        State() == x.session && sent == old(sent) + x.requests &&
        r == (match x.reply case Err(e) => Err(e) case Ok(reply) => MapValidationResult(req.customerId, reply))
    {
      var payload := ValidationPayload(req, ArrGet(config, "terminal_id", JNull));
      var reply := CallEndpoint("validate_customer", "POST", JsonOptions(payload));
      if reply.Err? {
        return Err(reply.error);
      }
      r := MapValidationResult(req.customerId, reply.value);
    }

    /** The `['query' => ['requestRef' => $reference]]` options of the status check. */
    static function StatusQuery(reference: string): (options: Json)
      ensures Index(options, "query") == JObj([("requestRef", JStr(reference))])
    {
      FindFirst([("query", JObj([("requestRef", JStr(reference))]))], "query", 0);
      JObj([("query", JObj([("requestRef", JStr(reference))]))])
    }

    /** `checkTransactionStatus`: GET with the reference as `requestRef`. */
    method CheckTransactionStatus(reference: string) returns (r: Result<BillTransactionStatusResult>)
      modifies this
      ensures var x := EndpointExchange(Environment(), old(State()), "transaction_status", "GET", StatusQuery(reference));
        State() == x.session && sent == old(sent) + x.requests &&
        r == (match x.reply case Err(e) => Err(e) case Ok(reply) => MapStatusResult(reference, reply))
    {
      var reply := CallEndpoint("transaction_status", "GET", StatusQuery(reference));
      if reply.Err? {
        return Err(reply.error);
      }
      r := MapStatusResult(reference, reply.value);
    }

    // ----- the catalog sync -----

    /** The category loop: upserts each category with a truthy id and name,
        until a category id that is an array raises at its cast. */
    method SyncCategories(cats: seq<Json>) returns (count: nat, err: Option<Error>)
      modifies store
      ensures var bt := CategoryWrites(cats);
        count == |bt.writes| && err == bt.err &&
        store.log == old(store.log) + bt.writes && store.tables == ApplyAll(old(store.tables), bt.writes)
    {
      ghost var log0 := store.log;
      ghost var t0 := store.tables;
      count := 0;
      err := None;
      ghost var bt := Batch([], None);
      var i := 0;
      while i < |cats| && err.None?
        invariant 0 <= i <= |cats|
        invariant bt == CategoryWrites(cats[..i]) && err == bt.err
        invariant count == |bt.writes| && store.log == log0 + bt.writes && store.tables == ApplyAll(t0, bt.writes)
      {
        CategoryWritesSnoc(cats, i);
        var written := SyncCategory(cats[i], log0, t0, bt.writes);
        if written.Err? {
          err := Some(written.error);
          bt := Batch(bt.writes, err);
        } else {
          if written.value {
            count := count + 1;
          }
          bt := Batch(bt.writes + CategoryWrite(cats[i]).value, None);
        }
        i := i + 1;
      }
      if err.Some? {
        CategoryWritesErrSticks(cats, i);
      } else {
        assert cats[..i] == cats;
      }
    }

    /** One category of the loop: its id cast, then its upsert unless its id
        or name is falsy. */
    method SyncCategory(c: Json, ghost log0: seq<Upsert>, ghost t0: Tables, ghost ws: seq<Upsert>)
      returns (written: Result<bool>)
      requires store.log == log0 + ws && store.tables == ApplyAll(t0, ws)
      modifies store
      ensures var w := CategoryWrite(c);
        (w.Err? ==> written == Err(w.error) && store.log == log0 + ws && store.tables == ApplyAll(t0, ws)) &&
        (w.Ok? ==> written == Ok(w.value != []) &&
                   store.log == log0 + (ws + w.value) && store.tables == ApplyAll(t0, ws + w.value))
    {
      var id := Cast(CategoryIdValue(c));
      if id.Err? {
        return Err(id.error);
      }
      var name := CategoryName(c);
      if !TruthyString(id.value) || !Truthy(name) {
        assert ws + [] == ws;
        return Ok(false);
      }
      var u := UpsertCategory((InterswitchCatalog.Provider, id.value), name);
      ApplyAllSnoc(t0, ws, u);
      store.Upsert(u);
      written := Ok(true);
    }

    /** Writes a biller the first time its truthy id is seen. */
    method RecordBillerOnce(st: SyncState, b: Option<(string, Json)>, ghost logBase: seq<Upsert>, ghost tBase: Tables)
      returns (st': SyncState)
      requires store.log == logBase + st.writes && store.tables == ApplyAll(tBase, st.writes)
      modifies store
      ensures st' == WithBiller(st, b)
      ensures store.log == logBase + st'.writes && store.tables == ApplyAll(tBase, st'.writes)
    {
      st' := st;
      if b.Some? && TruthyString(b.value.0) && b.value.0 !in st.seen {
        var u := BillerUpsert(b.value.0, b.value.1);
        ApplyAllSnoc(tBase, st.writes, u);
        store.Upsert(u);
        st' := st.(seen := st.seen + {b.value.0}, billers := st.billers + 1, writes := st.writes + [u]);
      }
    }

    /** One record of a flat list. */
    method SyncLeaf(st: SyncState, x: Json, kind: Leaf, ghost logBase: seq<Upsert>, ghost tBase: Tables)
      returns (o: Outcome)
      requires store.log == logBase + st.writes && store.tables == ApplyAll(tBase, st.writes)
      modifies store
      ensures o == LeafStep(st, x, kind)
      ensures store.log == logBase + o.st.writes && store.tables == ApplyAll(tBase, o.st.writes)
    {
      if LeafCastRaises(x, kind) {
        return Outcome(st, Some(ErrorException(ArrayToString)));
      }
      if LeafSkipped(x, kind) {
        return Outcome(st, None);
      }
      var st1 := RecordBillerOnce(st, LeafBiller(x, kind), logBase, tBase);
      o := SyncProduct(st1, x, kind, logBase, tBase);
    }

    /** Classify a record and upsert its product. */
    method SyncProduct(st: SyncState, x: Json, kind: Leaf, ghost logBase: seq<Upsert>, ghost tBase: Tables)
      returns (o: Outcome)
      requires store.log == logBase + st.writes && store.tables == ApplyAll(tBase, st.writes)
      modifies store
      ensures o == LeafProduct(st, x, kind)
      ensures store.log == logBase + o.st.writes && store.tables == ApplyAll(tBase, o.st.writes)
    {
      var flags := ClassifyLeaf(x, kind);
      if flags.Err? {
        return Outcome(st, Some(flags.error));
      }
      var u := LeafWrite(x, kind, flags.value);
      ApplyAllSnoc(tBase, st.writes, u);
      store.Upsert(u);
      o := Outcome(AddProduct(st, u), None);
    }

    /** A flat list, stopping at the first error. */
    method SyncLeaves(st: SyncState, xs: seq<Json>, kind: Leaf, ghost logBase: seq<Upsert>, ghost tBase: Tables)
      returns (o: Outcome)
      requires store.log == logBase + st.writes && store.tables == ApplyAll(tBase, st.writes)
      modifies store
      ensures o == LeafFold(st, xs, kind)
      ensures store.log == logBase + o.st.writes && store.tables == ApplyAll(tBase, o.st.writes)
    {
      o := Outcome(st, None);
      var i := 0;
      while i < |xs| && o.err.None?
        invariant 0 <= i <= |xs|
        invariant o == LeafFold(st, xs[..i], kind)
        invariant store.log == logBase + o.st.writes && store.tables == ApplyAll(tBase, o.st.writes)
      {
        LeafFoldSnoc(st, xs, kind, i);
        o := SyncLeaf(o.st, xs[i], kind, logBase, tBase);
        i := i + 1;
      }
      if o.err.Some? {
        LeafFoldErrSticks(st, xs, kind, i);
      } else {
        assert xs[..i] == xs;
      }
    }

    /** The `foreach` over a flat list: raises when it is not an array. */
    method SyncLeafList(st: SyncState, list: Json, kind: Leaf, ghost logBase: seq<Upsert>, ghost tBase: Tables)
      returns (o: Outcome)
      requires store.log == logBase + st.writes && store.tables == ApplyAll(tBase, st.writes)
      modifies store
      ensures o == LeavesRun(st, list, kind)
      ensures store.log == logBase + o.st.writes && store.tables == ApplyAll(tBase, o.st.writes)
    {
      var xs := Iterate(list);
      if xs.Err? {
        return Outcome(st, Some(xs.error));
      }
      o := SyncLeaves(st, xs.value, kind, logBase, tBase);
    }

    /** The `foreach` over a list of groups: raises when it is not an array. */
    method SyncGroupList(st: SyncState, list: Json, kind: Group, ghost logBase: seq<Upsert>, ghost tBase: Tables)
      returns (o: Outcome)
      requires store.log == logBase + st.writes && store.tables == ApplyAll(tBase, st.writes)
      modifies store
      ensures o == GroupsRun(st, list, kind)
      ensures store.log == logBase + o.st.writes && store.tables == ApplyAll(tBase, o.st.writes)
    {
      var xs := Iterate(list);
      if xs.Err? {
        return Outcome(st, Some(xs.error));
      }
      o := SyncGroups(st, xs.value, kind, logBase, tBase);
    }

    /** A list of groups (billers with items, or categories with billers). */
    method SyncGroups(st: SyncState, xs: seq<Json>, kind: Group, ghost logBase: seq<Upsert>, ghost tBase: Tables)
      returns (o: Outcome)
      requires store.log == logBase + st.writes && store.tables == ApplyAll(tBase, st.writes)
      modifies store
      ensures o == GroupFold(st, xs, kind)
      ensures store.log == logBase + o.st.writes && store.tables == ApplyAll(tBase, o.st.writes)
    {
      o := Outcome(st, None);
      var i := 0;
      while i < |xs| && o.err.None?
        invariant 0 <= i <= |xs|
        invariant o == GroupFold(st, xs[..i], kind)
        invariant store.log == logBase + o.st.writes && store.tables == ApplyAll(tBase, o.st.writes)
      {
        GroupFoldSnoc(st, xs, kind, i);
        o := SyncGroup(o.st, xs[i], kind, logBase, tBase);
        i := i + 1;
      }
      if o.err.Some? {
        GroupFoldErrSticks(st, xs, kind, i);
      } else {
        assert xs[..i] == xs;
      }
    }

    /** One group: its id casts, its biller, if any, then its own list. */
    method SyncGroup(st: SyncState, x: Json, kind: Group, ghost logBase: seq<Upsert>, ghost tBase: Tables)
      returns (o: Outcome)
      requires store.log == logBase + st.writes && store.tables == ApplyAll(tBase, st.writes)
      modifies store
      ensures o == GroupStep(st, x, kind)
      ensures store.log == logBase + o.st.writes && store.tables == ApplyAll(tBase, o.st.writes)
    {
      if GroupCastRaises(x, kind) {
        return Outcome(st, Some(ErrorException(ArrayToString)));
      }
      var st1 := RecordBillerOnce(st, GroupBiller(x, kind), logBase, tBase);
      o := SyncLeafList(st1, GroupItems(x, kind), GroupLeaf(x, kind), logBase, tBase);
    }

    /** The services part: the three shapes, one seen set. */
    method SyncServices(json: Json) returns (o: Outcome)
      modifies store
      ensures o == ServicesPlan(json)
      ensures store.log == old(store.log) + o.st.writes && store.tables == ApplyAll(old(store.tables), o.st.writes)
    {
      ghost var logBase := store.log;
      ghost var tBase := store.tables;
      assert store.log == logBase + Start.writes;
      o := SyncGroupList(Start, BillersPayload(json), BillerWithItems, logBase, tBase);
      if o.err.Some? {
        return;
      }
      o := SyncGroupList(o.st, BillerListPayload(json), BillerListCategory, logBase, tBase);
      if o.err.Some? {
        return;
      }
      o := SyncLeafList(o.st, FlatPayload(json), FlatService, logBase, tBase);
    }

    /** `syncCatalog`: categories, then services; the result and the upserts
        are those of `SyncRun` on the two replies the calls produced. */
    method SyncCatalog() returns (r: Result<SyncCounts>)
      modifies this, store
      ensures var x1 := EndpointExchange(Environment(), old(State()), "categories", "GET", EmptyArray);
        var x2 := EndpointExchange(Environment(), x1.session, "services", "GET", EmptyArray);
        var run := SyncRun(x1.reply, x2.reply);
        && r == run.0
        && store.log == old(store.log) + run.1
        && store.tables == ApplyAll(old(store.tables), run.1)
        && (FetchesServices(x1.reply) ==> State() == x2.session && sent == old(sent) + x1.requests + x2.requests)
        && (!FetchesServices(x1.reply) ==> State() == x1.session && sent == old(sent) + x1.requests)
    {
      var categories := CallEndpoint("categories", "GET", EmptyArray);
      if categories.Err? {
        return Err(categories.error);
      }
      if !categories.value.ok {
        return Err(RuntimeError(CategoriesFailed));
      }
      r := SyncFromCategories(categories.value);
    }

    /** The sync once the categories reply is in and successful: the
        category loop, then, unless it raised, the services. */
    method SyncFromCategories(categories: Reply) returns (r: Result<SyncCounts>)
      requires categories.ok
      modifies this, store
      ensures var x2 := EndpointExchange(Environment(), old(State()), "services", "GET", EmptyArray);
        var run := SyncRun(Ok(categories), x2.reply);
        && r == run.0
        && store.log == old(store.log) + run.1
        && store.tables == ApplyAll(old(store.tables), run.1)
        && (FetchesServices(Ok(categories)) ==> State() == x2.session && sent == old(sent) + x2.requests)
        && (!FetchesServices(Ok(categories)) ==> State() == old(State()) && sent == old(sent))
    {
      ghost var log0 := store.log;
      ghost var t0 := store.tables;
      var cats := Iterate(CategoryList(Coalesce(categories.json, EmptyArray)));
      if cats.Err? {
        assert log0 + [] == log0;
        return Err(cats.error);
      }
      var count, err := SyncCategories(cats.value);
      if err.Some? {
        return Err(err.value);
      }
      r := SyncAfterCategories(count, CategoryWrites(cats.value).writes, log0, t0);
    }

    /** Fetch the services, after the category upserts `cw`, and sync them. */
    method SyncAfterCategories(count: nat, ghost cw: seq<Upsert>, ghost log0: seq<Upsert>, ghost t0: Tables)
      returns (r: Result<SyncCounts>)
      requires count == |cw| && store.log == log0 + cw && store.tables == ApplyAll(t0, cw)
      modifies this, store
      ensures var x2 := EndpointExchange(Environment(), old(State()), "services", "GET", EmptyArray);
        var run := ServicesRun(cw, x2.reply);
        && r == run.0
        && store.log == log0 + run.1
        && store.tables == ApplyAll(t0, run.1)
        && State() == x2.session && sent == old(sent) + x2.requests
    {
      var services := CallEndpoint("services", "GET", EmptyArray);
      if services.Err? {
        return Err(services.error);
      }
      r := SyncServicesReply(count, services.value, cw, log0, t0);
    }

    /** The services reply in hand: a failed fetch keeps the category count. */
    method SyncServicesReply(count: nat, services: Reply, ghost cw: seq<Upsert>, ghost log0: seq<Upsert>, ghost t0: Tables)
      returns (r: Result<SyncCounts>)
      requires count == |cw| && store.log == log0 + cw && store.tables == ApplyAll(t0, cw)
      modifies store
      ensures var run := ServicesRun(cw, Ok(services));
        r == run.0 && store.log == log0 + run.1 && store.tables == ApplyAll(t0, run.1)
    {
      if !services.ok {
        return Ok(SyncCounts(count, 0, 0));
      }
      r := SyncServicesBody(count, Coalesce(services.json, EmptyArray), cw, log0, t0);
    }

    /** The three shapes of a successful services body, and the counts. */
    method SyncServicesBody(count: nat, json: Json, ghost cw: seq<Upsert>, ghost log0: seq<Upsert>, ghost t0: Tables)
      returns (r: Result<SyncCounts>)
      requires count == |cw| && store.log == log0 + cw && store.tables == ApplyAll(t0, cw)
      modifies store
      ensures var run := ServicesBodyRun(cw, json);
        r == run.0 && store.log == log0 + run.1 && store.tables == ApplyAll(t0, run.1)
    {
      var o := SyncServices(json);
      StoreAppend(log0, t0, cw, o.st.writes);
      r := Counts(count, o);
    }

    /** `syncCatalogScoped`: the scope is ignored and the full sync runs. */
    method SyncCatalogScoped(scope: string) returns (r: Result<SyncCounts>)
      modifies this, store
      ensures var x1 := EndpointExchange(Environment(), old(State()), "categories", "GET", EmptyArray);
        var x2 := EndpointExchange(Environment(), x1.session, "services", "GET", EmptyArray);
        var run := SyncRun(x1.reply, x2.reply);
        && r == run.0
        && store.log == old(store.log) + run.1
        && store.tables == ApplyAll(old(store.tables), run.1)
        && (FetchesServices(x1.reply) ==> State() == x2.session && sent == old(sent) + x1.requests + x2.requests)
        && (!FetchesServices(x1.reply) ==> State() == x1.session && sent == old(sent) + x1.requests)
    {
      r := SyncCatalog();
    }
  }
}
