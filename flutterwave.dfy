/** The Flutterwave bills adapter as an object: its configuration, its
    transport and the catalog store are fixed, and the log of requests it
    has sent grows with every call. Each method is specified by the
    functions of `FlutterwaveMapping` and `FlutterwaveCatalog`. */
module Flutterwave {
  import opened Php
  import opened Numeric
  import opened Http
  import opened Results
  import opened Requests
  import opened Catalog
  import opened FlutterwaveMapping
  import opened FlutterwaveCatalog

  // ----- the calls of the public operations -----

  /** `purchaseBill` once the reference is settled: the result and the
      requests sent. */
  function PurchaseRun(env: Env, t: BillType, customer: string, kobo: int, reference: string,
                       productCode: Option<string>, meta: Json): (Result<BillTransactionResult>, seq<Request>) {
    var (reply, requests) := Call(env, "POST", "/bills", PurchasePayload(env.config, t, customer, kobo, reference, productCode, meta));
    (if reply.Err? then Err(reply.error) else MapPurchaseResult(reference, reply.value), requests)
  }

  /** A purchase without a secret raises before sending; with one it sends
      exactly one POST of the purchase body to `/bills`. */
  lemma PurchaseRunSends(env: Env, t: BillType, customer: string, kobo: int, reference: string,
                         productCode: Option<string>, meta: Json)
    ensures var (r, requests) := PurchaseRun(env, t, customer, kobo, reference, productCode, meta);
      (!HasSecret(env.config) ==> r == Err(RuntimeError(SecretMissing)) && requests == []) &&
      (HasSecret(env.config) ==>
        |requests| == 1 && requests[0].verb == "POST" && requests[0].url == BaseUrl(env.config) + "/bills" &&
        requests[0].body == PurchasePayload(env.config, t, customer, kobo, reference, productCode, meta))
  {
    var payload := PurchasePayload(env.config, t, customer, kobo, reference, productCode, meta);
    CallOutcomes(env, "POST", "/bills", payload);
    if HasSecret(env.config) {
      PostSendsBuilt(env, "/bills", payload);
    }
  }

  /** Once sent, a purchase fails only on a field of the wrong type, and a
      result carries the reference the body was sent with. It is a success
      exactly when the transport returned a 2xx response; a transport
      exception is a failure. */
  lemma PurchaseRunResult(env: Env, t: BillType, customer: string, kobo: int, reference: string,
                          productCode: Option<string>, meta: Json)
    requires HasSecret(env.config)
    ensures var r := PurchaseRun(env, t, customer, kobo, reference, productCode, meta).0;
      (r.Err? ==> FieldError(r.error)) &&
      (r.Ok? ==> r.value.reference == reference && r.value.provider == Provider)
    ensures var (r, requests) := PurchaseRun(env, t, customer, kobo, reference, productCode, meta);
      |requests| == 1 &&
      (r.Ok? ==> (r.value.success <==> env.http(requests[0]).Ok? && Successful(env.http(requests[0]).value)))
  {
    var payload := PurchasePayload(env.config, t, customer, kobo, reference, productCode, meta);
    CallOutcomes(env, "POST", "/bills", payload);
    PostSendsBuilt(env, "/bills", payload);
    var c := Call(env, "POST", "/bills", payload);
    PurchaseSucceedsIffOk(reference, c.0.value);
  }

  /** `validateCustomer`. */
  function ValidationRun(env: Env, req: CustomerValidationRequest): (Result<CustomerValidationResult>, seq<Request>) {
    var (reply, requests) := Call(env, "GET", "/bills/validate-customer", ValidationQuery(env.config, req));
    (if reply.Err? then Err(reply.error) else MapValidationResult(req.customerId, reply.value), requests)
  }

  /** A validation with a secret sends one GET to `/bills/validate-customer`
      with the validation query. */
  lemma ValidationRunSends(env: Env, req: CustomerValidationRequest)
    ensures var (r, requests) := ValidationRun(env, req);
      (!HasSecret(env.config) ==> r == Err(RuntimeError(SecretMissing)) && requests == []) &&
      (HasSecret(env.config) ==>
        |requests| == 1 && requests[0].verb == "GET" &&
        requests[0].url == BaseUrl(env.config) + "/bills/validate-customer" &&
        requests[0].query == ValidationQuery(env.config, req))
  {
    var q := ValidationQuery(env.config, req);
    CallOutcomes(env, "GET", "/bills/validate-customer", q);
    if HasSecret(env.config) {
      GetSendsBuilt(env, "/bills/validate-customer", q);
    }
  }

  /** Once sent, a validation succeeds exactly when the call went through
      and named a customer. */
  lemma ValidationRunResult(env: Env, req: CustomerValidationRequest)
    requires HasSecret(env.config)
    ensures var c := Call(env, "GET", "/bills/validate-customer", ValidationQuery(env.config, req));
      var r := ValidationRun(env, req).0;
      c.0.Ok? && (r.Ok? ==> (r.value.success <==> CustomerFound(c.0.value)))
  {
    var q := ValidationQuery(env.config, req);
    CallOutcomes(env, "GET", "/bills/validate-customer", q);
    var c := Call(env, "GET", "/bills/validate-customer", q);
    ValidationSucceedsIffCustomer(req.customerId, c.0.value);
  }

  /** `checkTransactionStatus`: the reference is URL-encoded into the path. */
  function StatusRun(env: Env, reference: string): (Result<BillTransactionStatusResult>, seq<Request>) {
    var (reply, requests) := Call(env, "GET", "/bills/" + env.urlencode(reference), EmptyArray);
    (if reply.Err? then Err(reply.error) else MapStatusResult(reference, reply.value), requests)
  }

  /** A status check with a secret sends one GET without query parameters
      and, unless a field has the wrong type, reports success. */
  lemma StatusRunSends(env: Env, reference: string)
    ensures var (r, requests) := StatusRun(env, reference);
      (!HasSecret(env.config) ==> r == Err(RuntimeError(SecretMissing)) && requests == []) &&
      (HasSecret(env.config) ==>
        |requests| == 1 && requests[0].verb == "GET" &&
        requests[0].url == BaseUrl(env.config) + "/bills/" + env.urlencode(reference) &&
        requests[0].query == EmptyArray &&
        (r.Err? ==> FieldError(r.error)) &&
        (r.Ok? ==> r.value.success && r.value.reference == reference))
  {
    var path := "/bills/" + env.urlencode(reference);
    CallOutcomes(env, "GET", path, EmptyArray);
    assert BaseUrl(env.config) + path == BaseUrl(env.config) + "/bills/" + env.urlencode(reference);
    var c := Call(env, "GET", path, EmptyArray);
    if c.0.Ok? {
      StatusAlwaysSucceeds(reference, c.0.value);
    }
  }

  /** What was appended after a prefix. */
  lemma Appended<T>(base: seq<T>, mid: seq<T>, added: seq<T>)
    ensures (base + mid + added)[|base + mid|..] == added
    ensures base + mid + added == base + (mid + added)
  {
  }

  class FlutterwaveProvider {
    const config: Json
    const http: Transport
    const urlencode: string -> string
    const store: CatalogStore
    /** Every request sent so far, in order. */
    var sent: seq<Request>

    function Environment(): Env {
      Env(config, http, urlencode)
    }

    constructor (config: Json, http: Transport, urlencode: string -> string, store: CatalogStore)
      ensures this.config == config && this.http == http && this.urlencode == urlencode
      ensures this.store == store && sent == []
    {
      this.config := config;
      this.http := http;
      this.urlencode := urlencode;
      this.store := store;
      sent := [];
    }

    /** The store holds `logBase` and `tBase` followed by the tally's
        upserts, and the requests sent are `sentBase` followed by the
        tally's. */
    ghost predicate Tracks(st: Tally, logBase: seq<Upsert>, tBase: Tables, sentBase: seq<Request>)
      reads this, store
    {
      store.log == logBase + st.writes && store.tables == ApplyAll(tBase, st.writes) && sent == sentBase + st.requests
    }

    /** `request`. */
    method Request(verb: string, path: string, payload: Json) returns (r: Result<Reply>)
      modifies this
      ensures r == Call(Environment(), verb, path, payload).0
      ensures sent == old(sent) + Call(Environment(), verb, path, payload).1
    {
      if !HasSecret(config) {
        return Err(RuntimeError(SecretMissing));
      }
      var req := BuildRequest(config, verb, path, payload);
      if req.Err? {
        return Ok(Failed(req.error.message));
      }
      sent := sent + [req.value];
      r := Ok(Received(http(req.value)));
    }

    // ----- purchases, validation, status -----

    /** `purchaseBill`: the result is that of `PurchaseRun` with the
        settled reference and the amount in minor units. */
    method PurchaseBill(t: BillType, customer: string, amount: Decimal, reference: Option<string>,
                        productCode: Option<string>, meta: Json, uniq: string)
      returns (r: Result<BillTransactionResult>)
      modifies this
      ensures var run := PurchaseRun(Environment(), t, customer, ToKobo(amount), PurchaseReference(reference, t, uniq),
                                     productCode, meta);
        r == run.0 && sent == old(sent) + run.1
    {
      var ref := PurchaseReference(reference, t, uniq);
      var payload := PurchasePayload(config, t, customer, ToKobo(amount), ref, productCode, meta);
      var reply := Request("POST", "/bills", payload);
      if reply.Err? {
        return Err(reply.error);
      }
      r := MapPurchaseResult(ref, reply.value);
    }

    method PurchaseAirtime(req: AirtimeRequest, uniq: string) returns (r: Result<BillTransactionResult>)
      modifies this
      ensures var run := PurchaseRun(Environment(), AirtimeBill, req.phoneNumber, ToKobo(req.amount),
                                     PurchaseReference(req.reference, AirtimeBill, uniq), req.productCode, req.meta);
        r == run.0 && sent == old(sent) + run.1
    {
      r := PurchaseBill(AirtimeBill, req.phoneNumber, req.amount, req.reference, req.productCode, req.meta, uniq);
    }

    method PurchaseData(req: DataRequest, uniq: string) returns (r: Result<BillTransactionResult>)
      modifies this
      ensures var run := PurchaseRun(Environment(), DataBill, req.phoneNumber, ToKobo(req.amount),
                                     PurchaseReference(req.reference, DataBill, uniq), Some(req.productCode), req.meta);
        r == run.0 && sent == old(sent) + run.1
    {
      r := PurchaseBill(DataBill, req.phoneNumber, req.amount, req.reference, Some(req.productCode), req.meta, uniq);
    }

    method PayPowerBill(req: PowerBillRequest, uniq: string) returns (r: Result<BillTransactionResult>)
      modifies this
      ensures var run := PurchaseRun(Environment(), ElectricityBill, req.meterNumber, ToKobo(req.amount),
                                     PurchaseReference(req.reference, ElectricityBill, uniq), Some(req.productCode), req.meta);
        r == run.0 && sent == old(sent) + run.1
    {
      r := PurchaseBill(ElectricityBill, req.meterNumber, req.amount, req.reference, Some(req.productCode), req.meta, uniq);
    }

    method PayTvSubscription(req: TvSubscriptionRequest, uniq: string) returns (r: Result<BillTransactionResult>)
      modifies this
      ensures var run := PurchaseRun(Environment(), CableBill, req.smartcardNumber, ToKobo(req.amount),
                                     PurchaseReference(req.reference, CableBill, uniq), Some(req.productCode), req.meta);
        r == run.0 && sent == old(sent) + run.1
    {
      r := PurchaseBill(CableBill, req.smartcardNumber, req.amount, req.reference, Some(req.productCode), req.meta, uniq);
    }

    /** `validateCustomer`. */
    method ValidateCustomer(req: CustomerValidationRequest) returns (r: Result<CustomerValidationResult>)
      modifies this
      ensures var run := ValidationRun(Environment(), req);
        r == run.0 && sent == old(sent) + run.1
    {
      var reply := Request("GET", "/bills/validate-customer", ValidationQuery(config, req));
      if reply.Err? {
        return Err(reply.error);
      }
      r := MapValidationResult(req.customerId, reply.value);
    }

    /** `checkTransactionStatus`. */
    method CheckTransactionStatus(reference: string) returns (r: Result<BillTransactionStatusResult>)
      modifies this
      ensures var run := StatusRun(Environment(), reference);
        r == run.0 && sent == old(sent) + run.1
    {
      var reply := Request("GET", "/bills/" + urlencode(reference), EmptyArray);
      if reply.Err? {
        return Err(reply.error);
      }
      r := MapStatusResult(reference, reply.value);
    }

    // ----- memoised fetches -----

    method Memoised(cache: map<string, Json>, key: string, path: string, params: Json)
      returns (list: Result<Json>, cache': map<string, Json>)
      modifies this
      ensures var m := Memo(Environment(), cache, key, path, params);
        list == m.list && cache' == m.cache && sent == old(sent) + m.requests
    {
      if key in cache {
        return Ok(cache[key]), cache;
      }
      var reply := Request("GET", path, params);
      if reply.Err? {
        return Err(reply.error), cache;
      }
      var l := ListOf(reply.value);
      list, cache' := Ok(l), cache[key := l];
    }

    /** `getBillersByCategory`. */
    method GetBillersByCategory(category: string, cache: map<string, Json>)
      returns (list: Result<Json>, cache': map<string, Json>)
      modifies this
      ensures var m := BillersFetch(Environment(), cache, category);
        list == m.list && cache' == m.cache && sent == old(sent) + m.requests
    {
      list, cache' := Memoised(cache, BillersKey(category), "/billers", BillersParams(config, category));
    }

    /** `getBillerItems`. */
    method GetBillerItems(code: string, cache: map<string, Json>)
      returns (list: Result<Json>, cache': map<string, Json>)
      modifies this
      ensures var m := ItemsFetch(Environment(), cache, code);
        list == m.list && cache' == m.cache && sent == old(sent) + m.requests
    {
      list, cache' := Memoised(cache, ItemsKey(code), "/bill-items", ItemsParams(config, code));
    }

    // ----- the catalog sync -----

    /** `syncCatalog`: the four seed categories, in order; nothing is sent. */
    method SyncCatalog() returns (counts: SyncCounts)
      modifies store
      ensures counts == SyncCounts(4, 0, 0)
      ensures store.log == old(store.log) + SeedWrites
      ensures store.tables == ApplyAll(old(store.tables), SeedWrites)
    {
      ghost var log0 := store.log;
      ghost var t0 := store.tables;
      var categories := 0;
      while categories < |SeedWrites|
        invariant 0 <= categories <= |SeedWrites|
        invariant store.log == log0 + SeedWrites[..categories]
        invariant store.tables == ApplyAll(t0, SeedWrites[..categories])
      {
        assert SeedWrites[..categories + 1] == SeedWrites[..categories] + [SeedWrites[categories]];
        ApplyAllSnoc(t0, SeedWrites[..categories], SeedWrites[categories]);
        store.Upsert(SeedWrites[categories]);
        categories := categories + 1;
      }
      assert SeedWrites[..categories] == SeedWrites;
      counts := SyncCounts(categories, 0, 0);
    }

    /** `syncCatalogScoped`: the seeds, then each segment of the scope in
        order with two caches shared across segments, stopping at the first
        exception. */
    method SyncCatalogScoped(scope: string) returns (r: Result<SyncCounts>)
      modifies this, store
      ensures var run := ScopedSync(Environment(), scope);
        && r == run.result
        && store.log == old(store.log) + run.writes
        && store.tables == ApplyAll(old(store.tables), run.writes)
        && sent == old(sent) + run.requests
    {
      ghost var logBase := store.log;
      ghost var tBase := store.tables;
      ghost var sentBase := sent;
      var seeded := SyncCatalog();
      var segs := Segments(scope);
      var o := Progress(StartTally, None);
      var i := 0;
      while i < |segs| && o.err.None?
        invariant 0 <= i <= |segs|
        invariant o == ScopedFold(Environment(), StartTally, segs[..i])
        invariant Tracks(o.st, logBase, tBase, sentBase)
      {
        ScopedFoldSnoc(Environment(), StartTally, segs, i);
        o := SyncScope(o.st, segs[i], logBase, tBase, sentBase);
        i := i + 1;
      }
      if o.err.Some? {
        ScopedFoldErrSticks(Environment(), StartTally, segs, i);
        return Err(o.err.value);
      }
      assert segs[..i] == segs;
      r := Ok(SyncCounts(seeded.categories, o.st.billers, o.st.products));
    }

    /** One segment of the scope. */
    method SyncScope(st: Tally, seg: string, ghost logBase: seq<Upsert>, ghost tBase: Tables, ghost sentBase: seq<Request>)
      returns (o: Progress)
      requires Tracks(st, logBase, tBase, sentBase)
      modifies this, store
      ensures o == ScopeRun(Environment(), st, seg) && Tracks(o.st, logBase, tBase, sentBase)
    {
      if seg == "data" {
        o := SyncDataBundles(st, logBase, tBase, sentBase);
      } else if seg == "cable" {
        o := SyncCableProviders(st, logBase, tBase, sentBase);
      } else if seg == "electricity" {
        o := SyncElectricUtilities(st, logBase, tBase, sentBase);
      } else {
        o := Progress(st, None);
      }
    }

    /** `syncDataBundles`: the DATA billers come through the item cache. */
    method SyncDataBundles(st: Tally, ghost logBase: seq<Upsert>, ghost tBase: Tables, ghost sentBase: seq<Request>)
      returns (o: Progress)
      requires Tracks(st, logBase, tBase, sentBase)
      modifies this, store
      ensures o == DataRun(Environment(), st) && Tracks(o.st, logBase, tBase, sentBase)
    {
      var mark := |sent|;
      var list, cache := GetBillersByCategory("DATA", st.itemCache);
      Appended(sentBase, st.requests, BillersFetch(Environment(), st.itemCache, "DATA").requests);
      var st1 := st.(itemCache := cache, requests := st.requests + sent[mark..]);
      o := SyncBillersFound(st1, list, DataScope, logBase, tBase, sentBase);
    }

    /** `syncCableProviders`. */
    method SyncCableProviders(st: Tally, ghost logBase: seq<Upsert>, ghost tBase: Tables, ghost sentBase: seq<Request>)
      returns (o: Progress)
      requires Tracks(st, logBase, tBase, sentBase)
      modifies this, store
      ensures o == AliasRun(Environment(), st, CableScope, CableAliases) && Tracks(o.st, logBase, tBase, sentBase)
    {
      o := SyncAliased(st, CableScope, CableAliases, logBase, tBase, sentBase);
    }

    /** `syncElectricUtilities`. */
    method SyncElectricUtilities(st: Tally, ghost logBase: seq<Upsert>, ghost tBase: Tables, ghost sentBase: seq<Request>)
      returns (o: Progress)
      requires Tracks(st, logBase, tBase, sentBase)
      modifies this, store
      ensures o == AliasRun(Environment(), st, ElectricityScope, ElectricityAliases) && Tracks(o.st, logBase, tBase, sentBase)
    {
      o := SyncAliased(st, ElectricityScope, ElectricityAliases, logBase, tBase, sentBase);
    }

    /** The alias search over the biller cache, then the billers found. */
    method SyncAliased(st: Tally, s: Scope, aliases: seq<string>,
                       ghost logBase: seq<Upsert>, ghost tBase: Tables, ghost sentBase: seq<Request>)
      returns (o: Progress)
      requires Tracks(st, logBase, tBase, sentBase)
      modifies this, store
      ensures o == AliasRun(Environment(), st, s, aliases) && Tracks(o.st, logBase, tBase, sentBase)
    {
      var mark := |sent|;
      var h := FindBillers(aliases, st.billerCache);
      Appended(sentBase, st.requests, h.requests);
      var st1 := st.(billerCache := h.cache, requests := st.requests + sent[mark..]);
      o := SyncBillersFound(st1, HuntList(h), s, logBase, tBase, sentBase);
    }

    /** The candidate categories tried in order until one is non-empty. */
    method FindBillers(aliases: seq<string>, cache: map<string, Json>) returns (h: Hunt)
      modifies this
      ensures h == AliasFold(Environment(), cache, aliases) && sent == old(sent) + h.requests
    {
      h := Hunt(EmptyArray, cache, [], None, false);
      var i := 0;
      while i < |aliases| && !h.done && h.err.None?
        invariant 0 <= i <= |aliases|
        invariant h == AliasFold(Environment(), cache, aliases[..i])
        invariant sent == old(sent) + h.requests
      {
        AliasFoldSnoc(Environment(), cache, aliases, i);
        h := TryAlias(h, aliases[i]);
        i := i + 1;
      }
      if h.done || h.err.Some? {
        AliasFoldSticks(Environment(), cache, aliases, i);
      } else {
        assert aliases[..i] == aliases;
      }
    }

    method TryAlias(h: Hunt, alias: string) returns (h': Hunt)
      modifies this
      ensures h' == AliasStep(Environment(), h, alias) && sent == old(sent) + (h'.requests[|h.requests|..])
      ensures h.requests <= h'.requests
    {
      var mark := |sent|;
      var list, cache := GetBillersByCategory(alias, h.cache);
      var h1 := h.(cache := cache, requests := h.requests + sent[mark..]);
      if list.Err? {
        h' := h1.(err := Some(list.error));
      } else if Truthy(list.value) {
        h' := h1.(found := list.value, done := true);
      } else {
        h' := h1;
      }
    }

    /** The billers of a fetched list, or the exception of the fetch. */
    method SyncBillersFound(st: Tally, list: Result<Json>, s: Scope,
                            ghost logBase: seq<Upsert>, ghost tBase: Tables, ghost sentBase: seq<Request>)
      returns (o: Progress)
      requires Tracks(st, logBase, tBase, sentBase)
      modifies this, store
      ensures o == BillersOutcome(Environment(), st, list, s) && Tracks(o.st, logBase, tBase, sentBase)
    {
      if list.Err? {
        return Progress(st, Some(list.error));
      }
      o := SyncBillers(st, Items(list.value), s, logBase, tBase, sentBase);
    }

    method SyncBillers(st: Tally, bs: seq<Json>, s: Scope,
                       ghost logBase: seq<Upsert>, ghost tBase: Tables, ghost sentBase: seq<Request>)
      returns (o: Progress)
      requires Tracks(st, logBase, tBase, sentBase)
      modifies this, store
      ensures o == BillerFold(Environment(), st, bs, s) && Tracks(o.st, logBase, tBase, sentBase)
    {
      o := Progress(st, None);
      var i := 0;
      while i < |bs| && o.err.None?
        invariant 0 <= i <= |bs|
        invariant o == BillerFold(Environment(), st, bs[..i], s)
        invariant Tracks(o.st, logBase, tBase, sentBase)
      {
        BillerFoldSnoc(Environment(), st, bs, s, i);
        o := SyncBiller(o.st, bs[i], s, logBase, tBase, sentBase);
        i := i + 1;
      }
      if o.err.Some? {
        BillerFoldErrSticks(Environment(), st, bs, s, i);
      } else {
        assert bs[..i] == bs;
      }
    }

    /** One biller: its fields cast, skipped without a code, else upserted,
        then its items. */
    method SyncBiller(st: Tally, b: Json, s: Scope,
                      ghost logBase: seq<Upsert>, ghost tBase: Tables, ghost sentBase: seq<Request>)
      returns (o: Progress)
      requires Tracks(st, logBase, tBase, sentBase)
      modifies this, store
      ensures o == BillerStep(Environment(), st, b, s) && Tracks(o.st, logBase, tBase, sentBase)
    {
      var fields := BillerFields(b);
      if fields.Err? {
        return Progress(st, Some(fields.error));
      }
      var code := fields.value.0;
      if code == "" {
        return Progress(st, None);
      }
      var st1 := SaveBiller(st, b, code, logBase, tBase, sentBase);
      o := SyncBillerItems(st1, code, fields.value.1, s, logBase, tBase, sentBase);
    }

    method SaveBiller(st: Tally, b: Json, code: string,
                      ghost logBase: seq<Upsert>, ghost tBase: Tables, ghost sentBase: seq<Request>)
      returns (st': Tally)
      requires Tracks(st, logBase, tBase, sentBase)
      modifies store
      ensures st' == RecordBiller(st, b, code) && Tracks(st', logBase, tBase, sentBase)
    {
      var u := BillerUpsert(b, code);
      ApplyAllSnoc(tBase, st.writes, u);
      Appended(logBase, st.writes, [u]);
      store.Upsert(u);
      st' := st.(writes := st.writes + [u], billers := st.billers + 1);
    }

    /** A biller's items: fetched through the item cache, then written. */
    method SyncBillerItems(st: Tally, code: string, currency: string, s: Scope,
                           ghost logBase: seq<Upsert>, ghost tBase: Tables, ghost sentBase: seq<Request>)
      returns (o: Progress)
      requires Tracks(st, logBase, tBase, sentBase)
      modifies this, store
      ensures o == ItemsStep(Environment(), st, code, currency, s) && Tracks(o.st, logBase, tBase, sentBase)
    {
      var mark := |sent|;
      var list, cache := GetBillerItems(code, st.itemCache);
      Appended(sentBase, st.requests, ItemsFetch(Environment(), st.itemCache, code).requests);
      var st1 := st.(itemCache := cache, requests := st.requests + sent[mark..]);
      o := SyncItemList(st1, list, code, currency, s, logBase, tBase, sentBase);
    }

    /** The fetched item list, or the exception of the fetch. */
    method SyncItemList(st: Tally, list: Result<Json>, code: string, currency: string, s: Scope,
                        ghost logBase: seq<Upsert>, ghost tBase: Tables, ghost sentBase: seq<Request>)
      returns (o: Progress)
      requires Tracks(st, logBase, tBase, sentBase)
      modifies store
      ensures o == ItemsOutcome(st, list, code, currency, s) && Tracks(o.st, logBase, tBase, sentBase)
    {
      if list.Err? {
        return Progress(st, Some(list.error));
      }
      var xs := Items(list.value);
      var bt := ItemWrites(xs, code, currency, s);
      var count, err := SyncItems(xs, code, currency, s, logBase + st.writes, ApplyAll(tBase, st.writes));
      StoreAppend(logBase, tBase, st.writes, bt.writes);
      var st1 := st.(writes := st.writes + bt.writes, products := st.products + count);
      assert Tracks(st1, logBase, tBase, sentBase);
      o := Progress(st1, err);
    }

    /** The item loop: each item with a code becomes one product upsert,
        until an item raises. */
    method SyncItems(xs: seq<Json>, code: string, currency: string, s: Scope, ghost log0: seq<Upsert>, ghost t0: Tables)
      returns (count: nat, err: Option<Error>)
      requires store.log == log0 && store.tables == t0
      modifies store
      ensures var bt := ItemWrites(xs, code, currency, s);
        count == |bt.writes| && err == bt.err &&
        store.log == log0 + bt.writes && store.tables == ApplyAll(t0, bt.writes)
    {
      count := 0;
      err := None;
      ghost var bt := Batch([], None);
      var i := 0;
      while i < |xs| && err.None?
        invariant 0 <= i <= |xs|
        invariant bt == ItemWrites(xs[..i], code, currency, s) && err == bt.err
        invariant count == |bt.writes| && store.log == log0 + bt.writes && store.tables == ApplyAll(t0, bt.writes)
      {
        ItemWritesSnoc(xs, code, currency, s, i);
        var written := SyncItem(xs[i], code, currency, s, log0, t0, bt.writes);
        if written.Err? {
          err := Some(written.error);
          bt := Batch(bt.writes, err);
        } else {
          count := count + written.value;
          bt := Batch(bt.writes + ItemWrite(xs[i], code, currency, s).value, None);
        }
        i := i + 1;
      }
      if err.Some? {
        ItemWritesErrSticks(xs, code, currency, s, i);
      } else {
        assert xs[..i] == xs;
      }
    }

    /** One item: its code cast, skipped without one, else its name cast and
        the item upserted. */
    method SyncItem(x: Json, code: string, currency: string, s: Scope,
                    ghost log0: seq<Upsert>, ghost t0: Tables, ghost ws: seq<Upsert>)
      returns (written: Result<nat>)
      requires store.log == log0 + ws && store.tables == ApplyAll(t0, ws)
      modifies store
      ensures var w := ItemWrite(x, code, currency, s);
        (w.Err? ==> written == Err(w.error) && store.log == log0 + ws && store.tables == ApplyAll(t0, ws)) &&
        (w.Ok? ==> written == Ok(|w.value|) &&
                   store.log == log0 + (ws + w.value) && store.tables == ApplyAll(t0, ws + w.value))
    {
      var itemCode := Cast(ItemCodeValue(x));
      if itemCode.Err? {
        assert ItemWrite(x, code, currency, s) == Err(itemCode.error);
        return Err(itemCode.error);
      }
      if itemCode.value == "" {
        assert ItemWrite(x, code, currency, s) == Ok([]);
        assert ws + [] == ws;
        return Ok(0);
      }
      var name := Cast(ServiceNameValue(x, s));
      if name.Err? {
        assert ItemWrite(x, code, currency, s) == Err(name.error);
        return Err(name.error);
      }
      var u := ItemUpsert(x, itemCode.value, code, currency, s);
      assert ItemWrite(x, code, currency, s) == Ok([u]);
      ApplyAllSnoc(t0, ws, u);
      store.Upsert(u);
      written := Ok(1);
    }
  }
}
