/** The Flutterwave catalog sync as functions: the seed categories, the
    memoised biller and bill-item fetches, the alias search, the per-scope
    biller and product writers and the scope driver. Each function describes
    what the corresponding step of the adapter does to a running tally of
    upserts, requests, caches and counters. */
module FlutterwaveCatalog {
  import opened Php
  import opened Numeric
  import opened Http
  import opened Catalog
  import opened FlutterwaveMapping

  // ----- the seed categories -----

  /** The four categories `syncCatalog` always writes, in order. */
  const SeedWrites: seq<Upsert> := [
    UpsertCategory((Provider, "airtime"), JStr("Airtime")),
    UpsertCategory((Provider, "data"), JStr("Data")),
    UpsertCategory((Provider, "electricity"), JStr("Electricity")),
    UpsertCategory((Provider, "cable"), JStr("Cable TV"))]

  /** The seed sync names exactly the four categories and touches neither
      billers nor products. */
  lemma SeedCategories(t: Tables)
    ensures var r := ApplyAll(t, SeedWrites);
      r.billers == t.billers && r.products == t.products &&
      r.categories == t.categories[(Provider, "airtime") := JStr("Airtime")][(Provider, "data") := JStr("Data")]
                                  [(Provider, "electricity") := JStr("Electricity")][(Provider, "cable") := JStr("Cable TV")]
  {
    SeedUnfold(t);
  }

  /** The seed run applies its four upserts one by one. */
  lemma SeedUnfold(t: Tables)
    ensures ApplyAll(t, SeedWrites) ==
      Apply(Apply(Apply(Apply(t, SeedWrites[0]), SeedWrites[1]), SeedWrites[2]), SeedWrites[3])
  {
    var w := SeedWrites;
    assert w[..1] == [] + [w[0]];
    assert w[..2] == w[..1] + [w[1]];
    assert w[..3] == w[..2] + [w[2]];
    assert w == w[..3] + [w[3]];
    assert [] + [w[0]] == [w[0]];
    ApplyAllSnoc(t, [], w[0]);
    ApplyAllSnoc(t, w[..1], w[1]);
    ApplyAllSnoc(t, w[..2], w[2]);
    ApplyAllSnoc(t, w[..3], w[3]);
  }

  // ----- memoised fetches -----

  /** One memoised fetch: the list it yields (or the exception it lets
      through), the cache after it and the requests it sent. */
  datatype Fetch = Fetch(list: Result<Json>, cache: map<string, Json>, requests: seq<Request>)

  /** `is_array($data) ? $data : []` for `$res['json']['data'] ?? []`. */
  function ListOf(reply: Reply): (l: Json)
    ensures IsArray(l)
    ensures IsArray(Data(reply.json)) ==> l == Data(reply.json)
  {
    if IsArray(Data(reply.json)) then Data(reply.json) else EmptyArray
  }

  /** A cached list is returned as it is; otherwise the list is fetched with
      one GET and stored under the key, unless the call raised. */
  function Memo(env: Env, cache: map<string, Json>, key: string, path: string, params: Json): Fetch {
    if key in cache then Fetch(Ok(cache[key]), cache, [])
    else
      var (reply, requests) := Call(env, "GET", path, params);
      MemoOutcome(cache, key, reply, requests)
  }

  function MemoOutcome(cache: map<string, Json>, key: string, reply: Result<Reply>, requests: seq<Request>): Fetch {
    if reply.Err? then Fetch(Err(reply.error), cache, requests)
    else Fetch(Ok(ListOf(reply.value)), cache[key := ListOf(reply.value)], requests)
  }

  function BillersKey(category: string): string { "cat:" + Upper(category) }

  function BillersParams(config: Json, category: string): Json {
    JObj([("country", Country(config)), ("category", JStr(Upper(category)))])
  }

  /** `getBillersByCategory`. */
  function BillersFetch(env: Env, cache: map<string, Json>, category: string): Fetch {
    Memo(env, cache, BillersKey(category), "/billers", BillersParams(env.config, category))
  }

  function ItemsKey(code: string): string { "items:" + code }

  function ItemsParams(config: Json, code: string): Json {
    JObj([("country", Country(config)), ("biller_code", JStr(code))])
  }

  /** `getBillerItems`. */
  function ItemsFetch(env: Env, cache: map<string, Json>, code: string): Fetch {
    Memo(env, cache, ItemsKey(code), "/bill-items", ItemsParams(env.config, code))
  }

  /** Every entry of `c1` is still in `c2`, unchanged. */
  ghost predicate Grows(c1: map<string, Json>, c2: map<string, Json>) {
    forall k :: k in c1 ==> k in c2 && c2[k] == c1[k]
  }

  /** A key already cached is answered from the cache: nothing is sent and
      the cache is unchanged. */
  lemma MemoHit(env: Env, cache: map<string, Json>, key: string, path: string, params: Json)
    requires key in cache
    ensures Memo(env, cache, key, path, params) == Fetch(Ok(cache[key]), cache, [])
  {
  }

  /** On a miss exactly the one GET is sent (none when the secret is
      missing, which raises and leaves the cache as it was), and the cache
      then holds the fetched list, which is always an array. */
  lemma MemoMiss(env: Env, cache: map<string, Json>, key: string, path: string, params: Json)
    requires key !in cache
    ensures var m := Memo(env, cache, key, path, params);
      m.requests == Call(env, "GET", path, params).1 &&
      (m.list.Err? <==> !HasSecret(env.config)) &&
      (m.list.Err? ==> m.cache == cache && m.requests == []) &&
      (m.list.Ok? ==> IsArray(m.list.value) && m.cache == cache[key := m.list.value] && |m.requests| == 1)
  {
    CallOutcomes(env, "GET", path, params);
  }

  /** A fetch keeps every cached entry and, when it returns, leaves its own
      key cached with the list it returned. */
  lemma MemoGrows(env: Env, cache: map<string, Json>, key: string, path: string, params: Json)
    ensures var m := Memo(env, cache, key, path, params);
      Grows(cache, m.cache) && (m.list.Ok? ==> key in m.cache && m.cache[key] == m.list.value)
  {
    if key !in cache {
      var c := Call(env, "GET", path, params);
      assert Memo(env, cache, key, path, params) == MemoOutcome(cache, key, c.0, c.1);
      MemoOutcomeGrows(cache, key, c.0, c.1);
    }
  }

  lemma MemoOutcomeGrows(cache: map<string, Json>, key: string, reply: Result<Reply>, requests: seq<Request>)
    requires key !in cache
    ensures var m := MemoOutcome(cache, key, reply, requests);
      Grows(cache, m.cache) && (m.list.Ok? ==> key in m.cache && m.cache[key] == m.list.value)
  {
  }

  /** Hence a key is fetched at most once against one shared cache: the
      second fetch sends nothing and returns the same list. */
  lemma MemoFetchesOnce(env: Env, cache: map<string, Json>, key: string, path: string, params: Json,
                        path2: string, params2: Json)
    requires Memo(env, cache, key, path, params).list.Ok?
    ensures var m := Memo(env, cache, key, path, params);
      Memo(env, m.cache, key, path2, params2) == Fetch(m.list, m.cache, [])
  {
    MemoGrows(env, cache, key, path, params);
  }

  /** Biller lists and item lists never share a key, so keeping the data
      scope's biller list in the item cache cannot shadow an item list. */
  lemma KeysDisjoint(category: string, code: string)
    ensures BillersKey(category) != ItemsKey(code)
  {
    assert BillersKey(category)[0] == 'c' && ItemsKey(code)[0] == 'i';
  }

  // ----- billers and items -----

  datatype Scope = DataScope | CableScope | ElectricityScope

  /** The `category_external_id` of a scope's products. */
  function CategoryId(s: Scope): string {
    match s
    case DataScope => "data"
    case CableScope => "cable"
    case ElectricityScope => "electricity"
  }

  function DefaultName(s: Scope): string {
    match s
    case DataScope => "Data Bundle"
    case CableScope => "Cable Plan"
    case ElectricityScope => "Electricity"
  }

  /** `is_airtime`, `is_data`, `is_power`, `is_tv` of a scope's products. */
  function ScopeFlags(s: Scope): Flags {
    Flags(false, s == DataScope, s == ElectricityScope, s == CableScope)
  }

  const CableAliases := ["CABLEBILLS", "CABLETV", "CABLE"]
  const ElectricityAliases := ["ELECTRICITY", "UTILITYBILLS", "POWER"]

  /** `$biller['biller_code'] ?? $biller['code'] ?? $biller['id'] ?? ''`. */
  function BillerCodeValue(b: Json): Json {
    Coalesce(Index(b, "biller_code"), Coalesce(Index(b, "code"), Coalesce(Index(b, "id"), JStr(""))))
  }

  function BillerNameValue(b: Json): Json {
    Coalesce(Index(b, "name"), Coalesce(Index(b, "biller_name"), JStr("")))
  }

  function BillerCurrencyValue(b: Json): Json {
    Coalesce(Index(b, "currency"), JStr("NGN"))
  }

  function BillerCode(b: Json): string { ToStr(BillerCodeValue(b)) }

  function BillerName(b: Json): string { ToStr(BillerNameValue(b)) }

  function BillerCurrency(b: Json): string { ToStr(BillerCurrencyValue(b)) }

  /** The three `(string)` casts of a biller, in order, before the code is
      checked: an array among them raises; otherwise the code and the
      currency. */
  function BillerFields(b: Json): (r: Result<(string, string)>)
    ensures r.Err? <==> IsArray(BillerCodeValue(b)) || IsArray(BillerNameValue(b)) || IsArray(BillerCurrencyValue(b))
    ensures r.Err? ==> r.error == ErrorException(ArrayToString)
    ensures r.Ok? ==> r.value == (BillerCode(b), BillerCurrency(b))
  {
    var code :- Cast(BillerCodeValue(b));
    var name :- Cast(BillerNameValue(b));
    var currency :- Cast(BillerCurrencyValue(b));
    Ok((code, currency))
  }

  /** The biller row: its name, else its code. */
  function BillerUpsert(b: Json, code: string): Upsert {
    UpsertBiller((Provider, code), JStr(if BillerName(b) != "" then BillerName(b) else code))
  }

  /** A biller with a code is never stored with an empty name, and one
      without a currency is priced in NGN. */
  lemma BillerRecordDefaults(b: Json, code: string)
    requires code != ""
    ensures BillerUpsert(b, code).name != JStr("")
    ensures BillerName(b) == "" ==> BillerUpsert(b, code).name == JStr(code)
    ensures Index(b, "currency") == JNull ==> BillerCurrency(b) == "NGN"
  {
  }

  /** `$item['item_code'] ?? $item['itemcode'] ?? ''`. */
  function ItemCodeValue(x: Json): Json {
    Coalesce(Index(x, "item_code"), Coalesce(Index(x, "itemcode"), JStr("")))
  }

  function ServiceNameValue(x: Json, s: Scope): Json {
    Coalesce(Index(x, "short_name"), Coalesce(Index(x, "biller_name"), Coalesce(Index(x, "name"), JStr(DefaultName(s)))))
  }

  function ItemCode(x: Json): string { ToStr(ItemCodeValue(x)) }

  function ServiceName(x: Json, s: Scope): string { ToStr(ServiceNameValue(x, s)) }

  /** The product row of an item with code `code`. */
  function ItemUpsert(x: Json, code: string, billerCode: string, currency: string, s: Scope): Upsert {
    UpsertProduct((Provider, code),
      ProductWrite(JStr(ServiceName(x, s)), Some(CategoryId(s)), Some(billerCode), JStr(code), JStr(currency),
                   Some((Kobo(Index(x, "amount")), Kobo(Index(x, "fee")))), ScopeFlags(s)))
  }

  /** The upsert of one item. Its code is cast first, an item without a
      code is skipped, and only then is the name cast; a cast of an array
      raises. */
  function ItemWrite(x: Json, billerCode: string, currency: string, s: Scope): (r: Result<seq<Upsert>>)
    ensures r.Err? <==> IsArray(ItemCodeValue(x)) || (ItemCode(x) != "" && IsArray(ServiceNameValue(x, s)))
    ensures r.Err? ==> r.error == ErrorException(ArrayToString)
    ensures r.Ok? ==> r.value == if ItemCode(x) == "" then [] else [ItemUpsert(x, ItemCode(x), billerCode, currency, s)]
  {
    var code :- Cast(ItemCodeValue(x));
    if code == "" then Ok([])
    else
      var name :- Cast(ServiceNameValue(x, s));
      Ok([ItemUpsert(x, code, billerCode, currency, s)])
  }

  /** The result of each item of a list. */
  function ItemResults(xs: seq<Json>, billerCode: string, currency: string, s: Scope): (r: seq<Result<seq<Upsert>>>)
    ensures |r| == |xs| && forall i :: 0 <= i < |xs| ==> r[i] == ItemWrite(xs[i], billerCode, currency, s)
  {
    if xs == [] then [] else ItemResults(xs[..|xs| - 1], billerCode, currency, s) + [ItemWrite(xs[|xs| - 1], billerCode, currency, s)]
  }

  /** The upserts of a biller's item list, in order, stopping at the first
      item that raises. */
  function ItemWrites(xs: seq<Json>, billerCode: string, currency: string, s: Scope): Batch {
    Collect(ItemResults(xs, billerCode, currency, s))
  }

  lemma ItemResultsPrefix(xs: seq<Json>, billerCode: string, currency: string, s: Scope, n: nat)
    requires n <= |xs|
    ensures ItemResults(xs, billerCode, currency, s)[..n] == ItemResults(xs[..n], billerCode, currency, s)
  {
  }

  lemma ItemWritesSnoc(xs: seq<Json>, billerCode: string, currency: string, s: Scope, i: nat)
    requires i < |xs|
    ensures ItemWrites(xs[..i + 1], billerCode, currency, s) ==
      Extend(ItemWrites(xs[..i], billerCode, currency, s), ItemWrite(xs[i], billerCode, currency, s))
  {
    var rs := ItemResults(xs[..i], billerCode, currency, s);
    assert xs[..i + 1][..i] == xs[..i] && xs[..i + 1][i] == xs[i];
    assert ItemResults(xs[..i + 1], billerCode, currency, s) == rs + [ItemWrite(xs[i], billerCode, currency, s)];
    CollectSnoc(rs, ItemWrite(xs[i], billerCode, currency, s));
  }

  lemma ItemWritesErrSticks(xs: seq<Json>, billerCode: string, currency: string, s: Scope, n: nat)
    requires n <= |xs| && ItemWrites(xs[..n], billerCode, currency, s).err.Some?
    ensures ItemWrites(xs, billerCode, currency, s) == ItemWrites(xs[..n], billerCode, currency, s)
  {
    ItemResultsPrefix(xs, billerCode, currency, s, n);
    CollectErrSticks(ItemResults(xs, billerCode, currency, s), n);
  }

  /** An item list raises exactly when one of its items does. */
  lemma ItemWritesRaise(xs: seq<Json>, billerCode: string, currency: string, s: Scope)
    ensures ItemWrites(xs, billerCode, currency, s).err.None? <==>
      forall i :: 0 <= i < |xs| ==> ItemWrite(xs[i], billerCode, currency, s).Ok?
  {
    CollectRaise(ItemResults(xs, billerCode, currency, s));
  }

  /** When an item list raises, it raises the first failing item's
      exception and keeps the upserts of the items before it, which all
      went through. */
  lemma ItemWritesStop(xs: seq<Json>, billerCode: string, currency: string, s: Scope)
    requires ItemWrites(xs, billerCode, currency, s).err.Some?
    ensures exists k ::
      && 0 <= k < |xs| && ItemWrite(xs[k], billerCode, currency, s).Err?
      && ItemWrites(xs[..k], billerCode, currency, s).err.None?
      && ItemWrites(xs, billerCode, currency, s) ==
           Batch(ItemWrites(xs[..k], billerCode, currency, s).writes, Some(ItemWrite(xs[k], billerCode, currency, s).error))
  {
    var rs := ItemResults(xs, billerCode, currency, s);
    CollectStop(rs);
    var k :| StopsAt(rs, k);
    ItemResultsPrefix(xs, billerCode, currency, s, k);
  }

  /** What every product write of a scope looks like. */
  ghost predicate ScopeProduct(u: Upsert, billerCode: string, currency: string, s: Scope) {
    && u.UpsertProduct?
    && u.key.0 == Provider && u.key.1 != ""
    && u.write.paymentCode == JStr(u.key.1)
    && u.write.category == Some(CategoryId(s))
    && u.write.biller == Some(billerCode)
    && u.write.currency == JStr(currency)
    && u.write.flags == ScopeFlags(s)
    && u.write.kobo.Some?
  }

  /** Every product a scope writes is keyed and paid by its non-empty item
      code, filed under the scope's category and biller, carries the
      biller's currency and exactly the scope's flag, and names the amount
      and fee columns; there is at most one write per item. */
  lemma {:induction false} ItemWritesShape(xs: seq<Json>, billerCode: string, currency: string, s: Scope)
    ensures var ws := ItemWrites(xs, billerCode, currency, s).writes;
      |ws| <= |xs| && forall i :: 0 <= i < |ws| ==> ScopeProduct(ws[i], billerCode, currency, s)
    decreases |xs|
  {
    if xs != [] {
      ItemWritesShape(xs[..|xs| - 1], billerCode, currency, s);
      ItemWritesSnoc(xs, billerCode, currency, s, |xs| - 1);
      assert xs[..|xs|] == xs;
    }
  }

  /** A non-numeric or absent amount or fee is stored as 0; the name falls
      back to the scope's default. */
  lemma ItemDefaults(x: Json, code: string, billerCode: string, currency: string, s: Scope)
    ensures var w := ItemUpsert(x, code, billerCode, currency, s).write;
      (!IsNumeric(Index(x, "amount")) ==> w.kobo.value.0 == 0) &&
      (!IsNumeric(Index(x, "fee")) ==> w.kobo.value.1 == 0) &&
      ((Index(x, "short_name") == JNull && Index(x, "biller_name") == JNull && Index(x, "name") == JNull)
        ==> w.name == JStr(DefaultName(s)))
  {
  }

  /** A scope's products set exactly its own flag. */
  lemma ScopeFlagsOneHot(s: Scope)
    ensures var f := ScopeFlags(s);
      !f.isAirtime &&
      (f.isData <==> s == DataScope) && (f.isTv <==> s == CableScope) && (f.isPower <==> s == ElectricityScope) &&
      (f.isData || f.isTv || f.isPower) &&
      !(f.isData && f.isTv) && !(f.isData && f.isPower) && !(f.isTv && f.isPower)
  {
  }

  // ----- the running tally -----

  /** What a sync has done so far: the two caches, the upserts and requests
      issued, and the biller and product counters. */
  datatype Tally = Tally(
    billerCache: map<string, Json>,
    itemCache: map<string, Json>,
    writes: seq<Upsert>,
    requests: seq<Request>,
    billers: nat,
    products: nat)

  /** A tally and, when a step raised, the exception. */
  datatype Progress = Progress(st: Tally, err: Option<Error>)

  /** One biller of a scope: its fields are cast, which may raise; it is
      skipped without a code; otherwise upserted and counted, then its items
      fetched and written. */
  function BillerStep(env: Env, st: Tally, b: Json, s: Scope): Progress {
    var f := BillerFields(b);
    if f.Err? then Progress(st, Some(f.error))
    else if f.value.0 == "" then Progress(st, None)
    else ItemsStep(env, RecordBiller(st, b, f.value.0), f.value.0, f.value.1, s)
  }

  /** Example: a biller whose `biller_code` is an array raises at its cast,
      before its row or its items are written. */
  lemma BillerCodeOfAnArray(env: Env, st: Tally, s: Scope)
    ensures BillerStep(env, st, JObj([("biller_code", JList([JInt(1)])), ("name", JStr("X"))]), s) ==
      Progress(st, Some(ErrorException(ArrayToString)))
  {
    assert BillerCodeValue(JObj([("biller_code", JList([JInt(1)])), ("name", JStr("X"))])) == JList([JInt(1)]);
  }

  function RecordBiller(st: Tally, b: Json, code: string): Tally {
    st.(writes := st.writes + [BillerUpsert(b, code)], billers := st.billers + 1)
  }

  function ItemsStep(env: Env, st: Tally, code: string, currency: string, s: Scope): Progress {
    var m := ItemsFetch(env, st.itemCache, code);
    ItemsOutcome(st.(itemCache := m.cache, requests := st.requests + m.requests), m.list, code, currency, s)
  }

  function ItemsOutcome(st: Tally, list: Result<Json>, code: string, currency: string, s: Scope): Progress {
    if list.Err? then Progress(st, Some(list.error))
    else
      var bt := ItemWrites(Items(list.value), code, currency, s);
      Progress(st.(writes := st.writes + bt.writes, products := st.products + |bt.writes|), bt.err)
  }

  /** The billers of a scope, in order, stopping at the first exception. */
  function BillerFold(env: Env, st: Tally, bs: seq<Json>, s: Scope): Progress {
    if bs == [] then Progress(st, None)
    else
      var o := BillerFold(env, st, bs[..|bs| - 1], s);
      if o.err.Some? then o else BillerStep(env, o.st, bs[|bs| - 1], s)
  }

  lemma BillerFoldSnoc(env: Env, st: Tally, bs: seq<Json>, s: Scope, i: nat)
    requires i < |bs|
    ensures BillerFold(env, st, bs[..i + 1], s) ==
      var o := BillerFold(env, st, bs[..i], s); if o.err.Some? then o else BillerStep(env, o.st, bs[i], s)
  {
    assert bs[..i + 1][..i] == bs[..i];
  }

  lemma {:induction false} BillerFoldErrSticks(env: Env, st: Tally, bs: seq<Json>, s: Scope, n: nat)
    requires n <= |bs| && BillerFold(env, st, bs[..n], s).err.Some?
    ensures BillerFold(env, st, bs, s) == BillerFold(env, st, bs[..n], s)
    decreases |bs| - n
  {
    if n < |bs| {
      assert bs[..n + 1][..n] == bs[..n];
      BillerFoldErrSticks(env, st, bs, s, n + 1);
    } else {
      assert bs[..n] == bs;
    }
  }

  /** The billers of a fetched list (or the exception of the fetch). */
  function BillersOutcome(env: Env, st: Tally, list: Result<Json>, s: Scope): Progress {
    if list.Err? then Progress(st, Some(list.error)) else BillerFold(env, st, Items(list.value), s)
  }

  /** `syncDataBundles`: the DATA billers, fetched through the item cache. */
  function DataRun(env: Env, st: Tally): Progress {
    var m := BillersFetch(env, st.itemCache, "DATA");
    BillersOutcome(env, st.(itemCache := m.cache, requests := st.requests + m.requests), m.list, DataScope)
  }

  // ----- the alias search -----

  /** The alias search so far: the list found, the biller cache, the
      requests sent, an exception, and whether a non-empty list was found. */
  datatype Hunt = Hunt(found: Json, cache: map<string, Json>, requests: seq<Request>, err: Option<Error>, done: bool)

  /** The aliases tried in order until one yields a non-empty list. */
  function AliasFold(env: Env, cache: map<string, Json>, aliases: seq<string>): Hunt {
    if aliases == [] then Hunt(EmptyArray, cache, [], None, false)
    else
      var h := AliasFold(env, cache, aliases[..|aliases| - 1]);
      if h.done || h.err.Some? then h else AliasStep(env, h, aliases[|aliases| - 1])
  }

  function AliasStep(env: Env, h: Hunt, alias: string): Hunt {
    var m := BillersFetch(env, h.cache, alias);
    var h1 := h.(cache := m.cache, requests := h.requests + m.requests);
    if m.list.Err? then h1.(err := Some(m.list.error))
    else if Truthy(m.list.value) then h1.(found := m.list.value, done := true)
    else h1
  }

  lemma AliasFoldSnoc(env: Env, cache: map<string, Json>, aliases: seq<string>, i: nat)
    requires i < |aliases|
    ensures AliasFold(env, cache, aliases[..i + 1]) ==
      var h := AliasFold(env, cache, aliases[..i]); if h.done || h.err.Some? then h else AliasStep(env, h, aliases[i])
  {
    assert aliases[..i + 1][..i] == aliases[..i];
  }

  /** Once found (or raised), the search stops. */
  lemma {:induction false} AliasFoldSticks(env: Env, cache: map<string, Json>, aliases: seq<string>, n: nat)
    requires n <= |aliases|
    requires AliasFold(env, cache, aliases[..n]).done || AliasFold(env, cache, aliases[..n]).err.Some?
    ensures AliasFold(env, cache, aliases) == AliasFold(env, cache, aliases[..n])
    decreases |aliases| - n
  {
    if n < |aliases| {
      assert aliases[..n + 1][..n] == aliases[..n];
      AliasFoldSticks(env, cache, aliases, n + 1);
    } else {
      assert aliases[..n] == aliases;
    }
  }

  /** A search that finds something finds a non-empty list; one that finds
      nothing and raises nothing yields `[]`, and every alias was then
      looked up and its cached list is empty; the cache only grows. */
  lemma {:induction false} AliasFoldShape(env: Env, cache: map<string, Json>, aliases: seq<string>)
    ensures var h := AliasFold(env, cache, aliases);
      (h.done ==> Truthy(h.found) && h.err.None?) &&
      (!h.done && h.err.None? ==> h.found == EmptyArray) &&
      Grows(cache, h.cache)
    ensures var h := AliasFold(env, cache, aliases);
      !h.done && h.err.None? ==> TriedAll(h.cache, aliases)
    decreases |aliases|
  {
    if aliases != [] {
      var prefix := aliases[..|aliases| - 1];
      var h := AliasFold(env, cache, prefix);
      AliasFoldShape(env, cache, prefix);
      if !h.done && h.err.None? {
        var alias := aliases[|aliases| - 1];
        AliasStepShape(env, h, alias);
        GrowsTrans(cache, h.cache, AliasStep(env, h, alias).cache);
        var r := AliasStep(env, h, alias);
        if !r.done && r.err.None? {
          TriedAllGrows(h.cache, r.cache, prefix);
          assert aliases == prefix + [alias];
        }
      }
    }
  }

  /** Every alias's biller list is cached, and every one of them is empty. */
  ghost predicate TriedAll(cache: map<string, Json>, aliases: seq<string>) {
    forall i :: 0 <= i < |aliases| ==> BillersKey(aliases[i]) in cache && !Truthy(cache[BillersKey(aliases[i])])
  }

  lemma TriedAllGrows(c1: map<string, Json>, c2: map<string, Json>, aliases: seq<string>)
    requires TriedAll(c1, aliases) && Grows(c1, c2)
    ensures TriedAll(c2, aliases)
  {
    forall i | 0 <= i < |aliases|
      ensures BillersKey(aliases[i]) in c2 && c2[BillersKey(aliases[i])] == c1[BillersKey(aliases[i])]
    {
    }
  }

  lemma AliasStepShape(env: Env, h: Hunt, alias: string)
    requires !h.done && h.err.None? && h.found == EmptyArray
    ensures var r := AliasStep(env, h, alias);
      (r.done ==> Truthy(r.found) && r.err.None?) &&
      (!r.done && r.err.None? ==> r.found == EmptyArray) &&
      Grows(h.cache, r.cache)
    ensures var r := AliasStep(env, h, alias);
      !r.done && r.err.None? ==> BillersKey(alias) in r.cache && !Truthy(r.cache[BillersKey(alias)])
  {
    MemoGrows(env, h.cache, BillersKey(alias), "/billers", BillersParams(env.config, alias));
  }

  lemma GrowsTrans(a: map<string, Json>, b: map<string, Json>, c: map<string, Json>)
    requires Grows(a, b) && Grows(b, c)
    ensures Grows(a, c)
  {
  }

  /** When the first alias yields a non-empty list it is taken and no
      other alias is tried. */
  lemma FirstAliasTaken(env: Env, cache: map<string, Json>, aliases: seq<string>)
    requires |aliases| >= 1
    requires var m := BillersFetch(env, cache, aliases[0]); m.list.Ok? && Truthy(m.list.value)
    ensures var m := BillersFetch(env, cache, aliases[0]);
      AliasFold(env, cache, aliases) == Hunt(m.list.value, m.cache, m.requests, None, true)
  {
    assert aliases[..0] == [];
    AliasFoldSnoc(env, cache, aliases, 0);
    AliasFoldSticks(env, cache, aliases, 1);
  }

  /** The search's list as a fetch result. */
  function HuntList(h: Hunt): Result<Json> {
    if h.err.Some? then Err(h.err.value) else Ok(h.found)
  }

  /** `syncCableProviders` / `syncElectricUtilities`: the alias search over
      the biller cache, then the billers found. */
  function AliasRun(env: Env, st: Tally, s: Scope, aliases: seq<string>): Progress {
    var h := AliasFold(env, st.billerCache, aliases);
    BillersOutcome(env, st.(billerCache := h.cache, requests := st.requests + h.requests), HuntList(h), s)
  }

  /** When every alias is empty the scope writes nothing and counts nothing. */
  lemma AliasesAllEmptyWriteNothing(env: Env, st: Tally, s: Scope, aliases: seq<string>)
    requires var h := AliasFold(env, st.billerCache, aliases); !h.done && h.err.None?
    ensures var o := AliasRun(env, st, s, aliases);
      o.err.None? && o.st.writes == st.writes && o.st.billers == st.billers && o.st.products == st.products
  {
    AliasFoldShape(env, st.billerCache, aliases);
  }

  // ----- the scope driver -----

  /** `$scope === 'all' ? ['data', 'cable', 'electricity'] : [$scope]`. */
  function Segments(scope: string): seq<string> {
    if scope == "all" then ["data", "cable", "electricity"] else [scope]
  }

  /** One segment; an unknown one does nothing. */
  function ScopeRun(env: Env, st: Tally, seg: string): Progress {
    if seg == "data" then DataRun(env, st)
    else if seg == "cable" then AliasRun(env, st, CableScope, CableAliases)
    else if seg == "electricity" then AliasRun(env, st, ElectricityScope, ElectricityAliases)
    else Progress(st, None)
  }

  function ScopedFold(env: Env, st: Tally, segs: seq<string>): Progress {
    if segs == [] then Progress(st, None)
    else
      var o := ScopedFold(env, st, segs[..|segs| - 1]);
      if o.err.Some? then o else ScopeRun(env, o.st, segs[|segs| - 1])
  }

  lemma ScopedFoldSnoc(env: Env, st: Tally, segs: seq<string>, i: nat)
    requires i < |segs|
    ensures ScopedFold(env, st, segs[..i + 1]) ==
      var o := ScopedFold(env, st, segs[..i]); if o.err.Some? then o else ScopeRun(env, o.st, segs[i])
  {
    assert segs[..i + 1][..i] == segs[..i];
  }

  lemma {:induction false} ScopedFoldErrSticks(env: Env, st: Tally, segs: seq<string>, n: nat)
    requires n <= |segs| && ScopedFold(env, st, segs[..n]).err.Some?
    ensures ScopedFold(env, st, segs) == ScopedFold(env, st, segs[..n])
    decreases |segs| - n
  {
    if n < |segs| {
      assert segs[..n + 1][..n] == segs[..n];
      ScopedFoldErrSticks(env, st, segs, n + 1);
    } else {
      assert segs[..n] == segs;
    }
  }

  /** The tally a scoped sync starts from: the seed categories written,
      both caches empty, nothing sent or counted. */
  const StartTally := Tally(map[], map[], SeedWrites, [], 0, 0)

  /** What `syncCatalogScoped` returns, the upserts it issues and the
      requests it sends. */
  datatype ScopedRun = ScopedRun(result: Result<SyncCounts>, writes: seq<Upsert>, requests: seq<Request>)

  function Totals(o: Progress): Result<SyncCounts> {
    if o.err.Some? then Err(o.err.value) else Ok(SyncCounts(|SeedWrites|, o.st.billers, o.st.products))
  }

  function ScopedSync(env: Env, scope: string): ScopedRun {
    var o := ScopedFold(env, StartTally, Segments(scope));
    ScopedRun(Totals(o), o.st.writes, o.st.requests)
  }

  /** "all" runs data, cable and electricity in that order, sharing the
      caches, and stops at the first exception. */
  lemma AllRunsThreeScopes(env: Env, st: Tally)
    ensures ScopedFold(env, st, Segments("all")) ==
      var o1 := DataRun(env, st);
      if o1.err.Some? then o1
      else
        var o2 := AliasRun(env, o1.st, CableScope, CableAliases);
        if o2.err.Some? then o2 else AliasRun(env, o2.st, ElectricityScope, ElectricityAliases)
  {
    var segs := Segments("all");
    assert segs[..3] == segs;
    assert segs[..2][..1] == segs[..1];
    assert segs[..3][..2] == segs[..2];
    ScopedFoldSnoc(env, st, segs, 0);
    ScopedFoldSnoc(env, st, segs, 1);
    ScopedFoldSnoc(env, st, segs, 2);
  }

  /** Any other scope runs only itself; an unknown one adds nothing to the
      seed sync: it sends nothing and returns {4, 0, 0}. */
  lemma UnknownScopeAddsNothing(env: Env, scope: string)
    requires scope != "all" && scope != "data" && scope != "cable" && scope != "electricity"
    ensures ScopedSync(env, scope) == ScopedRun(Ok(SyncCounts(4, 0, 0)), SeedWrites, [])
  {
    SingleScope(env, scope);
    assert |SeedWrites| == 4;
  }

  /** A single known scope runs exactly that scope after the seeds. */
  lemma SingleScope(env: Env, scope: string)
    requires scope != "all"
    ensures ScopedFold(env, StartTally, Segments(scope)) == ScopeRun(env, StartTally, scope)
  {
    assert Segments(scope)[..0] == [];
  }

  // ----- counting -----

  function BillerCount(ws: seq<Upsert>): nat {
    if ws == [] then 0 else BillerCount(ws[..|ws| - 1]) + (if ws[|ws| - 1].UpsertBiller? then 1 else 0)
  }

  function ProductCount(ws: seq<Upsert>): nat {
    if ws == [] then 0 else ProductCount(ws[..|ws| - 1]) + (if ws[|ws| - 1].UpsertProduct? then 1 else 0)
  }

  lemma {:induction false} CountAppend(a: seq<Upsert>, b: seq<Upsert>)
    ensures BillerCount(a + b) == BillerCount(a) + BillerCount(b)
    ensures ProductCount(a + b) == ProductCount(a) + ProductCount(b)
    decreases |b|
  {
    if b == [] {
      assert a + b == a;
    } else {
      CountAppend(a, b[..|b| - 1]);
      assert (a + b)[..|a + b| - 1] == a + b[..|b| - 1];
    }
  }

  lemma {:induction false} ItemWritesCount(xs: seq<Json>, billerCode: string, currency: string, s: Scope)
    ensures var ws := ItemWrites(xs, billerCode, currency, s).writes;
      BillerCount(ws) == 0 && ProductCount(ws) == |ws|
    decreases |xs|
  {
    if xs != [] {
      var init := ItemWrites(xs[..|xs| - 1], billerCode, currency, s);
      var last := ItemWrite(xs[|xs| - 1], billerCode, currency, s);
      ItemWritesCount(xs[..|xs| - 1], billerCode, currency, s);
      ItemWritesSnoc(xs, billerCode, currency, s, |xs| - 1);
      assert xs[..|xs|] == xs;
      if init.err.None? && last.Ok? {
        CountAppend(init.writes, last.value);
        if last.value != [] {
          assert last.value[..0] == [];
        }
      }
    }
  }

  /** The counters agree with the upserts issued: every biller upsert is
      counted as a biller and every product upsert as a product. */
  ghost predicate Counted(st: Tally) {
    BillerCount(st.writes) == st.billers && ProductCount(st.writes) == st.products
  }

  /** The upserts and requests of `b` extend those of `a`, and both caches grow. */
  ghost predicate Advances(a: Tally, b: Tally) {
    a.writes <= b.writes && a.requests <= b.requests &&
    Grows(a.billerCache, b.billerCache) && Grows(a.itemCache, b.itemCache)
  }

  lemma AdvancesTrans(a: Tally, b: Tally, c: Tally)
    requires Advances(a, b) && Advances(b, c)
    ensures Advances(a, c)
  {
  }

  lemma RecordBillerKeeps(st: Tally, b: Json, code: string)
    requires Counted(st)
    ensures Counted(RecordBiller(st, b, code)) && Advances(st, RecordBiller(st, b, code))
  {
    var u := BillerUpsert(b, code);
    CountAppend(st.writes, [u]);
    assert [u][..0] == [];
  }

  lemma ItemsStepKeeps(env: Env, st: Tally, code: string, currency: string, s: Scope)
    requires Counted(st)
    ensures Counted(ItemsStep(env, st, code, currency, s).st) && Advances(st, ItemsStep(env, st, code, currency, s).st)
  {
    MemoGrows(env, st.itemCache, ItemsKey(code), "/bill-items", ItemsParams(env.config, code));
    var m := ItemsFetch(env, st.itemCache, code);
    if m.list.Ok? {
      var st1 := st.(itemCache := m.cache, requests := st.requests + m.requests);
      var ws := ItemWrites(Items(m.list.value), code, currency, s).writes;
      ItemWritesCount(Items(m.list.value), code, currency, s);
      CountAppend(st1.writes, ws);
    }
  }

  lemma BillerStepKeeps(env: Env, st: Tally, b: Json, s: Scope)
    requires Counted(st)
    ensures Counted(BillerStep(env, st, b, s).st) && Advances(st, BillerStep(env, st, b, s).st)
  {
    var f := BillerFields(b);
    if f.Ok? && f.value.0 != "" {
      var code := f.value.0;
      var st1 := RecordBiller(st, b, code);
      RecordBillerKeeps(st, b, code);
      ItemsStepKeeps(env, st1, code, f.value.1, s);
      AdvancesTrans(st, st1, ItemsStep(env, st1, code, f.value.1, s).st);
    }
  }

  lemma {:induction false} BillerFoldKeeps(env: Env, st: Tally, bs: seq<Json>, s: Scope)
    requires Counted(st)
    ensures Counted(BillerFold(env, st, bs, s).st) && Advances(st, BillerFold(env, st, bs, s).st)
    decreases |bs|
  {
    if bs != [] {
      var o := BillerFold(env, st, bs[..|bs| - 1], s);
      BillerFoldKeeps(env, st, bs[..|bs| - 1], s);
      if o.err.None? {
        BillerStepKeeps(env, o.st, bs[|bs| - 1], s);
        AdvancesTrans(st, o.st, BillerStep(env, o.st, bs[|bs| - 1], s).st);
      }
    }
  }

  lemma BillersOutcomeKeeps(env: Env, st: Tally, list: Result<Json>, s: Scope)
    requires Counted(st)
    ensures Counted(BillersOutcome(env, st, list, s).st) && Advances(st, BillersOutcome(env, st, list, s).st)
  {
    if list.Ok? {
      BillerFoldKeeps(env, st, Items(list.value), s);
    }
  }

  lemma DataRunKeeps(env: Env, st: Tally)
    requires Counted(st)
    ensures Counted(DataRun(env, st).st) && Advances(st, DataRun(env, st).st)
  {
    MemoGrows(env, st.itemCache, BillersKey("DATA"), "/billers", BillersParams(env.config, "DATA"));
    var m := BillersFetch(env, st.itemCache, "DATA");
    var st1 := st.(itemCache := m.cache, requests := st.requests + m.requests);
    BillersOutcomeKeeps(env, st1, m.list, DataScope);
    AdvancesTrans(st, st1, DataRun(env, st).st);
  }

  lemma AliasRunKeeps(env: Env, st: Tally, s: Scope, aliases: seq<string>)
    requires Counted(st)
    ensures Counted(AliasRun(env, st, s, aliases).st) && Advances(st, AliasRun(env, st, s, aliases).st)
  {
    AliasFoldShape(env, st.billerCache, aliases);
    var h := AliasFold(env, st.billerCache, aliases);
    var st1 := st.(billerCache := h.cache, requests := st.requests + h.requests);
    BillersOutcomeKeeps(env, st1, HuntList(h), s);
    AdvancesTrans(st, st1, AliasRun(env, st, s, aliases).st);
  }

  lemma ScopeRunKeeps(env: Env, st: Tally, seg: string)
    requires Counted(st)
    ensures Counted(ScopeRun(env, st, seg).st) && Advances(st, ScopeRun(env, st, seg).st)
  {
    if seg == "data" {
      DataRunKeeps(env, st);
    } else if seg == "cable" {
      AliasRunKeeps(env, st, CableScope, CableAliases);
    } else if seg == "electricity" {
      AliasRunKeeps(env, st, ElectricityScope, ElectricityAliases);
    }
  }

  /** A run of category upserts counts no biller and no product. */
  lemma {:induction false} CategoriesCountNothing(ws: seq<Upsert>)
    requires forall i :: 0 <= i < |ws| ==> ws[i].UpsertCategory?
    ensures BillerCount(ws) == 0 && ProductCount(ws) == 0
    decreases |ws|
  {
    if ws != [] {
      CategoriesCountNothing(ws[..|ws| - 1]);
    }
  }

  lemma {:induction false} ScopedFoldKeeps(env: Env, st: Tally, segs: seq<string>)
    requires Counted(st)
    ensures Counted(ScopedFold(env, st, segs).st) && Advances(st, ScopedFold(env, st, segs).st)
    decreases |segs|
  {
    if segs != [] {
      var o := ScopedFold(env, st, segs[..|segs| - 1]);
      ScopedFoldKeeps(env, st, segs[..|segs| - 1]);
      if o.err.None? {
        ScopeRunKeeps(env, o.st, segs[|segs| - 1]);
        AdvancesTrans(st, o.st, ScopeRun(env, o.st, segs[|segs| - 1]).st);
      }
    }
  }

  // ----- references from products to billers -----

  /** Every product upsert names a biller, and one whose row `ws` writes. */
  ghost predicate Filed(ws: seq<Upsert>) {
    forall k :: 0 <= k < |ws| ==> (ws[k].UpsertProduct? ==> ws[k].write.biller.Some?) && Resolves(ws, ws[k])
  }

  lemma ResolvedAppend(a: seq<Upsert>, b: seq<Upsert>)
    requires Filed(a)
    requires forall k :: 0 <= k < |b| ==> (b[k].UpsertProduct? ==> b[k].write.biller.Some?) && Resolves(a + b, b[k])
    ensures Filed(a + b)
  {
    forall k | 0 <= k < |a + b|
      ensures ((a + b)[k].UpsertProduct? ==> (a + b)[k].write.biller.Some?) && Resolves(a + b, (a + b)[k])
    {
      if k < |a| {
        assert (a + b)[k] == a[k];
        ResolvesGrows(a, a + b, a[k]);
      } else {
        assert (a + b)[k] == b[k - |a|];
      }
    }
  }

  /** A biller's items are filed under the biller, whose row is written. */
  lemma ItemsStepResolved(env: Env, st: Tally, code: string, currency: string, s: Scope)
    requires Filed(st.writes) && (Provider, code) in BillerKeys(st.writes)
    ensures Filed(ItemsStep(env, st, code, currency, s).st.writes)
  {
    var m := ItemsFetch(env, st.itemCache, code);
    if m.list.Ok? {
      var ws := ItemWrites(Items(m.list.value), code, currency, s).writes;
      ItemWritesShape(Items(m.list.value), code, currency, s);
      BillerKeysAppend(st.writes, ws);
      ResolvedAppend(st.writes, ws);
    }
  }

  lemma BillerStepResolved(env: Env, st: Tally, b: Json, s: Scope)
    requires Filed(st.writes)
    ensures Filed(BillerStep(env, st, b, s).st.writes)
  {
    var f := BillerFields(b);
    if f.Ok? && f.value.0 != "" {
      var code := f.value.0;
      var u := BillerUpsert(b, code);
      ResolvedAppend(st.writes, [u]);
      BillerKeysAppend(st.writes, [u]);
      assert [u][..0] == [];
      ItemsStepResolved(env, RecordBiller(st, b, code), code, f.value.1, s);
    }
  }

  lemma {:induction false} BillerFoldResolved(env: Env, st: Tally, bs: seq<Json>, s: Scope)
    requires Filed(st.writes)
    ensures Filed(BillerFold(env, st, bs, s).st.writes)
    decreases |bs|
  {
    if bs != [] {
      BillerFoldResolved(env, st, bs[..|bs| - 1], s);
      var o := BillerFold(env, st, bs[..|bs| - 1], s);
      if o.err.None? {
        BillerStepResolved(env, o.st, bs[|bs| - 1], s);
      }
    }
  }

  lemma ScopeRunResolved(env: Env, st: Tally, seg: string)
    requires Filed(st.writes)
    ensures Filed(ScopeRun(env, st, seg).st.writes)
  {
    if seg == "data" {
      var m := BillersFetch(env, st.itemCache, "DATA");
      if m.list.Ok? {
        BillerFoldResolved(env, st.(itemCache := m.cache, requests := st.requests + m.requests), Items(m.list.value), DataScope);
      }
    } else if seg == "cable" || seg == "electricity" {
      var (sc, aliases) := if seg == "cable" then (CableScope, CableAliases) else (ElectricityScope, ElectricityAliases);
      var h := AliasFold(env, st.billerCache, aliases);
      if h.err.None? {
        BillerFoldResolved(env, st.(billerCache := h.cache, requests := st.requests + h.requests), Items(h.found), sc);
      }
    }
  }

  lemma {:induction false} ScopedFoldResolved(env: Env, st: Tally, segs: seq<string>)
    requires Filed(st.writes)
    ensures Filed(ScopedFold(env, st, segs).st.writes)
    decreases |segs|
  {
    if segs != [] {
      ScopedFoldResolved(env, st, segs[..|segs| - 1]);
      var o := ScopedFold(env, st, segs[..|segs| - 1]);
      if o.err.None? {
        ScopeRunResolved(env, o.st, segs[|segs| - 1]);
      }
    }
  }

  /** Every product a scoped sync writes is filed under a biller the same
      sync wrote, and so has a biller row once the writes are applied. This
      holds whichever scope ran and whether or not an exception cut it short. */
  lemma ScopedSyncReferences(env: Env, scope: string, t: Tables)
    ensures ReferencesResolved(ScopedSync(env, scope).writes)
    ensures var ws := ScopedSync(env, scope).writes;
      forall k :: 0 <= k < |ws| && ws[k].UpsertProduct? ==>
        ws[k].write.biller.Some? && (ws[k].key.0, ws[k].write.biller.value) in ApplyAll(t, ws).billers
  {
    assert forall k :: 0 <= k < |SeedWrites| ==> SeedWrites[k].UpsertCategory?;
    ScopedFoldResolved(env, StartTally, Segments(scope));
    var ws := ScopedSync(env, scope).writes;
    forall k | 0 <= k < |ws| && ws[k].UpsertProduct?
      ensures (ws[k].key.0, ws[k].write.biller.value) in ApplyAll(t, ws).billers
    {
      BillerKeysApplied(t, ws, (ws[k].key.0, ws[k].write.biller.value));
    }
  }

  /** The totals of a scoped sync: four categories, and as many billers and
      products as upserts of each kind were issued (no de-duplication); the
      seed upserts come first. */
  lemma ScopedSyncTotals(env: Env, scope: string)
    ensures var run := ScopedSync(env, scope);
      SeedWrites <= run.writes &&
      (run.result.Ok? ==>
        run.result.value.categories == 4 &&
        run.result.value.billers == BillerCount(run.writes) &&
        run.result.value.products == ProductCount(run.writes))
  {
    CategoriesCountNothing(SeedWrites);
    ScopedFoldKeeps(env, StartTally, Segments(scope));
  }
}
