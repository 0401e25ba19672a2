/** The local catalog: the tables `bill_categories`, `bill_providers`
    (upstream billers) and `bill_products`, each keyed by the unique pair
    (provider, external_id), and the `updateOrInsert` statement the
    synchronisers issue against them. Timestamps are not modelled. */
module Catalog {
  import opened Php

  /** (provider, external_id), the unique key of every catalog table. */
  type Key = (string, string)

  datatype Flags = Flags(isAirtime: bool, isData: bool, isPower: bool, isTv: bool)

  /** A `bill_products` row. Column values that come straight from upstream
      payloads are kept as the JSON value the adapter passed. */
  datatype ProductRow = ProductRow(
    name: Json,
    category: Option<string>,
    biller: Option<string>,
    paymentCode: Json,
    currency: Json,
    amountKobo: int,
    feeKobo: int,
    flags: Flags)

  /** The columns one product upsert names. `kobo` is `None` when the
      upsert does not name `amount_kobo` and `fee_kobo`. */
  datatype ProductWrite = ProductWrite(
    name: Json,
    category: Option<string>,
    biller: Option<string>,
    paymentCode: Json,
    currency: Json,
    kobo: Option<(int, int)>,
    flags: Flags)

  /** One `updateOrInsert` statement. Category and biller upserts name only
      the `name` column. */
  datatype Upsert =
    | UpsertCategory(key: Key, name: Json)
    | UpsertBiller(key: Key, name: Json)
    | UpsertProduct(key: Key, write: ProductWrite)

  datatype Tables = Tables(
    categories: map<Key, Json>,
    billers: map<Key, Json>,
    products: map<Key, ProductRow>)

  const EmptyTables := Tables(map[], map[], map[])

  /** The `{categories, billers, products}` counts a sync returns. */
  datatype SyncCounts = SyncCounts(categories: nat, billers: nat, products: nat)

  /** The upserts a loop over a list has issued so far and, when one of
      its records raised, the exception, which ends the loop. */
  datatype Batch = Batch(writes: seq<Upsert>, err: Option<Error>)

  /** One more record's upserts, unless an earlier record raised. */
  function Extend(bt: Batch, r: Result<seq<Upsert>>): Batch {
    if bt.err.Some? then bt
    else match r
      case Ok(ws) => Batch(bt.writes + ws, None)
      case Err(e) => Batch(bt.writes, Some(e))
  }

  /** A loop over records whose results are `rs`: their upserts in order,
      up to the first record that raises. */
  function Collect(rs: seq<Result<seq<Upsert>>>): Batch {
    if rs == [] then Batch([], None) else Extend(Collect(rs[..|rs| - 1]), rs[|rs| - 1])
  }

  lemma CollectSnoc(rs: seq<Result<seq<Upsert>>>, r: Result<seq<Upsert>>)
    ensures Collect(rs + [r]) == Extend(Collect(rs), r)
  {
    assert (rs + [r])[..|rs|] == rs;
  }

  /** Once a record has raised, the later ones change nothing. */
  lemma {:induction false} CollectErrSticks(rs: seq<Result<seq<Upsert>>>, n: nat)
    requires n <= |rs| && Collect(rs[..n]).err.Some?
    ensures Collect(rs) == Collect(rs[..n])
    decreases |rs| - n
  {
    if n < |rs| {
      assert rs[..n + 1][..n] == rs[..n];
      CollectErrSticks(rs, n + 1);
    } else {
      assert rs[..n] == rs;
    }
  }

  /** The records before `k` went through and record `k` raised, ending
      the loop with the upserts of those before it. */
  ghost predicate StopsAt(rs: seq<Result<seq<Upsert>>>, k: int) {
    && 0 <= k < |rs|
    && rs[k].Err?
    && Collect(rs[..k]).err.None?
    && Collect(rs) == Batch(Collect(rs[..k]).writes, Some(rs[k].error))
  }

  /** A loop that raised stopped at its first raising record. */
  lemma {:induction false} CollectStop(rs: seq<Result<seq<Upsert>>>)
    requires Collect(rs).err.Some?
    ensures exists k :: StopsAt(rs, k)
    decreases |rs|
  {
    var n := |rs| - 1;
    var init := rs[..n];
    if Collect(init).err.Some? {
      CollectStop(init);
      var k :| StopsAt(init, k);
      assert init[..k] == rs[..k] && init[k] == rs[k];
      assert StopsAt(rs, k);
    } else {
      assert StopsAt(rs, n);
    }
  }

  /** A loop raises exactly when one of its records does. */
  lemma CollectRaise(rs: seq<Result<seq<Upsert>>>)
    ensures Collect(rs).err.None? <==> forall i :: 0 <= i < |rs| ==> rs[i].Ok?
  {
    forall i | 0 <= i < |rs| && rs[i].Err?
      ensures Collect(rs).err.Some?
    {
      assert rs[..i + 1][..i] == rs[..i];
      CollectErrSticks(rs, i + 1);
    }
    if Collect(rs).err.Some? {
      CollectStop(rs);
      var k :| StopsAt(rs, k);
    }
  }

  /** The product row after an upsert: the named columns take the written
      values; an existing row keeps the columns the upsert does not name,
      and a new row takes the column default 0 for them. */
  function ApplyProduct(existing: Option<ProductRow>, w: ProductWrite): (r: ProductRow)
    ensures r.name == w.name && r.category == w.category && r.biller == w.biller
    ensures r.paymentCode == w.paymentCode && r.currency == w.currency && r.flags == w.flags
    ensures w.kobo.Some? ==> r.amountKobo == w.kobo.value.0 && r.feeKobo == w.kobo.value.1
    ensures w.kobo.None? && existing.Some? ==> r.amountKobo == existing.value.amountKobo && r.feeKobo == existing.value.feeKobo
    ensures w.kobo.None? && existing.None? ==> r.amountKobo == 0 && r.feeKobo == 0
  {
    var (amount, fee) :=
      if w.kobo.Some? then w.kobo.value
      else if existing.Some? then (existing.value.amountKobo, existing.value.feeKobo)
      else (0, 0);
    ProductRow(w.name, w.category, w.biller, w.paymentCode, w.currency, amount, fee, w.flags)
  }

  function Lookup<V>(m: map<Key, V>, k: Key): Option<V> {
    if k in m then Some(m[k]) else None
  }

  /** `updateOrInsert`: insert the row when the key is absent, otherwise
      update the named columns of the one existing row. */
  function Apply(t: Tables, u: Upsert): (r: Tables)
  {
    match u
    case UpsertCategory(k, name) => t.(categories := t.categories[k := name])
    case UpsertBiller(k, name) => t.(billers := t.billers[k := name])
    case UpsertProduct(k, w) => t.(products := t.products[k := ApplyProduct(Lookup(t.products, k), w)])
  }

  /** The tables after a sequence of upserts, in order. */
  function ApplyAll(t: Tables, us: seq<Upsert>): Tables
  {
    if us == [] then t else Apply(ApplyAll(t, us[..|us| - 1]), us[|us| - 1])
  }

  /** An upsert touches only the row of its own key, and that row then
      exists; every other row of every table is unchanged. */
  lemma UpsertTouchesOnlyItsKey(t: Tables, u: Upsert, k: Key)
    requires k != u.key
    ensures var r := Apply(t, u);
      Lookup(r.categories, k) == Lookup(t.categories, k) &&
      Lookup(r.billers, k) == Lookup(t.billers, k) &&
      Lookup(r.products, k) == Lookup(t.products, k)
    ensures var r := Apply(t, u);
      match u
      case UpsertCategory(_, name) => r.categories.Keys == t.categories.Keys + {u.key} && r.categories[u.key] == name
      case UpsertBiller(_, name) => r.billers.Keys == t.billers.Keys + {u.key} && r.billers[u.key] == name
      case UpsertProduct(_, _) => r.products.Keys == t.products.Keys + {u.key}
  {
  }

  /** Repeating an upsert with identical attributes changes nothing: the
      key still has exactly one row, with the same contents. */
  lemma UpsertIdempotent(t: Tables, u: Upsert)
    ensures Apply(Apply(t, u), u) == Apply(t, u)
  {
    match u
    case UpsertCategory(k, name) =>
    case UpsertBiller(k, name) =>
    case UpsertProduct(k, w) =>
      var once := Apply(t, u);
      assert ApplyProduct(Lookup(once.products, k), w) == once.products[k];
      assert once.products[k := once.products[k]] == once.products;
  }

  predicate NamesKobo(u: Upsert) { u.UpsertProduct? && u.write.kobo.Some? }

  /** A run of upserts none of which names `amount_kobo` / `fee_kobo`
      leaves those columns of every existing product row as they were. */
  lemma {:induction false} KoboUntouched(t: Tables, us: seq<Upsert>, k: Key)
    requires forall i :: 0 <= i < |us| ==> !NamesKobo(us[i])
    requires k in t.products
    ensures k in ApplyAll(t, us).products
    ensures ApplyAll(t, us).products[k].amountKobo == t.products[k].amountKobo
    ensures ApplyAll(t, us).products[k].feeKobo == t.products[k].feeKobo
    decreases |us|
  {
    if us != [] {
      KoboUntouched(t, us[..|us| - 1], k);
    }
  }

  /** The keys of the biller upserts among `ws`. */
  function BillerKeys(ws: seq<Upsert>): set<Key> {
    if ws == [] then {}
    else BillerKeys(ws[..|ws| - 1]) + (if ws[|ws| - 1].UpsertBiller? then {ws[|ws| - 1].key} else {})
  }

  /** A product upsert that names a biller names one whose row `ws` writes:
      `biller_external_id` refers to a biller of the same provider. */
  ghost predicate Resolves(ws: seq<Upsert>, u: Upsert) {
    u.UpsertProduct? && u.write.biller.Some? ==> (u.key.0, u.write.biller.value) in BillerKeys(ws)
  }

  /** Every product reference in a run of upserts is to a biller the run writes. */
  ghost predicate ReferencesResolved(ws: seq<Upsert>) {
    forall k :: 0 <= k < |ws| ==> Resolves(ws, ws[k])
  }

  lemma {:induction false} BillerKeysAppend(a: seq<Upsert>, b: seq<Upsert>)
    ensures BillerKeys(a + b) == BillerKeys(a) + BillerKeys(b)
    decreases |b|
  {
    if b == [] {
      assert a + b == a;
    } else {
      BillerKeysAppend(a, b[..|b| - 1]);
      assert (a + b)[..|a + b| - 1] == a + b[..|b| - 1];
    }
  }

  /** A reference resolved in a run stays resolved when the run goes on. */
  lemma ResolvesGrows(a: seq<Upsert>, b: seq<Upsert>, u: Upsert)
    requires a <= b && Resolves(a, u)
    ensures Resolves(b, u)
  {
    assert b == a + b[|a|..];
    BillerKeysAppend(a, b[|a|..]);
  }

  /** Every biller key a run names has a row once the run is applied. */
  lemma {:induction false} BillerKeysApplied(t: Tables, ws: seq<Upsert>, k: Key)
    requires k in BillerKeys(ws)
    ensures k in ApplyAll(t, ws).billers
    decreases |ws|
  {
    var init := ws[..|ws| - 1];
    if k in BillerKeys(init) {
      BillerKeysApplied(t, init, k);
    }
  }

  /** The catalog store the synchronisers write to: the three tables and the
      log of `updateOrInsert` statements issued so far. */
  class CatalogStore {
    var tables: Tables
    var log: seq<Upsert>

    constructor ()
      ensures tables == EmptyTables && log == []
    {
      tables := EmptyTables;
      log := [];
    }

    method Upsert(u: Upsert)
      modifies this
      ensures tables == Apply(old(tables), u)
      ensures log == old(log) + [u]
    {
      tables := Apply(tables, u);
      log := log + [u];
    }
  }

  /** Appending one upsert to a run applies it last. */
  lemma ApplyAllSnoc(t: Tables, us: seq<Upsert>, u: Upsert)
    ensures ApplyAll(t, us + [u]) == Apply(ApplyAll(t, us), u)
  {
    assert (us + [u])[..|us|] == us;
  }

  /** Two runs of upserts one after the other are one run. */
  lemma {:induction false} ApplyAllAppend(t: Tables, us: seq<Upsert>, vs: seq<Upsert>)
    ensures ApplyAll(ApplyAll(t, us), vs) == ApplyAll(t, us + vs)
    decreases |vs|
  {
    if vs == [] {
      assert us + vs == us;
    } else {
      var init := vs[..|vs| - 1];
      ApplyAllAppend(t, us, init);
      assert (us + vs)[..|us + vs| - 1] == us + init;
    }
  }

  /** A store that held `log` and `ApplyAll(t, us)` and then takes `vs`
      holds the log and tables of `us + vs`. */
  lemma StoreAppend(log: seq<Upsert>, t: Tables, us: seq<Upsert>, vs: seq<Upsert>)
    ensures (log + us) + vs == log + (us + vs)
    ensures ApplyAll(ApplyAll(t, us), vs) == ApplyAll(t, us + vs)
  {
    ApplyAllAppend(t, us, vs);
  }
}
