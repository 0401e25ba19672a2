/** What one Interswitch catalog sync writes, as functions of the upstream
    payloads: the category list, the keyword classifier, and the three
    shapes of the services payload folded into one sequence of upserts with
    a shared set of billers already written. The imperative sync in module
    Interswitch is proved to issue exactly these upserts. */
module InterswitchCatalog {
  import opened Php
  import opened Catalog
  import opened Http

  const Provider := "interswitch"

  // ----- keyword classifier (classifyProduct) -----

  /** The lower-cased text the classifier searches: service name, biller
      name and category id, separated by spaces, a null part read as "". */
  function Haystack(categoryId: Option<string>, serviceName: Option<string>, billerName: Option<string>): string {
    Lower(OrEmpty(serviceName) + " " + OrEmpty(billerName) + " " + OrEmpty(categoryId))
  }

  function Classify(categoryId: Option<string>, serviceName: Option<string>, billerName: Option<string>): Flags {
    FlagsOf(Haystack(categoryId, serviceName, billerName))
  }

  /** The four keyword tests on a haystack. */
  function FlagsOf(h: string): Flags {
    Flags(
      Contains(h, "airtime") || Contains(h, "mobile"),
      Contains(h, "data") || Contains(h, "mb") || Contains(h, "gb"),
      Contains(h, "power") || Contains(h, "electric") || Contains(h, "ikeja") || Contains(h, "eko disco"),
      Contains(h, "tv") || Contains(h, "dstv") || Contains(h, "gotv") || Contains(h, "startimes"))
  }

  /** A needle inside a needle: whatever contains "dstv" contains "tv". */
  lemma ContainsTransitive(hay: string, mid: string, needle: string)
    requires Contains(hay, mid) && Contains(mid, needle)
    ensures Contains(hay, needle)
  {
    var i := ContainsWitness(hay, mid);
    var j := ContainsWitness(mid, needle);
    assert hay[i + j..i + j + |needle|] == needle by {
      assert hay[i..i + |mid|] == mid;
      forall k | 0 <= k < |needle| ensures hay[i + j + k] == needle[k] {
        assert hay[i + j + k] == hay[i..i + |mid|][j + k];
        assert mid[j + k] == mid[j..j + |needle|][k];
      }
    }
    OccursContains(hay, needle, i + j);
  }

  /** Each flag holds exactly when one of its keywords occurs somewhere in
      the haystack; "dstv" and "gotv" add nothing beyond "tv". The four
      flags are computed independently of each other. */
  lemma ClassifyByOccurrence(categoryId: Option<string>, serviceName: Option<string>, billerName: Option<string>)
    ensures var h := Haystack(categoryId, serviceName, billerName);
      var f := Classify(categoryId, serviceName, billerName);
      && (f.isAirtime <==> (exists i :: OccursAt(h, "airtime", i)) || (exists i :: OccursAt(h, "mobile", i)))
      && (f.isData <==> (exists i :: OccursAt(h, "data", i)) || (exists i :: OccursAt(h, "mb", i)) || (exists i :: OccursAt(h, "gb", i)))
      && (f.isPower <==> (exists i :: OccursAt(h, "power", i)) || (exists i :: OccursAt(h, "electric", i))
                         || (exists i :: OccursAt(h, "ikeja", i)) || (exists i :: OccursAt(h, "eko disco", i)))
      && (f.isTv <==> (exists i :: OccursAt(h, "tv", i)) || (exists i :: OccursAt(h, "startimes", i)))
  {
    var h := Haystack(categoryId, serviceName, billerName);
    AirtimeByOccurrence(h);
    DataByOccurrence(h);
    PowerByOccurrence(h);
    TvByOccurrence(h);
  }

  lemma AirtimeByOccurrence(h: string)
    ensures FlagsOf(h).isAirtime <==> (exists i :: OccursAt(h, "airtime", i)) || (exists i :: OccursAt(h, "mobile", i))
  {
    ContainsIffOccurs(h, "airtime");
    ContainsIffOccurs(h, "mobile");
  }

  lemma DataByOccurrence(h: string)
    ensures FlagsOf(h).isData <==>
      (exists i :: OccursAt(h, "data", i)) || (exists i :: OccursAt(h, "mb", i)) || (exists i :: OccursAt(h, "gb", i))
  {
    ContainsIffOccurs(h, "data");
    ContainsIffOccurs(h, "mb");
    ContainsIffOccurs(h, "gb");
  }

  lemma PowerByOccurrence(h: string)
    ensures FlagsOf(h).isPower <==> (exists i :: OccursAt(h, "power", i)) || (exists i :: OccursAt(h, "electric", i))
                                    || (exists i :: OccursAt(h, "ikeja", i)) || (exists i :: OccursAt(h, "eko disco", i))
  {
    ContainsIffOccurs(h, "power");
    ContainsIffOccurs(h, "electric");
    ContainsIffOccurs(h, "ikeja");
    ContainsIffOccurs(h, "eko disco");
  }

  lemma TvByOccurrence(h: string)
    ensures FlagsOf(h).isTv <==> (exists i :: OccursAt(h, "tv", i)) || (exists i :: OccursAt(h, "startimes", i))
  {
    ContainsIffOccurs(h, "tv");
    ContainsIffOccurs(h, "startimes");
    if Contains(h, "dstv") {
      assert Contains("dstv", "tv") by { assert "tv" <= "dstv"[2..]; }
      ContainsTransitive(h, "dstv", "tv");
    }
    if Contains(h, "gotv") {
      assert Contains("gotv", "tv") by { assert "tv" <= "gotv"[2..]; }
      ContainsTransitive(h, "gotv", "tv");
    }
  }

  /** Every character of an occurrence is a character of the haystack. */
  lemma OccurrenceChar(hay: string, needle: string, i: int, k: nat)
    requires OccursAt(hay, needle, i) && k < |needle|
    ensures needle[k] in hay
  {
    assert hay[i + k] == hay[i..i + |needle|][k];
  }

  /** A needle with a character the haystack lacks does not occur in it. */
  lemma MissingCharNotContained(hay: string, needle: string, k: nat)
    requires k < |needle| && needle[k] !in hay
    ensures !Contains(hay, needle)
  {
    if Contains(hay, needle) {
      var i := ContainsWitness(hay, needle);
      OccurrenceChar(hay, needle, i, k);
    }
  }

  /** A haystack spelled from the letters of "gotv max" with "tv" at
      position 2 names TV and nothing else. */
  lemma FlagsOfTvOnly(h: string)
    requires forall c :: c in h ==> c in {'g', 'o', 't', 'v', ' ', 'm', 'a', 'x'}
    requires OccursAt(h, "tv", 2)
    ensures FlagsOf(h) == Flags(false, false, false, true)
  {
    MissingCharNotContained(h, "airtime", 2);
    MissingCharNotContained(h, "mobile", 2);
    MissingCharNotContained(h, "data", 0);
    MissingCharNotContained(h, "mb", 1);
    MissingCharNotContained(h, "gb", 1);
    MissingCharNotContained(h, "power", 0);
    MissingCharNotContained(h, "electric", 1);
    MissingCharNotContained(h, "ikeja", 1);
    MissingCharNotContained(h, "eko disco", 1);
    MissingCharNotContained(h, "dstv", 0);
    MissingCharNotContained(h, "startimes", 0);
    OccursContains(h, "tv", 2);
  }

  /** "GOtv Max" from biller "GOtv" is a TV product and nothing else. */
  lemma ClassifyGotvMax()
    ensures Classify(None, Some("GOtv Max"), Some("GOtv")) == Flags(false, false, false, true)
  {
    var h := Haystack(None, Some("GOtv Max"), Some("GOtv"));
    GotvHaystack();
    GotvLetters(h);
    GotvTv(h);
    FlagsOfTvOnly(h);
  }

  lemma GotvHaystack()
    ensures Haystack(None, Some("GOtv Max"), Some("GOtv")) == "gotv max gotv "
  {
  }

  lemma GotvLetters(h: string)
    requires h == "gotv max gotv "
    ensures forall c :: c in h ==> c in {'g', 'o', 't', 'v', ' ', 'm', 'a', 'x'}
  {
  }

  lemma GotvTv(h: string)
    requires h == "gotv max gotv "
    ensures OccursAt(h, "tv", 2)
  {
    assert h[2..4] == "tv" by {
      assert |h[2..4]| == 2 && h[2..4][0] == h[2] == 't' && h[2..4][1] == h[3] == 'v';
    }
  }

  /** "DStv Compact" in category "CABLETV" is a TV product and nothing else. */
  lemma ClassifyDstvCompact()
    ensures Classify(Some("CABLETV"), Some("DStv Compact"), None) == Flags(false, false, false, true)
  {
    var h := Haystack(Some("CABLETV"), Some("DStv Compact"), None);
    DstvHaystack();
    DstvHaystackShape(h);
    FlagsOfDstvShape(h);
  }

  lemma DstvHaystack()
    ensures Haystack(Some("CABLETV"), Some("DStv Compact"), None) == "dstv compact  cabletv"
  {
  }

  /** The letters and positions of the "DStv Compact" haystack that the
      keyword tests depend on. */
  lemma DstvHaystackShape(h: string)
    requires h == "dstv compact  cabletv"
    ensures forall c :: c in h ==> c in {'d', 's', 't', 'v', ' ', 'c', 'o', 'm', 'p', 'a', 'l', 'e', 'b'}
    ensures |h| > 8 && h[0] == 'd' && h[1] == 's' && h[2..4] == "tv" && h[7] == 'm' && h[8] == 'p'
    ensures 'd' !in h[1..] && 'm' !in h[..7] && 'm' !in h[8..]
  {
    DstvLetters(h);
    DstvPositions(h);
    DstvLoneLetters(h);
  }

  lemma DstvLetters(h: string)
    requires h == "dstv compact  cabletv"
    ensures forall c :: c in h ==> c in {'d', 's', 't', 'v', ' ', 'c', 'o', 'm', 'p', 'a', 'l', 'e', 'b'}
  {
  }

  lemma DstvPositions(h: string)
    requires h == "dstv compact  cabletv"
    ensures |h| > 8 && h[0] == 'd' && h[1] == 's' && h[2..4] == "tv" && h[7] == 'm' && h[8] == 'p'
  {
    assert h[2..4] == "tv" by {
      assert |h[2..4]| == 2 && h[2..4][0] == h[2] == 't' && h[2..4][1] == h[3] == 'v';
    }
  }

  lemma DstvLoneLetters(h: string)
    requires h == "dstv compact  cabletv"
    ensures 'd' !in h[1..] && 'm' !in h[..7] && 'm' !in h[8..]
  {
    NotIn(h, 1, |h|, 'd');
    NotIn(h, 0, 7, 'm');
    NotIn(h, 8, |h|, 'm');
    assert h[1..|h|] == h[1..] && h[0..7] == h[..7] && h[8..|h|] == h[8..];
  }

  /** A character absent from every position of a slice is absent from it. */
  lemma NotIn(s: string, lo: nat, hi: nat, c: char)
    requires lo <= hi <= |s|
    requires forall k :: lo <= k < hi ==> s[k] != c
    ensures c !in s[lo..hi]
  {
    forall k | 0 <= k < hi - lo ensures s[lo..hi][k] != c {
      assert s[lo..hi][k] == s[lo + k];
    }
  }

  /** A haystack spelled from the letters of "dstv compact cabletv", in
      which the only 'd' is followed by 's' and the only 'm' by 'p', with
      "tv" at position 2, names TV and nothing else. */
  lemma FlagsOfDstvShape(h: string)
    requires forall c :: c in h ==> c in {'d', 's', 't', 'v', ' ', 'c', 'o', 'm', 'p', 'a', 'l', 'e', 'b'}
    requires |h| > 8 && h[0] == 'd' && h[1] == 's' && h[2..4] == "tv" && h[7] == 'm' && h[8] == 'p'
    requires 'd' !in h[1..] && 'm' !in h[..7] && 'm' !in h[8..]
    ensures FlagsOf(h) == Flags(false, false, false, true)
  {
    MissingCharNotContained(h, "airtime", 1);
    MissingCharNotContained(h, "mobile", 3);
    assert !("data" <= h) by { assert h[1] != "data"[1]; }
    HeadThenMissing(h, "data");
    var t := h[7..];
    assert t[0] == 'm' && t[1] == 'p' && t[1..] == h[8..];
    assert !("mb" <= t) by { assert t[1] != "mb"[1]; }
    HeadThenMissing(t, "mb");
    NotContainedFrom(h, "mb", 7);
    MissingCharNotContained(h, "gb", 0);
    MissingCharNotContained(h, "power", 2);
    MissingCharNotContained(h, "electric", 5);
    MissingCharNotContained(h, "ikeja", 0);
    MissingCharNotContained(h, "eko disco", 1);
    MissingCharNotContained(h, "startimes", 5);
    OccursContains(h, "tv", 2);
  }

  /** A needle that is not a prefix of the haystack, and whose first
      character does not appear after the haystack's first, does not occur. */
  lemma HeadThenMissing(hay: string, needle: string)
    requires hay != [] && needle != [] && !(needle <= hay) && needle[0] !in hay[1..]
    ensures !Contains(hay, needle)
  {
    MissingCharNotContained(hay[1..], needle, 0);
  }

  /** A needle whose first character does not appear among the first `n`
      characters occurs in the haystack only if it occurs from `n` on. */
  lemma {:induction false} NotContainedFrom(hay: string, needle: string, n: nat)
    requires needle != [] && n <= |hay| && needle[0] !in hay[..n] && !Contains(hay[n..], needle)
    ensures !Contains(hay, needle)
    decreases n
  {
    if n > 0 {
      assert hay[0] == hay[..n][0];
      assert !(needle <= hay) by { assert hay[0] != needle[0]; }
      assert hay[1..][..n - 1] == hay[1..n] && hay[1..][n - 1..] == hay[n..];
      forall c | c in hay[1..n] ensures c in hay[..n] {
        var k :| 0 <= k < n - 1 && hay[1..n][k] == c;
        assert hay[..n][k + 1] == hay[1..n][k];
      }
      NotContainedFrom(hay[1..], needle, n - 1);
    } else {
      assert hay[n..] == hay;
    }
  }

  /** `classifyProduct` takes three `?string` parameters: a payload value
      that is an array raises a TypeError. */
  function ClassifyArgs(categoryId: string, serviceName: Json, billerName: Json): (r: Result<Flags>)
    ensures r.Ok? <==> !IsArray(serviceName) && !IsArray(billerName)
    ensures r.Ok? ==> r.value == Classify(Some(categoryId), NullableString(serviceName).value, NullableString(billerName).value)
  {
    var s :- NullableString(serviceName);
    var b :- NullableString(billerName);
    Ok(Classify(Some(categoryId), s, b))
  }

  // ----- categories -----

  /** The value the category loop iterates: `BillerCategories`, else the
      whole body. */
  function CategoryList(json: Json): Json {
    Coalesce(Index(json, "BillerCategories"), json)
  }

  function CategoryIdValue(c: Json): Json { ArrGet(c, "categoryid", ArrGet(c, "Id", JNull)) }

  function CategoryId(c: Json): string { ToStr(CategoryIdValue(c)) }

  function CategoryName(c: Json): Json { ArrGet(c, "categoryname", ArrGet(c, "Name", JNull)) }

  /** The upsert for one category, or none when its id or name is falsy. */
  function CategoryUpsert(c: Json): Option<Upsert> {
    if !TruthyString(CategoryId(c)) || !Truthy(CategoryName(c)) then None
    else Some(UpsertCategory((Provider, CategoryId(c)), CategoryName(c)))
  }

  /** One category of the loop: its id is cast, which raises on an array,
      then it is upserted unless its id or name is falsy. */
  function CategoryWrite(c: Json): (r: Result<seq<Upsert>>)
    ensures r.Err? <==> IsArray(CategoryIdValue(c))
    ensures r.Err? ==> r.error == ErrorException(ArrayToString)
    ensures r.Ok? ==> r.value == (match CategoryUpsert(c) case Some(u) => [u] case None => [])
  {
    var id :- Cast(CategoryIdValue(c));
    Ok(if !TruthyString(id) || !Truthy(CategoryName(c)) then [] else [UpsertCategory((Provider, id), CategoryName(c))])
  }

  /** The result of each category of a list. */
  function CategoryResults(cs: seq<Json>): (r: seq<Result<seq<Upsert>>>)
    ensures |r| == |cs| && forall i :: 0 <= i < |cs| ==> r[i] == CategoryWrite(cs[i])
  {
    if cs == [] then [] else CategoryResults(cs[..|cs| - 1]) + [CategoryWrite(cs[|cs| - 1])]
  }

  /** The upserts of the category loop, in order, up to the first category
      that raises. */
  function CategoryWrites(cs: seq<Json>): Batch {
    Collect(CategoryResults(cs))
  }

  /** One more category extends the loop by one step, unless it had stopped. */
  lemma CategoryWritesSnoc(cs: seq<Json>, i: nat)
    requires i < |cs|
    ensures CategoryWrites(cs[..i + 1]) == Extend(CategoryWrites(cs[..i]), CategoryWrite(cs[i]))
  {
    assert cs[..i + 1][..i] == cs[..i] && cs[..i + 1][i] == cs[i];
    assert CategoryResults(cs[..i + 1]) == CategoryResults(cs[..i]) + [CategoryWrite(cs[i])];
    CollectSnoc(CategoryResults(cs[..i]), CategoryWrite(cs[i]));
  }

  lemma CategoryWritesErrSticks(cs: seq<Json>, n: nat)
    requires n <= |cs| && CategoryWrites(cs[..n]).err.Some?
    ensures CategoryWrites(cs) == CategoryWrites(cs[..n])
  {
    assert CategoryResults(cs)[..n] == CategoryResults(cs[..n]);
    CollectErrSticks(CategoryResults(cs), n);
  }

  /** The category loop raises exactly when some category id is an array. */
  lemma CategoryWritesRaise(cs: seq<Json>)
    ensures CategoryWrites(cs).err.None? <==> forall i :: 0 <= i < |cs| ==> !IsArray(CategoryIdValue(cs[i]))
  {
    CollectRaise(CategoryResults(cs));
  }

  /** When the category loop raises, it raises at its first category with an
      array id, keeping the upserts of the categories before it. */
  lemma CategoryWritesStop(cs: seq<Json>)
    requires CategoryWrites(cs).err.Some?
    ensures exists k ::
      && 0 <= k < |cs| && IsArray(CategoryIdValue(cs[k]))
      && CategoryWrites(cs[..k]).err.None?
      && CategoryWrites(cs) == Batch(CategoryWrites(cs[..k]).writes, Some(ErrorException(ArrayToString)))
  {
    var rs := CategoryResults(cs);
    CollectStop(rs);
    var k :| StopsAt(rs, k);
    CategoryResultsPrefix(cs, k);
    assert rs[k] == CategoryWrite(cs[k]);
    assert IsArray(CategoryIdValue(cs[k]));
    assert CategoryWrites(cs[..k]) == Collect(rs[..k]);
  }

  lemma CategoryResultsPrefix(cs: seq<Json>, k: nat)
    requires k <= |cs|
    ensures CategoryResults(cs)[..k] == CategoryResults(cs[..k])
  {
    var a, b := CategoryResults(cs)[..k], CategoryResults(cs[..k]);
    assert |a| == |b| == k;
    forall i | 0 <= i < k ensures a[i] == b[i] {
      assert cs[..k][i] == cs[i];
    }
  }

  /** Only categories with a truthy id and name are written, in order, and
      a loop that runs to the end writes every one of them. */
  lemma {:induction false} CategoryWritesSkip(cs: seq<Json>)
    ensures |CategoryWrites(cs).writes| <= |cs|
    ensures forall u :: u in CategoryWrites(cs).writes ==> CategoryRow(u)
    ensures CategoryWrites(cs).err.None? ==>
      forall c :: c in cs && TruthyString(CategoryId(c)) && Truthy(CategoryName(c)) ==>
        UpsertCategory((Provider, CategoryId(c)), CategoryName(c)) in CategoryWrites(cs).writes
    decreases |cs|
  {
    if cs != [] {
      var n := |cs| - 1;
      var init := CategoryWrites(cs[..n]);
      CategoryWritesSkip(cs[..n]);
      CategoryWritesSnoc(cs, n);
      assert cs[..n + 1] == cs;
      CategoryExtendSkip(init, cs[n]);
      if CategoryWrites(cs).err.None? {
        forall c | c in cs && TruthyString(CategoryId(c)) && Truthy(CategoryName(c))
          ensures UpsertCategory((Provider, CategoryId(c)), CategoryName(c)) in CategoryWrites(cs).writes
        {
          var k :| 0 <= k < |cs| && cs[k] == c;
          if k < n {
            assert cs[..n][k] == c;
          }
        }
      }
    }
  }

  /** A category row, as the category loop writes it. */
  predicate CategoryRow(u: Upsert) {
    u.UpsertCategory? && u.key.0 == Provider && TruthyString(u.key.1) && Truthy(u.name)
  }

  /** One step of the category loop adds at most the category's own row. */
  lemma CategoryExtendSkip(bt: Batch, c: Json)
    requires forall u :: u in bt.writes ==> CategoryRow(u)
    ensures var bt' := Extend(bt, CategoryWrite(c));
      && |bt'.writes| <= |bt.writes| + 1
      && (forall u :: u in bt'.writes ==> CategoryRow(u))
      && (bt'.err.None? ==> bt.err.None? && bt.writes <= bt'.writes)
      && (bt'.err.None? && TruthyString(CategoryId(c)) && Truthy(CategoryName(c)) ==>
            UpsertCategory((Provider, CategoryId(c)), CategoryName(c)) in bt'.writes)
  {
  }

  /** The category loop of a successful categories reply: a value that is
      not an array raises at the `foreach`, before any upsert. */
  function CategoriesRun(json: Json): Batch {
    match Iterate(CategoryList(json))
    case Err(e) => Batch([], Some(e))
    case Ok(cs) => CategoryWrites(cs)
  }

  /** The category loop writes only categories, and raises exactly when the
      categories are not an array or a category id is one. */
  lemma CategoriesRunShape(json: Json)
    ensures forall u :: u in CategoriesRun(json).writes ==> u.UpsertCategory?
    ensures CategoriesRun(json).err.None? <==>
      IsArray(CategoryList(json)) &&
      forall i :: 0 <= i < |Items(CategoryList(json))| ==> !IsArray(CategoryIdValue(Items(CategoryList(json))[i]))
    ensures CategoriesRun(json).err.Some? ==> CategoriesRun(json).err.value.ErrorException?
  {
    if IsArray(CategoryList(json)) {
      CategoryWritesSkip(Items(CategoryList(json)));
      CategoryWritesRaise(Items(CategoryList(json)));
      if CategoriesRun(json).err.Some? {
        CategoryWritesStop(Items(CategoryList(json)));
      }
    }
  }

  /** Example: `{"BillerCategories": "none"}` raises at the loop and writes nothing. */
  lemma CategoriesOfAString()
    ensures CategoriesRun(JObj([("BillerCategories", JStr("none"))])) ==
      Batch([], Some(ErrorException(NotIterable("string"))))
  {
    assert CategoryList(JObj([("BillerCategories", JStr("none"))])) == JStr("none");
  }

  /** Example: a category id that is an array raises before that category
      is written. */
  lemma CategoryIdOfAnArray()
    ensures CategoriesRun(JList([JObj([("categoryid", JList([JInt(1)])), ("categoryname", JStr("Cable"))])])) ==
      Batch([], Some(ErrorException(ArrayToString)))
  {
    var c := JObj([("categoryid", JList([JInt(1)])), ("categoryname", JStr("Cable"))]);
    assert CategoryIdValue(c) == JList([JInt(1)]);
    CategoryWritesSnoc([c], 0);
    assert [c][..1] == [c];
  }

  // ----- the shared state of the three services shapes -----

  /** The set of billers already written (`$seenBillers`), the two counters
      and the upserts issued so far by the services part of the sync. */
  datatype SyncState = SyncState(seen: set<string>, billers: nat, products: nat, writes: seq<Upsert>)

  const Start := SyncState({}, 0, 0, [])

  /** Where a run of the services part stops: the state reached, and the
      error that ended it early, if any. Upserts issued before the error
      stay issued. */
  datatype Outcome = Outcome(st: SyncState, err: Option<Error>)

  /** Writes the biller once per run: only a truthy id not already seen. */
  function RecordBiller(st: SyncState, billerId: string, billerName: Json): SyncState {
    if TruthyString(billerId) && billerId !in st.seen then
      st.(seen := st.seen + {billerId}, billers := st.billers + 1,
          writes := st.writes + [BillerUpsert(billerId, billerName)])
    else st
  }

  /** The biller upsert: the name falls back to the id (`?:`). */
  function BillerUpsert(billerId: string, billerName: Json): Upsert {
    UpsertBiller((Provider, billerId), Elvis(billerName, JStr(billerId)))
  }

  function AddProduct(st: SyncState, u: Upsert): SyncState {
    st.(products := st.products + 1, writes := st.writes + [u])
  }

  /** `$x ?: null` on a string. */
  function OrNull(s: string): Option<string> { if TruthyString(s) then Some(s) else None }

  /** What a single record of a flat list is. */
  datatype Leaf =
    | PaymentItem(categoryId: string, billerId: string, billerName: Json)  // shape 1, inside a biller
    | ListedBiller(categoryId: string)                                      // shape 2, inside a category
    | FlatService                                                           // shape 3

  function ServiceIdValue(s: Json): Json { ArrGet(s, "serviceid", ArrGet(s, "id", JNull)) }
  function ServiceCategoryIdValue(s: Json): Json { ArrGet(s, "categoryid", ArrGet(s, "CategoryId", JNull)) }
  function ServiceBillerIdValue(s: Json): Json { ArrGet(s, "billerid", ArrGet(s, "BillerId", JNull)) }
  function ServiceId(s: Json): string { ToStr(ServiceIdValue(s)) }
  function ServiceName(s: Json): Json { ArrGet(s, "name", ArrGet(s, "Name", JNull)) }
  function ServiceCategoryId(s: Json): string { ToStr(ServiceCategoryIdValue(s)) }
  function ServiceBillerId(s: Json): string { ToStr(ServiceBillerIdValue(s)) }
  function ServiceBillerName(s: Json): Json { ArrGet(s, "billername", ArrGet(s, "BillerName", JNull)) }
  function ServicePaymentCode(s: Json): Json {
    ArrGet(s, "paymentCode", ArrGet(s, "paymentcode", ArrGet(s, "PaymentCode", JNull)))
  }
  function ServiceCurrencyCode(s: Json): Json {
    ArrGet(s, "currencyCode", ArrGet(s, "currencycode", ArrGet(s, "CurrencyCode", JNull)))
  }

  /** A record casts its ids with `(string)` before anything else; the cast
      of an array raises. */
  predicate LeafCastRaises(x: Json, kind: Leaf) {
    match kind
    case PaymentItem(_, _, _) => IsArray(ArrGet(x, "Id", JNull))
    case ListedBiller(_) => IsArray(ArrGet(x, "Id", JNull))
    case FlatService => IsArray(ServiceIdValue(x)) || IsArray(ServiceCategoryIdValue(x)) || IsArray(ServiceBillerIdValue(x))
  }

  /** Shapes 1 and 3 skip a record without a truthy id and name; shape 2
      skips nothing. */
  predicate LeafSkipped(x: Json, kind: Leaf) {
    match kind
    case PaymentItem(_, _, _) => !TruthyString(ToStr(ArrGet(x, "Id", JNull))) || !Truthy(ArrGet(x, "Name", JNull))
    case ListedBiller(_) => false
    case FlatService => !TruthyString(ServiceId(x)) || !Truthy(ServiceName(x))
  }

  /** The biller a record offers to the seen set (shape 1 offers its biller
      once, before its items). */
  function LeafBiller(x: Json, kind: Leaf): Option<(string, Json)> {
    match kind
    case PaymentItem(_, _, _) => None
    case ListedBiller(_) => Some((ToStr(ArrGet(x, "Id", JNull)), ArrGet(x, "Name", JNull)))
    case FlatService => Some((ServiceBillerId(x), ServiceBillerName(x)))
  }

  /** The `classifyProduct` call a record makes. */
  function ClassifyLeaf(x: Json, kind: Leaf): Result<Flags> {
    match kind
    case PaymentItem(categoryId, _, billerName) => ClassifyArgs(categoryId, ArrGet(x, "Name", JNull), billerName)
    case ListedBiller(categoryId) => ClassifyArgs(categoryId, ArrGet(x, "Name", JNull), JNull)
    case FlatService => ClassifyArgs(ServiceCategoryId(x), ServiceName(x), ServiceBillerName(x))
  }

  /** The product upsert a record makes, given its flags. */
  function LeafWrite(x: Json, kind: Leaf, flags: Flags): Upsert {
    match kind
    case PaymentItem(categoryId, billerId, _) =>
      UpsertProduct((Provider, ToStr(ArrGet(x, "Id", JNull))),
        ProductWrite(ArrGet(x, "Name", JNull), OrNull(categoryId), OrNull(billerId),
                     ArrGet(x, "PaymentCode", JNull), ArrGet(x, "CurrencyCode", JNull), None, flags))
    case ListedBiller(categoryId) =>
      var billerId := ToStr(ArrGet(x, "Id", JNull));
      UpsertProduct((Provider, billerId),
        ProductWrite(Elvis(ArrGet(x, "Name", JNull), JStr(billerId)), OrNull(categoryId), Some(billerId),
                     ArrGet(x, "ProductCode", JNull), ArrGet(x, "CurrencyCode", JNull), None, flags))
    case FlatService =>
      UpsertProduct((Provider, ServiceId(x)),
        ProductWrite(ServiceName(x), OrNull(ServiceCategoryId(x)), OrNull(ServiceBillerId(x)),
                     ServicePaymentCode(x), ServiceCurrencyCode(x), None, flags))
  }

  /** The state after recording the biller a record offers, if any. */
  function WithBiller(st: SyncState, b: Option<(string, Json)>): SyncState {
    match b
    case Some((id, name)) => RecordBiller(st, id, name)
    case None => st
  }

  /** One record: raise at a cast, skip it, or record its biller, classify
      it (which may raise) and upsert its product. */
  function LeafStep(st: SyncState, x: Json, kind: Leaf): Outcome {
    if LeafCastRaises(x, kind) then Outcome(st, Some(ErrorException(ArrayToString)))
    else if LeafSkipped(x, kind) then Outcome(st, None)
    else LeafProduct(WithBiller(st, LeafBiller(x, kind)), x, kind)
  }

  /** Classify a record that was not skipped and upsert its product. */
  function LeafProduct(st: SyncState, x: Json, kind: Leaf): Outcome {
    match ClassifyLeaf(x, kind)
    case Err(e) => Outcome(st, Some(e))
    case Ok(flags) => Outcome(AddProduct(st, LeafWrite(x, kind, flags)), None)
  }

  /** The records of a flat list, in order; an error stops the run. */
  function LeafFold(st: SyncState, xs: seq<Json>, kind: Leaf): Outcome {
    if xs == [] then Outcome(st, None)
    else
      var o := LeafFold(st, xs[..|xs| - 1], kind);
      if o.err.Some? then o else LeafStep(o.st, xs[|xs| - 1], kind)
  }

  /** The `foreach` over a flat list: a value that is not an array raises. */
  function LeavesRun(st: SyncState, list: Json, kind: Leaf): Outcome {
    match Iterate(list)
    case Err(e) => Outcome(st, Some(e))
    case Ok(xs) => LeafFold(st, xs, kind)
  }

  /** One more record extends the fold by one step, unless it had stopped. */
  lemma LeafFoldSnoc(st: SyncState, xs: seq<Json>, kind: Leaf, i: nat)
    requires i < |xs|
    ensures LeafFold(st, xs[..i + 1], kind) ==
      var o := LeafFold(st, xs[..i], kind); if o.err.Some? then o else LeafStep(o.st, xs[i], kind)
  {
    assert xs[..i + 1][..i] == xs[..i];
  }

  /** A record that holds a flat list of its own. */
  datatype Group =
    | BillerWithItems       // shape 1: a biller and its PaymentItems
    | BillerListCategory    // shape 2: a category and its Billers

  /** A group casts its ids with `(string)` before its biller and its list. */
  predicate GroupCastRaises(x: Json, kind: Group) {
    match kind
    case BillerWithItems => IsArray(ArrGet(x, "Id", JNull)) || IsArray(ArrGet(x, "BillerCategoryId", JNull))
    case BillerListCategory => IsArray(ArrGet(x, "Id", JNull))
  }

  /** The biller a group offers before its list, and the list with its kind. */
  function GroupBiller(x: Json, kind: Group): Option<(string, Json)> {
    match kind
    case BillerWithItems => Some((ToStr(ArrGet(x, "Id", JNull)), ArrGet(x, "Name", JNull)))
    case BillerListCategory => None
  }

  function GroupItems(x: Json, kind: Group): Json {
    match kind
    case BillerWithItems => ArrGet(x, "PaymentItems", EmptyArray)
    case BillerListCategory => ArrGet(x, "Billers", EmptyArray)
  }

  function GroupLeaf(x: Json, kind: Group): Leaf {
    match kind
    case BillerWithItems =>
      PaymentItem(ToStr(ArrGet(x, "BillerCategoryId", JNull)), ToStr(ArrGet(x, "Id", JNull)), ArrGet(x, "Name", JNull))
    case BillerListCategory => ListedBiller(ToStr(ArrGet(x, "Id", JNull)))
  }

  /** One group: raise at a cast, or record its biller and run its list,
      whose `foreach` raises, after that biller, when it is not an array. */
  function GroupStep(st: SyncState, x: Json, kind: Group): Outcome {
    if GroupCastRaises(x, kind) then Outcome(st, Some(ErrorException(ArrayToString)))
    else LeavesRun(WithBiller(st, GroupBiller(x, kind)), GroupItems(x, kind), GroupLeaf(x, kind))
  }

  function GroupFold(st: SyncState, xs: seq<Json>, kind: Group): Outcome {
    if xs == [] then Outcome(st, None)
    else
      var o := GroupFold(st, xs[..|xs| - 1], kind);
      if o.err.Some? then o else GroupStep(o.st, xs[|xs| - 1], kind)
  }

  /** The `foreach` over a list of groups: a value that is not an array raises. */
  function GroupsRun(st: SyncState, list: Json, kind: Group): Outcome {
    match Iterate(list)
    case Err(e) => Outcome(st, Some(e))
    case Ok(xs) => GroupFold(st, xs, kind)
  }

  /** One more group extends the fold by one step, unless it had stopped. */
  lemma GroupFoldSnoc(st: SyncState, xs: seq<Json>, kind: Group, i: nat)
    requires i < |xs|
    ensures GroupFold(st, xs[..i + 1], kind) ==
      var o := GroupFold(st, xs[..i], kind); if o.err.Some? then o else GroupStep(o.st, xs[i], kind)
  {
    assert xs[..i + 1][..i] == xs[..i];
  }

  /** The three values a services body may carry, and their records. */
  function BillersPayload(json: Json): Json { Coalesce(Index(json, "Billers"), EmptyArray) }
  function BillerListPayload(json: Json): Json { ArrGet(json, "BillerList.Category", EmptyArray) }
  function FlatPayload(json: Json): Json {
    Coalesce(Index(json, "services"), Coalesce(Index(json, "Services"), EmptyArray))
  }
  function BillersShape(json: Json): seq<Json> { Items(BillersPayload(json)) }
  function BillerListShape(json: Json): seq<Json> { Items(BillerListPayload(json)) }
  function FlatShape(json: Json): seq<Json> { Items(FlatPayload(json)) }

  /** The services part of a sync: the three shapes in order, one shared state. */
  function ServicesPlan(json: Json): Outcome {
    var o1 := GroupsRun(Start, BillersPayload(json), BillerWithItems);
    if o1.err.Some? then o1
    else
      var o2 := GroupsRun(o1.st, BillerListPayload(json), BillerListCategory);
      if o2.err.Some? then o2
      else LeavesRun(o2.st, FlatPayload(json), FlatService)
  }

  /** A group whose list is not an array writes its biller, and then the
      `foreach` over the list raises. */
  lemma GroupListRaisesAfterBiller(st: SyncState, x: Json, kind: Group)
    requires !GroupCastRaises(x, kind) && !IsArray(GroupItems(x, kind))
    ensures GroupStep(st, x, kind) ==
      Outcome(WithBiller(st, GroupBiller(x, kind)), Some(ErrorException(NotIterable(TypeName(GroupItems(x, kind))))))
  {
  }

  /** Example: a biller whose `PaymentItems` is null is written, and then the
      `foreach` over its items raises. */
  lemma NullPaymentItemsRaiseAfterBiller()
    ensures var o := GroupStep(Start, JObj([("Id", JStr("B1")), ("Name", JStr("X")), ("PaymentItems", JNull)]), BillerWithItems);
      o.err == Some(ErrorException(NotIterable("null"))) &&
      o.st.writes == [BillerUpsert("B1", JStr("X"))] && o.st.billers == 1
  {
    var x := JObj([("Id", JStr("B1")), ("Name", JStr("X")), ("PaymentItems", JNull)]);
    NullPaymentItemsFields();
    NullItemsCasts(x, "B1");
    NullItemsGroup(x, "B1", JStr("X"));
    BillerWithNullItems(x, "B1", JStr("X"));
  }

  lemma NullItemsCasts(x: Json, id: string)
    requires ArrGet(x, "Id", JNull) == JStr(id) && ArrGet(x, "BillerCategoryId", JNull) == JNull
    ensures !GroupCastRaises(x, BillerWithItems)
  {
  }

  lemma NullItemsGroup(x: Json, id: string, name: Json)
    requires ArrGet(x, "Id", JNull) == JStr(id) && ArrGet(x, "Name", JNull) == name
    requires ArrGet(x, "PaymentItems", EmptyArray) == JNull
    ensures GroupItems(x, BillerWithItems) == JNull && GroupBiller(x, BillerWithItems) == Some((id, name))
  {
  }

  lemma BillerWithNullItems(x: Json, id: string, name: Json)
    requires TruthyString(id) && !GroupCastRaises(x, BillerWithItems) && GroupItems(x, BillerWithItems) == JNull
    requires GroupBiller(x, BillerWithItems) == Some((id, name))
    ensures var o := GroupStep(Start, x, BillerWithItems);
      o.err == Some(ErrorException(NotIterable("null"))) &&
      o.st.writes == [BillerUpsert(id, name)] && o.st.billers == 1
  {
    GroupListRaisesAfterBiller(Start, x, BillerWithItems);
  }

  lemma NullPaymentItemsFields()
    ensures var x := JObj([("Id", JStr("B1")), ("Name", JStr("X")), ("PaymentItems", JNull)]);
      && ArrGet(x, "Id", JNull) == JStr("B1")
      && ArrGet(x, "Name", JNull) == JStr("X")
      && ArrGet(x, "BillerCategoryId", JNull) == JNull
      && ArrGet(x, "PaymentItems", EmptyArray) == JNull
  {
    NullPaymentItemsNoCategory();
  }

  lemma NullPaymentItemsNoCategory()
    ensures ArrGet(JObj([("Id", JStr("B1")), ("Name", JStr("X")), ("PaymentItems", JNull)]), "BillerCategoryId", JNull) == JNull
  {
    var x := JObj([("Id", JStr("B1")), ("Name", JStr("X")), ("PaymentItems", JNull)]);
    var k := "BillerCategoryId";
    assert |k| == 16;
    assert Member(x, k).None?;
    assert forall i :: 0 <= i < |k| ==> k[i] != '.';
  }

  /** Example: a `BillerList.Category` that is null raises at its `foreach`. */
  lemma NullCategoryListRaises()
    ensures ServicesPlan(JObj([("BillerList", JObj([("Category", JNull)]))])) ==
      Outcome(Start, Some(ErrorException(NotIterable("null"))))
  {
    var json := JObj([("BillerList", JObj([("Category", JNull)]))]);
    BillerListPayloadOf(JNull);
    assert BillersPayload(json) == EmptyArray;
    BillerListRaisesFirst(json);
  }

  /** With no `Billers`, a shape-2 list that is not an array raises before
      anything is written. */
  lemma BillerListRaisesFirst(json: Json)
    requires BillersPayload(json) == EmptyArray && !IsArray(BillerListPayload(json))
    ensures ServicesPlan(json) == Outcome(Start, Some(ErrorException(NotIterable(TypeName(BillerListPayload(json))))))
  {
    assert GroupsRun(Start, BillersPayload(json), BillerWithItems) == Outcome(Start, None);
  }

  /** The dotted key `BillerList.Category` reaches into `BillerList`. */
  lemma BillerListPayloadOf(c: Json)
    ensures BillerListPayload(JObj([("BillerList", JObj([("Category", c)]))])) == c
  {
    var json := JObj([("BillerList", JObj([("Category", c)]))]);
    assert "BillerList" + "." + "Category" == "BillerList.Category";
    ArrGetDotted(json, "BillerList", "Category", EmptyArray);
  }

  /** Example: a null `Billers` is coalesced to an empty list, so it does
      not raise. */
  lemma NullBillersCoalesced()
    ensures ServicesPlan(JObj([("Billers", JNull)])) == Outcome(Start, None)
  {
    var json := JObj([("Billers", JNull)]);
    assert BillersPayload(json) == EmptyArray;
    NoBillerList();
    assert FlatPayload(json) == EmptyArray;
  }

  /** A body without `BillerList` has no shape-2 list. */
  lemma NoBillerList()
    ensures BillerListPayload(JObj([("Billers", JNull)])) == EmptyArray
  {
    assert "BillerList" + "." + "Category" == "BillerList.Category";
    ArrGetDotted(JObj([("Billers", JNull)]), "BillerList", "Category", EmptyArray);
  }

  // ----- the whole sync, as a function of the two replies -----

  const CategoriesFailed := "Failed to fetch Interswitch service categories."

  /** What `syncCatalog` returns and the upserts it issues, given the reply
      (or exception) of the categories request and of the services request.
      The services reply is not consulted when the categories step fails. */
  function SyncRun(cat: Result<Reply>, svc: Result<Reply>): (Result<SyncCounts>, seq<Upsert>) {
    if cat.Err? then (Err(cat.error), [])
    else if !cat.value.ok then (Err(RuntimeError(CategoriesFailed)), [])
    else
      var cb := CategoriesRun(Coalesce(cat.value.json, EmptyArray));
      if cb.err.Some? then (Err(cb.err.value), cb.writes)
      else ServicesRun(cb.writes, svc)
  }

  /** The services part of `SyncRun`, after the category upserts `cw`. */
  function ServicesRun(cw: seq<Upsert>, svc: Result<Reply>): (Result<SyncCounts>, seq<Upsert>) {
    if svc.Err? then (Err(svc.error), cw)
    else if !svc.value.ok then (Ok(SyncCounts(|cw|, 0, 0)), cw)
    else ServicesBodyRun(cw, Coalesce(svc.value.json, EmptyArray))
  }

  /** A successful services body, after the category upserts `cw`. */
  function ServicesBodyRun(cw: seq<Upsert>, json: Json): (Result<SyncCounts>, seq<Upsert>) {
    var o := ServicesPlan(json);
    (Counts(|cw|, o), cw + o.st.writes)
  }

  /** The counts a sync returns, or the error that stopped the services part. */
  function Counts(categories: nat, o: Outcome): Result<SyncCounts> {
    if o.err.Some? then Err(o.err.value) else Ok(SyncCounts(categories, o.st.billers, o.st.products))
  }

  /** A failed or raising categories fetch raises and writes nothing; a
      category loop that raises stops the sync with the categories written
      before it, and the services are not consulted; a failed services fetch
      keeps the categories and reports no billers and no products, without
      raising. */
  lemma SyncRunFailures(cat: Result<Reply>, svc: Result<Reply>)
    ensures cat.Err? ==> SyncRun(cat, svc) == (Err(cat.error), [])
    ensures cat.Ok? && !cat.value.ok ==> SyncRun(cat, svc) == (Err(RuntimeError(CategoriesFailed)), [])
    ensures cat.Ok? && cat.value.ok && CategoriesRun(Coalesce(cat.value.json, EmptyArray)).err.Some? ==>
      var cb := CategoriesRun(Coalesce(cat.value.json, EmptyArray));
      SyncRun(cat, svc) == (Err(cb.err.value), cb.writes) && FieldError(cb.err.value) &&
      forall u :: u in cb.writes ==> u.UpsertCategory?
    ensures cat.Ok? && cat.value.ok && CategoriesRun(Coalesce(cat.value.json, EmptyArray)).err.None? &&
            svc.Ok? && !svc.value.ok ==>
      var cw := CategoriesRun(Coalesce(cat.value.json, EmptyArray)).writes;
      SyncRun(cat, svc) == (Ok(SyncCounts(|cw|, 0, 0)), cw) &&
      forall u :: u in cw ==> u.UpsertCategory?
  {
    if cat.Ok? && cat.value.ok {
      var json := Coalesce(cat.value.json, EmptyArray);
      CategoriesRunShape(json);
    }
  }

  // ----- what every state reached by the fold satisfies -----

  /** The ids of the biller upserts among `ws`, in order. */
  function BillerIds(ws: seq<Upsert>): seq<string> {
    if ws == [] then []
    else BillerIds(ws[..|ws| - 1]) + (if ws[|ws| - 1].UpsertBiller? then [ws[|ws| - 1].key.1] else [])
  }

  /** The number of product upserts among `ws`. */
  function ProductUpserts(ws: seq<Upsert>): nat {
    if ws == [] then 0
    else ProductUpserts(ws[..|ws| - 1]) + (if ws[|ws| - 1].UpsertProduct? then 1 else 0)
  }

  predicate NoDuplicates(s: seq<string>) {
    forall i, j :: 0 <= i < j < |s| ==> s[i] != s[j]
  }

  /** The invariant of the services sync: every biller was written once,
      under a truthy id, and the counters count the writes; no write is to
      another provider's rows or names the kobo columns, and none is a
      category. */
  ghost predicate Wf(st: SyncState) {
    && NoDuplicates(BillerIds(st.writes))
    && (forall k :: 0 <= k < |BillerIds(st.writes)| ==> TruthyString(BillerIds(st.writes)[k]))
    && (forall id :: id in st.seen <==> id in BillerIds(st.writes))
    && st.billers == |BillerIds(st.writes)|
    && st.products == ProductUpserts(st.writes)
    && (forall k :: 0 <= k < |st.writes| ==>
          st.writes[k].key.0 == Provider && !NamesKobo(st.writes[k]) && !st.writes[k].UpsertCategory?)
  }

  /** The state grows: earlier writes stay, the seen set only grows. */
  ghost predicate Extends(st: SyncState, st': SyncState) {
    st.writes <= st'.writes && st.seen <= st'.seen
  }

  lemma WfStart()
    ensures Wf(Start)
  {
  }

  /** The seen set grows by the offered id exactly when it is truthy. */
  function Offered(b: Option<(string, Json)>): set<string> {
    match b
    case Some((id, _)) => if TruthyString(id) then {id} else {}
    case None => {}
  }

  lemma RecordBillerWf(st: SyncState, billerId: string, billerName: Json)
    requires Wf(st)
    ensures Wf(RecordBiller(st, billerId, billerName)) && Extends(st, RecordBiller(st, billerId, billerName))
    ensures RecordBiller(st, billerId, billerName).seen == st.seen + Offered(Some((billerId, billerName)))
  {
    var st' := RecordBiller(st, billerId, billerName);
    if TruthyString(billerId) && billerId !in st.seen {
      assert st'.writes[..|st'.writes| - 1] == st.writes;
      assert BillerIds(st'.writes) == BillerIds(st.writes) + [billerId];
      assert ProductUpserts(st'.writes) == ProductUpserts(st.writes);
    }
  }

  lemma AddProductWf(st: SyncState, u: Upsert)
    requires Wf(st) && u.UpsertProduct? && u.key.0 == Provider && u.write.kobo.None?
    ensures Wf(AddProduct(st, u)) && Extends(st, AddProduct(st, u))
    ensures AddProduct(st, u).seen == st.seen
  {
    var st' := AddProduct(st, u);
    assert st'.writes[..|st'.writes| - 1] == st.writes;
    assert BillerIds(st'.writes) == BillerIds(st.writes);
  }

  /** The ids a flat list adds to the seen set when it runs to the end. */
  function LeafIds(xs: seq<Json>, kind: Leaf): set<string> {
    if xs == [] then {}
    else
      LeafIds(xs[..|xs| - 1], kind) +
      (if LeafSkipped(xs[|xs| - 1], kind) then {} else Offered(LeafBiller(xs[|xs| - 1], kind)))
  }

  lemma WithBillerWf(st: SyncState, b: Option<(string, Json)>)
    requires Wf(st)
    ensures Wf(WithBiller(st, b)) && Extends(st, WithBiller(st, b)) && WithBiller(st, b).seen == st.seen + Offered(b)
  {
    match b {
      case Some((id, name)) => RecordBillerWf(st, id, name);
      case None =>
    }
  }

  lemma LeafProductWf(st: SyncState, x: Json, kind: Leaf)
    requires Wf(st)
    ensures var o := LeafProduct(st, x, kind);
      Wf(o.st) && Extends(st, o.st) && o.st.seen == st.seen
  {
    if ClassifyLeaf(x, kind).Ok? {
      AddProductWf(st, LeafWrite(x, kind, ClassifyLeaf(x, kind).value));
    }
  }

  lemma LeafStepWf(st: SyncState, x: Json, kind: Leaf)
    requires Wf(st)
    ensures var o := LeafStep(st, x, kind);
      Wf(o.st) && Extends(st, o.st) &&
      o.st.seen == st.seen + (if LeafCastRaises(x, kind) || LeafSkipped(x, kind) then {} else Offered(LeafBiller(x, kind)))
  {
    if !LeafCastRaises(x, kind) && !LeafSkipped(x, kind) {
      var st1 := WithBiller(st, LeafBiller(x, kind));
      WithBillerWf(st, LeafBiller(x, kind));
      LeafProductWf(st1, x, kind);
    }
  }

  lemma {:induction false} LeafFoldWf(st: SyncState, xs: seq<Json>, kind: Leaf)
    requires Wf(st)
    ensures var o := LeafFold(st, xs, kind);
      Wf(o.st) && Extends(st, o.st) && (o.err.None? ==> o.st.seen == st.seen + LeafIds(xs, kind))
    decreases |xs|
  {
    if xs != [] {
      LeafFoldWf(st, xs[..|xs| - 1], kind);
      var o := LeafFold(st, xs[..|xs| - 1], kind);
      if o.err.None? {
        LeafStepWf(o.st, xs[|xs| - 1], kind);
      }
    }
  }

  lemma LeavesRunWf(st: SyncState, list: Json, kind: Leaf)
    requires Wf(st)
    ensures var o := LeavesRun(st, list, kind);
      Wf(o.st) && Extends(st, o.st) && (o.err.None? ==> o.st.seen == st.seen + LeafIds(Items(list), kind))
  {
    if IsArray(list) {
      LeafFoldWf(st, Items(list), kind);
    }
  }

  /** The ids a list of groups adds to the seen set when it runs to the end. */
  function GroupIds(xs: seq<Json>, kind: Group): set<string> {
    if xs == [] then {}
    else
      var x := xs[|xs| - 1];
      GroupIds(xs[..|xs| - 1], kind) + Offered(GroupBiller(x, kind)) + LeafIds(Items(GroupItems(x, kind)), GroupLeaf(x, kind))
  }

  lemma {:induction false} GroupFoldWf(st: SyncState, xs: seq<Json>, kind: Group)
    requires Wf(st)
    ensures var o := GroupFold(st, xs, kind);
      Wf(o.st) && Extends(st, o.st) && (o.err.None? ==> o.st.seen == st.seen + GroupIds(xs, kind))
    decreases |xs|
  {
    if xs != [] {
      GroupFoldWf(st, xs[..|xs| - 1], kind);
      var o := GroupFold(st, xs[..|xs| - 1], kind);
      var x := xs[|xs| - 1];
      if o.err.None? && !GroupCastRaises(x, kind) {
        WithBillerWf(o.st, GroupBiller(x, kind));
        LeavesRunWf(WithBiller(o.st, GroupBiller(x, kind)), GroupItems(x, kind), GroupLeaf(x, kind));
      }
    }
  }

  lemma GroupsRunWf(st: SyncState, list: Json, kind: Group)
    requires Wf(st)
    ensures var o := GroupsRun(st, list, kind);
      Wf(o.st) && Extends(st, o.st) && (o.err.None? ==> o.st.seen == st.seen + GroupIds(Items(list), kind))
  {
    if IsArray(list) {
      GroupFoldWf(st, Items(list), kind);
    }
  }

  /** The distinct truthy biller ids a services body mentions: shape-1
      billers, shape-2 billers, and shape-3 services that are not skipped. */
  function BodyBillerIds(json: Json): set<string> {
    GroupIds(BillersShape(json), BillerWithItems) + GroupIds(BillerListShape(json), BillerListCategory)
      + LeafIds(FlatShape(json), FlatService)
  }

  lemma {:induction false} DistinctCard(s: seq<string>, t: set<string>)
    requires NoDuplicates(s)
    requires forall x :: x in t <==> x in s
    ensures |t| == |s|
    decreases |s|
  {
    if s != [] {
      var last := s[|s| - 1];
      var init := s[..|s| - 1];
      forall x ensures x in t - {last} <==> x in init {
        if x in init {
          var k :| 0 <= k < |init| && init[k] == x;
          assert s[k] == x;
        }
        if x in s && x != last {
          var k :| 0 <= k < |s| && s[k] == x;
          assert k < |s| - 1 && init[k] == x;
        }
      }
      DistinctCard(init, t - {last});
    }
  }

  /** Across the three shapes of a services body: no biller is upserted
      twice, `billers` is the number of biller upserts, `products` the
      number of product upserts, and no upsert names the kobo columns or
      another provider's rows, even when an exception cut the run short. A run that completes upserts exactly the distinct truthy biller
      ids of the body. */
  lemma ServicesPlanCounts(json: Json)
    ensures var st := ServicesPlan(json).st;
      && NoDuplicates(BillerIds(st.writes))
      && st.billers == |BillerIds(st.writes)|
      && st.products == ProductUpserts(st.writes)
      && (forall k :: 0 <= k < |st.writes| ==>
            st.writes[k].key.0 == Provider && !NamesKobo(st.writes[k]) && !st.writes[k].UpsertCategory?)
    ensures ServicesPlan(json).err.None? ==>
      var st := ServicesPlan(json).st;
      (forall id :: id in BillerIds(st.writes) <==> id in BodyBillerIds(json)) &&
      st.billers == |BodyBillerIds(json)|
  {
    WfStart();
    GroupsRunWf(Start, BillersPayload(json), BillerWithItems);
    var o1 := GroupsRun(Start, BillersPayload(json), BillerWithItems);
    if o1.err.None? {
      GroupsRunWf(o1.st, BillerListPayload(json), BillerListCategory);
      var o2 := GroupsRun(o1.st, BillerListPayload(json), BillerListCategory);
      if o2.err.None? {
        LeavesRunWf(o2.st, FlatPayload(json), FlatService);
        var o3 := LeavesRun(o2.st, FlatPayload(json), FlatService);
        if o3.err.None? {
          DistinctCard(BillerIds(o3.st.writes), o3.st.seen);
        }
      }
    }
  }

  // ----- references from products to billers -----

  /** A product reference to a biller id that is truthy (every reference of
      shapes 1 and 3, which pass the id through `?: null`). */
  predicate TruthyRef(u: Upsert) {
    u.UpsertProduct? && u.write.biller.Some? ==> TruthyString(u.write.biller.value)
  }

  /** The invariant of the references: every seen id has a biller row
      written, every biller row written has a truthy id, and every product
      reference (every one when `strict`, otherwise every truthy one) is to
      a biller written. */
  ghost predicate Linked(st: SyncState, strict: bool) {
    && (forall id :: id in st.seen ==> (Provider, id) in BillerKeys(st.writes))
    && (forall key :: key in BillerKeys(st.writes) ==> TruthyString(key.1))
    && (forall k :: 0 <= k < |st.writes| && (strict || TruthyRef(st.writes[k])) ==> Resolves(st.writes, st.writes[k]))
  }

  /** What a flat list needs before it runs: shape 1's biller is written
      when its id is truthy; shape 2 is allowed only when not `strict`. */
  ghost predicate LeafReady(st: SyncState, kind: Leaf, strict: bool) {
    match kind
    case PaymentItem(_, billerId, _) => TruthyString(billerId) ==> (Provider, billerId) in BillerKeys(st.writes)
    case ListedBiller(_) => !strict
    case FlatService => true
  }

  lemma LinkedExtends(st: SyncState, u: Upsert, st': SyncState, strict: bool)
    requires Linked(st, strict) && st'.writes == st.writes + [u]
    requires forall id :: id in st'.seen ==> id in st.seen || (u.UpsertBiller? && u.key == (Provider, id))
    requires u.UpsertBiller? ==> TruthyString(u.key.1)
    requires (strict || TruthyRef(u)) ==> Resolves(st'.writes, u)
    ensures Linked(st', strict)
    ensures BillerKeys(st'.writes) == BillerKeys(st.writes) + (if u.UpsertBiller? then {u.key} else {})
  {
    assert st'.writes[..|st'.writes| - 1] == st.writes;
    forall k | 0 <= k < |st'.writes| && (strict || TruthyRef(st'.writes[k]))
      ensures Resolves(st'.writes, st'.writes[k])
    {
      if k < |st.writes| {
        assert st'.writes[k] == st.writes[k];
        ResolvesGrows(st.writes, st'.writes, st.writes[k]);
      }
    }
  }

  lemma RecordBillerLinked(st: SyncState, billerId: string, billerName: Json, strict: bool)
    requires Linked(st, strict)
    ensures var st' := RecordBiller(st, billerId, billerName);
      Linked(st', strict) && st.writes <= st'.writes &&
      (TruthyString(billerId) ==> (Provider, billerId) in BillerKeys(st'.writes))
  {
    if TruthyString(billerId) && billerId !in st.seen {
      LinkedExtends(st, BillerUpsert(billerId, billerName), RecordBiller(st, billerId, billerName), strict);
    }
  }

  lemma WithBillerLinked(st: SyncState, b: Option<(string, Json)>, strict: bool)
    requires Linked(st, strict)
    ensures var st' := WithBiller(st, b);
      Linked(st', strict) && st.writes <= st'.writes &&
      (b.Some? && TruthyString(b.value.0) ==> (Provider, b.value.0) in BillerKeys(st'.writes))
  {
    match b {
      case Some((id, name)) => RecordBillerLinked(st, id, name, strict);
      case None =>
    }
  }

  /** A record's product refers to a biller written by then: shape 1's by
      readiness, shapes 2 and 3 because the record wrote its own biller. */
  lemma LeafWriteResolves(st: SyncState, x: Json, kind: Leaf, flags: Flags, strict: bool)
    requires LeafReady(st, kind, strict)
    requires var b := LeafBiller(x, kind); b.Some? && TruthyString(b.value.0) ==> (Provider, b.value.0) in BillerKeys(st.writes)
    ensures var u := LeafWrite(x, kind, flags);
      u.UpsertProduct? && u.key.0 == Provider && ((strict || TruthyRef(u)) ==> Resolves(st.writes, u))
  {
  }

  lemma LeafStepLinked(st: SyncState, x: Json, kind: Leaf, strict: bool)
    requires Linked(st, strict) && LeafReady(st, kind, strict)
    ensures var o := LeafStep(st, x, kind); Linked(o.st, strict) && st.writes <= o.st.writes
  {
    if LeafCastRaises(x, kind) || LeafSkipped(x, kind) {
      assert LeafStep(st, x, kind).st == st;
    } else {
      var st1 := WithBiller(st, LeafBiller(x, kind));
      WithBillerLinked(st, LeafBiller(x, kind), strict);
      BillerKeysGrow(st.writes, st1.writes);
      assert LeafReady(st1, kind, strict);
      LeafProductLinked(st, st1, x, kind, strict);
      assert LeafStep(st, x, kind) == LeafProduct(st1, x, kind);
    }
  }

  /** The product step keeps the links its biller step established. */
  lemma LeafProductLinked(st: SyncState, st1: SyncState, x: Json, kind: Leaf, strict: bool)
    requires Linked(st1, strict) && st.writes <= st1.writes && LeafReady(st1, kind, strict)
    requires var b := LeafBiller(x, kind); b.Some? && TruthyString(b.value.0) ==> (Provider, b.value.0) in BillerKeys(st1.writes)
    ensures var o := LeafProduct(st1, x, kind); Linked(o.st, strict) && st.writes <= o.st.writes
  {
    var c := ClassifyLeaf(x, kind);
    if c.Ok? {
      var u := LeafWrite(x, kind, c.value);
      LeafWriteResolves(st1, x, kind, c.value, strict);
      var st2 := AddProduct(st1, u);
      if strict || TruthyRef(u) {
        ResolvesGrows(st1.writes, st2.writes, u);
      }
      LinkedExtends(st1, u, st2, strict);
    }
  }

  lemma BillerKeysGrow(a: seq<Upsert>, b: seq<Upsert>)
    requires a <= b
    ensures BillerKeys(a) <= BillerKeys(b)
  {
    assert b == a + b[|a|..];
    BillerKeysAppend(a, b[|a|..]);
  }

  lemma {:induction false} LeafFoldLinked(st: SyncState, xs: seq<Json>, kind: Leaf, strict: bool)
    requires Linked(st, strict) && LeafReady(st, kind, strict)
    ensures var o := LeafFold(st, xs, kind); Linked(o.st, strict) && st.writes <= o.st.writes
    decreases |xs|
  {
    if xs != [] {
      LeafFoldLinked(st, xs[..|xs| - 1], kind, strict);
      var o := LeafFold(st, xs[..|xs| - 1], kind);
      if o.err.None? {
        BillerKeysGrow(st.writes, o.st.writes);
        LeafStepLinked(o.st, xs[|xs| - 1], kind, strict);
      }
    }
  }

  lemma LeavesRunLinked(st: SyncState, list: Json, kind: Leaf, strict: bool)
    requires Linked(st, strict) && LeafReady(st, kind, strict)
    ensures var o := LeavesRun(st, list, kind); Linked(o.st, strict) && st.writes <= o.st.writes
  {
    if IsArray(list) {
      LeafFoldLinked(st, Items(list), kind, strict);
    }
  }

  lemma {:induction false} GroupFoldLinked(st: SyncState, xs: seq<Json>, kind: Group, strict: bool)
    requires Linked(st, strict) && (strict ==> kind == BillerWithItems)
    ensures var o := GroupFold(st, xs, kind); Linked(o.st, strict) && st.writes <= o.st.writes
    decreases |xs|
  {
    if xs != [] {
      GroupFoldLinked(st, xs[..|xs| - 1], kind, strict);
      var o := GroupFold(st, xs[..|xs| - 1], kind);
      var x := xs[|xs| - 1];
      if o.err.None? && !GroupCastRaises(x, kind) {
        var st1 := WithBiller(o.st, GroupBiller(x, kind));
        WithBillerLinked(o.st, GroupBiller(x, kind), strict);
        assert LeafReady(st1, GroupLeaf(x, kind), strict);
        LeavesRunLinked(st1, GroupItems(x, kind), GroupLeaf(x, kind), strict);
      }
    }
  }

  lemma GroupsRunLinked(st: SyncState, list: Json, kind: Group, strict: bool)
    requires Linked(st, strict) && (strict ==> kind == BillerWithItems)
    ensures var o := GroupsRun(st, list, kind); Linked(o.st, strict) && st.writes <= o.st.writes
  {
    if IsArray(list) {
      GroupFoldLinked(st, Items(list), kind, strict);
    }
  }

  /** The services part keeps the references linked; strictly so when the
      body has no shape-2 list. */
  lemma ServicesPlanLinked(json: Json, strict: bool)
    requires strict ==> BillerListShape(json) == []
    ensures Linked(ServicesPlan(json).st, strict)
  {
    GroupsRunLinked(Start, BillersPayload(json), BillerWithItems, strict);
    var o1 := GroupsRun(Start, BillersPayload(json), BillerWithItems);
    if o1.err.None? {
      var o2 := GroupsRun(o1.st, BillerListPayload(json), BillerListCategory);
      if !strict {
        GroupsRunLinked(o1.st, BillerListPayload(json), BillerListCategory, strict);
      } else {
        assert Items(BillerListPayload(json)) == [];
        assert o2.st == o1.st;
      }
      if o2.err.None? {
        LeavesRunLinked(o2.st, FlatPayload(json), FlatService, strict);
        assert ServicesPlan(json) == LeavesRun(o2.st, FlatPayload(json), FlatService);
      } else {
        assert ServicesPlan(json) == o2;
      }
    } else {
      assert ServicesPlan(json) == o1;
    }
  }

  /** Every product a sync writes with a truthy `biller_external_id` refers
      to a biller the same sync wrote, and when the body has no
      `BillerList.Category` list every reference does. A falsy reference
      never resolves: no biller is written under a falsy id. This holds
      even when an exception cut the run short. */
  lemma SyncRunReferences(cat: Result<Reply>, svc: Result<Reply>)
    ensures var ws := SyncRun(cat, svc).1;
      forall k :: 0 <= k < |ws| && TruthyRef(ws[k]) ==> Resolves(ws, ws[k])
    ensures var ws := SyncRun(cat, svc).1;
      forall k :: 0 <= k < |ws| && !TruthyRef(ws[k]) ==> !Resolves(ws, ws[k])
    ensures svc.Ok? && BillerListShape(Coalesce(svc.value.json, EmptyArray)) == [] ==>
      ReferencesResolved(SyncRun(cat, svc).1)
  {
    if cat.Ok? && cat.value.ok {
      var cjson := Coalesce(cat.value.json, EmptyArray);
      var cw := CategoriesRun(cjson).writes;
      CategoriesRunShape(cjson);
      if CategoriesRun(cjson).err.None? && svc.Ok? && svc.value.ok {
        var json := Coalesce(svc.value.json, EmptyArray);
        var ws := ServicesPlan(json).st.writes;
        ServicesPlanLinked(json, false);
        ResolvedAfterCategories(cw, ws, false);
        if BillerListShape(json) == [] {
          ServicesPlanLinked(json, true);
          ResolvedAfterCategories(cw, ws, true);
        }
      } else {
        assert forall k :: 0 <= k < |cw| ==> cw[k] in cw;
      }
    }
  }

  /** Shape 2 writes its biller only under a truthy id but always files the
      product under the id: a listed biller with a falsy id yields a product
      whose `biller_external_id` names no biller the run wrote. */
  lemma ListedFalsyBillerUnresolved(st: SyncState, x: Json, categoryId: string)
    requires Linked(st, false)
    requires !TruthyString(ToStr(ArrGet(x, "Id", JNull))) && ClassifyLeaf(x, ListedBiller(categoryId)).Ok?
    ensures var o := LeafStep(st, x, ListedBiller(categoryId));
      o.err.None? && o.st.billers == st.billers &&
      |o.st.writes| == |st.writes| + 1 && o.st.writes[..|st.writes|] == st.writes &&
      var u := o.st.writes[|st.writes|];
      u.UpsertProduct? && u.write.biller == Some(ToStr(ArrGet(x, "Id", JNull))) && !Resolves(o.st.writes, u)
  {
    var kind := ListedBiller(categoryId);
    var u := LeafWrite(x, kind, ClassifyLeaf(x, kind).value);
    ListedFalsyStep(st, x, categoryId);
    assert (st.writes + [u])[..|st.writes|] == st.writes;
    BillerKeysAppend(st.writes, [u]);
    assert BillerKeys([u]) == {} by { assert [u][..0] == []; }
  }

  /** A listed biller with a falsy id writes no biller, only its product. */
  lemma ListedFalsyStep(st: SyncState, x: Json, categoryId: string)
    requires !TruthyString(ToStr(ArrGet(x, "Id", JNull))) && ClassifyLeaf(x, ListedBiller(categoryId)).Ok?
    ensures LeafStep(st, x, ListedBiller(categoryId)) ==
      Outcome(AddProduct(st, LeafWrite(x, ListedBiller(categoryId), ClassifyLeaf(x, ListedBiller(categoryId)).value)), None)
  {
    assert !IsArray(ArrGet(x, "Id", JNull));
  }

  /** The listed biller `{"Id": "0", "Name": "Zero"}` in a run that has
      written nothing: its product refers to biller "0", which is not written. */
  lemma ListedZeroBillerUnresolved()
    ensures var x := JObj([("Id", JStr("0")), ("Name", JStr("Zero"))]);
      var o := LeafStep(Start, x, ListedBiller("1"));
      o.err.None? && o.st.billers == 0 && |o.st.writes| == 1 &&
      o.st.writes[0].write.biller == Some("0") && !Resolves(o.st.writes, o.st.writes[0])
  {
    var x := JObj([("Id", JStr("0")), ("Name", JStr("Zero"))]);
    assert ArrGet(x, "Id", JNull) == JStr("0");
    assert ArrGet(x, "Name", JNull) == JStr("Zero");
    ListedFalsyBillerUnresolved(Start, x, "1");
  }

  /** Category upserts in front of the services writes change no reference. */
  lemma ResolvedAfterCategories(cw: seq<Upsert>, ws: seq<Upsert>, strict: bool)
    requires forall u :: u in cw ==> u.UpsertCategory?
    requires forall key :: key in BillerKeys(ws) ==> TruthyString(key.1)
    requires forall k :: 0 <= k < |ws| && (strict || TruthyRef(ws[k])) ==> Resolves(ws, ws[k])
    ensures forall k :: 0 <= k < |cw + ws| && (strict || TruthyRef((cw + ws)[k])) ==> Resolves(cw + ws, (cw + ws)[k])
    ensures forall k :: 0 <= k < |cw + ws| && !TruthyRef((cw + ws)[k]) ==> !Resolves(cw + ws, (cw + ws)[k])
  {
    CategoriesNoBillers(cw);
    BillerKeysAppend(cw, ws);
    forall k | 0 <= k < |cw + ws|
      ensures (strict || TruthyRef((cw + ws)[k])) ==> Resolves(cw + ws, (cw + ws)[k])
      ensures !TruthyRef((cw + ws)[k]) ==> !Resolves(cw + ws, (cw + ws)[k])
    {
      if k < |cw| {
        assert (cw + ws)[k] == cw[k] && cw[k] in cw;
      } else {
        assert (cw + ws)[k] == ws[k - |cw|];
      }
    }
  }

  lemma {:induction false} CategoriesNoBillers(cw: seq<Upsert>)
    requires forall u :: u in cw ==> u.UpsertCategory?
    ensures BillerKeys(cw) == {}
    decreases |cw|
  {
    if cw != [] {
      assert cw[|cw| - 1] in cw;
      assert forall u :: u in cw[..|cw| - 1] ==> u in cw;
      CategoriesNoBillers(cw[..|cw| - 1]);
    }
  }

  /** Shape 2 turns every listed biller into a product keyed by the biller
      id, even an empty one, with the ProductCode as payment code; only an
      id that is an array, whose cast raises, stops it. */
  lemma ListedBillerAlwaysProduct(st: SyncState, x: Json, categoryId: string)
    requires ClassifyLeaf(x, ListedBiller(categoryId)).Ok?
    ensures IsArray(ArrGet(x, "Id", JNull)) ==>
      LeafStep(st, x, ListedBiller(categoryId)) == Outcome(st, Some(ErrorException(ArrayToString)))
    ensures !IsArray(ArrGet(x, "Id", JNull)) ==>
      var o := LeafStep(st, x, ListedBiller(categoryId));
      var id := ToStr(ArrGet(x, "Id", JNull));
      o.err.None? && o.st.products == st.products + 1 &&
      o.st.writes[|o.st.writes| - 1].UpsertProduct? &&
      o.st.writes[|o.st.writes| - 1].key == (Provider, id) &&
      o.st.writes[|o.st.writes| - 1].write.paymentCode == ArrGet(x, "ProductCode", JNull) &&
      o.st.writes[|o.st.writes| - 1].write.biller == Some(id)
  {
  }

  /** An error part-way through a fold ends the whole fold with that outcome. */
  lemma {:induction false} LeafFoldErrSticks(st: SyncState, xs: seq<Json>, kind: Leaf, n: nat)
    requires n <= |xs| && LeafFold(st, xs[..n], kind).err.Some?
    ensures LeafFold(st, xs, kind) == LeafFold(st, xs[..n], kind)
    decreases |xs| - n
  {
    if n < |xs| {
      assert xs[..n + 1][..n] == xs[..n];
      LeafFoldErrSticks(st, xs, kind, n + 1);
    } else {
      assert xs[..n] == xs;
    }
  }

  lemma {:induction false} GroupFoldErrSticks(st: SyncState, xs: seq<Json>, kind: Group, n: nat)
    requires n <= |xs| && GroupFold(st, xs[..n], kind).err.Some?
    ensures GroupFold(st, xs, kind) == GroupFold(st, xs[..n], kind)
    decreases |xs| - n
  {
    if n < |xs| {
      assert xs[..n + 1][..n] == xs[..n];
      GroupFoldErrSticks(st, xs, kind, n + 1);
    } else {
      assert xs[..n] == xs;
    }
  }
}
