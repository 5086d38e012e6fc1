/** The mapping of the legacy catalogue onto canonical identities. */
module LegacyMapping {
  import opened Wrappers
  import opened TextRules
  import opened Sorting

  datatype Entity = CATEGORY | PRODUCT
  datatype Disposition = CREATE | MATCH_EXPLICITLY | SKIP_INTENTIONALLY | ERROR
  datatype ImageDisposition = BUNDLED_SOURCE_ASSET | LEGACY_STORAGE_OBJECT | CANONICAL_IMAGE_KEY | NO_SOURCE_IMAGE

  datatype CategorySource = CategorySource(id: string, name: string, slug: string, description: Option<string>,
                                           sortOrder: int, active: bool)

  /** `priceMinor` is what the price converts to, if it converts. */
  datatype ProductSource = ProductSource(id: string, categoryId: string, name: string, description: string,
                                         priceMinor: Option<nat>, bestSeller: bool, active: bool, sortOrder: int)

  datatype Source = Source(categories: seq<CategorySource>, products: seq<ProductSource>)

  datatype CategoryEntry = CategoryEntry(legacyId: string, disposition: Disposition, canonicalId: Option<string>,
                                         reason: Option<string>)

  datatype ProductEntry = ProductEntry(base: CategoryEntry, categoryLegacyId: string, image: ImageDisposition,
                                       imageKey: Option<string>)

  datatype Manifest = Manifest(version: int, source: string, categoryCount: int, productCount: int,
                               categories: seq<CategoryEntry>, products: seq<ProductEntry>)

  datatype Category = Category(disposition: Disposition, legacyId: string, id: string, slug: string, name: string,
                               description: Option<string>, sortOrder: int, active: bool)

  datatype Product = Product(disposition: Disposition, legacyId: string, id: string, categoryId: string, slug: string,
                             name: string, description: string, priceMinor: nat, imageKey: Option<string>,
                             image: ImageDisposition, bestSeller: bool, active: bool, isCombo: bool, sortOrder: int)

  datatype Skipped = Skipped(entity: Entity, legacyId: string, reason: string)

  datatype Mapping = Mapping(source: string, categories: seq<Category>, products: seq<Product>, skipped: seq<Skipped>)

  /** The derivation of a canonical ID by hash, and `localeCompare`. */
  datatype Rules = Rules(derive: (Entity, string) -> string, locale: Order<string>)

  // ---- one row -------------------------------------------------------------------------------

  function CanonicalId(rules: Rules, entity: Entity, e: CategoryEntry): Option<string> {
    match e.disposition
    case CREATE => if Trim(e.legacyId) == "" then None else Some(rules.derive(entity, Trim(e.legacyId)))
    case MATCH_EXPLICITLY => if e.canonicalId.Some? && IsUuid(e.canonicalId.value) then Some(Lower(e.canonicalId.value)) else None
    case _ => None
  }

  predicate Given(text: Option<string>) {
    text.Some? && Trim(text.value) != ""
  }

  function Find<T>(key: T -> string, s: seq<T>, id: string): (r: Option<T>)
    ensures r.Some? ==> r.value in s && key(r.value) == id
    ensures r.None? <==> forall i :: 0 <= i < |s| ==> key(s[i]) != id
  {
    if s == [] then None
    else if key(s[|s| - 1]) == id then Some(s[|s| - 1])
    else Find(key, s[..|s| - 1], id)
  }

  lemma FindIs<T(!new)>(key: T -> string, s: seq<T>, x: T)
    requires Distinct(Map(key, s)) && x in s
    ensures Find(key, s, key(x)) == Some(x)
  {
    var found := Find(key, s, key(x));
    var i :| 0 <= i < |s| && s[i] == x;
    var j :| 0 <= j < |s| && s[j] == found.value;
    assert Map(key, s)[i] == Map(key, s)[j];
  }

  lemma FindIgnoresOrder<T(!new)>(key: T -> string, a: seq<T>, b: seq<T>, id: string)
    requires multiset(a) == multiset(b) && Distinct(Map(key, a))
    ensures Find(key, a, id) == Find(key, b, id)
  {
    SameMembers(a, b);
    MapIgnoresOrder(key, a, b);
    DistinctIgnoresOrder(Map(key, a), Map(key, b));
    if Find(key, a, id).Some? { FindIs(key, b, Find(key, a, id).value); }
    if Find(key, b, id).Some? { assert Find(key, b, id).value in a; }
  }

  const CategoryId := (c: CategorySource) => c.id
  const ProductId := (p: ProductSource) => p.id
  const EntryId := (e: CategoryEntry) => e.legacyId
  const ProductEntryId := (e: ProductEntry) => e.base.legacyId

  /** What becomes of a source row: an output row, a skipped row, or an error. */
  datatype Fate<T> = Row(out: T) | Skip(skipped: Skipped) | Bad

  function CategoryFate(rules: Rules, entries: seq<CategoryEntry>, row: CategorySource): Fate<Category> {
    var entry := Find(EntryId, entries, row.id);
    if entry.None? then Bad
    else
      var e := entry.value;
      if e.disposition.SKIP_INTENTIONALLY? then
        if Given(e.reason) then Skip(Skipped(CATEGORY, row.id, e.reason.value)) else Bad
      else
        var id := CanonicalId(rules, CATEGORY, e);
        if id.None? then Bad
        else Row(Category(e.disposition, row.id, id.value, row.slug, row.name, row.description, row.sortOrder, row.active))
  }

  /** The canonical ID under which a source category is in the output. */
  function CanonicalBy(fate: CategorySource -> Fate<Category>, rows: seq<CategorySource>, id: string): Option<string> {
    var row := Find(CategoryId, rows, id);
    if row.Some? && fate(row.value).Row? then Some(fate(row.value).out.id) else None
  }

  function CategoryFates(rules: Rules, m: Manifest): CategorySource -> Fate<Category> {
    (c: CategorySource) => CategoryFate(rules, m.categories, c)
  }

  function CanonicalCategory(rules: Rules, rows: seq<CategorySource>, m: Manifest, id: string): Option<string> {
    CanonicalBy(CategoryFates(rules, m), rows, id)
  }

  /** The category reference is checked before the disposition: a product in a skipped category is an error. */
  function ProductFateIn(rules: Rules, entries: seq<ProductEntry>, category: Option<string>, row: ProductSource): Fate<Product> {
    var entry := Find(ProductEntryId, entries, row.id);
    if entry.None? then Bad
    else
      var e := entry.value;
      if e.categoryLegacyId != row.categoryId || category.None? || category.value == "" then Bad
      else if e.base.disposition.SKIP_INTENTIONALLY? then
        if Given(e.base.reason) then Skip(Skipped(PRODUCT, row.id, e.base.reason.value)) else Bad
      else
        var id := CanonicalId(rules, PRODUCT, e.base);
        if (e.image.CANONICAL_IMAGE_KEY? && !Given(e.imageKey)) || id.None? || row.priceMinor.None? then Bad
        else
          var imageKey := if e.image.CANONICAL_IMAGE_KEY? then e.imageKey else None;
          Row(Product(e.base.disposition, row.id, id.value, category.value, row.id, row.name, row.description,
                      row.priceMinor.value, imageKey, e.image, row.bestSeller, row.active,
                      row.categoryId == "combos", row.sortOrder))
  }

  function ProductFate(rules: Rules, source: Source, m: Manifest, row: ProductSource): Fate<Product> {
    ProductFateIn(rules, m.products, CanonicalCategory(rules, source.categories, m, row.categoryId), row)
  }

  function Kept<T>(fate: Fate<T>): Option<T> {
    if fate.Row? then Some(fate.out) else None
  }

  function Left<T>(fate: Fate<T>): Option<Skipped> {
    if fate.Skip? then Some(fate.skipped) else None
  }

  // ---- the whole catalogue -------------------------------------------------------------------

  function ProductFates(rules: Rules, source: Source, m: Manifest): ProductSource -> Fate<Product> {
    (p: ProductSource) => ProductFate(rules, source, m, p)
  }

  function KeptBy<T, R>(fate: T -> Fate<R>, rows: seq<T>): seq<R> {
    Collect((x: T) => Kept(fate(x)), rows)
  }

  function LeftBy<T, R>(fate: T -> Fate<R>, rows: seq<T>): seq<Skipped> {
    Collect((x: T) => Left(fate(x)), rows)
  }

  lemma KeptMembers<T(!new), R(!new)>(fate: T -> Fate<R>, rows: seq<T>)
    ensures forall y :: y in KeptBy(fate, rows) <==> exists x :: x in rows && fate(x) == Row(y)
  {
    CollectMembers((x: T) => Kept(fate(x)), rows);
    forall y ensures y in KeptBy(fate, rows) <==> exists x :: x in rows && fate(x) == Row(y) {
      if y in KeptBy(fate, rows) {
        var x :| x in rows && ((x: T) => Kept(fate(x)))(x) == Some(y);
        assert fate(x) == Row(y);
      }
      if x :| x in rows && fate(x) == Row(y) { assert ((x: T) => Kept(fate(x)))(x) == Some(y); }
    }
  }

  lemma LeftMembers<T(!new), R(!new)>(fate: T -> Fate<R>, rows: seq<T>)
    ensures forall y :: y in LeftBy(fate, rows) <==> exists x :: x in rows && fate(x) == Skip(y)
  {
    CollectMembers((x: T) => Left(fate(x)), rows);
    forall y ensures y in LeftBy(fate, rows) <==> exists x :: x in rows && fate(x) == Skip(y) {
      if y in LeftBy(fate, rows) {
        var x :| x in rows && ((x: T) => Left(fate(x)))(x) == Some(y);
        assert fate(x) == Skip(y);
      }
      if x :| x in rows && fate(x) == Skip(y) { assert ((x: T) => Left(fate(x)))(x) == Some(y); }
    }
  }

  lemma SameFate<T(!new), R(!new)>(fate: T -> Fate<R>, fate': T -> Fate<R>, rows: seq<T>)
    requires forall x :: fate(x) == fate'(x)
    ensures KeptBy(fate, rows) == KeptBy(fate', rows) && LeftBy(fate, rows) == LeftBy(fate', rows)
    ensures NoneBad(fate, rows) <==> NoneBad(fate', rows)
  {
    CollectSame((x: T) => Kept(fate(x)), (x: T) => Kept(fate'(x)), rows);
    CollectSame((x: T) => Left(fate(x)), (x: T) => Left(fate'(x)), rows);
  }

  lemma ByIgnoresOrder<T(!new), R(!new)>(fate: T -> Fate<R>, fate': T -> Fate<R>, a: seq<T>, b: seq<T>)
    requires multiset(a) == multiset(b) && forall x :: fate(x) == fate'(x)
    ensures multiset(KeptBy(fate, a)) == multiset(KeptBy(fate', b)) && multiset(LeftBy(fate, a)) == multiset(LeftBy(fate', b))
  {
    CollectIgnoresOrder((x: T) => Kept(fate(x)), a, b);
    CollectIgnoresOrder((x: T) => Left(fate(x)), a, b);
    SameFate(fate, fate', b);
  }

  function CategoryRows(rules: Rules, source: Source, m: Manifest): seq<Category> {
    KeptBy(CategoryFates(rules, m), source.categories)
  }

  function ProductRows(rules: Rules, source: Source, m: Manifest): seq<Product> {
    KeptBy(ProductFates(rules, source, m), source.products)
  }

  function SkippedCategories(rules: Rules, source: Source, m: Manifest): seq<Skipped> {
    LeftBy(CategoryFates(rules, m), source.categories)
  }

  function SkippedProducts(rules: Rules, source: Source, m: Manifest): seq<Skipped> {
    LeftBy(ProductFates(rules, source, m), source.products)
  }

  function SkippedRows(rules: Rules, source: Source, m: Manifest): seq<Skipped> {
    SkippedCategories(rules, source, m) + SkippedProducts(rules, source, m)
  }

  const OutId := (c: Category) => c.id
  const OutProductId := (p: Product) => p.id
  const SkippedId := (s: Skipped) => s.legacyId

  function CanonicalIds(categories: seq<Category>, products: seq<Product>): seq<string> {
    Map(OutId, categories) + Map(OutProductId, products)
  }

  /** Manifest and source list the same IDs, none of them twice, as many as declared. */
  predicate Parity<S(==), E(==)>(sourceId: S -> string, rows: seq<S>, entryId: E -> string, entries: seq<E>, count: int) {
    && Distinct(Map(sourceId, rows)) && Distinct(Map(entryId, entries))
    && |rows| == count == |entries|
    && (forall r :: r in rows ==> Find(entryId, entries, sourceId(r)).Some?)
    && (forall e :: e in entries ==> Find(sourceId, rows, entryId(e)).Some?)
  }

  /** The checks before any row is mapped. */
  predicate Listed(source: Source, m: Manifest) {
    && m.version == 1
    && Parity(CategoryId, source.categories, EntryId, m.categories, m.categoryCount)
    && Parity(ProductId, source.products, ProductEntryId, m.products, m.productCount)
    && (forall e :: e in m.categories ==> !e.disposition.ERROR?)
    && (forall e :: e in m.products ==> !e.base.disposition.ERROR?)
  }

  predicate NoneBad<T(==), R>(fate: T -> Fate<R>, rows: seq<T>) {
    forall x :: x in rows ==> !fate(x).Bad?
  }

  /** When the mapping succeeds. */
  predicate Accepts(rules: Rules, source: Source, m: Manifest) {
    && Listed(source, m)
    && NoneBad(CategoryFates(rules, m), source.categories) && NoneBad(ProductFates(rules, source, m), source.products)
    && Distinct(CanonicalIds(CategoryRows(rules, source, m), ProductRows(rules, source, m)))
  }

  function CategoryOrder(rules: Rules): Order<Category> {
    Then(By((c: Category) => c.sortOrder, IntOrder), By(OutId, rules.locale))
  }

  function RankOf(categories: seq<Category>, id: string): int {
    var c := Find(OutId, categories, id);
    if c.Some? then c.value.sortOrder else 0
  }

  function ProductOrder(rules: Rules, categories: seq<Category>): Order<Product> {
    Then(By((p: Product) => RankOf(categories, p.categoryId), IntOrder),
         Then(By((p: Product) => p.categoryId, rules.locale),
              Then(By((p: Product) => p.sortOrder, IntOrder), By(OutProductId, rules.locale))))
  }

  function SkippedOrder(rules: Rules): Order<Skipped> {
    Then(By((s: Skipped) => if s.entity.CATEGORY? then 0 else 1, IntOrder), By(SkippedId, rules.locale))
  }

  /** The result of `mapLegacyCatalog`, or `None` where it throws. */
  function MapCatalog(rules: Rules, source: Source, m: Manifest): Option<Mapping> {
    if !Accepts(rules, source, m) then None
    else
      var categories := Sort(CategoryOrder(rules), CategoryRows(rules, source, m));
      Some(Mapping(m.source, categories,
                   Sort(ProductOrder(rules, categories), ProductRows(rules, source, m)),
                   Sort(SkippedOrder(rules), SkippedRows(rules, source, m))))
  }

  // ---- order independence --------------------------------------------------------------------

  /** Each of the three output orders is strict on its rows: no two different rows compare equal. */
  ghost predicate StrictOrders(rules: Rules, source: Source, m: Manifest) {
    && TellsApart(CategoryOrder(rules), CategoryRows(rules, source, m))
    && TellsApart(ProductOrder(rules, Sort(CategoryOrder(rules), CategoryRows(rules, source, m))), ProductRows(rules, source, m))
    && TellsApart(SkippedOrder(rules), SkippedRows(rules, source, m))
  }

  /** Within each output list, and within each entity of the skipped list, `localeCompare` tells the IDs apart. */
  ghost predicate IdsToldApart(rules: Rules, source: Source, m: Manifest) {
    && TellsApart(rules.locale, Map(OutId, CategoryRows(rules, source, m)))
    && TellsApart(rules.locale, Map(OutProductId, ProductRows(rules, source, m)))
    && TellsApart(rules.locale, Map(SkippedId, SkippedCategories(rules, source, m)))
    && TellsApart(rules.locale, Map(SkippedId, SkippedProducts(rules, source, m)))
  }

  ghost predicate Permuted(source: Source, m: Manifest, source': Source, m': Manifest) {
    && multiset(source.categories) == multiset(source'.categories) && multiset(source.products) == multiset(source'.products)
    && multiset(m.categories) == multiset(m'.categories) && multiset(m.products) == multiset(m'.products)
    && m' == m.(categories := m'.categories, products := m'.products)
  }

  lemma ParityIgnoresOrder<S(!new), E(!new)>(sourceId: S -> string, rows: seq<S>, rows': seq<S>,
                                             entryId: E -> string, entries: seq<E>, entries': seq<E>, count: int)
    requires multiset(rows) == multiset(rows') && multiset(entries) == multiset(entries')
    requires Parity(sourceId, rows, entryId, entries, count)
    ensures Parity(sourceId, rows', entryId, entries', count)
  {
    SameMembers(rows, rows');
    SameMembers(entries, entries');
    MapIgnoresOrder(sourceId, rows, rows');
    MapIgnoresOrder(entryId, entries, entries');
    DistinctIgnoresOrder(Map(sourceId, rows), Map(sourceId, rows'));
    DistinctIgnoresOrder(Map(entryId, entries), Map(entryId, entries'));
    forall r | r in rows' ensures Find(entryId, entries', sourceId(r)).Some? { FindIgnoresOrder(entryId, entries, entries', sourceId(r)); }
    forall e | e in entries' ensures Find(sourceId, rows', entryId(e)).Some? { FindIgnoresOrder(sourceId, rows, rows', entryId(e)); }
  }

  ghost predicate SameFates(rules: Rules, source: Source, m: Manifest, source': Source, m': Manifest) {
    && (forall c :: CategoryFate(rules, m.categories, c) == CategoryFate(rules, m'.categories, c))
    && (forall p :: ProductFate(rules, source, m, p) == ProductFate(rules, source', m', p))
  }

  lemma CategoryFatesIgnoreOrder(rules: Rules, entries: seq<CategoryEntry>, entries': seq<CategoryEntry>)
    requires multiset(entries) == multiset(entries') && Distinct(Map(EntryId, entries))
    ensures forall c :: CategoryFate(rules, entries, c) == CategoryFate(rules, entries', c)
  {
    forall c ensures CategoryFate(rules, entries, c) == CategoryFate(rules, entries', c) {
      FindIgnoresOrder(EntryId, entries, entries', c.id);
    }
  }

  lemma CanonicalIgnoresOrder(fate: CategorySource -> Fate<Category>, fate': CategorySource -> Fate<Category>,
                              rows: seq<CategorySource>, rows': seq<CategorySource>, id: string)
    requires multiset(rows) == multiset(rows') && Distinct(Map(CategoryId, rows)) && forall c :: fate(c) == fate'(c)
    ensures CanonicalBy(fate, rows, id) == CanonicalBy(fate', rows', id)
  {
    FindIgnoresOrder(CategoryId, rows, rows', id);
  }

  lemma ProductFateIgnoresOrder(rules: Rules, source: Source, m: Manifest, source': Source, m': Manifest, p: ProductSource)
    requires Permuted(source, m, source', m')
    requires Distinct(Map(CategoryId, source.categories)) && Distinct(Map(ProductEntryId, m.products))
    requires forall c :: CategoryFate(rules, m.categories, c) == CategoryFate(rules, m'.categories, c)
    ensures ProductFate(rules, source, m, p) == ProductFate(rules, source', m', p)
  {
    CanonicalIgnoresOrder(CategoryFates(rules, m), CategoryFates(rules, m'), source.categories, source'.categories, p.categoryId);
    FindIgnoresOrder(ProductEntryId, m.products, m'.products, p.id);
    SameEntrySameFate(rules, m.products, m'.products, CanonicalCategory(rules, source.categories, m, p.categoryId), p);
  }

  lemma SameEntrySameFate(rules: Rules, entries: seq<ProductEntry>, entries': seq<ProductEntry>, category: Option<string>, p: ProductSource)
    requires Find(ProductEntryId, entries, p.id) == Find(ProductEntryId, entries', p.id)
    ensures ProductFateIn(rules, entries, category, p) == ProductFateIn(rules, entries', category, p)
  {
  }

  lemma FatesIgnoreOrder(rules: Rules, source: Source, m: Manifest, source': Source, m': Manifest)
    requires Permuted(source, m, source', m')
    requires Distinct(Map(CategoryId, source.categories))
    requires Distinct(Map(EntryId, m.categories)) && Distinct(Map(ProductEntryId, m.products))
    ensures SameFates(rules, source, m, source', m')
  {
    CategoryFatesIgnoreOrder(rules, m.categories, m'.categories);
    forall p ensures ProductFate(rules, source, m, p) == ProductFate(rules, source', m', p) {
      ProductFateIgnoresOrder(rules, source, m, source', m', p);
    }
  }

  lemma {:induction false} CollectSame<T(!new), R(!new)>(f: T -> Option<R>, g: T -> Option<R>, s: seq<T>)
    requires forall x :: f(x) == g(x)
    ensures Collect(f, s) == Collect(g, s)
  {
    if s != [] { CollectSame(f, g, s[..|s| - 1]); }
  }

  lemma RowsIgnoreOrder(rules: Rules, source: Source, m: Manifest, source': Source, m': Manifest)
    requires Permuted(source, m, source', m') && SameFates(rules, source, m, source', m')
    ensures multiset(CategoryRows(rules, source, m)) == multiset(CategoryRows(rules, source', m'))
    ensures multiset(ProductRows(rules, source, m)) == multiset(ProductRows(rules, source', m'))
    ensures multiset(SkippedRows(rules, source, m)) == multiset(SkippedRows(rules, source', m'))
  {
    ByIgnoresOrder(CategoryFates(rules, m), CategoryFates(rules, m'), source.categories, source'.categories);
    ByIgnoresOrder(ProductFates(rules, source, m), ProductFates(rules, source', m'), source.products, source'.products);
  }

  lemma CanonicalIdsIgnoreOrder(cs: seq<Category>, ps: seq<Product>, cs': seq<Category>, ps': seq<Product>)
    requires multiset(cs) == multiset(cs') && multiset(ps) == multiset(ps')
    ensures multiset(CanonicalIds(cs, ps)) == multiset(CanonicalIds(cs', ps'))
  {
    MapIgnoresOrder(OutId, cs, cs');
    MapIgnoresOrder(OutProductId, ps, ps');
  }

  lemma AcceptsIgnoresOrder(rules: Rules, source: Source, m: Manifest, source': Source, m': Manifest)
    requires Permuted(source, m, source', m') && Accepts(rules, source, m)
    ensures Accepts(rules, source', m') && SameFates(rules, source, m, source', m')
  {
    FatesIgnoreOrder(rules, source, m, source', m');
    RowsIgnoreOrder(rules, source, m, source', m');
    ParityIgnoresOrder(CategoryId, source.categories, source'.categories, EntryId, m.categories, m'.categories, m.categoryCount);
    ParityIgnoresOrder(ProductId, source.products, source'.products, ProductEntryId, m.products, m'.products, m.productCount);
    SameMembers(source.categories, source'.categories);
    SameMembers(source.products, source'.products);
    SameMembers(m.categories, m'.categories);
    SameMembers(m.products, m'.products);
    var ids := CanonicalIds(CategoryRows(rules, source, m), ProductRows(rules, source, m));
    var ids' := CanonicalIds(CategoryRows(rules, source', m'), ProductRows(rules, source', m'));
    CanonicalIdsIgnoreOrder(CategoryRows(rules, source, m), ProductRows(rules, source, m),
                            CategoryRows(rules, source', m'), ProductRows(rules, source', m'));
    DistinctIgnoresOrder(ids, ids');
  }

  lemma KeyTells<T(!new)>(key: T -> string, s: seq<T>, x: T, y: T)
    requires Distinct(Map(key, s)) && x in s && y in s && key(x) == key(y)
    ensures x == y
  {
    FindIs(key, s, x);
    FindIs(key, s, y);
  }

  lemma DistinctParts<T>(a: seq<T>, b: seq<T>)
    requires Distinct(a + b)
    ensures Distinct(a) && Distinct(b)
  {
    assert forall i :: 0 <= i < |a| ==> (a + b)[i] == a[i];
    assert forall i :: 0 <= i < |b| ==> (a + b)[|a| + i] == b[i];
  }

  lemma OrdersArePreorders(rules: Rules, categories: seq<Category>)
    requires Preorder(rules.locale)
    ensures Preorder(CategoryOrder(rules)) && Preorder(ProductOrder(rules, categories)) && Preorder(SkippedOrder(rules))
  {
    ByIsPreorder((c: Category) => c.sortOrder, IntOrder);
    ByIsPreorder(OutId, rules.locale);
    ThenIsPreorder(By((c: Category) => c.sortOrder, IntOrder), By(OutId, rules.locale));
    var rank := By((p: Product) => RankOf(categories, p.categoryId), IntOrder);
    var group := By((p: Product) => p.categoryId, rules.locale);
    var place := By((p: Product) => p.sortOrder, IntOrder);
    var id := By(OutProductId, rules.locale);
    ByIsPreorder((p: Product) => RankOf(categories, p.categoryId), IntOrder);
    ByIsPreorder((p: Product) => p.categoryId, rules.locale);
    ByIsPreorder((p: Product) => p.sortOrder, IntOrder);
    ByIsPreorder(OutProductId, rules.locale);
    ThenIsPreorder(place, id);
    ThenIsPreorder(group, Then(place, id));
    ThenIsPreorder(rank, Then(group, Then(place, id)));
    var kind := By((s: Skipped) => if s.entity.CATEGORY? then 0 else 1, IntOrder);
    ByIsPreorder((s: Skipped) => if s.entity.CATEGORY? then 0 else 1, IntOrder);
    ByIsPreorder(SkippedId, rules.locale);
    ThenIsPreorder(kind, By(SkippedId, rules.locale));
  }

  /** An order that ends in comparing the IDs tells rows with distinct IDs apart. */
  lemma IdsDecide<T(!new)>(order: Order<T>, key: T -> string, locale: Order<string>, s: seq<T>)
    requires Distinct(Map(key, s)) && TellsApart(locale, Map(key, s))
    requires forall x, y :: order(x, y) && order(y, x) ==> locale(key(x), key(y))
    ensures TellsApart(order, s)
  {
    forall x, y | x in s && y in s && order(x, y) && order(y, x) ensures x == y {
      RowIdIsCompared(key, s, x);
      RowIdIsCompared(key, s, y);
      KeyTells(key, s, x, y);
    }
  }

  lemma SkippedToldApart(rules: Rules, source: Source, m: Manifest)
    requires Distinct(Map(CategoryId, source.categories)) && Distinct(Map(ProductId, source.products))
    requires TellsApart(rules.locale, Map(SkippedId, SkippedCategories(rules, source, m)))
    requires TellsApart(rules.locale, Map(SkippedId, SkippedProducts(rules, source, m)))
    ensures TellsApart(SkippedOrder(rules), SkippedRows(rules, source, m))
  {
    var ss := SkippedRows(rules, source, m);
    forall x, y | x in ss && y in ss && SkippedOrder(rules)(x, y) && SkippedOrder(rules)(y, x) ensures x == y {
      assert x.entity == y.entity && rules.locale(x.legacyId, y.legacyId) && rules.locale(y.legacyId, x.legacyId);
      SkippedIsCompared(rules, source, m, x);
      SkippedIsCompared(rules, source, m, y);
      SkippedOnce(rules, source, m, x, y);
    }
  }

  lemma SkippedIsCompared(rules: Rules, source: Source, m: Manifest, x: Skipped)
    requires x in SkippedRows(rules, source, m)
    ensures x.entity.CATEGORY? ==> x in SkippedCategories(rules, source, m) && x.legacyId in Map(SkippedId, SkippedCategories(rules, source, m))
    ensures x.entity.PRODUCT? ==> x in SkippedProducts(rules, source, m) && x.legacyId in Map(SkippedId, SkippedProducts(rules, source, m))
  {
    if x in SkippedCategories(rules, source, m) {
      var c := CategoryLeft(rules, source, m, x);
      RowIdIsCompared(SkippedId, SkippedCategories(rules, source, m), x);
    } else {
      var p := ProductLeft(rules, source, m, x);
      RowIdIsCompared(SkippedId, SkippedProducts(rules, source, m), x);
    }
  }

  /** If `localeCompare` tells the IDs of each list apart, the three output orders are strict total orders on their rows. */
  lemma OrdersTellRowsApart(rules: Rules, source: Source, m: Manifest)
    requires Accepts(rules, source, m) && IdsToldApart(rules, source, m)
    ensures StrictOrders(rules, source, m)
  {
    var cs, ps := CategoryRows(rules, source, m), ProductRows(rules, source, m);
    DistinctParts(Map(OutId, cs), Map(OutProductId, ps));
    IdsDecide(CategoryOrder(rules), OutId, rules.locale, cs);
    IdsDecide(ProductOrder(rules, Sort(CategoryOrder(rules), cs)), OutProductId, rules.locale, ps);
    SkippedToldApart(rules, source, m);
  }

  lemma RowIdIsCompared<T>(key: T -> string, s: seq<T>, x: T)
    requires x in s
    ensures key(x) in Map(key, s)
  {
    var i :| 0 <= i < |s| && s[i] == x;
    assert Map(key, s)[i] == key(x);
  }

  lemma SkippedOnce(rules: Rules, source: Source, m: Manifest, x: Skipped, y: Skipped)
    requires Distinct(Map(CategoryId, source.categories)) && Distinct(Map(ProductId, source.products))
    requires x in SkippedRows(rules, source, m) && y in SkippedRows(rules, source, m)
    requires x.entity == y.entity && x.legacyId == y.legacyId
    ensures x == y
  {
    if x.entity.CATEGORY? {
      var a := CategoryOfSkipped(rules, source, m, x);
      var b := CategoryOfSkipped(rules, source, m, y);
      KeyTells(CategoryId, source.categories, a, b);
    } else {
      var a := ProductOfSkipped(rules, source, m, x);
      var b := ProductOfSkipped(rules, source, m, y);
      KeyTells(ProductId, source.products, a, b);
    }
  }

  lemma CategoryLeft(rules: Rules, source: Source, m: Manifest, x: Skipped) returns (c: CategorySource)
    requires x in SkippedCategories(rules, source, m)
    ensures c in source.categories && c.id == x.legacyId && CategoryFate(rules, m.categories, c) == Skip(x) && x.entity.CATEGORY?
  {
    LeftMembers(CategoryFates(rules, m), source.categories);
    c :| c in source.categories && CategoryFates(rules, m)(c) == Skip(x);
  }

  lemma ProductLeft(rules: Rules, source: Source, m: Manifest, x: Skipped) returns (p: ProductSource)
    requires x in SkippedProducts(rules, source, m)
    ensures p in source.products && p.id == x.legacyId && ProductFate(rules, source, m, p) == Skip(x) && x.entity.PRODUCT?
  {
    LeftMembers(ProductFates(rules, source, m), source.products);
    p :| p in source.products && ProductFates(rules, source, m)(p) == Skip(x);
  }

  lemma CategoryOfSkipped(rules: Rules, source: Source, m: Manifest, x: Skipped) returns (c: CategorySource)
    requires x in SkippedRows(rules, source, m) && x.entity.CATEGORY?
    ensures c in source.categories && c.id == x.legacyId && CategoryFate(rules, m.categories, c) == Skip(x)
  {
    if x in SkippedProducts(rules, source, m) { var p := ProductLeft(rules, source, m, x); }
    c := CategoryLeft(rules, source, m, x);
  }

  lemma ProductOfSkipped(rules: Rules, source: Source, m: Manifest, x: Skipped) returns (p: ProductSource)
    requires x in SkippedRows(rules, source, m) && x.entity.PRODUCT?
    ensures p in source.products && p.id == x.legacyId && ProductFate(rules, source, m, p) == Skip(x)
  {
    if x in SkippedCategories(rules, source, m) { var c := CategoryLeft(rules, source, m, x); }
    p := ProductLeft(rules, source, m, x);
  }

  /** Neither success nor the result depends on the order of source rows or manifest entries, if the orders are strict. */
  lemma OrderIndependence(rules: Rules, source: Source, m: Manifest, source': Source, m': Manifest)
    requires Permuted(source, m, source', m') && Preorder(rules.locale)
    requires Accepts(rules, source, m) ==> StrictOrders(rules, source, m)
    ensures MapCatalog(rules, source', m') == MapCatalog(rules, source, m)
  {
    if Accepts(rules, source, m) {
      AcceptsIgnoresOrder(rules, source, m, source', m');
      RowsIgnoreOrder(rules, source, m, source', m');
      var categories := Sort(CategoryOrder(rules), CategoryRows(rules, source, m));
      OrdersArePreorders(rules, categories);
      SortIgnoresOrder(CategoryOrder(rules), CategoryRows(rules, source, m), CategoryRows(rules, source', m'));
      SortIgnoresOrder(ProductOrder(rules, categories), ProductRows(rules, source, m), ProductRows(rules, source', m'));
      SortIgnoresOrder(SkippedOrder(rules), SkippedRows(rules, source, m), SkippedRows(rules, source', m'));
    } else if Accepts(rules, source', m') {
      AcceptsIgnoresOrder(rules, source', m', source, m);
    }
  }

  // ---- conservation --------------------------------------------------------------------------

  datatype Tag = Tag(entity: Entity, legacyId: string)

  const CategoryTag := (c: CategorySource) => Tag(CATEGORY, c.id)
  const ProductTag := (p: ProductSource) => Tag(PRODUCT, p.id)
  const OutTag := (c: Category) => Tag(CATEGORY, c.legacyId)
  const OutProductTag := (p: Product) => Tag(PRODUCT, p.legacyId)
  const SkippedTag := (s: Skipped) => Tag(s.entity, s.legacyId)

  function SourceTags(source: Source): seq<Tag> {
    Map(CategoryTag, source.categories) + Map(ProductTag, source.products)
  }

  function ResultTags(r: Mapping): seq<Tag> {
    Map(OutTag, r.categories) + Map(OutProductTag, r.products) + Map(SkippedTag, r.skipped)
  }

  /** If each element is either kept or left, under its own tag, no tag is lost and none gained. */
  lemma {:induction false} Partition<T(!new), R(!new)>(tag: T -> Tag, kept: T -> Option<R>, keptTag: R -> Tag,
                                                       left: T -> Option<Skipped>, s: seq<T>)
    requires forall x :: x in s ==> kept(x).Some? != left(x).Some?
    requires forall x :: x in s && kept(x).Some? ==> keptTag(kept(x).value) == tag(x)
    requires forall x :: x in s && left(x).Some? ==> SkippedTag(left(x).value) == tag(x)
    ensures multiset(Map(keptTag, Collect(kept, s))) + multiset(Map(SkippedTag, Collect(left, s))) == multiset(Map(tag, s))
  {
    if s != [] {
      var init, last := s[..|s| - 1], s[|s| - 1];
      Partition(tag, kept, keptTag, left, init);
      MapLast(tag, s);
      MapAppend(keptTag, Collect(kept, init), if kept(last).Some? then [kept(last).value] else []);
      MapAppend(SkippedTag, Collect(left, init), if left(last).Some? then [left(last).value] else []);
      MapGives(keptTag, kept(last));
      MapGives(SkippedTag, left(last));
    }
  }

  lemma PartitionBy<T(!new), R(!new)>(tag: T -> Tag, fate: T -> Fate<R>, keptTag: R -> Tag, rows: seq<T>)
    requires forall x :: x in rows ==> match fate(x)
                                       case Row(y) => keptTag(y) == tag(x)
                                       case Skip(y) => SkippedTag(y) == tag(x)
                                       case Bad => false
    ensures multiset(Map(keptTag, KeptBy(fate, rows))) + multiset(Map(SkippedTag, LeftBy(fate, rows))) == multiset(Map(tag, rows))
  {
    Partition(tag, (x: T) => Kept(fate(x)), keptTag, (x: T) => Left(fate(x)), rows);
  }

  lemma MapGives<R(!new)>(tag: R -> Tag, y: Option<R>)
    ensures Map(tag, if y.Some? then [y.value] else []) == if y.Some? then [tag(y.value)] else []
  {
  }

  lemma MapAppend<T, R>(f: T -> R, a: seq<T>, b: seq<T>)
    ensures Map(f, a + b) == Map(f, a) + Map(f, b)
  {
  }

  lemma SourceTagsDistinct(source: Source)
    requires Distinct(Map(CategoryId, source.categories)) && Distinct(Map(ProductId, source.products))
    ensures Distinct(SourceTags(source))
  {
    var tags, n := SourceTags(source), |source.categories|;
    forall i, j | 0 <= i < j < |tags| ensures tags[i] != tags[j] {
      if j < n {
        assert Map(CategoryId, source.categories)[i] != Map(CategoryId, source.categories)[j];
      } else if n <= i {
        assert Map(ProductId, source.products)[i - n] != Map(ProductId, source.products)[j - n];
      }
    }
  }

  lemma SortedTags(rules: Rules, source: Source, m: Manifest, r: Mapping)
    requires Preorder(rules.locale) && MapCatalog(rules, source, m) == Some(r)
    ensures multiset(r.categories) == multiset(CategoryRows(rules, source, m)) && Sorted(CategoryOrder(rules), r.categories)
    ensures multiset(r.products) == multiset(ProductRows(rules, source, m)) && Sorted(ProductOrder(rules, r.categories), r.products)
    ensures multiset(r.skipped) == multiset(SkippedRows(rules, source, m))
  {
    OrdersArePreorders(rules, r.categories);
    SortSorts(CategoryOrder(rules), CategoryRows(rules, source, m));
    SortSorts(ProductOrder(rules, r.categories), ProductRows(rules, source, m));
    SortSorts(SkippedOrder(rules), SkippedRows(rules, source, m));
  }

  lemma CategoriesPartition(rules: Rules, source: Source, m: Manifest)
    requires NoneBad(CategoryFates(rules, m), source.categories)
    ensures multiset(Map(OutTag, CategoryRows(rules, source, m))) + multiset(Map(SkippedTag, SkippedCategories(rules, source, m)))
         == multiset(Map(CategoryTag, source.categories))
  {
    PartitionBy(CategoryTag, CategoryFates(rules, m), OutTag, source.categories);
  }

  lemma ProductsPartition(rules: Rules, source: Source, m: Manifest)
    requires NoneBad(ProductFates(rules, source, m), source.products)
    ensures multiset(Map(OutProductTag, ProductRows(rules, source, m))) + multiset(Map(SkippedTag, SkippedProducts(rules, source, m)))
         == multiset(Map(ProductTag, source.products))
  {
    PartitionBy(ProductTag, ProductFates(rules, source, m), OutProductTag, source.products);
  }

  /** Every source row is in the output or in the skipped list, in exactly one place, and nothing else is. */
  lemma EverySourceRowOnce(rules: Rules, source: Source, m: Manifest, r: Mapping)
    requires Preorder(rules.locale) && MapCatalog(rules, source, m) == Some(r)
    ensures multiset(ResultTags(r)) == multiset(SourceTags(source))
    ensures Distinct(ResultTags(r))
  {
    CategoriesPartition(rules, source, m);
    ProductsPartition(rules, source, m);
    SortedTags(rules, source, m, r);
    SourceTagsDistinct(source);
    TagsOfParts(r, CategoryRows(rules, source, m), ProductRows(rules, source, m),
                SkippedCategories(rules, source, m), SkippedProducts(rules, source, m));
    DistinctIgnoresOrder(SourceTags(source), ResultTags(r));
  }

  lemma TagsOfParts(r: Mapping, cs: seq<Category>, ps: seq<Product>, a: seq<Skipped>, b: seq<Skipped>)
    requires multiset(r.categories) == multiset(cs) && multiset(r.products) == multiset(ps) && multiset(r.skipped) == multiset(a + b)
    ensures multiset(ResultTags(r)) == multiset(Map(OutTag, cs)) + multiset(Map(SkippedTag, a))
                                     + (multiset(Map(OutProductTag, ps)) + multiset(Map(SkippedTag, b)))
  {
    MapIgnoresOrder(OutTag, r.categories, cs);
    MapIgnoresOrder(OutProductTag, r.products, ps);
    MapIgnoresOrder(SkippedTag, r.skipped, a + b);
    MapAppend(SkippedTag, a, b);
  }

  lemma {:induction false} DistinctOfSameMembers(a: seq<string>, b: seq<string>)
    requires Distinct(a) && Distinct(b) && forall x :: x in a <==> x in b
    ensures multiset(a) == multiset(b)
  {
    DistinctIsMultiplicity(a);
    DistinctIsMultiplicity(b);
    forall x ensures multiset(a)[x] == multiset(b)[x] {
      assert x in a <==> x in multiset(a);
      assert x in b <==> x in multiset(b);
    }
  }

  lemma ParityIsBijection<S(!new), E(!new)>(sourceId: S -> string, rows: seq<S>, entryId: E -> string, entries: seq<E>, count: int)
    requires Parity(sourceId, rows, entryId, entries, count)
    ensures multiset(Map(sourceId, rows)) == multiset(Map(entryId, entries))
  {
    var a, b := Map(sourceId, rows), Map(entryId, entries);
    forall x | x in a ensures x in b {
      var i :| 0 <= i < |a| && a[i] == x;
      assert rows[i] in rows;
      RowIdIsCompared(entryId, entries, Find(entryId, entries, x).value);
    }
    forall x | x in b ensures x in a {
      var i :| 0 <= i < |b| && b[i] == x;
      assert entries[i] in entries;
      RowIdIsCompared(sourceId, rows, Find(sourceId, rows, x).value);
    }
    DistinctOfSameMembers(a, b);
  }

  /** On success the manifest and the source list the same IDs, none twice, and canonical IDs are pairwise distinct. */
  lemma IdentityIntegrity(rules: Rules, source: Source, m: Manifest, r: Mapping)
    requires Preorder(rules.locale) && MapCatalog(rules, source, m) == Some(r)
    ensures multiset(Map(CategoryId, source.categories)) == multiset(Map(EntryId, m.categories))
    ensures multiset(Map(ProductId, source.products)) == multiset(Map(ProductEntryId, m.products))
    ensures Distinct(Map(EntryId, m.categories)) && Distinct(Map(ProductEntryId, m.products))
    ensures Distinct(CanonicalIds(r.categories, r.products))
  {
    ParityIsBijection(CategoryId, source.categories, EntryId, m.categories, m.categoryCount);
    ParityIsBijection(ProductId, source.products, ProductEntryId, m.products, m.productCount);
    SortedTags(rules, source, m, r);
    var cs, ps := CategoryRows(rules, source, m), ProductRows(rules, source, m);
    CanonicalIdsIgnoreOrder(r.categories, r.products, cs, ps);
    DistinctIgnoresOrder(CanonicalIds(r.categories, r.products), CanonicalIds(cs, ps));
  }

  lemma RowOfProduct(rules: Rules, source: Source, m: Manifest, p: Product) returns (row: ProductSource)
    requires p in ProductRows(rules, source, m)
    ensures row in source.products && ProductFate(rules, source, m, row) == Row(p) && row.id == p.legacyId
    ensures CanonicalCategory(rules, source.categories, m, row.categoryId) == Some(p.categoryId)
  {
    KeptMembers(ProductFates(rules, source, m), source.products);
    row :| row in source.products && ProductFates(rules, source, m)(row) == Row(p);
  }

  lemma CategoryOfId(rules: Rules, source: Source, m: Manifest, id: string) returns (c: Category)
    requires CanonicalCategory(rules, source.categories, m, id).Some?
    ensures c in CategoryRows(rules, source, m) && c.legacyId == id
    ensures CanonicalCategory(rules, source.categories, m, id) == Some(c.id)
  {
    var home := Find(CategoryId, source.categories, id).value;
    KeptMembers(CategoryFates(rules, m), source.categories);
    c := CategoryFate(rules, m.categories, home).out;
    assert CategoryFates(rules, m)(home) == Row(c);
  }

  /** The category of every product in the output is in the output: it is its source category, mapped. */
  lemma ProductsHaveTheirCategory(rules: Rules, source: Source, m: Manifest, r: Mapping, p: Product)
    returns (row: ProductSource, a: nat)
    requires Preorder(rules.locale) && MapCatalog(rules, source, m) == Some(r) && p in r.products
    ensures row in source.products && row.id == p.legacyId
    ensures a < |r.categories| && r.categories[a].legacyId == row.categoryId && r.categories[a].id == p.categoryId
  {
    SortedTags(rules, source, m, r);
    row, a := CategoryAmong(rules, source, m, r.categories, r.products, p);
  }

  lemma CategoryAmong(rules: Rules, source: Source, m: Manifest, categories: seq<Category>, products: seq<Product>, p: Product)
    returns (row: ProductSource, a: nat)
    requires multiset(categories) == multiset(CategoryRows(rules, source, m))
    requires multiset(products) == multiset(ProductRows(rules, source, m)) && p in products
    ensures row in source.products && row.id == p.legacyId
    ensures a < |categories| && categories[a].legacyId == row.categoryId && categories[a].id == p.categoryId
  {
    SameMembers(products, ProductRows(rules, source, m));
    SameMembers(categories, CategoryRows(rules, source, m));
    row := RowOfProduct(rules, source, m, p);
    var c := CategoryOfId(rules, source, m, row.categoryId);
    a :| 0 <= a < |categories| && categories[a] == c;
  }

  /** Products sorted after their categories, on the facts that matter. */
  lemma GroupsInOrder(rules: Rules, categories: seq<Category>, p: Product, q: Product, a: nat, b: nat)
    requires Distinct(Map(OutId, categories)) && TellsApart(CategoryOrder(rules), categories)
    requires Sorted(CategoryOrder(rules), categories) && ProductOrder(rules, categories)(p, q)
    requires a < |categories| && b < |categories| && p.categoryId == categories[a].id && q.categoryId == categories[b].id
    ensures a <= b
  {
    var c, d, ids := categories[a], categories[b], Map(OutId, categories);
    assert c in categories && d in categories && ids[a] == c.id && ids[b] == d.id;
    assert forall x, y :: 0 <= x < y < |categories| ==> CategoryOrder(rules)(categories[x], categories[y]);
    FindIs(OutId, categories, c);
    FindIs(OutId, categories, d);
    assert RankOf(categories, c.id) == c.sortOrder && RankOf(categories, d.id) == d.sortOrder;
  }

  /** Products come in groups by category, in the order of the category list. */
  lemma ProductsFollowCategories(rules: Rules, source: Source, m: Manifest, r: Mapping)
    requires Preorder(rules.locale) && TellsApart(CategoryOrder(rules), CategoryRows(rules, source, m))
    requires MapCatalog(rules, source, m) == Some(r)
    ensures FollowsCategories(r)
  {
    SortedTags(rules, source, m, r);
    IdentityIntegrity(rules, source, m, r);
    DistinctParts(Map(OutId, r.categories), Map(OutProductId, r.products));
    SameMembers(r.categories, CategoryRows(rules, source, m));
    AllGroupsInOrder(rules, r);
  }

  lemma AllGroupsInOrder(rules: Rules, r: Mapping)
    requires Distinct(Map(OutId, r.categories)) && TellsApart(CategoryOrder(rules), r.categories)
    requires Sorted(CategoryOrder(rules), r.categories) && Sorted(ProductOrder(rules, r.categories), r.products)
    ensures FollowsCategories(r)
  {
    forall i, j, a, b | 0 <= i < j < |r.products| && InCategory(r, i, a) && InCategory(r, j, b) ensures a <= b {
      GroupsInOrder(rules, r.categories, r.products[i], r.products[j], a, b);
    }
  }

  /** Product `i` of the output belongs to category `a` of the output. */
  ghost predicate InCategory(r: Mapping, i: int, a: int) {
    0 <= i < |r.products| && 0 <= a < |r.categories| && r.products[i].categoryId == r.categories[a].id
  }

  ghost predicate FollowsCategories(r: Mapping) {
    forall i, j, a, b :: 0 <= i < j < |r.products| && InCategory(r, i, a) && InCategory(r, j, b) ==> a <= b
  }

  ghost predicate HasCategory(r: Mapping, i: int) {
    exists a :: InCategory(r, i, a)
  }

  ghost predicate CategoriesListed(r: Mapping) {
    forall i :: 0 <= i < |r.products| ==> HasCategory(r, i)
  }

  predicate SameCategory(r: Mapping, i: int, j: int) {
    0 <= i < |r.products| && 0 <= j < |r.products| && r.products[i].categoryId == r.products[j].categoryId
  }

  ghost predicate Contiguous(r: Mapping) {
    forall i, k, j :: i < k < j && SameCategory(r, i, j) ==> SameCategory(r, i, k)
  }

  lemma FollowingIsContiguous(r: Mapping)
    requires FollowsCategories(r) && CategoriesListed(r)
    ensures Contiguous(r)
  {
    forall i, k, j | i < k < j && SameCategory(r, i, j) ensures SameCategory(r, i, k) {
      assert HasCategory(r, i) && HasCategory(r, k);
      var a :| InCategory(r, i, a);
      var b :| InCategory(r, k, b);
      assert InCategory(r, j, a);
    }
  }

  lemma AllCategoriesListed(rules: Rules, source: Source, m: Manifest, r: Mapping)
    requires Preorder(rules.locale) && MapCatalog(rules, source, m) == Some(r)
    ensures CategoriesListed(r)
  {
    forall i | 0 <= i < |r.products| ensures HasCategory(r, i) {
      CategoryIsListed(rules, source, m, r, i);
    }
  }

  lemma CategoryIsListed(rules: Rules, source: Source, m: Manifest, r: Mapping, i: nat)
    requires Preorder(rules.locale) && MapCatalog(rules, source, m) == Some(r) && i < |r.products|
    ensures HasCategory(r, i)
  {
    var row, a := ProductsHaveTheirCategory(rules, source, m, r, r.products[i]);
    assert InCategory(r, i, a);
  }

  /** The groups are contiguous, and come in the order of the category list. */
  lemma ProductsAreGrouped(rules: Rules, source: Source, m: Manifest, r: Mapping)
    requires Preorder(rules.locale) && TellsApart(CategoryOrder(rules), CategoryRows(rules, source, m))
    requires MapCatalog(rules, source, m) == Some(r)
    ensures Contiguous(r) && FollowsCategories(r)
  {
    AllCategoriesListed(rules, source, m, r);
    ProductsFollowCategories(rules, source, m, r);
    FollowingIsContiguous(r);
  }

  // ---- products of skipped categories --------------------------------------------------------

  predicate InSkippedCategory(m: Manifest, p: ProductSource) {
    var entry := Find(EntryId, m.categories, p.categoryId);
    entry.Some? && entry.value.disposition.SKIP_INTENTIONALLY?
  }

  /** The product is skipped itself, and its entry names its category. */
  predicate SkippedItself(m: Manifest, p: ProductSource) {
    var entry := Find(ProductEntryId, m.products, p.id);
    entry.Some? && entry.value.categoryLegacyId == p.categoryId && entry.value.base.disposition.SKIP_INTENTIONALLY?
  }

  /** The fate of a product if a skipped product of a skipped category were skipped. */
  function FateIfSkippedFirst(rules: Rules, source: Source, m: Manifest, p: ProductSource): Fate<Product> {
    if InSkippedCategory(m, p) && SkippedItself(m, p) then
      var reason := Find(ProductEntryId, m.products, p.id).value.base.reason;
      if Given(reason) then Skip(Skipped(PRODUCT, p.id, reason.value)) else Bad
    else ProductFate(rules, source, m, p)
  }

  /** When the mapping would succeed if it skipped such products; it would keep the same rows. */
  ghost predicate AcceptsIfSkippedFirst(rules: Rules, source: Source, m: Manifest) {
    && Listed(source, m) && NoneBad(CategoryFates(rules, m), source.categories)
    && (forall p :: p in source.products ==> !FateIfSkippedFirst(rules, source, m, p).Bad?)
    && Distinct(CanonicalIds(CategoryRows(rules, source, m), ProductRows(rules, source, m)))
  }

  lemma MappedIsNotInSkippedCategory(rules: Rules, source: Source, m: Manifest, p: ProductSource)
    requires !ProductFate(rules, source, m, p).Bad?
    ensures !InSkippedCategory(m, p)
  {
    var home := Find(CategoryId, source.categories, p.categoryId);
    assert home.Some? && CategoryFates(rules, m)(home.value).Row?;
  }

  /**
    A product of a skipped category makes the mapping fail, also when it is skipped itself: the
    mapping succeeds if and only if it would with such products skipped, and no product is in a
    skipped category.
   */
  lemma SkippedCategoryExactly(rules: Rules, source: Source, m: Manifest)
    ensures MapCatalog(rules, source, m).Some?
       <==> AcceptsIfSkippedFirst(rules, source, m) && forall p :: p in source.products ==> !InSkippedCategory(m, p)
  {
    var fate := ProductFates(rules, source, m);
    forall p | p in source.products
      ensures !fate(p).Bad? <==> !FateIfSkippedFirst(rules, source, m, p).Bad? && !InSkippedCategory(m, p)
    {
      if !fate(p).Bad? { MappedIsNotInSkippedCategory(rules, source, m, p); }
    }
  }

  /** One category and its one product, both to be skipped, each with a reason. */
  function SkippedTogether(): (Source, Manifest) {
    (Source([CategorySource("c", "Old", "old", None, 0, true)], [ProductSource("p", "c", "Old", "", Some(100), false, true, 0)]),
     Manifest(1, "legacy", 1, 1, [CategoryEntry("c", SKIP_INTENTIONALLY, None, Some("old"))],
              [ProductEntry(CategoryEntry("p", SKIP_INTENTIONALLY, None, Some("old")), "c", NO_SOURCE_IMAGE, None)]))
  }

  lemma FindOnly<T>(key: T -> string, x: T)
    ensures Find(key, [x], key(x)) == Some(x)
  {
  }

  lemma ParityOfOne<S(!new), E(!new)>(sourceId: S -> string, row: S, entryId: E -> string, entry: E)
    requires sourceId(row) == entryId(entry)
    ensures Parity(sourceId, [row], entryId, [entry], 1)
  {
    FindOnly(sourceId, row);
    FindOnly(entryId, entry);
  }

  lemma SkippedTogetherIsListed()
    ensures var (source, m) := SkippedTogether(); Listed(source, m)
  {
    var (source, m) := SkippedTogether();
    ParityOfOne(CategoryId, source.categories[0], EntryId, m.categories[0]);
    ParityOfOne(ProductId, source.products[0], ProductEntryId, m.products[0]);
  }

  lemma SkippedTogetherFates(rules: Rules)
    ensures
      var (source, m) := SkippedTogether();
      var (c, p) := (source.categories[0], source.products[0]);
      && CategoryFate(rules, m.categories, c) == Skip(Skipped(CATEGORY, "c", "old"))
      && InSkippedCategory(m, p) && SkippedItself(m, p) && ProductFate(rules, source, m, p).Bad?
      && FateIfSkippedFirst(rules, source, m, p) == Skip(Skipped(PRODUCT, "p", "old"))
  {
    var (source, m) := SkippedTogether();
    FindOnly(EntryId, m.categories[0]);
    FindOnly(ProductEntryId, m.products[0]);
    TrimmedStays("old");
    if !ProductFate(rules, source, m, source.products[0]).Bad? { MappedIsNotInSkippedCategory(rules, source, m, source.products[0]); }
  }

  lemma SkippedTogetherIsInOrder(rules: Rules)
    ensures var (source, m) := SkippedTogether(); AcceptsIfSkippedFirst(rules, source, m)
  {
    var (source, m) := SkippedTogether();
    SkippedTogetherIsListed();
    SkippedTogetherFates(rules);
    KeptNone(CategoryFates(rules, m), source.categories);
    KeptNone(ProductFates(rules, source, m), source.products);
  }

  /** The mapping fails on them. */
  lemma SkippedTogetherFails(rules: Rules)
    ensures
      var (source, m) := SkippedTogether();
      && (forall p :: p in source.products ==> InSkippedCategory(m, p) && SkippedItself(m, p))
      && AcceptsIfSkippedFirst(rules, source, m) && MapCatalog(rules, source, m) == None
  {
    var (source, m) := SkippedTogether();
    SkippedTogetherIsInOrder(rules);
    SkippedTogetherFates(rules);
    SkippedCategoryExactly(rules, source, m);
    assert source.products[0] in source.products;
  }

  lemma {:induction false} KeptNone<T(!new), R(!new)>(fate: T -> Fate<R>, rows: seq<T>)
    requires forall x :: x in rows ==> !fate(x).Row?
    ensures KeptBy(fate, rows) == []
  {
    if rows != [] { KeptNone(fate, rows[..|rows| - 1]); }
  }

  // ---- the script ----------------------------------------------------------------------------

  /** The checks on one entity's source rows and manifest entries, apart from duplicates and counts. */
  method CheckListed<S(==), E(==)>(sourceId: S -> string, rows: seq<S>, entryId: E -> string, isError: E -> bool, entries: seq<E>)
    returns (ok: bool)
    ensures ok ==> forall r :: r in rows ==> Find(entryId, entries, sourceId(r)).Some?
    ensures ok ==> forall e :: e in entries ==> Find(sourceId, rows, entryId(e)).Some? && !isError(e)
    ensures !ok ==> ((exists r :: r in rows && Find(entryId, entries, sourceId(r)).None?)
                     || (exists e :: e in entries && (Find(sourceId, rows, entryId(e)).None? || isError(e))))
  {
    for i := 0 to |rows|
      invariant forall k :: 0 <= k < i ==> Find(entryId, entries, sourceId(rows[k])).Some?
    {
      if Find(entryId, entries, sourceId(rows[i])).None? { return false; }
    }
    for i := 0 to |entries|
      invariant forall k :: 0 <= k < i ==> Find(sourceId, rows, entryId(entries[k])).Some? && !isError(entries[k])
    {
      if Find(sourceId, rows, entryId(entries[i])).None? || isError(entries[i]) { return false; }
    }
    ok := true;
  }

  method CheckSource(source: Source, m: Manifest) returns (ok: bool)
    ensures ok <==> Listed(source, m)
  {
    if m.version != 1 { return false; }
    ok := CheckDistinct(Map(CategoryId, source.categories));
    if !ok { return; }
    ok := CheckDistinct(Map(ProductId, source.products));
    if !ok { return; }
    ok := CheckDistinct(Map(EntryId, m.categories));
    if !ok { return; }
    ok := CheckDistinct(Map(ProductEntryId, m.products));
    if !ok { return; }
    if |source.categories| != m.categoryCount || |source.products| != m.productCount { return false; }
    if |m.categories| != m.categoryCount || |m.products| != m.productCount { return false; }
    ok := CheckListed(CategoryId, source.categories, EntryId, (e: CategoryEntry) => e.disposition.ERROR?, m.categories);
    if !ok { return; }
    ok := CheckListed(ProductId, source.products, ProductEntryId, (e: ProductEntry) => e.base.disposition.ERROR?, m.products);
  }

  method MapLegacyCatalog(rules: Rules, source: Source, m: Manifest) returns (r: Option<Mapping>)
    ensures r == MapCatalog(rules, source, m)
  {
    var ok := CheckSource(source, m);
    if !ok { return None; }
    var categories, products, ids, skipped;
    ok, categories, ids, skipped := MapCategories(CategoryFates(rules, m), source.categories);
    if !ok { return None; }
    SameProductFates(rules, source, m, ids);
    ok, products, skipped := MapProducts(ProductFatesBy(rules, m, ids), source.products, skipped);
    if !ok { return None; }
    ok := CheckDistinct(CanonicalIds(categories, products));
    if !ok { return None; }
    categories := Sort(CategoryOrder(rules), categories);
    r := Some(Mapping(m.source, categories, Sort(ProductOrder(rules, categories), products), Sort(SkippedOrder(rules), skipped)));
  }

  /** The map from legacy to canonical category IDs, as the given rows fill it. */
  ghost predicate IdsOf(fate: CategorySource -> Fate<Category>, rows: seq<CategorySource>, ids: map<string, string>) {
    forall id :: Lookup(ids, id) == CanonicalBy(fate, rows, id)
  }

  /** What a loop over rows has pushed after the first `i` of them, none of which is an error. */
  ghost predicate Pushed<T, R>(fate: T -> Fate<R>, rows: seq<T>, i: nat, kept: seq<R>, before: seq<Skipped>, left: seq<Skipped>)
    requires i <= |rows|
  {
    && (forall k :: 0 <= k < i ==> !fate(rows[k]).Bad?)
    && kept == KeptBy(fate, rows[..i]) && left == before + LeftBy(fate, rows[..i])
  }

  lemma PushNext<T(!new), R(!new)>(fate: T -> Fate<R>, rows: seq<T>, i: nat, kept: seq<R>, before: seq<Skipped>, left: seq<Skipped>)
    requires i < |rows| && Pushed(fate, rows, i, kept, before, left) && !fate(rows[i]).Bad?
    ensures fate(rows[i]).Row? ==> Pushed(fate, rows, i + 1, kept + [fate(rows[i]).out], before, left)
    ensures fate(rows[i]).Skip? ==> Pushed(fate, rows, i + 1, kept, before, left + [fate(rows[i]).skipped])
  {
    CollectStep((x: T) => Kept(fate(x)), rows, i);
    CollectStep((x: T) => Left(fate(x)), rows, i);
  }

  lemma PushedAll<T(!new), R(!new)>(fate: T -> Fate<R>, rows: seq<T>, kept: seq<R>, before: seq<Skipped>, left: seq<Skipped>)
    requires Pushed(fate, rows, |rows|, kept, before, left)
    ensures kept == KeptBy(fate, rows) && left == before + LeftBy(fate, rows) && NoneBad(fate, rows)
  {
    assert rows[..|rows|] == rows;
  }

  lemma IdsNext(fate: CategorySource -> Fate<Category>, rows: seq<CategorySource>, i: nat, ids: map<string, string>)
    requires Distinct(Map(CategoryId, rows)) && i < |rows| && IdsOf(fate, rows[..i], ids)
    ensures IdsOf(fate, rows[..i + 1], if fate(rows[i]).Row? then ids[rows[i].id := fate(rows[i]).out.id] else ids)
  {
    assert rows[..i + 1][..i] == rows[..i];
    NotBefore(CategoryId, rows, i);
    var ids' := if fate(rows[i]).Row? then ids[rows[i].id := fate(rows[i]).out.id] else ids;
    forall id ensures Lookup(ids', id) == CanonicalBy(fate, rows[..i + 1], id) {
      assert Lookup(ids, id) == CanonicalBy(fate, rows[..i], id);
    }
  }

  lemma NotBefore<T>(key: T -> string, s: seq<T>, i: nat)
    requires Distinct(Map(key, s)) && i < |s|
    ensures Find(key, s[..i], key(s[i])).None?
  {
    forall k | 0 <= k < i ensures key(s[..i][k]) != key(s[i]) { assert Map(key, s)[k] != Map(key, s)[i]; }
  }

  /** The category loop: what becomes of each row, and the map of the canonical IDs of the kept ones. */
  method MapCategories(fate: CategorySource -> Fate<Category>, rows: seq<CategorySource>)
    returns (ok: bool, kept: seq<Category>, ids: map<string, string>, left: seq<Skipped>)
    requires Distinct(Map(CategoryId, rows))
    ensures ok <==> NoneBad(fate, rows)
    ensures ok ==> kept == KeptBy(fate, rows) && left == LeftBy(fate, rows) && IdsOf(fate, rows, ids)
  {
    kept, ids, left := [], map[], [];
    for i := 0 to |rows|
      invariant Pushed(fate, rows, i, kept, [], left)
      invariant IdsOf(fate, rows[..i], ids)
    {
      var row := rows[i];
      if fate(row).Bad? { return false, kept, ids, left; }
      PushNext(fate, rows, i, kept, [], left);
      IdsNext(fate, rows, i, ids);
      if fate(row).Skip? {
        left := left + [fate(row).skipped];
      } else {
        ids := ids[row.id := fate(row).out.id];
        kept := kept + [fate(row).out];
      }
    }
    PushedAll(fate, rows, kept, [], left);
    assert rows[..|rows|] == rows;
    ok := true;
  }

  /** The fate of a product when its category is looked up in the map that the category loop filled. */
  function ProductFatesBy(rules: Rules, m: Manifest, ids: map<string, string>): ProductSource -> Fate<Product> {
    (p: ProductSource) => ProductFateIn(rules, m.products, Lookup(ids, p.categoryId), p)
  }

  lemma SameProductFates(rules: Rules, source: Source, m: Manifest, ids: map<string, string>)
    requires IdsOf(CategoryFates(rules, m), source.categories, ids)
    ensures KeptBy(ProductFatesBy(rules, m, ids), source.products) == ProductRows(rules, source, m)
    ensures LeftBy(ProductFatesBy(rules, m, ids), source.products) == SkippedProducts(rules, source, m)
    ensures NoneBad(ProductFatesBy(rules, m, ids), source.products) <==> NoneBad(ProductFates(rules, source, m), source.products)
  {
    var looked, fate := ProductFatesBy(rules, m, ids), ProductFates(rules, source, m);
    forall p ensures looked(p) == fate(p) {
      assert Lookup(ids, p.categoryId) == CanonicalCategory(rules, source.categories, m, p.categoryId);
    }
    SameFate(looked, fate, source.products);
  }

  /** The product loop; it goes on with the skipped rows of the category loop. */
  method MapProducts(fate: ProductSource -> Fate<Product>, rows: seq<ProductSource>, before: seq<Skipped>)
    returns (ok: bool, kept: seq<Product>, left: seq<Skipped>)
    ensures ok <==> NoneBad(fate, rows)
    ensures ok ==> kept == KeptBy(fate, rows) && left == before + LeftBy(fate, rows)
  {
    kept, left := [], before;
    for i := 0 to |rows|
      invariant Pushed(fate, rows, i, kept, before, left)
    {
      var row := rows[i];
      if fate(row).Bad? { return false, kept, left; }
      PushNext(fate, rows, i, kept, before, left);
      if fate(row).Skip? {
        left := left + [fate(row).skipped];
      } else {
        kept := kept + [fate(row).out];
      }
    }
    PushedAll(fate, rows, kept, before, left);
    ok := true;
  }
}
