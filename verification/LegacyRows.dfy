/**
  What the mapped catalogue carries, said of source rows, manifest entries and output rows alone: when
  a mapping exists, which rows it holds, what is in them and in which order they stand.
 */
module LegacyRows {
  import opened Wrappers
  import opened TextRules
  import opened Sorting
  import opened LegacyMapping

  // ---- one row -------------------------------------------------------------------------------

  /** The entry stands for this canonical ID: a derived one to create, the given one in lower case to match. */
  predicate Identifies(rules: Rules, entity: Entity, e: CategoryEntry, id: string) {
    match e.disposition
    case CREATE => Trim(e.legacyId) != "" && id == rules.derive(entity, Trim(e.legacyId))
    case MATCH_EXPLICITLY => e.canonicalId.Some? && IsUuid(e.canonicalId.value) && id == Lower(e.canonicalId.value)
    case _ => false
  }

  predicate CarriesCategory(rules: Rules, row: CategorySource, e: CategoryEntry, c: Category) {
    && e.legacyId == row.id && c.legacyId == row.id && c.disposition == e.disposition && Identifies(rules, CATEGORY, e, c.id)
    && c.slug == row.slug && c.name == row.name && c.description == row.description
    && c.sortOrder == row.sortOrder && c.active == row.active
  }

  /** The product's category is the output category of the source row's category. */
  predicate AtHome(row: ProductSource, e: ProductEntry, home: Category) {
    e.categoryLegacyId == row.categoryId && home.legacyId == row.categoryId && home.id != ""
  }

  predicate CarriesProduct(rules: Rules, row: ProductSource, e: ProductEntry, home: Category, p: Product) {
    && e.base.legacyId == row.id && p.legacyId == row.id && AtHome(row, e, home) && p.categoryId == home.id
    && p.disposition == e.base.disposition && Identifies(rules, PRODUCT, e.base, p.id)
    && p.slug == row.id && p.name == row.name && p.description == row.description && row.priceMinor == Some(p.priceMinor)
    && p.image == e.image
    && (e.image == CANONICAL_IMAGE_KEY ==> p.imageKey == e.imageKey && e.imageKey.Some? && Trim(e.imageKey.value) != "")
    && (e.image != CANONICAL_IMAGE_KEY ==> p.imageKey == None)
    && p.bestSeller == row.bestSeller && p.active == row.active && p.sortOrder == row.sortOrder
    && (p.isCombo <==> row.categoryId == "combos")
  }

  predicate Skips(entity: Entity, id: string, e: CategoryEntry, s: Skipped) {
    && e.legacyId == id && s.legacyId == id && s.entity == entity
    && e.disposition == SKIP_INTENTIONALLY && e.reason == Some(s.reason) && Trim(s.reason) != ""
  }

  /** Some entry of the manifest turns the row into an output row, or says why it is skipped. */
  predicate CategoryPlaced(rules: Rules, m: Manifest, r: Mapping, row: CategorySource) {
    exists e :: e in m.categories && CategoryPlacedBy(rules, r, row, e)
  }

  predicate CategoryPlacedBy(rules: Rules, r: Mapping, row: CategorySource, e: CategoryEntry) {
    || (exists c :: c in r.categories && CarriesCategory(rules, row, e, c))
    || (exists s :: s in r.skipped && Skips(CATEGORY, row.id, e, s))
  }

  predicate ProductPlaced(rules: Rules, m: Manifest, r: Mapping, row: ProductSource) {
    exists e, home :: e in m.products && home in r.categories && ProductPlacedBy(rules, r, row, e, home)
  }

  predicate ProductPlacedBy(rules: Rules, r: Mapping, row: ProductSource, e: ProductEntry, home: Category) {
    || (exists p :: p in r.products && CarriesProduct(rules, row, e, home, p))
    || (AtHome(row, e, home) && exists s :: s in r.skipped && Skips(PRODUCT, row.id, e.base, s))
  }

  // ---- the rows of an output -----------------------------------------------------------------

  predicate CategoryExplained(rules: Rules, source: Source, m: Manifest, c: Category) {
    exists row, e :: row in source.categories && e in m.categories && CarriesCategory(rules, row, e, c)
  }

  predicate ProductExplained(rules: Rules, source: Source, m: Manifest, r: Mapping, p: Product) {
    exists row, e, home :: row in source.products && e in m.products && home in r.categories && CarriesProduct(rules, row, e, home, p)
  }

  predicate SkippedExplained(source: Source, m: Manifest, s: Skipped) {
    || (exists row, e :: row in source.categories && e in m.categories && Skips(CATEGORY, row.id, e, s))
    || (exists row, e :: row in source.products && e in m.products && Skips(PRODUCT, row.id, e.base, s))
  }

  /** Manifest and source list the same IDs, each once, and as many as the manifest declares. */
  predicate SameIds(source: Source, m: Manifest) {
    && m.version == 1
    && |source.categories| == m.categoryCount && |m.categories| == m.categoryCount
    && |source.products| == m.productCount && |m.products| == m.productCount
    && (forall i, j :: 0 <= i < j < |source.categories| ==> source.categories[i].id != source.categories[j].id)
    && (forall i, j :: 0 <= i < j < |source.products| ==> source.products[i].id != source.products[j].id)
    && (forall i, j :: 0 <= i < j < |m.categories| ==> m.categories[i].legacyId != m.categories[j].legacyId)
    && (forall i, j :: 0 <= i < j < |m.products| ==> m.products[i].base.legacyId != m.products[j].base.legacyId)
    && (forall e :: e in m.categories ==> exists row :: row in source.categories && row.id == e.legacyId)
    && (forall e :: e in m.products ==> exists row :: row in source.products && row.id == e.base.legacyId)
  }

  predicate DistinctOutput(r: Mapping) {
    && (forall i, j :: 0 <= i < j < |r.categories| ==> r.categories[i].id != r.categories[j].id)
    && (forall i, j :: 0 <= i < j < |r.products| ==> r.products[i].id != r.products[j].id)
    && (forall c, p :: c in r.categories && p in r.products ==> c.id != p.id)
  }

  /** The output is a mapping of the source under the manifest, in whatever order. */
  predicate Maps(rules: Rules, source: Source, m: Manifest, r: Mapping) {
    && SameIds(source, m) && DistinctOutput(r) && r.source == m.source
    && (forall row {:trigger CategoryPlaced(rules, m, r, row)} :: row in source.categories ==> CategoryPlaced(rules, m, r, row))
    && (forall row {:trigger ProductPlaced(rules, m, r, row)} :: row in source.products ==> ProductPlaced(rules, m, r, row))
    && (forall c {:trigger CategoryExplained(rules, source, m, c)} :: c in r.categories ==> CategoryExplained(rules, source, m, c))
    && (forall p {:trigger ProductExplained(rules, source, m, r, p)} :: p in r.products ==> ProductExplained(rules, source, m, r, p))
    && (forall s {:trigger SkippedExplained(source, m, s)} :: s in r.skipped ==> SkippedExplained(source, m, s))
  }

  // ---- a fate and what it carries ------------------------------------------------------------

  lemma CategoryFateCarries(rules: Rules, entries: seq<CategoryEntry>, row: CategorySource, e: CategoryEntry)
    requires Find(EntryId, entries, row.id) == Some(e)
    ensures forall c :: CategoryFate(rules, entries, row) == Row(c) <==> CarriesCategory(rules, row, e, c)
    ensures forall s :: CategoryFate(rules, entries, row) == Skip(s) <==> Skips(CATEGORY, row.id, e, s)
  {
  }

  lemma ProductFateCarries(rules: Rules, entries: seq<ProductEntry>, home: Category, row: ProductSource, e: ProductEntry)
    requires Find(ProductEntryId, entries, row.id) == Some(e) && home.legacyId == row.categoryId
    ensures forall p :: ProductFateIn(rules, entries, Some(home.id), row) == Row(p) <==> CarriesProduct(rules, row, e, home, p)
    ensures forall s :: ProductFateIn(rules, entries, Some(home.id), row) == Skip(s) <==> AtHome(row, e, home) && Skips(PRODUCT, row.id, e.base, s)
  {
  }

  lemma CategoryFateIsOut(rules: Rules, source: Source, m: Manifest, r: Mapping, row: CategorySource)
    requires Preorder(rules.locale) && MapCatalog(rules, source, m) == Some(r) && row in source.categories
    ensures match CategoryFate(rules, m.categories, row)
            case Row(c) => c in r.categories
            case Skip(s) => s in r.skipped
            case Bad => false
  {
    SortedTags(rules, source, m, r);
    KeptMembers(CategoryFates(rules, m), source.categories);
    LeftMembers(CategoryFates(rules, m), source.categories);
    SameMembers(r.categories, CategoryRows(rules, source, m));
    SameMembers(r.skipped, SkippedRows(rules, source, m));
    assert CategoryFates(rules, m)(row) == CategoryFate(rules, m.categories, row);
  }

  lemma PlacedCategory(rules: Rules, source: Source, m: Manifest, r: Mapping, row: CategorySource)
    requires Preorder(rules.locale) && MapCatalog(rules, source, m) == Some(r) && row in source.categories
    ensures CategoryPlaced(rules, m, r, row)
  {
    CategoryFateIsOut(rules, source, m, r, row);
    var e := Find(EntryId, m.categories, row.id).value;
    CategoryFateCarries(rules, m.categories, row, e);
    match CategoryFate(rules, m.categories, row) {
      case Row(c) => assert c in r.categories && CarriesCategory(rules, row, e, c);
      case Skip(s) => assert s in r.skipped && Skips(CATEGORY, row.id, e, s);
    }
    assert CategoryPlacedBy(rules, r, row, e);
  }

  lemma ExplainedCategory(rules: Rules, source: Source, m: Manifest, r: Mapping, c: Category)
    requires Preorder(rules.locale) && MapCatalog(rules, source, m) == Some(r) && c in r.categories
    ensures CategoryExplained(rules, source, m, c)
  {
    SortedTags(rules, source, m, r);
    KeptMembers(CategoryFates(rules, m), source.categories);
    SameMembers(r.categories, CategoryRows(rules, source, m));
    var row :| row in source.categories && CategoryFates(rules, m)(row) == Row(c);
    CategoryFateCarries(rules, m.categories, row, Find(EntryId, m.categories, row.id).value);
  }

  /** The output category of a product that is mapped or skipped. */
  lemma HomeOf(rules: Rules, source: Source, m: Manifest, r: Mapping, row: ProductSource) returns (e: ProductEntry, home: Category)
    requires Preorder(rules.locale) && MapCatalog(rules, source, m) == Some(r) && row in source.products
    ensures Find(ProductEntryId, m.products, row.id) == Some(e) && e in m.products
    ensures home in r.categories && home.legacyId == row.categoryId
    ensures ProductFate(rules, source, m, row) == ProductFateIn(rules, m.products, Some(home.id), row)
  {
    SortedTags(rules, source, m, r);
    SameMembers(r.categories, CategoryRows(rules, source, m));
    e := Find(ProductEntryId, m.products, row.id).value;
    assert !ProductFates(rules, source, m)(row).Bad?;
    home := CategoryOfId(rules, source, m, row.categoryId);
  }

  lemma ProductFateIsOut(rules: Rules, source: Source, m: Manifest, r: Mapping, row: ProductSource)
    requires Preorder(rules.locale) && MapCatalog(rules, source, m) == Some(r) && row in source.products
    ensures match ProductFate(rules, source, m, row)
            case Row(p) => p in r.products
            case Skip(s) => s in r.skipped
            case Bad => false
  {
    SortedTags(rules, source, m, r);
    KeptMembers(ProductFates(rules, source, m), source.products);
    LeftMembers(ProductFates(rules, source, m), source.products);
    SameMembers(r.products, ProductRows(rules, source, m));
    SameMembers(r.skipped, SkippedRows(rules, source, m));
    assert ProductFates(rules, source, m)(row) == ProductFate(rules, source, m, row);
  }

  lemma PlacedProduct(rules: Rules, source: Source, m: Manifest, r: Mapping, row: ProductSource)
    requires Preorder(rules.locale) && MapCatalog(rules, source, m) == Some(r) && row in source.products
    ensures ProductPlaced(rules, m, r, row)
  {
    ProductFateIsOut(rules, source, m, r, row);
    var e, home := HomeOf(rules, source, m, r, row);
    ProductFateCarries(rules, m.products, home, row, e);
    match ProductFate(rules, source, m, row) {
      case Row(p) => assert p in r.products && CarriesProduct(rules, row, e, home, p);
      case Skip(s) => assert s in r.skipped && Skips(PRODUCT, row.id, e.base, s);
    }
    assert ProductPlacedBy(rules, r, row, e, home);
  }

  lemma ExplainedProduct(rules: Rules, source: Source, m: Manifest, r: Mapping, p: Product)
    requires Preorder(rules.locale) && MapCatalog(rules, source, m) == Some(r) && p in r.products
    ensures ProductExplained(rules, source, m, r, p)
  {
    SortedTags(rules, source, m, r);
    KeptMembers(ProductFates(rules, source, m), source.products);
    SameMembers(r.products, ProductRows(rules, source, m));
    var row :| row in source.products && ProductFates(rules, source, m)(row) == Row(p);
    var e, home := HomeOf(rules, source, m, r, row);
    ProductFateCarries(rules, m.products, home, row, e);
  }

  lemma ExplainedSkipped(rules: Rules, source: Source, m: Manifest, r: Mapping, s: Skipped)
    requires Preorder(rules.locale) && MapCatalog(rules, source, m) == Some(r) && s in r.skipped
    ensures SkippedExplained(source, m, s)
  {
    SortedTags(rules, source, m, r);
    SameMembers(r.skipped, SkippedRows(rules, source, m));
    if s in SkippedCategories(rules, source, m) {
      var row := CategoryLeft(rules, source, m, s);
      CategoryFateCarries(rules, m.categories, row, Find(EntryId, m.categories, row.id).value);
    } else {
      var row := ProductLeft(rules, source, m, s);
      var e, home := HomeOf(rules, source, m, r, row);
      ProductFateCarries(rules, m.products, home, row, e);
    }
  }

  lemma MappedHasSameIds(rules: Rules, source: Source, m: Manifest, r: Mapping)
    requires Preorder(rules.locale) && MapCatalog(rules, source, m) == Some(r)
    ensures SameIds(source, m) && DistinctOutput(r)
  {
    IdentityIntegrity(rules, source, m, r);
    DistinctByKey(CategoryId, source.categories);
    DistinctByKey(ProductId, source.products);
    DistinctByKey(EntryId, m.categories);
    DistinctByKey(ProductEntryId, m.products);
    DistinctIdsGiveDistinctOutput(r);
  }

  lemma DistinctByKey<T(!new)>(key: T -> string, s: seq<T>)
    ensures Distinct(Map(key, s)) <==> forall i, j :: 0 <= i < j < |s| ==> key(s[i]) != key(s[j])
  {
    assert forall i :: 0 <= i < |s| ==> Map(key, s)[i] == key(s[i]);
  }

  lemma CanonicalIdsAt(r: Mapping)
    ensures
      var ids, n := CanonicalIds(r.categories, r.products), |r.categories|;
      && |ids| == n + |r.products|
      && (forall i :: 0 <= i < n ==> ids[i] == r.categories[i].id)
      && (forall i :: n <= i < |ids| ==> ids[i] == r.products[i - n].id)
  {
  }

  lemma DistinctIdsGiveDistinctOutput(r: Mapping)
    requires Distinct(CanonicalIds(r.categories, r.products))
    ensures DistinctOutput(r)
  {
    CanonicalIdsAt(r);
    var ids, n := CanonicalIds(r.categories, r.products), |r.categories|;
    forall i, j | 0 <= i < j < |r.products| ensures r.products[i].id != r.products[j].id { assert ids[n + i] != ids[n + j]; }
    forall c, p | c in r.categories && p in r.products ensures c.id != p.id {
      var i :| 0 <= i < n && r.categories[i] == c;
      var j :| 0 <= j < |r.products| && r.products[j] == p;
      assert ids[i] != ids[n + j];
    }
  }

  lemma DistinctOutputGivesDistinctIds(r: Mapping)
    requires DistinctOutput(r)
    ensures Distinct(CanonicalIds(r.categories, r.products))
  {
    CanonicalIdsAt(r);
    var ids, n := CanonicalIds(r.categories, r.products), |r.categories|;
    forall i, j | 0 <= i < j < |ids| ensures ids[i] != ids[j] {
      if i < n <= j { assert r.categories[i] in r.categories && r.products[j - n] in r.products; }
    }
  }

  /**
    What the mapping gives: every output row carries what one source row and the manifest entry of its
    legacy ID say, every source row is in the output or skipped with the reason of its entry.
   */
  lemma OutputIsMapping(rules: Rules, source: Source, m: Manifest, r: Mapping)
    requires Preorder(rules.locale) && MapCatalog(rules, source, m) == Some(r)
    ensures Maps(rules, source, m, r)
  {
    MappedHasSameIds(rules, source, m, r);
    forall row | row in source.categories ensures CategoryPlaced(rules, m, r, row) { PlacedCategory(rules, source, m, r, row); }
    forall row | row in source.products ensures ProductPlaced(rules, m, r, row) { PlacedProduct(rules, source, m, r, row); }
    forall c | c in r.categories ensures CategoryExplained(rules, source, m, c) { ExplainedCategory(rules, source, m, r, c); }
    forall p | p in r.products ensures ProductExplained(rules, source, m, r, p) { ExplainedProduct(rules, source, m, r, p); }
    forall s | s in r.skipped ensures SkippedExplained(source, m, s) { ExplainedSkipped(rules, source, m, r, s); }
  }

  // ---- when there is a mapping ---------------------------------------------------------------

  predicate DistinctLists(source: Source, m: Manifest) {
    && Distinct(Map(CategoryId, source.categories)) && Distinct(Map(ProductId, source.products))
    && Distinct(Map(EntryId, m.categories)) && Distinct(Map(ProductEntryId, m.products))
  }

  lemma SameIdsAreDistinct(source: Source, m: Manifest)
    requires SameIds(source, m)
    ensures DistinctLists(source, m)
  {
    DistinctByKey(CategoryId, source.categories);
    DistinctByKey(ProductId, source.products);
    DistinctByKey(EntryId, m.categories);
    DistinctByKey(ProductEntryId, m.products);
  }

  lemma PlacedCategoryFate(rules: Rules, m: Manifest, r: Mapping, row: CategorySource)
    requires Distinct(Map(EntryId, m.categories)) && CategoryPlaced(rules, m, r, row)
    ensures Find(EntryId, m.categories, row.id).Some? && !Find(EntryId, m.categories, row.id).value.disposition.ERROR?
    ensures !CategoryFate(rules, m.categories, row).Bad?
    ensures CategoryFate(rules, m.categories, row).Row? ==> CategoryFate(rules, m.categories, row).out in r.categories
  {
    var e :| e in m.categories && CategoryPlacedBy(rules, r, row, e);
    assert e.legacyId == row.id;
    FindIs(EntryId, m.categories, e);
    CategoryFateCarries(rules, m.categories, row, e);
  }

  lemma HomeIsCanonical(rules: Rules, source: Source, m: Manifest, home: Category)
    requires DistinctLists(source, m) && CategoryExplained(rules, source, m, home)
    ensures CanonicalCategory(rules, source.categories, m, home.legacyId) == Some(home.id)
  {
    var row, e :| row in source.categories && e in m.categories && CarriesCategory(rules, row, e, home);
    FindIs(CategoryId, source.categories, row);
    FindIs(EntryId, m.categories, e);
    CategoryFateCarries(rules, m.categories, row, e);
    assert CategoryFates(rules, m)(row) == Row(home);
  }

  lemma PlacedProductFate(rules: Rules, source: Source, m: Manifest, r: Mapping, row: ProductSource)
    requires DistinctLists(source, m) && ProductPlaced(rules, m, r, row)
    requires forall home {:trigger CategoryExplained(rules, source, m, home)} :: home in r.categories ==> CategoryExplained(rules, source, m, home)
    ensures Find(ProductEntryId, m.products, row.id).Some? && !Find(ProductEntryId, m.products, row.id).value.base.disposition.ERROR?
    ensures !ProductFate(rules, source, m, row).Bad?
    ensures ProductFate(rules, source, m, row).Row? ==> ProductFate(rules, source, m, row).out in r.products
  {
    var e, home :| e in m.products && home in r.categories && ProductPlacedBy(rules, r, row, e, home);
    assert e.base.legacyId == row.id && home.legacyId == row.categoryId && CategoryExplained(rules, source, m, home);
    HomeIsCanonical(rules, source, m, home);
    FindIs(ProductEntryId, m.products, e);
    ProductFateCarries(rules, m.products, home, row, e);
  }

  lemma FindsOne<T(!new)>(key: T -> string, s: seq<T>, x: T)
    requires x in s
    ensures Find(key, s, key(x)).Some?
  {
  }

  /** Every entry is the one that its row is looked up under. */
  lemma EntriesAreFound<S(!new), E(!new)>(sourceId: S -> string, rows: seq<S>, entryId: E -> string, entries: seq<E>, e: E) returns (row: S)
    requires Distinct(Map(entryId, entries)) && e in entries && exists row :: row in rows && sourceId(row) == entryId(e)
    ensures row in rows && Find(entryId, entries, sourceId(row)) == Some(e)
    ensures Find(sourceId, rows, entryId(e)).Some?
  {
    row :| row in rows && sourceId(row) == entryId(e);
    FindsOne(sourceId, rows, row);
    FindIs(entryId, entries, e);
  }

  lemma CategoriesListed(rules: Rules, source: Source, m: Manifest, r: Mapping)
    requires Distinct(Map(CategoryId, source.categories)) && Distinct(Map(EntryId, m.categories))
    requires |source.categories| == m.categoryCount == |m.categories|
    requires forall e :: e in m.categories ==> exists row :: row in source.categories && CategoryId(row) == EntryId(e)
    requires forall row {:trigger CategoryPlaced(rules, m, r, row)} :: row in source.categories ==> CategoryPlaced(rules, m, r, row)
    ensures Parity(CategoryId, source.categories, EntryId, m.categories, m.categoryCount)
    ensures forall e :: e in m.categories ==> !e.disposition.ERROR?
  {
    forall row | row in source.categories ensures Find(EntryId, m.categories, row.id).Some? {
      assert CategoryPlaced(rules, m, r, row);
      PlacedCategoryFate(rules, m, r, row);
    }
    forall e | e in m.categories ensures Find(CategoryId, source.categories, e.legacyId).Some? && !e.disposition.ERROR? {
      var row := EntriesAreFound(CategoryId, source.categories, EntryId, m.categories, e);
      assert CategoryPlaced(rules, m, r, row);
      PlacedCategoryFate(rules, m, r, row);
    }
  }

  lemma ProductsListed(rules: Rules, source: Source, m: Manifest, r: Mapping)
    requires DistinctLists(source, m) && |source.products| == m.productCount == |m.products|
    requires forall e :: e in m.products ==> exists row :: row in source.products && ProductId(row) == ProductEntryId(e)
    requires forall row {:trigger ProductPlaced(rules, m, r, row)} :: row in source.products ==> ProductPlaced(rules, m, r, row)
    requires forall home {:trigger CategoryExplained(rules, source, m, home)} :: home in r.categories ==> CategoryExplained(rules, source, m, home)
    ensures Parity(ProductId, source.products, ProductEntryId, m.products, m.productCount)
    ensures forall e :: e in m.products ==> !e.base.disposition.ERROR?
  {
    forall row | row in source.products ensures Find(ProductEntryId, m.products, row.id).Some? {
      assert ProductPlaced(rules, m, r, row);
      PlacedProductFate(rules, source, m, r, row);
    }
    forall e | e in m.products ensures Find(ProductId, source.products, e.base.legacyId).Some? && !e.base.disposition.ERROR? {
      var row := EntriesAreFound(ProductId, source.products, ProductEntryId, m.products, e);
      assert ProductPlaced(rules, m, r, row);
      PlacedProductFate(rules, source, m, r, row);
    }
  }

  /** Rows with distinct IDs keep them apart in the output. */
  lemma {:induction false} KeptOnce<T(!new), R(!new)>(fate: T -> Fate<R>, rows: seq<T>, key: T -> string, outKey: R -> string)
    requires Distinct(Map(key, rows)) && forall x :: x in rows && fate(x).Row? ==> outKey(fate(x).out) == key(x)
    ensures Distinct(KeptBy(fate, rows))
  {
    if rows != [] {
      var n := |rows| - 1;
      var init, last := rows[..n], rows[n];
      InitIsDistinct(key, rows);
      KeptOnce(fate, init, key, outKey);
      CollectLast((x: T) => Kept(fate(x)), rows);
      KeptMembers(fate, init);
      forall x | x in init ensures key(x) != key(last) { InitIsApart(key, rows, x); }
    }
  }

  lemma InitIsDistinct<T(!new)>(key: T -> string, rows: seq<T>)
    requires rows != [] && Distinct(Map(key, rows))
    ensures Distinct(Map(key, rows[..|rows| - 1]))
  {
    assert forall i :: 0 <= i < |rows| - 1 ==> Map(key, rows)[i] == Map(key, rows[..|rows| - 1])[i];
  }

  lemma InitIsApart<T(!new)>(key: T -> string, rows: seq<T>, x: T)
    requires rows != [] && Distinct(Map(key, rows)) && x in rows[..|rows| - 1]
    ensures key(x) != key(rows[|rows| - 1])
  {
    var n := |rows| - 1;
    var i :| 0 <= i < n && rows[..n][i] == x;
    assert Map(key, rows)[i] != Map(key, rows)[n];
  }

  lemma KeysStayApart<R(!new)>(key: R -> string, a: seq<R>, b: seq<R>)
    requires Distinct(a) && Distinct(Map(key, b)) && forall y :: y in a ==> y in b
    ensures Distinct(Map(key, a))
  {
    forall i, j | 0 <= i < j < |a| ensures Map(key, a)[i] != Map(key, a)[j] {
      if key(a[i]) == key(a[j]) { KeyTells(key, b, a[i], a[j]); }
    }
  }

  lemma CategoryRowsAmong(rules: Rules, source: Source, m: Manifest, r: Mapping)
    requires DistinctLists(source, m) && forall row {:trigger CategoryPlaced(rules, m, r, row)} :: row in source.categories ==> CategoryPlaced(rules, m, r, row)
    ensures forall c :: c in CategoryRows(rules, source, m) ==> c in r.categories
    ensures Distinct(CategoryRows(rules, source, m))
  {
    KeptMembers(CategoryFates(rules, m), source.categories);
    KeptOnce(CategoryFates(rules, m), source.categories, CategoryId, (c: Category) => c.legacyId);
    forall c | c in CategoryRows(rules, source, m) ensures c in r.categories {
      var row :| row in source.categories && CategoryFates(rules, m)(row) == Row(c);
      assert CategoryPlaced(rules, m, r, row);
      PlacedCategoryFate(rules, m, r, row);
    }
  }

  lemma ProductRowsAmong(rules: Rules, source: Source, m: Manifest, r: Mapping)
    requires DistinctLists(source, m) && forall row {:trigger ProductPlaced(rules, m, r, row)} :: row in source.products ==> ProductPlaced(rules, m, r, row)
    requires forall home {:trigger CategoryExplained(rules, source, m, home)} :: home in r.categories ==> CategoryExplained(rules, source, m, home)
    ensures forall p :: p in ProductRows(rules, source, m) ==> p in r.products
    ensures Distinct(ProductRows(rules, source, m))
  {
    KeptMembers(ProductFates(rules, source, m), source.products);
    KeptOnce(ProductFates(rules, source, m), source.products, ProductId, (p: Product) => p.legacyId);
    forall p | p in ProductRows(rules, source, m) ensures p in r.products {
      var row :| row in source.products && ProductFates(rules, source, m)(row) == Row(p);
      assert ProductPlaced(rules, m, r, row);
      PlacedProductFate(rules, source, m, r, row);
    }
  }

  lemma RowsStayApart(r: Mapping, cs: seq<Category>, ps: seq<Product>)
    requires DistinctOutput(r) && Distinct(cs) && Distinct(ps)
    requires (forall c :: c in cs ==> c in r.categories) && (forall p :: p in ps ==> p in r.products)
    ensures Distinct(CanonicalIds(cs, ps))
  {
    DistinctByKey(OutId, r.categories);
    DistinctByKey(OutProductId, r.products);
    KeysStayApart(OutId, cs, r.categories);
    KeysStayApart(OutProductId, ps, r.products);
    DistinctByKey(OutId, cs);
    DistinctByKey(OutProductId, ps);
    DistinctOutputGivesDistinctIds(Mapping(r.source, cs, ps, []));
  }

  lemma MappedIsAccepted(rules: Rules, source: Source, m: Manifest, r: Mapping)
    requires Maps(rules, source, m, r)
    ensures Accepts(rules, source, m)
  {
    SameIdsAreDistinct(source, m);
    CategoriesListed(rules, source, m, r);
    ProductsListed(rules, source, m, r);
    CategoryRowsAmong(rules, source, m, r);
    ProductRowsAmong(rules, source, m, r);
    RowsStayApart(r, CategoryRows(rules, source, m), ProductRows(rules, source, m));
    NoneIsBad(rules, source, m, r);
  }

  lemma NoneIsBad(rules: Rules, source: Source, m: Manifest, r: Mapping)
    requires DistinctLists(source, m) && Maps(rules, source, m, r)
    ensures NoneBad(CategoryFates(rules, m), source.categories) && NoneBad(ProductFates(rules, source, m), source.products)
  {
    forall row | row in source.categories ensures !CategoryFates(rules, m)(row).Bad? {
      assert CategoryPlaced(rules, m, r, row);
      PlacedCategoryFate(rules, m, r, row);
    }
    forall row | row in source.products ensures !ProductFates(rules, source, m)(row).Bad? {
      assert ProductPlaced(rules, m, r, row);
      PlacedProductFate(rules, source, m, r, row);
    }
  }

  /** The mapping succeeds if and only if there is an output that maps the source under the manifest. */
  lemma MappedExactly(rules: Rules, source: Source, m: Manifest)
    requires Preorder(rules.locale)
    ensures MapCatalog(rules, source, m).Some? <==> exists r :: Maps(rules, source, m, r)
  {
    if MapCatalog(rules, source, m).Some? {
      OutputIsMapping(rules, source, m, MapCatalog(rules, source, m).value);
    }
    if r :| Maps(rules, source, m, r) { MappedIsAccepted(rules, source, m, r); }
  }

  // ---- the order of the output ---------------------------------------------------------------

  /** `localeCompare` puts the first below the second, or ties them and leaves it to what comes after. */
  predicate Below(rules: Rules, a: string, b: string, after: bool) {
    rules.locale(a, b) && (rules.locale(b, a) ==> after)
  }

  /** Categories stand by sort order, then by ID. */
  predicate CategoriesInOrder(rules: Rules, cs: seq<Category>) {
    forall i, j :: 0 <= i < j < |cs| ==>
      cs[i].sortOrder < cs[j].sortOrder || (cs[i].sortOrder == cs[j].sortOrder && rules.locale(cs[i].id, cs[j].id))
  }

  /** Two products stand by the sort order of their categories, then by category ID, sort order and ID. */
  predicate ProductBefore(rules: Rules, a: Product, b: Product, homeA: Category, homeB: Category) {
    || homeA.sortOrder < homeB.sortOrder
    || (homeA.sortOrder == homeB.sortOrder
        && Below(rules, a.categoryId, b.categoryId,
                 a.sortOrder < b.sortOrder || (a.sortOrder == b.sortOrder && rules.locale(a.id, b.id))))
  }

  predicate ProductsInOrder(rules: Rules, cs: seq<Category>, ps: seq<Product>) {
    forall i, j, a, b :: 0 <= i < j < |ps| && a in cs && b in cs && a.id == ps[i].categoryId && b.id == ps[j].categoryId ==>
      ProductBefore(rules, ps[i], ps[j], a, b)
  }

  /** Skipped categories stand before skipped products, and each of them by legacy ID. */
  predicate SkippedInOrder(rules: Rules, ss: seq<Skipped>) {
    forall i, j :: 0 <= i < j < |ss| ==>
      (ss[i].entity == CATEGORY && ss[j].entity == PRODUCT)
      || (ss[i].entity == ss[j].entity && rules.locale(ss[i].legacyId, ss[j].legacyId))
  }

  lemma RankOfHome(cs: seq<Category>, c: Category)
    requires c in cs && forall i, j :: 0 <= i < j < |cs| ==> cs[i].id != cs[j].id
    ensures RankOf(cs, c.id) == c.sortOrder
  {
    DistinctByKey(OutId, cs);
    FindIs(OutId, cs, c);
  }

  /** The three lists of the output are in order. */
  lemma OutputInOrder(rules: Rules, source: Source, m: Manifest, r: Mapping)
    requires Preorder(rules.locale) && MapCatalog(rules, source, m) == Some(r)
    ensures CategoriesInOrder(rules, r.categories) && ProductsInOrder(rules, r.categories, r.products) && SkippedInOrder(rules, r.skipped)
  {
    SortedTags(rules, source, m, r);
    MappedHasSameIds(rules, source, m, r);
    OrdersArePreorders(rules, r.categories);
    SortSorts(SkippedOrder(rules), SkippedRows(rules, source, m));
    CategoryOrderIs(rules, r.categories);
    ProductOrderIs(rules, r.categories, r.products);
    SkippedOrderIs(rules, r.skipped);
  }

  lemma CategoryOrderIs(rules: Rules, cs: seq<Category>)
    requires Sorted(CategoryOrder(rules), cs)
    ensures CategoriesInOrder(rules, cs)
  {
    forall i, j | 0 <= i < j < |cs|
      ensures cs[i].sortOrder < cs[j].sortOrder || (cs[i].sortOrder == cs[j].sortOrder && rules.locale(cs[i].id, cs[j].id))
    {
      assert CategoryOrder(rules)(cs[i], cs[j]);
    }
  }

  lemma ProductOrderIs(rules: Rules, cs: seq<Category>, ps: seq<Product>)
    requires Sorted(ProductOrder(rules, cs), ps) && forall i, j :: 0 <= i < j < |cs| ==> cs[i].id != cs[j].id
    ensures ProductsInOrder(rules, cs, ps)
  {
    forall i, j, a, b | 0 <= i < j < |ps| && a in cs && b in cs && a.id == ps[i].categoryId && b.id == ps[j].categoryId
      ensures ProductBefore(rules, ps[i], ps[j], a, b)
    {
      assert ProductOrder(rules, cs)(ps[i], ps[j]);
      ProductPairIs(rules, cs, ps[i], ps[j], a, b);
    }
  }

  lemma ProductPairIs(rules: Rules, cs: seq<Category>, p: Product, q: Product, a: Category, b: Category)
    requires ProductOrder(rules, cs)(p, q) && forall i, j :: 0 <= i < j < |cs| ==> cs[i].id != cs[j].id
    requires a in cs && b in cs && a.id == p.categoryId && b.id == q.categoryId
    ensures ProductBefore(rules, p, q, a, b)
  {
    RankOfHome(cs, a);
    RankOfHome(cs, b);
  }

  lemma SkippedOrderIs(rules: Rules, ss: seq<Skipped>)
    requires Sorted(SkippedOrder(rules), ss)
    ensures SkippedInOrder(rules, ss)
  {
    forall i, j | 0 <= i < j < |ss|
      ensures (ss[i].entity == CATEGORY && ss[j].entity == PRODUCT)
              || (ss[i].entity == ss[j].entity && rules.locale(ss[i].legacyId, ss[j].legacyId))
    {
      assert SkippedOrder(rules)(ss[i], ss[j]);
    }
  }
}
