/** When exactly the mapping of the legacy catalogue does not depend on the order of its input. */
module LegacyTies {
  import opened Wrappers
  import opened Sorting
  import opened LegacyMapping
  import TextRules

  lemma OneMore<T(!new), R(!new)>(fate: T -> Fate<R>, rows: seq<T>, a: T)
    ensures fate(a).Row? ==> KeptBy(fate, rows + [a]) == KeptBy(fate, rows) + [fate(a).out]
    ensures fate(a).Skip? ==> LeftBy(fate, rows + [a]) == LeftBy(fate, rows) + [fate(a).skipped]
  {
    assert (rows + [a])[..|rows|] == rows;
  }

  lemma KeptTwoMore<T(!new), R(!new)>(fate: T -> Fate<R>, rest: seq<T>, a: T, b: T, x: R, y: R)
    requires fate(a) == Row(x) && fate(b) == Row(y)
    ensures KeptBy(fate, rest + [a, b]) == KeptBy(fate, rest) + [x, y]
  {
    OneMore(fate, rest, a);
    OneMore(fate, rest + [a], b);
    assert rest + [a, b] == rest + [a] + [b];
  }

  lemma LeftTwoMore<T(!new), R(!new)>(fate: T -> Fate<R>, rest: seq<T>, a: T, b: T, x: Skipped, y: Skipped)
    requires fate(a) == Skip(x) && fate(b) == Skip(y)
    ensures LeftBy(fate, rest + [a, b]) == LeftBy(fate, rest) + [x, y]
  {
    OneMore(fate, rest, a);
    OneMore(fate, rest + [a], b);
    assert rest + [a, b] == rest + [a] + [b];
  }

  /** No reordering of source rows or manifest entries changes the outcome. */
  ghost predicate IgnoresOrder(rules: Rules, source: Source, m: Manifest) {
    forall source', m' :: Permuted(source, m, source', m') ==> MapCatalog(rules, source', m') == MapCatalog(rules, source, m)
  }

  /** The outcome for other source rows, as `IgnoresOrder` promises it. */
  lemma Reordered(rules: Rules, source: Source, m: Manifest, source': Source)
    requires IgnoresOrder(rules, source, m) && Accepts(rules, source, m)
    requires multiset(source.categories) == multiset(source'.categories) && multiset(source.products) == multiset(source'.products)
    ensures
      var r, r' := MapCatalog(rules, source, m), MapCatalog(rules, source', m);
      && r'.Some? && r' == r
      && r'.value.categories == Sort(CategoryOrder(rules), CategoryRows(rules, source', m))
      && r'.value.products == Sort(ProductOrder(rules, r'.value.categories), ProductRows(rules, source', m))
      && r'.value.skipped == Sort(SkippedOrder(rules), SkippedRows(rules, source', m))
  {
    assert Permuted(source, m, source', m);
  }

  lemma CategoriesStrict(rules: Rules, source: Source, m: Manifest, x: Category, y: Category)
    requires IgnoresOrder(rules, source, m) && Accepts(rules, source, m) && Preorder(rules.locale)
    requires x in CategoryRows(rules, source, m) && y in CategoryRows(rules, source, m)
    requires CategoryOrder(rules)(x, y) && CategoryOrder(rules)(y, x)
    ensures x == y
  {
    var fate := CategoryFates(rules, m);
    KeptMembers(fate, source.categories);
    var a :| a in source.categories && fate(a) == Row(x);
    var b :| b in source.categories && fate(b) == Row(y);
    if x != y {
      var rest := PutLast(source.categories, a, b);
      OrdersArePreorders(rules, []);
      Reordered(rules, source, m, source.(categories := rest + [a, b]));
      Reordered(rules, source, m, source.(categories := rest + [b, a]));
      KeptTwoMore(fate, rest, a, b, x, y);
      KeptTwoMore(fate, rest, b, a, y, x);
      SortSeesTies(CategoryOrder(rules), KeptBy(fate, rest), x, y);
    }
  }

  lemma ProductRowsReordered(rules: Rules, source: Source, m: Manifest, products: seq<ProductSource>)
    ensures ProductRows(rules, source.(products := products), m) == KeptBy(ProductFates(rules, source, m), products)
    ensures SkippedProducts(rules, source.(products := products), m) == LeftBy(ProductFates(rules, source, m), products)
  {
    SameFate(ProductFates(rules, source.(products := products), m), ProductFates(rules, source, m), products);
  }

  lemma ProductsStrict(rules: Rules, source: Source, m: Manifest, x: Product, y: Product)
    requires IgnoresOrder(rules, source, m) && Accepts(rules, source, m) && Preorder(rules.locale)
    requires x in ProductRows(rules, source, m) && y in ProductRows(rules, source, m)
    requires var order := ProductOrder(rules, Sort(CategoryOrder(rules), CategoryRows(rules, source, m))); order(x, y) && order(y, x)
    ensures x == y
  {
    var fate := ProductFates(rules, source, m);
    var categories := Sort(CategoryOrder(rules), CategoryRows(rules, source, m));
    KeptMembers(fate, source.products);
    var a :| a in source.products && fate(a) == Row(x);
    var b :| b in source.products && fate(b) == Row(y);
    if x != y {
      var rest := PutLast(source.products, a, b);
      OrdersArePreorders(rules, categories);
      Reordered(rules, source, m, source.(products := rest + [a, b]));
      Reordered(rules, source, m, source.(products := rest + [b, a]));
      ProductRowsReordered(rules, source, m, rest + [a, b]);
      ProductRowsReordered(rules, source, m, rest + [b, a]);
      KeptTwoMore(fate, rest, a, b, x, y);
      KeptTwoMore(fate, rest, b, a, y, x);
      SortSeesTies(ProductOrder(rules, categories), KeptBy(fate, rest), x, y);
    }
  }

  lemma TiesAfter<T(!new)>(leq: Order<T>, before: seq<T>, s: seq<T>, a: T, b: T)
    requires Preorder(leq) && a != b && leq(a, b) && leq(b, a)
    ensures Sort(leq, before + (s + [a, b])) != Sort(leq, before + (s + [b, a]))
  {
    SortSeesTies(leq, before + s, a, b);
    assert before + (s + [a, b]) == (before + s) + [a, b];
    assert before + (s + [b, a]) == (before + s) + [b, a];
  }

  lemma SkippedProductsStrict(rules: Rules, source: Source, m: Manifest, x: Skipped, y: Skipped)
    requires IgnoresOrder(rules, source, m) && Accepts(rules, source, m) && Preorder(rules.locale)
    requires x in SkippedProducts(rules, source, m) && y in SkippedProducts(rules, source, m)
    requires SkippedOrder(rules)(x, y) && SkippedOrder(rules)(y, x)
    ensures x == y
  {
    var fate := ProductFates(rules, source, m);
    var a := ProductLeft(rules, source, m, x);
    var b := ProductLeft(rules, source, m, y);
    if x != y {
      var rest := PutLast(source.products, a, b);
      var before := SkippedCategories(rules, source, m);
      OrdersArePreorders(rules, []);
      Reordered(rules, source, m, source.(products := rest + [a, b]));
      Reordered(rules, source, m, source.(products := rest + [b, a]));
      ProductRowsReordered(rules, source, m, rest + [a, b]);
      ProductRowsReordered(rules, source, m, rest + [b, a]);
      LeftTwoMore(fate, rest, a, b, x, y);
      LeftTwoMore(fate, rest, b, a, y, x);
      TiesAfter(SkippedOrder(rules), before, LeftBy(fate, rest), x, y);
    }
  }

  const IsCategory := (s: Skipped) => s.entity.CATEGORY?

  /** The skipped categories of the sorted skipped list are the sorted skipped categories. */
  lemma SkippedCategoriesSorted(rules: Rules, categories: seq<Skipped>, products: seq<Skipped>)
    requires Preorder(rules.locale)
    requires (forall x :: x in categories ==> x.entity.CATEGORY?) && (forall x :: x in products ==> x.entity.PRODUCT?)
    ensures Filter(IsCategory, Sort(SkippedOrder(rules), categories + products)) == Sort(SkippedOrder(rules), categories)
  {
    OrdersArePreorders(rules, []);
    FilterIgnoresTail(IsCategory, SkippedOrder(rules), categories, products);
    SortSorts(SkippedOrder(rules), categories);
    SameMembers(Sort(SkippedOrder(rules), categories), categories);
    FilterKeepsAll(IsCategory, Sort(SkippedOrder(rules), categories));
  }

  lemma SkippedEntities(rules: Rules, source: Source, m: Manifest)
    ensures forall x :: x in SkippedCategories(rules, source, m) ==> x.entity.CATEGORY?
    ensures forall x :: x in SkippedProducts(rules, source, m) ==> x.entity.PRODUCT?
  {
    forall x | x in SkippedCategories(rules, source, m) ensures x.entity.CATEGORY? { var c := CategoryLeft(rules, source, m, x); }
    forall x | x in SkippedProducts(rules, source, m) ensures x.entity.PRODUCT? { var p := ProductLeft(rules, source, m, x); }
  }

  lemma SkippedCategoriesStrict(rules: Rules, source: Source, m: Manifest, x: Skipped, y: Skipped)
    requires IgnoresOrder(rules, source, m) && Accepts(rules, source, m) && Preorder(rules.locale)
    requires x in SkippedCategories(rules, source, m) && y in SkippedCategories(rules, source, m)
    requires SkippedOrder(rules)(x, y) && SkippedOrder(rules)(y, x)
    ensures x == y
  {
    var fate := CategoryFates(rules, m);
    var a := CategoryLeft(rules, source, m, x);
    var b := CategoryLeft(rules, source, m, y);
    if x != y {
      var rest := PutLast(source.categories, a, b);
      var one, other := source.(categories := rest + [a, b]), source.(categories := rest + [b, a]);
      OrdersArePreorders(rules, []);
      Reordered(rules, source, m, one);
      Reordered(rules, source, m, other);
      SkippedEntities(rules, one, m);
      SkippedEntities(rules, other, m);
      SkippedCategoriesSorted(rules, SkippedCategories(rules, one, m), SkippedProducts(rules, one, m));
      SkippedCategoriesSorted(rules, SkippedCategories(rules, other, m), SkippedProducts(rules, other, m));
      LeftTwoMore(fate, rest, a, b, x, y);
      LeftTwoMore(fate, rest, b, a, y, x);
      SortSeesTies(SkippedOrder(rules), LeftBy(fate, rest), x, y);
    }
  }

  lemma IgnoringIsStrict(rules: Rules, source: Source, m: Manifest)
    requires IgnoresOrder(rules, source, m) && Accepts(rules, source, m) && Preorder(rules.locale)
    ensures StrictOrders(rules, source, m)
  {
    var categories := Sort(CategoryOrder(rules), CategoryRows(rules, source, m));
    forall x, y | x in CategoryRows(rules, source, m) && y in CategoryRows(rules, source, m)
                  && CategoryOrder(rules)(x, y) && CategoryOrder(rules)(y, x) ensures x == y
    {
      CategoriesStrict(rules, source, m, x, y);
    }
    forall x, y | x in ProductRows(rules, source, m) && y in ProductRows(rules, source, m)
                  && ProductOrder(rules, categories)(x, y) && ProductOrder(rules, categories)(y, x) ensures x == y
    {
      ProductsStrict(rules, source, m, x, y);
    }
    forall x, y | x in SkippedRows(rules, source, m) && y in SkippedRows(rules, source, m)
                  && SkippedOrder(rules)(x, y) && SkippedOrder(rules)(y, x) ensures x == y
    {
      SkippedEntities(rules, source, m);
      if x.entity.CATEGORY? { SkippedCategoriesStrict(rules, source, m, x, y); } else { SkippedProductsStrict(rules, source, m, x, y); }
    }
  }

  /**
    The outcome does not depend on the order of source rows and manifest entries if and only if the
    mapping fails, or no two different rows of one output list compare equal.
   */
  lemma OrderIndependentExactly(rules: Rules, source: Source, m: Manifest)
    requires Preorder(rules.locale)
    ensures IgnoresOrder(rules, source, m) <==> (Accepts(rules, source, m) ==> StrictOrders(rules, source, m))
  {
    if Accepts(rules, source, m) ==> StrictOrders(rules, source, m) {
      forall source', m' | Permuted(source, m, source', m')
        ensures MapCatalog(rules, source', m') == MapCatalog(rules, source, m)
      {
        OrderIndependence(rules, source, m, source', m');
      }
    }
    if IgnoresOrder(rules, source, m) && Accepts(rules, source, m) { IgnoringIsStrict(rules, source, m); }
  }

  // ---- two skipped IDs that compare equal ----------------------------------------------------

  function SkippedSource(a: string, b: string): Source {
    Source([CategorySource(a, "Old", "old", None, 0, true), CategorySource(b, "Old", "old", None, 0, true)], [])
  }

  function SkippedManifest(a: string, b: string): Manifest {
    Manifest(1, "legacy", 2, 0, [CategoryEntry(a, SKIP_INTENTIONALLY, None, Some("old")),
                                 CategoryEntry(b, SKIP_INTENTIONALLY, None, Some("old"))], [])
  }

  lemma FindTwo<T>(key: T -> string, x: T, y: T)
    requires key(x) != key(y)
    ensures Find(key, [x, y], key(x)) == Some(x) && Find(key, [x, y], key(y)) == Some(y)
    ensures Distinct(Map(key, [x, y]))
  {
    assert [x, y][..1] == [x];
  }

  lemma ParityOfTwo<S(!new), E(!new)>(sourceId: S -> string, x: S, y: S, entryId: E -> string, d: E, e: E)
    requires sourceId(x) == entryId(d) && sourceId(y) == entryId(e) && sourceId(x) != sourceId(y)
    ensures Parity(sourceId, [x, y], entryId, [d, e], 2)
  {
    FindTwo(sourceId, x, y);
    FindTwo(entryId, d, e);
  }

  lemma SkippedTwoAreListed(a: string, b: string)
    requires a != b
    ensures Listed(SkippedSource(a, b), SkippedManifest(a, b))
  {
    var source, m := SkippedSource(a, b), SkippedManifest(a, b);
    ParityOfTwo(CategoryId, source.categories[0], source.categories[1], EntryId, m.categories[0], m.categories[1]);
  }

  lemma SkippedTwoArePermuted(a: string, b: string)
    ensures Permuted(SkippedSource(a, b), SkippedManifest(a, b), SkippedSource(b, a), SkippedManifest(b, a))
  {
    var s, t := SkippedSource(a, b).categories, SkippedSource(b, a).categories;
    var d, e := SkippedManifest(a, b).categories, SkippedManifest(b, a).categories;
    assert s == [s[0]] + [s[1]] && t == [s[1]] + [s[0]];
    assert d == [d[0]] + [d[1]] && e == [d[1]] + [d[0]];
  }

  lemma SkippedTwoFates(rules: Rules, a: string, b: string)
    requires a != b
    ensures
      var source, m := SkippedSource(a, b), SkippedManifest(a, b);
      && CategoryFate(rules, m.categories, source.categories[0]) == Skip(Skipped(CATEGORY, a, "old"))
      && CategoryFate(rules, m.categories, source.categories[1]) == Skip(Skipped(CATEGORY, b, "old"))
  {
    var m := SkippedManifest(a, b);
    FindTwo(EntryId, m.categories[0], m.categories[1]);
    TextRules.TrimmedStays("old");
  }

  lemma SkippedTwo(rules: Rules, a: string, b: string)
    requires a != b
    ensures
      var source, m := SkippedSource(a, b), SkippedManifest(a, b);
      && Accepts(rules, source, m)
      && SkippedRows(rules, source, m) == [Skipped(CATEGORY, a, "old"), Skipped(CATEGORY, b, "old")]
  {
    var source, m := SkippedSource(a, b), SkippedManifest(a, b);
    var fate := CategoryFates(rules, m);
    var c, d := source.categories[0], source.categories[1];
    SkippedTwoAreListed(a, b);
    SkippedTwoFates(rules, a, b);
    KeptNone(fate, source.categories);
    KeptNone(ProductFates(rules, source, m), source.products);
    LeftTwoMore(fate, [], c, d, Skipped(CATEGORY, a, "old"), Skipped(CATEGORY, b, "old"));
    assert [] + [c, d] == source.categories;
  }

  /**
    If `localeCompare` takes two legacy IDs for equal, as it does two encodings of one accented
    letter, then two skipped categories with these IDs come out in the order in which they went in:
    the mapping succeeds on them in both orders, with different skipped lists.
   */
  lemma TiedIdsDependOnOrder(rules: Rules, a: string, b: string) returns (r: Mapping, r': Mapping)
    requires Preorder(rules.locale) && a != b && rules.locale(a, b) && rules.locale(b, a)
    ensures MapCatalog(rules, SkippedSource(a, b), SkippedManifest(a, b)) == Some(r)
    ensures MapCatalog(rules, SkippedSource(b, a), SkippedManifest(b, a)) == Some(r')
    ensures r.skipped != r'.skipped
  {
    r := SkippedTwoMapped(rules, a, b);
    r' := SkippedTwoMapped(rules, b, a);
    TiesAlone(rules, Skipped(CATEGORY, a, "old"), Skipped(CATEGORY, b, "old"));
  }

  lemma TiedIdsAreNotIgnored(rules: Rules, a: string, b: string)
    requires Preorder(rules.locale) && a != b && rules.locale(a, b) && rules.locale(b, a)
    ensures !IgnoresOrder(rules, SkippedSource(a, b), SkippedManifest(a, b))
  {
    var r, r' := TiedIdsDependOnOrder(rules, a, b);
    SkippedTwoArePermuted(a, b);
  }

  lemma SkippedTwoMapped(rules: Rules, a: string, b: string) returns (r: Mapping)
    requires a != b
    ensures MapCatalog(rules, SkippedSource(a, b), SkippedManifest(a, b)) == Some(r)
    ensures r.skipped == Sort(SkippedOrder(rules), [Skipped(CATEGORY, a, "old"), Skipped(CATEGORY, b, "old")])
  {
    SkippedTwo(rules, a, b);
    r := MapCatalog(rules, SkippedSource(a, b), SkippedManifest(a, b)).value;
  }

  lemma TiesAlone(rules: Rules, x: Skipped, y: Skipped)
    requires Preorder(rules.locale) && x != y && SkippedOrder(rules)(x, y) && SkippedOrder(rules)(y, x)
    ensures Sort(SkippedOrder(rules), [x, y]) != Sort(SkippedOrder(rules), [y, x])
  {
    OrdersArePreorders(rules, []);
    SortSeesTies(SkippedOrder(rules), [], x, y);
    assert [] + [x, y] == [x, y] && [] + [y, x] == [y, x];
  }
}
