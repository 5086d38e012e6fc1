/** The manifest of public catalogue identities, and the check of an inventory against it. */
module PublicIdentity {
  import opened Sorting
  import opened TextRules

  datatype Category = Category(id: string, slug: string)
  datatype Product = Product(id: string, categoryId: string, slug: string)
  datatype Manifest = Manifest(version: int, shopId: string, categoryCount: int, productCount: int,
                               categories: seq<Category>, products: seq<Product>)

  /** A product ID and the ID of its category. */
  datatype Placement = Placement(id: string, categoryId: string)
  datatype Inventory = Inventory(categoryIds: seq<string>, products: seq<Placement>)

  predicate IsLowerUuid(s: string) {
    IsUuid(s) && IsLower(s)
  }

  predicate IsSlugChar(c: char) {
    'a' <= c <= 'z' || '0' <= c <= '9'
  }

  /** Groups of letters and digits, with one hyphen between two groups. */
  predicate IsSlug(s: string) {
    && s != "" && IsSlugChar(s[0]) && IsSlugChar(s[|s| - 1])
    && (forall i :: 0 <= i < |s| ==> IsSlugChar(s[i]) || s[i] == '-')
    && (forall i :: 0 < i < |s| ==> IsSlugChar(s[i - 1]) || IsSlugChar(s[i]))
  }

  /** The groups with a hyphen between each two. */
  function Hyphenated(groups: seq<string>): string {
    if groups == [] then ""
    else if |groups| == 1 then groups[0]
    else groups[0] + "-" + Hyphenated(groups[1..])
  }

  predicate IsGroup(g: string) {
    g != "" && forall i :: 0 <= i < |g| ==> 'a' <= g[i] <= 'z' || '0' <= g[i] <= '9'
  }

  ghost predicate IsHyphenated(s: string, groups: seq<string>) {
    groups != [] && s == Hyphenated(groups) && forall g :: g in groups ==> IsGroup(g)
  }

  /** The length of the first group. */
  function GroupEnd(s: string): (n: nat)
    ensures n <= |s| && (forall i :: 0 <= i < n ==> IsSlugChar(s[i])) && (n < |s| ==> !IsSlugChar(s[n]))
  {
    if s == "" || !IsSlugChar(s[0]) then 0 else 1 + GroupEnd(s[1..])
  }

  lemma {:induction false} SlugSplits(s: string) returns (groups: seq<string>)
    requires IsSlug(s)
    ensures IsHyphenated(s, groups)
    decreases |s|
  {
    var n := GroupEnd(s);
    assert IsGroup(s[..n]);
    if n == |s| {
      assert s[..n] == s;
      groups := [s];
    } else {
      assert s[n] == '-' && IsSlugChar(s[n + 1]);
      var rest := SlugSplits(s[n + 1..]);
      groups := [s[..n]] + rest;
      assert groups[1..] == rest;
      assert s == s[..n] + "-" + s[n + 1..];
    }
  }

  lemma GroupIsSlug(g: string)
    requires IsGroup(g)
    ensures IsSlug(g)
  {
  }

  lemma JoinedIsSlug(g: string, t: string)
    requires IsSlug(g) && IsSlug(t)
    ensures IsSlug(g + "-" + t)
  {
    var s := g + "-" + t;
    assert forall i :: 0 <= i < |g| ==> s[i] == g[i];
    assert s[|g|] == '-';
    assert forall i :: |g| < i < |s| ==> s[i] == t[i - |g| - 1];
  }

  lemma {:induction false} HyphenatedIsSlug(s: string, groups: seq<string>)
    requires IsHyphenated(s, groups)
    ensures IsSlug(s)
    decreases |groups|
  {
    assert IsGroup(groups[0]);
    GroupIsSlug(groups[0]);
    if |groups| > 1 {
      HyphenatedIsSlug(Hyphenated(groups[1..]), groups[1..]);
      JoinedIsSlug(groups[0], Hyphenated(groups[1..]));
    }
  }

  /** A slug is one or more groups of small letters and digits with a hyphen between each two. */
  lemma SlugExactly(s: string)
    ensures IsSlug(s) <==> exists groups :: IsHyphenated(s, groups)
  {
    if IsSlug(s) { var groups := SlugSplits(s); }
    if groups :| IsHyphenated(s, groups) { HyphenatedIsSlug(s, groups); }
  }

  const CategoryId := (c: Category) => c.id
  const CategorySlug := (c: Category) => c.slug
  const ProductId := (p: Product) => p.id
  const ProductSlug := (p: Product) => p.slug
  const PlaceOf := (p: Product) => Placement(p.id, p.categoryId)

  predicate GoodCategory(c: Category) {
    IsLowerUuid(c.id) && IsSlug(c.slug)
  }

  predicate GoodProduct(p: Product, categoryIds: seq<string>) {
    IsLowerUuid(p.id) && IsLowerUuid(p.categoryId) && IsSlug(p.slug) && p.categoryId in categoryIds
  }

  predicate ValidManifest(m: Manifest) {
    && m.version == 1 && IsLowerUuid(m.shopId)
    && m.categoryCount == |m.categories| && m.productCount == |m.products|
    && Distinct(Map(CategoryId, m.categories)) && Distinct(Map(CategorySlug, m.categories))
    && Distinct(Map(ProductId, m.products)) && Distinct(Map(ProductSlug, m.products))
    && (forall c :: c in m.categories ==> GoodCategory(c))
    && (forall p :: p in m.products ==> GoodProduct(p, Map(CategoryId, m.categories)))
  }

  /** The inventory holds the manifest's categories and placements, as many times each. */
  ghost predicate Matches(m: Manifest, inventory: Inventory) {
    && multiset(inventory.categoryIds) == multiset(Map(CategoryId, m.categories))
    && multiset(inventory.products) == multiset(Map(PlaceOf, m.products))
  }

  // ---- joined strings ------------------------------------------------------------------------

  const Joined := (p: Placement) => p.id + ":" + p.categoryId

  /** The part before the first colon and the part after it. */
  function Split(s: string): Placement {
    if s == "" then Placement("", "")
    else if s[0] == ':' then Placement("", s[1..])
    else Placement([s[0]] + Split(s[1..]).id, Split(s[1..]).categoryId)
  }

  lemma {:induction false} SplitJoins(p: Placement)
    requires ':' !in p.id
    ensures Split(Joined(p)) == p
    decreases |p.id|
  {
    if p.id == "" {
      assert Joined(p) == [':'] + p.categoryId;
    } else {
      assert Joined(p)[1..] == Joined(p.(id := p.id[1..]));
      SplitJoins(p.(id := p.id[1..]));
    }
  }

  lemma {:induction false} FirstColon(a: string, b: string, c: string, d: string)
    requires a + ":" + b == c + ":" + d && ':' !in c && ':' !in d
    ensures a == c && b == d
  {
    var s, t := a + ":" + b, c + ":" + d;
    assert s[|a|] == ':' && t[|a|] == ':';
    assert forall i :: 0 <= i < |c| ==> t[i] == c[i] && t[i] != ':';
    assert forall i :: |c| < i < |t| ==> t[i] == d[i - |c| - 1] && t[i] != ':';
    assert a == s[..|a|] && c == t[..|c|];
    assert b == s[|a| + 1..] && d == t[|c| + 1..];
  }

  lemma UuidHasNoColon(s: string)
    requires IsUuid(s)
    ensures ':' !in s
  {
    forall i | 0 <= i < |s| ensures s[i] != ':' {}
  }

  /**
    Whatever its IDs are, a row whose joined string is that of a placement of UUIDs is that
    placement: joining loses nothing that the comparison could miss.
   */
  lemma JoinedTells(p: Placement, q: Placement)
    requires Joined(q) == Joined(p) && IsUuid(p.id) && IsUuid(p.categoryId)
    ensures q == p
  {
    UuidHasNoColon(p.id);
    UuidHasNoColon(p.categoryId);
    FirstColon(q.id, q.categoryId, p.id, p.categoryId);
  }

  lemma SplitRestores(ps: seq<Placement>)
    requires forall p :: p in ps ==> ':' !in p.id
    ensures Map(Split, Map(Joined, ps)) == ps
  {
    forall i | 0 <= i < |ps| ensures Split(Joined(ps[i])) == ps[i] { SplitJoins(ps[i]); }
  }

  lemma EqualStringsEqualPlacements(ps: seq<Placement>, qs: seq<Placement>)
    requires forall p :: p in ps ==> IsUuid(p.id) && IsUuid(p.categoryId)
    requires multiset(Map(Joined, qs)) == multiset(Map(Joined, ps))
    ensures multiset(qs) == multiset(ps)
  {
    var js, ks := Map(Joined, ps), Map(Joined, qs);
    SameMembers(js, ks);
    forall q | q in qs ensures ':' !in q.id {
      var i :| 0 <= i < |qs| && qs[i] == q;
      assert ks[i] in js;
      var k :| 0 <= k < |js| && js[k] == ks[i];
      JoinedTells(ps[k], q);
      UuidHasNoColon(ps[k].id);
    }
    forall p | p in ps ensures ':' !in p.id { UuidHasNoColon(p.id); }
    SplitRestores(ps);
    SplitRestores(qs);
    MapIgnoresOrder(Split, js, ks);
  }

  // ---- comparing sorted lists ----------------------------------------------------------------

  /** Comparing sorted lists compares multisets, if the order tells the expected strings apart. */
  lemma SortedListsCompareMultisets(locale: Order<string>, expected: seq<string>, found: seq<string>)
    requires Preorder(locale) && TellsApart(locale, expected)
    ensures Sort(locale, expected) == Sort(locale, found) <==> multiset(found) == multiset(expected)
  {
    SortSorts(locale, expected);
    SortSorts(locale, found);
    if multiset(found) == multiset(expected) { SortIgnoresOrder(locale, expected, found); }
  }

  /** The strings that the check sorts on the manifest's side. */
  function PlacementStrings(m: Manifest): seq<string> {
    Map(Joined, Map(PlaceOf, m.products))
  }

  lemma PlacementsMatch(m: Manifest, inventory: Inventory)
    requires ValidManifest(m)
    ensures multiset(Map(Joined, inventory.products)) == multiset(PlacementStrings(m))
       <==> multiset(inventory.products) == multiset(Map(PlaceOf, m.products))
  {
    var ps := Map(PlaceOf, m.products);
    if multiset(inventory.products) == multiset(ps) {
      MapIgnoresOrder(Joined, inventory.products, ps);
    }
    if multiset(Map(Joined, inventory.products)) == multiset(PlacementStrings(m)) {
      forall p | p in ps ensures IsUuid(p.id) && IsUuid(p.categoryId) {
        var i :| 0 <= i < |ps| && ps[i] == p;
        assert m.products[i] in m.products;
      }
      EqualStringsEqualPlacements(ps, inventory.products);
    }
  }

  // ---- the script ----------------------------------------------------------------------------

  method AssertUnique(ids: seq<string>, slugs: seq<string>) returns (ok: bool)
    requires |ids| == |slugs|
    ensures ok <==> Distinct(ids) && Distinct(slugs)
  {
    var seenIds, seenSlugs := {}, {};
    for i := 0 to |ids|
      invariant Distinct(ids[..i]) && Distinct(slugs[..i])
      invariant forall x :: x in seenIds <==> x in ids[..i]
      invariant forall x :: x in seenSlugs <==> x in slugs[..i]
    {
      if ids[i] in seenIds {
        var j :| 0 <= j < i && ids[..i][j] == ids[i];
        return false;
      }
      if slugs[i] in seenSlugs {
        var j :| 0 <= j < i && slugs[..i][j] == slugs[i];
        return false;
      }
      seenIds, seenSlugs := seenIds + {ids[i]}, seenSlugs + {slugs[i]};
    }
    assert ids[..|ids|] == ids && slugs[..|slugs|] == slugs;
    ok := true;
  }

  method CheckCategories(categories: seq<Category>) returns (ok: bool, ids: set<string>)
    ensures ok <==> forall c :: c in categories ==> GoodCategory(c)
    ensures ok ==> forall x :: x in ids <==> x in Map(CategoryId, categories)
  {
    ids := {};
    for i := 0 to |categories|
      invariant forall k :: 0 <= k < i ==> GoodCategory(categories[k])
      invariant forall x :: x in ids <==> x in Map(CategoryId, categories)[..i]
    {
      var c := categories[i];
      if !IsUuid(c.id) || !IsLower(c.id) || !IsSlug(c.slug) {
        assert c in categories && !GoodCategory(c);
        return false, ids;
      }
      ids := ids + {categories[i].id};
    }
    assert Map(CategoryId, categories)[..|categories|] == Map(CategoryId, categories);
    ok := true;
  }

  method ValidatePublicIdentityManifest(m: Manifest) returns (ok: bool)
    ensures ok <==> ValidManifest(m)
  {
    if m.version != 1 || !IsLowerUuid(m.shopId) { return false; }
    if m.categoryCount != |m.categories| || m.productCount != |m.products| { return false; }
    ok := AssertUnique(Map(CategoryId, m.categories), Map(CategorySlug, m.categories));
    if !ok { return; }
    ok := AssertUnique(Map(ProductId, m.products), Map(ProductSlug, m.products));
    if !ok { return; }
    var categoryIds;
    ok, categoryIds := CheckCategories(m.categories);
    if !ok { return; }
    ghost var known := Map(CategoryId, m.categories);
    for i := 0 to |m.products|
      invariant forall k :: 0 <= k < i ==> GoodProduct(m.products[k], known)
    {
      var p := m.products[i];
      assert p.categoryId in categoryIds <==> p.categoryId in known;
      if !IsLowerUuid(p.id) || !IsLowerUuid(p.categoryId) || !IsSlug(p.slug) || p.categoryId !in categoryIds {
        assert p in m.products && !GoodProduct(p, known);
        return false;
      }
    }
  }

  /** Compare length, then element by element, as `some` does. */
  method SameList(a: seq<string>, b: seq<string>) returns (same: bool)
    ensures same <==> a == b
  {
    if |a| != |b| { return false; }
    for i := 0 to |a|
      invariant a[..i] == b[..i]
    {
      if a[i] != b[i] { return false; }
    }
    assert a == a[..|a|] && b == b[..|a|];
    same := true;
  }

  /** The check is exact: valid manifest, and the same categories and placements in the inventory. */
  method AssertPublicIdentityInventory(locale: Order<string>, m: Manifest, inventory: Inventory) returns (ok: bool)
    requires Preorder(locale)
    requires ValidManifest(m) ==> TellsApart(locale, Map(CategoryId, m.categories)) && TellsApart(locale, PlacementStrings(m))
    ensures ok <==> ValidManifest(m) && Matches(m, inventory)
  {
    ok := ValidatePublicIdentityManifest(m);
    if !ok { return; }
    SortedListsCompareMultisets(locale, Map(CategoryId, m.categories), inventory.categoryIds);
    SortedListsCompareMultisets(locale, PlacementStrings(m), Map(Joined, inventory.products));
    PlacementsMatch(m, inventory);
    ok := SameList(Sort(locale, Map(CategoryId, m.categories)), Sort(locale, inventory.categoryIds));
    if !ok { return; }
    ok := SameList(Sort(locale, PlacementStrings(m)), Sort(locale, Map(Joined, inventory.products)));
  }
}
