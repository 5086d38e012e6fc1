/** Parsing a worker's menu layout, and the older parser of ID lists it must agree with. */
module MenuLayout {
  import opened Wrappers
  import opened Sorting
  import opened TextRules

  const MAX_CATEGORIES := 256
  const MAX_PRODUCTS := 4096
  const MAX_PAYLOAD_CHARS := 262144

  /** A parsed JSON value; a number carries its printed form, an object its entries in order. */
  datatype Json =
    | Null
    | Bool(on: bool)
    | Number(digits: string)
    | Text(text: string)
    | List(items: seq<Json>)
    | Object(entries: seq<Entry>)

  datatype Entry = Entry(key: string, value: Json)

  // ---- the printed length, as JSON.stringify(value).length counts it -------------------------

  /** UTF-16 units that one character takes inside a JSON string. */
  function Units(c: char): nat {
    if c == '"' || c == '\\' then 2
    else if c in "\n\r\t\U{0008}\U{000C}" then 2
    else if c < ' ' then 6
    else if c as int > 0xFFFF then 2
    else 1
  }

  function TextUnits(s: string): nat {
    if s == "" then 0 else TextUnits(s[..|s| - 1]) + Units(s[|s| - 1])
  }

  function StringifyLength(v: Json): nat {
    match v
    case Null => 4
    case Bool(on) => if on then 4 else 5
    case Number(digits) => |digits|
    case Text(text) => TextUnits(text) + 2
    case List(items) => 2 + ItemsLength(items) + Commas(|items|)
    case Object(entries) => 2 + EntriesLength(entries) + Commas(|entries|)
  }

  function ItemsLength(items: seq<Json>): nat {
    if items == [] then 0 else ItemsLength(items[..|items| - 1]) + StringifyLength(items[|items| - 1])
  }

  function EntriesLength(entries: seq<Entry>): nat {
    if entries == [] then 0
    else
      var e := entries[|entries| - 1];
      EntriesLength(entries[..|entries| - 1]) + TextUnits(e.key) + 3 + StringifyLength(e.value)
  }

  function Commas(n: nat): nat {
    if n == 0 then 0 else n - 1
  }

  // ---- ID lists ------------------------------------------------------------------------------

  function RequiredUuid(v: Json): (r: Option<string>)
    ensures r.Some? <==> v.Text? && IsUuid(v.text)
    ensures r.Some? ==> v == Text(r.value)
  {
    if v.Text? && IsUuid(v.text) then Some(v.text) else None
  }

  function Texts(ids: seq<string>): (r: seq<Json>)
    ensures |r| == |ids| && forall i :: 0 <= i < |ids| ==> r[i] == Text(ids[i])
  {
    seq(|ids|, i requires 0 <= i < |ids| => Text(ids[i]))
  }

  /** `v` is the JSON list of exactly these IDs, which are UUIDs and pairwise distinct. */
  predicate IsIdList(v: Json, ids: seq<string>) {
    v == List(Texts(ids)) && Distinct(ids) && forall id :: id in ids ==> IsUuid(id)
  }

  /** `r` is the ID list that `v` is, or there is none. */
  ghost predicate Parsed(v: Json, r: Option<seq<string>>) {
    (r.Some? ==> IsIdList(v, r.value)) && (r.None? ==> forall ids :: !IsIdList(v, ids))
  }

  /** `r` is the ID list within the limit that `v` is, or there is none. */
  ghost predicate ParsedWithin(v: Json, limit: nat, r: Option<seq<string>>) {
    && (r.Some? ==> IsIdList(v, r.value) && |r.value| <= limit)
    && (r.None? ==> forall ids :: IsIdList(v, ids) ==> |ids| > limit)
  }

  /** The menu-layout parser: a set of what was seen, and a limit. */
  method ParseIdOrder(v: Json, limit: nat) returns (r: Option<seq<string>>)
    ensures ParsedWithin(v, limit, r)
  {
    if !v.List? || |v.items| > limit { return None; }
    var parsed: seq<string>, seen: set<string> := [], {};
    for i := 0 to |v.items|
      invariant v.items[..i] == Texts(parsed)
      invariant Distinct(parsed) && forall id :: id in parsed ==> IsUuid(id)
      invariant forall id :: id in seen <==> id in parsed
    {
      var id := RequiredUuid(v.items[i]);
      if id.None? || id.value in seen {
        NoIdList(v, parsed, i);
        return None;
      }
      seen, parsed := seen + {id.value}, parsed + [id.value];
    }
    assert v.items[..|v.items|] == v.items;
    r := Some(parsed);
  }

  /** The preferences parser: it scans what it has parsed, and has no limit. */
  method ScanIdOrder(v: Json) returns (r: Option<seq<string>>)
    ensures Parsed(v, r)
  {
    if !v.List? { return None; }
    var parsed: seq<string> := [];
    for i := 0 to |v.items|
      invariant v.items[..i] == Texts(parsed)
      invariant Distinct(parsed) && forall id :: id in parsed ==> IsUuid(id)
    {
      var id := RequiredUuid(v.items[i]);
      if id.None? || id.value in parsed {
        NoIdList(v, parsed, i);
        return None;
      }
      parsed := parsed + [id.value];
    }
    assert v.items[..|v.items|] == v.items;
    r := Some(parsed);
  }

  /** If the whole list is an ID list, so is what was parsed of it, and the next item continues it. */
  lemma NextId(v: Json, parsed: seq<string>, i: nat, ids: seq<string>)
    requires v.List? && i < |v.items| && v.items[..i] == Texts(parsed) && IsIdList(v, ids)
    ensures RequiredUuid(v.items[i]) == Some(ids[i]) && ids[i] !in parsed
  {
    assert ids[i] in ids && v.items[i] == Text(ids[i]);
    assert |parsed| == |v.items[..i]| == i;
    forall k | 0 <= k < i ensures parsed[k] == ids[k] { assert v.items[..i][k] == Text(parsed[k]); }
  }

  lemma NoIdList(v: Json, parsed: seq<string>, i: nat)
    requires v.List? && i < |v.items| && v.items[..i] == Texts(parsed)
    requires RequiredUuid(v.items[i]).None? || RequiredUuid(v.items[i]).value in parsed
    ensures forall ids :: !IsIdList(v, ids)
  {
    forall ids | IsIdList(v, ids) ensures false { NextId(v, parsed, i, ids); }
  }

  lemma IdListIsUnique(v: Json, a: seq<string>, b: seq<string>)
    requires IsIdList(v, a) && IsIdList(v, b)
    ensures a == b
  {
    assert |Texts(a)| == |Texts(b)|;
    forall i | 0 <= i < |a| ensures a[i] == b[i] { assert Texts(a)[i] == Texts(b)[i]; }
  }

  /** The parser with a limit gives what the one without gives, if that is within the limit. */
  lemma ParsersAgree(v: Json, limit: nat, bySet: Option<seq<string>>, byScan: Option<seq<string>>)
    requires ParsedWithin(v, limit, bySet) && Parsed(v, byScan)
    ensures bySet == if byScan.Some? && |byScan.value| <= limit then byScan else None
    ensures v.List? && |v.items| <= limit ==> bySet == byScan
  {
    if bySet.Some? && byScan.Some? { IdListIsUnique(v, bySet.value, byScan.value); }
    if byScan.Some? { assert |Texts(byScan.value)| == |byScan.value|; }
  }

  // ---- two spellings of one UUID -------------------------------------------------------------

  const LowerCase := (id: string) => Lower(id)

  /** No UUID is listed twice, in whatever spelling. */
  ghost predicate NamesOnce(ids: seq<string>)
    requires forall id :: id in ids ==> IsUuid(id)
  {
    forall i, j :: 0 <= i < j < |ids| ==> !SameUuid(ids[i], ids[j])
  }

  /** A list of UUIDs names each once if and only if it is distinct after lower-casing. */
  lemma NamesOnceExactly(ids: seq<string>)
    requires forall id :: id in ids ==> IsUuid(id)
    ensures NamesOnce(ids) <==> Distinct(Map(LowerCase, ids))
  {
    var lowered := Map(LowerCase, ids);
    forall i, j | 0 <= i < j < |ids| ensures SameUuid(ids[i], ids[j]) <==> lowered[i] == lowered[j] {
      SameUuidIsSameLower(ids[i], ids[j]);
    }
  }

  /**
    The parsers compare UUIDs as written. A list of UUIDs is accepted if and only if it is distinct
    as written; so one that names a UUID twice is accepted exactly if it is distinct as written and
    not after lower-casing, and never if its IDs are all in lower case.
   */
  lemma AcceptedTwiceExactly(ids: seq<string>)
    requires forall id :: id in ids ==> IsUuid(id)
    ensures IsIdList(List(Texts(ids)), ids) <==> Distinct(ids)
    ensures IsIdList(List(Texts(ids)), ids) && !NamesOnce(ids) <==> Distinct(ids) && !Distinct(Map(LowerCase, ids))
    ensures NamesOnce(ids) ==> Distinct(ids)
    ensures (forall id :: id in ids ==> IsLower(id)) ==> (Distinct(ids) <==> NamesOnce(ids))
  {
    NamesOnceExactly(ids);
    var lowered := Map(LowerCase, ids);
    forall i, j | 0 <= i < j < |ids| && ids[i] == ids[j] ensures lowered[i] == lowered[j] {}
    if forall id :: id in ids ==> IsLower(id) {
      forall i | 0 <= i < |ids| ensures lowered[i] == ids[i] {
        assert IsLower(ids[i]);
        assert |Lower(ids[i])| == |ids[i]| && forall k :: 0 <= k < |ids[i]| ==> Lower(ids[i])[k] == ids[i][k];
      }
      assert lowered == ids;
    }
  }

  const SPELLED_LOW := "aaaaaaaa-aaaa-1aaa-8aaa-aaaaaaaaaaaa"
  const SPELLED_HIGH := "AAAAAAAA-AAAA-1AAA-8AAA-AAAAAAAAAAAA"

  lemma SpelledLow()
    ensures IsUuid(SPELLED_LOW)
  {
  }

  lemma SpelledHigh()
    ensures IsUuid(SPELLED_HIGH)
  {
  }

  lemma SpelledAlike()
    requires IsUuid(SPELLED_LOW) && IsUuid(SPELLED_HIGH)
    ensures SameUuid(SPELLED_LOW, SPELLED_HIGH)
  {
  }

  /** Both parsers take two spellings of one UUID for two IDs. */
  lemma OneUuidAcceptedTwice()
    ensures IsUuid(SPELLED_LOW) && IsUuid(SPELLED_HIGH) && SameUuid(SPELLED_LOW, SPELLED_HIGH)
    ensures var ids := [SPELLED_LOW, SPELLED_HIGH]; IsIdList(List(Texts(ids)), ids)
  {
    SpelledLow();
    SpelledHigh();
    SpelledAlike();
    assert SPELLED_LOW[0] != SPELLED_HIGH[0];
  }

  // ---- layouts -------------------------------------------------------------------------------

  datatype Group = Group(categoryId: string, products: seq<string>)

  function Flatten(groups: seq<Group>): seq<string> {
    if groups == [] then [] else Flatten(groups[..|groups| - 1]) + groups[|groups| - 1].products
  }

  const EntryKey := (e: Entry) => e.key

  function AsEntry(g: Group): Entry {
    Entry(g.categoryId, List(Texts(g.products)))
  }

  /** `v` is the JSON object of exactly these groups. */
  predicate Represents(v: Json, groups: seq<Group>) {
    v.Object? && |v.entries| == |groups| && forall i :: 0 <= i < |groups| ==> v.entries[i] == AsEntry(groups[i])
  }

  /** What a layout may be, apart from the length of its JSON. */
  predicate Acceptable(groups: seq<Group>) {
    && |groups| <= 256
    && (forall g :: g in groups ==> IsUuid(g.categoryId) && forall id :: id in g.products ==> IsUuid(id))
    && Distinct(Flatten(groups)) && |Flatten(groups)| <= 4096
  }

  lemma {:induction false} FlattenPrefix(groups: seq<Group>, i: nat)
    requires i <= |groups|
    ensures |Flatten(groups[..i])| <= |Flatten(groups)| && Flatten(groups[..i]) == Flatten(groups)[..|Flatten(groups[..i])|]
    decreases |groups|
  {
    if i < |groups| {
      var init := groups[..|groups| - 1];
      FlattenPrefix(init, i);
      assert init[..i] == groups[..i];
    } else {
      assert groups[..i] == groups;
    }
  }

  lemma FlattenStep(groups: seq<Group>, i: nat)
    requires i < |groups|
    ensures Flatten(groups[..i + 1]) == Flatten(groups[..i]) + groups[i].products
  {
    assert groups[..i + 1][..i] == groups[..i];
  }

  lemma SameGroup(a: Group, b: Group)
    requires AsEntry(a) == AsEntry(b)
    ensures a == b
  {
    IdsFromTexts(a.products, b.products);
  }

  lemma IdsFromTexts(a: seq<string>, b: seq<string>)
    requires Texts(a) == Texts(b)
    ensures a == b
  {
    assert |Texts(a)| == |Texts(b)|;
    forall i | 0 <= i < |a| ensures a[i] == b[i] { assert Texts(a)[i] == Texts(b)[i]; }
  }

  /** The first entries of `v` are these groups. */
  ghost predicate Begins(v: Json, parsed: seq<Group>)
    requires v.Object?
  {
    |parsed| <= |v.entries| && forall k :: 0 <= k < |parsed| ==> v.entries[k] == AsEntry(parsed[k])
  }

  lemma BeginsIsPrefix(v: Json, parsed: seq<Group>, groups: seq<Group>)
    requires v.Object? && Begins(v, parsed) && Represents(v, groups)
    ensures |parsed| <= |groups| && parsed == groups[..|parsed|]
  {
    forall k | 0 <= k < |parsed| ensures parsed[k] == groups[k] { SameGroup(parsed[k], groups[k]); }
  }

  lemma NextProducts(groups: seq<Group>, i: nat)
    requires i < |groups| && Acceptable(groups)
    ensures |Flatten(groups[..i])| + |groups[i].products| <= MAX_PRODUCTS && Distinct(Flatten(groups[..i]) + groups[i].products)
  {
    FlattenPrefix(groups, i + 1);
    FlattenStep(groups, i);
  }

  /** If the whole object is an acceptable layout, what was parsed is its beginning, and the next entry continues it. */
  lemma NextGroup(v: Json, parsed: seq<Group>, groups: seq<Group>)
    requires v.Object? && Begins(v, parsed) && |parsed| < |v.entries| && Represents(v, groups) && Acceptable(groups)
    ensures var g := groups[|parsed|];
      && v.entries[|parsed|] == AsEntry(g) && IsUuid(g.categoryId) && IsIdList(List(Texts(g.products)), g.products)
      && |Flatten(parsed)| + |g.products| <= MAX_PRODUCTS && Distinct(Flatten(parsed) + g.products)
  {
    var g := groups[|parsed|];
    BeginsIsPrefix(v, parsed, groups);
    assert g in groups;
    NextProducts(groups, |parsed|);
    DistinctEnd(Flatten(parsed), g.products);
  }

  lemma DistinctEnd(a: seq<string>, b: seq<string>)
    requires Distinct(a + b)
    ensures Distinct(b) && forall x :: x in b ==> x !in a
  {
    assert forall i :: 0 <= i < |a| ==> (a + b)[i] == a[i];
    assert forall i :: 0 <= i < |b| ==> (a + b)[|a| + i] == b[i];
  }

  /** Assignment to a property of a record: in place if it is there, else at the end. */
  function Put(groups: seq<Group>, g: Group): seq<Group> {
    if groups == [] then [g]
    else if groups[0].categoryId == g.categoryId then [g] + groups[1..]
    else [groups[0]] + Put(groups[1..], g)
  }

  lemma {:induction false} PutNew(groups: seq<Group>, g: Group)
    requires forall k :: 0 <= k < |groups| ==> groups[k].categoryId != g.categoryId
    ensures Put(groups, g) == groups + [g]
  {
    if groups != [] { PutNew(groups[1..], g); }
  }

  /** Whether no ID of `ids` was seen, and what has been seen after them. */
  method AddAll(seen: set<string>, before: seq<string>, ids: seq<string>) returns (ok: bool, after: set<string>)
    requires (forall x :: x in seen <==> x in before) && Distinct(before)
    ensures ok <==> Distinct(before + ids)
    ensures ok ==> forall x :: x in after <==> x in before + ids
  {
    after := seen;
    for i := 0 to |ids|
      invariant Distinct(before + ids[..i])
      invariant forall x :: x in after <==> x in before + ids[..i]
    {
      if ids[i] in after {
        DuplicateStays(before, ids, i);
        return false, after;
      }
      assert before + ids[..i + 1] == before + ids[..i] + [ids[i]];
      after := after + {ids[i]};
    }
    assert ids[..|ids|] == ids;
    ok := true;
  }

  lemma DuplicateStays(before: seq<string>, ids: seq<string>, i: nat)
    requires i < |ids| && ids[i] in before + ids[..i]
    ensures !Distinct(before + ids)
  {
    var k :| 0 <= k < |before + ids[..i]| && (before + ids[..i])[k] == ids[i];
    assert (before + ids)[k] == (before + ids)[|before| + i];
  }

  /** A layout is accepted exactly when it is an acceptable one of less than the maximal length, and comes back unchanged. */
  method ParseProductOrderByCategory(v: Json) returns (r: Option<seq<Group>>)
    requires v.Object? ==> Distinct(Map(EntryKey, v.entries))
    ensures r.Some? ==> Represents(v, r.value) && Acceptable(r.value)
    ensures r.None? ==> forall groups :: Represents(v, groups) ==> !Acceptable(groups)
  {
    if !v.Object? { return None; }
    if StringifyLength(v) > MAX_PAYLOAD_CHARS {
      LongIsNoLayout(v);
      return None;
    }
    if |v.entries| > MAX_CATEGORIES { return None; }
    var parsed: seq<Group>, seen: set<string>, count: nat := [], {}, 0;
    for i := 0 to |v.entries|
      invariant |parsed| == i && Begins(v, parsed) && Acceptable(parsed)
      invariant count == |Flatten(parsed)| && forall x :: x in seen <==> x in Flatten(parsed)
    {
      var e := v.entries[i];
      var id := RequiredUuid(Text(e.key));
      var products := ParseIdOrder(e.value, MAX_PRODUCTS);
      if id.None? || products.None? {
        NoLayoutBecause(v, parsed);
        return None;
      }
      count := count + |products.value|;
      if count > MAX_PRODUCTS {
        TooMany(v, parsed, products.value);
        return None;
      }
      var ok;
      ok, seen := AddAll(seen, Flatten(parsed), products.value);
      if !ok {
        TooMany(v, parsed, products.value);
        return None;
      }
      var g := Group(id.value, products.value);
      GroupFits(v, parsed, g);
      parsed := Put(parsed, g);
    }
    r := Some(parsed);
  }

  lemma LongIsNoLayout(v: Json)
    requires StringifyLength(v) > MAX_PAYLOAD_CHARS
    ensures forall groups :: Represents(v, groups) ==> !Acceptable(groups)
  {
    forall groups: seq<Group> | Represents(v, groups) && Acceptable(groups) ensures false { LayoutsAreShort(v, groups); }
  }

  lemma FlattenMore(parsed: seq<Group>, g: Group)
    ensures Flatten(parsed + [g]) == Flatten(parsed) + g.products
  {
    assert (parsed + [g])[..|parsed|] == parsed;
  }

  lemma AcceptableMore(parsed: seq<Group>, g: Group)
    requires Acceptable(parsed) && |parsed| < MAX_CATEGORIES
    requires IsUuid(g.categoryId) && forall id :: id in g.products ==> IsUuid(id)
    requires |Flatten(parsed)| + |g.products| <= MAX_PRODUCTS && Distinct(Flatten(parsed) + g.products)
    ensures Acceptable(parsed + [g])
  {
    FlattenMore(parsed, g);
  }

  lemma GroupFits(v: Json, parsed: seq<Group>, g: Group)
    requires v.Object? && Distinct(Map(EntryKey, v.entries)) && Begins(v, parsed) && |parsed| < |v.entries| <= MAX_CATEGORIES
    requires Acceptable(parsed) && v.entries[|parsed|] == AsEntry(g)
    requires IsUuid(g.categoryId) && forall id :: id in g.products ==> IsUuid(id)
    requires |Flatten(parsed)| + |g.products| <= MAX_PRODUCTS && Distinct(Flatten(parsed) + g.products)
    ensures Put(parsed, g) == parsed + [g]
    ensures Begins(v, parsed + [g]) && Acceptable(parsed + [g])
    ensures Flatten(parsed + [g]) == Flatten(parsed) + g.products
  {
    KeyIsNew(v, parsed);
    PutNew(parsed, g);
    FlattenMore(parsed, g);
    AcceptableMore(parsed, g);
  }

  lemma KeyIsNew(v: Json, parsed: seq<Group>)
    requires v.Object? && Distinct(Map(EntryKey, v.entries)) && Begins(v, parsed) && |parsed| < |v.entries|
    ensures forall k :: 0 <= k < |parsed| ==> parsed[k].categoryId != v.entries[|parsed|].key
  {
    var keys := Map(EntryKey, v.entries);
    forall k | 0 <= k < |parsed| ensures parsed[k].categoryId != v.entries[|parsed|].key {
      assert keys[k] == parsed[k].categoryId && keys[k] != keys[|parsed|];
    }
  }

  lemma NoLayoutBecause(v: Json, parsed: seq<Group>)
    requires v.Object? && Begins(v, parsed) && |parsed| < |v.entries|
    requires var e: Entry := v.entries[|parsed|]; !IsUuid(e.key) || forall ids :: IsIdList(e.value, ids) ==> |ids| > MAX_PRODUCTS
    ensures forall groups :: Represents(v, groups) ==> !Acceptable(groups)
  {
    forall groups: seq<Group> | Represents(v, groups) && Acceptable(groups) ensures false { NextGroup(v, parsed, groups); }
  }

  lemma TooMany(v: Json, parsed: seq<Group>, products: seq<string>)
    requires v.Object? && Begins(v, parsed) && |parsed| < |v.entries| && IsIdList(v.entries[|parsed|].value, products)
    requires |Flatten(parsed)| + |products| > MAX_PRODUCTS || !Distinct(Flatten(parsed) + products)
    ensures forall groups :: Represents(v, groups) ==> !Acceptable(groups)
  {
    forall groups: seq<Group> | Represents(v, groups) && Acceptable(groups) ensures false {
      NextGroup(v, parsed, groups);
      IdListIsUnique(v.entries[|parsed|].value, products, groups[|parsed|].products);
    }
  }

  // ---- the length limit never decides --------------------------------------------------------

  lemma {:induction false} UuidUnits(s: string)
    requires forall i :: 0 <= i < |s| ==> IsHex(s[i]) || s[i] == '-'
    ensures TextUnits(s) == |s|
  {
    if s != "" { UuidUnits(s[..|s| - 1]); }
  }

  lemma {:induction false} IdsLength(ids: seq<string>)
    requires forall id :: id in ids ==> IsUuid(id)
    ensures ItemsLength(Texts(ids)) == 38 * |ids|
  {
    if ids != [] {
      var init := ids[..|ids| - 1];
      IdsLength(init);
      assert Texts(ids)[..|ids| - 1] == Texts(init);
      assert ids[|ids| - 1] in ids;
      UuidUnits(ids[|ids| - 1]);
    }
  }

  lemma GroupLength(g: Group)
    requires IsUuid(g.categoryId) && forall id :: id in g.products ==> IsUuid(id)
    ensures TextUnits(AsEntry(g).key) + 3 + StringifyLength(AsEntry(g).value) <= 41 + 39 * |g.products|
  {
    UuidUnits(g.categoryId);
    IdsLength(g.products);
  }

  lemma {:induction false} GroupsLength(entries: seq<Entry>, groups: seq<Group>)
    requires |entries| == |groups| && forall i :: 0 <= i < |groups| ==> entries[i] == AsEntry(groups[i])
    requires forall g :: g in groups ==> IsUuid(g.categoryId) && forall id :: id in g.products ==> IsUuid(id)
    ensures EntriesLength(entries) <= 41 * |groups| + 39 * |Flatten(groups)|
  {
    if groups != [] {
      var n := |groups| - 1;
      GroupsLength(entries[..n], groups[..n]);
      assert groups[n] in groups;
      GroupLength(groups[n]);
      assert EntriesLength(entries) == EntriesLength(entries[..n]) + TextUnits(entries[n].key) + 3 + StringifyLength(entries[n].value);
    }
  }

  /** An acceptable layout is always far shorter than the maximal length, so that limit never decides. */
  lemma LayoutsAreShort(v: Json, groups: seq<Group>)
    requires Represents(v, groups) && Acceptable(groups)
    ensures StringifyLength(v) <= 170498 < MAX_PAYLOAD_CHARS
  {
    GroupsLength(v.entries, groups);
  }
}
