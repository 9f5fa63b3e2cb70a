/** The field catalogue of the list-query builder (builder/columns.go): for
    each entity a map from field id to column name, the list of all columns,
    the resolution of a requested field list, and the relation descriptors of
    an article listing. */
module Columns {
  import opened Wrappers
  import opened Status
  import opened Text
  import opened Models
  import opened Keys
  import Shop

  /** A catalogue: field id to column, and every column in ascending id order. */
  datatype FieldColumns = FieldColumns(m: map<int, string>, all: seq<string>)

  // ---------------------------------------------------------------------------
  // The catalogues. Field ids follow the declaration order of the enums
  // (shop.ArticleFields, MediaFields, CategoryFields, BasePriceFields,
  // VariantFields), 0 being ALL.

  const ArticleMap: map<int, string> := map[
    1 := "id", 2 := "created_at", 3 := "updated_at", 4 := "published",
    5 := "title", 6 := "description", 7 := "price", 8 := "promoted"]
  const ImageMap: map<int, string> := map[1 := "id", 2 := "label", 3 := "url"]
  const VideoMap: map<int, string> := map[1 := "id", 2 := "label", 3 := "url"]
  const CategoryMap: map<int, string> := map[
    1 := "id", 2 := "created_at", 3 := "updated_at", 4 := "label"]
  const BasePriceMap: map<int, string> := map[
    1 := "id", 2 := "created_at", 3 := "updated_at", 4 := "label", 5 := "price"]
  const VariantMap: map<int, string> := map[
    1 := "id", 2 := "created_at", 3 := "updated_at", 4 := "labels", 5 := "multiplier"]

  /** The catalogues as `init` leaves them: `all` lists the columns in
      ascending field id order (CataloguesInitialised). */
  const ArticleFieldColumns := FieldColumns(ArticleMap,
    ["id", "created_at", "updated_at", "published", "title", "description", "price", "promoted"])
  const ImageFieldColumns := FieldColumns(ImageMap, ["id", "label", "url"])
  const VideoFieldColumns := FieldColumns(VideoMap, ["id", "label", "url"])
  const CategoryFieldColumns := FieldColumns(CategoryMap, ["id", "created_at", "updated_at", "label"])
  const BasePriceFieldColumns := FieldColumns(BasePriceMap, ["id", "created_at", "updated_at", "label", "price"])
  const VariantFieldColumns := FieldColumns(VariantMap, ["id", "created_at", "updated_at", "labels", "multiplier"])

  // ---------------------------------------------------------------------------
  // `all`: the columns in ascending id order

  /** The catalogue's columns ordered by ascending field id. */
  function AllColumns(m: map<int, string>): (all: seq<string>)
    ensures |all| == |m.Keys|
  {
    var ks := SortedKeys(m.Keys);
    seq(|ks|, i requires 0 <= i < |ks| => assert ks[i] in ks; m[ks[i]])
  }

  /** `all` lists every catalogued column and nothing else. */
  lemma AllColumnsCatalogue(m: map<int, string>)
    ensures forall k :: k in m ==> m[k] in AllColumns(m)
    ensures forall c :: c in AllColumns(m) ==> c in m.Values
  {
    var ks := SortedKeys(m.Keys);
    var all := AllColumns(m);
    forall k | k in m ensures m[k] in all {
      var i :| 0 <= i < |ks| && ks[i] == k;
      assert all[i] == m[k];
    }
  }

  /** `all` does not depend on the order in which the map's keys were
      visited: any increasing enumeration of the keys gives it. */
  lemma AllColumnsOfAnyEnumeration(m: map<int, string>, ks: seq<int>)
    requires Increasing(ks) && forall x :: x in ks <==> x in m
    ensures SortedKeys(m.Keys) == ks
    ensures |AllColumns(m)| == |ks|
    ensures forall i :: 0 <= i < |ks| ==> ks[i] in m && AllColumns(m)[i] == m[ks[i]]
  {
    IncreasingUnique(ks, SortedKeys(m.Keys));
  }

  /** `init` for one catalogue: collect the map's keys in whatever order the
      map yields them, sort them (sort.Ints), and look up each key's column. */
  method InitAll(m: map<int, string>) returns (all: seq<string>)
    ensures all == AllColumns(m)
  {
    var keys := CollectKeys(m.Keys);
    var s := SortInts(keys);
    AllColumnsOfAnyEnumeration(m, s);
    ghost var spec := AllColumns(m);
    var cols := seq(|s|, _ => "");
    for i := 0 to |s|
      invariant |cols| == |s|
      invariant forall j :: 0 <= j < i ==> cols[j] == spec[j]
    {
      cols := cols[i := m[s[i]]];
    }
    all := cols;
  }

  /** A catalogue whose field ids are exactly 1..n lists its columns in
      field id order: `all[i]` is the column of field i + 1. */
  lemma AllColumnsConsecutive(m: map<int, string>, n: nat)
    requires forall x :: x in m <==> 1 <= x <= n
    ensures |AllColumns(m)| == n
    ensures forall i :: 0 <= i < n ==> AllColumns(m)[i] == m[i + 1]
  {
    var ks := CountingUp(n);
    AllColumnsOfAnyEnumeration(m, ks);
  }

  /** The ids 1..n in increasing order. */
  lemma CountingUp(n: nat) returns (ks: seq<int>)
    ensures |ks| == n && Increasing(ks)
    ensures forall i :: 0 <= i < n ==> ks[i] == i + 1
    ensures forall x :: x in ks <==> 1 <= x <= n
  {
    ks := seq(n, i requires 0 <= i < n => i + 1);
    forall x | 1 <= x <= n ensures x in ks {
      assert ks[x - 1] == x;
    }
  }

  /** Every catalogue numbers its fields 1..n, so each `all` is in the
      order of its enum. */
  lemma CataloguesConsecutive()
    ensures forall x :: x in ArticleMap <==> 1 <= x <= 8
    ensures forall x :: x in ImageMap <==> 1 <= x <= 3
    ensures forall x :: x in VideoMap <==> 1 <= x <= 3
    ensures forall x :: x in CategoryMap <==> 1 <= x <= 4
    ensures forall x :: x in BasePriceMap <==> 1 <= x <= 5
    ensures forall x :: x in VariantMap <==> 1 <= x <= 5
  {
    ArticleKeys();
    MediaKeys();
    CategoryKeys();
    PricingKeys();
  }

  lemma ArticleKeys()
    ensures forall x :: x in ArticleMap <==> 1 <= x <= 8
  {
    assert ArticleMap.Keys == {1, 2, 3, 4, 5, 6, 7, 8};
  }

  lemma MediaKeys()
    ensures forall x :: x in ImageMap <==> 1 <= x <= 3
    ensures forall x :: x in VideoMap <==> 1 <= x <= 3
  {
    assert ImageMap.Keys == {1, 2, 3};
    assert VideoMap.Keys == {1, 2, 3};
  }

  lemma CategoryKeys()
    ensures forall x :: x in CategoryMap <==> 1 <= x <= 4
  {
    assert CategoryMap.Keys == {1, 2, 3, 4};
  }

  lemma PricingKeys()
    ensures forall x :: x in BasePriceMap <==> 1 <= x <= 5
    ensures forall x :: x in VariantMap <==> 1 <= x <= 5
  {
    assert BasePriceMap.Keys == {1, 2, 3, 4, 5};
    assert VariantMap.Keys == {1, 2, 3, 4, 5};
  }

  /** A list that names the columns of fields 1..n in order is `all`. */
  lemma InitialisedAs(m: map<int, string>, all: seq<string>, n: nat)
    requires forall x :: x in m <==> 1 <= x <= n
    requires |all| == n && forall i :: 0 <= i < n ==> all[i] == m[i + 1]
    ensures all == AllColumns(m)
  {
    AllColumnsConsecutive(m, n);
  }

  /** Each catalogue's `all` is what `init` computes from its map. */
  lemma ArticleInitialised()
    ensures ArticleFieldColumns.all == AllColumns(ArticleMap)
  {
    CataloguesConsecutive();
    InitialisedAs(ArticleMap, ArticleFieldColumns.all, 8);
  }

  lemma ImageInitialised()
    ensures ImageFieldColumns.all == AllColumns(ImageMap)
  {
    CataloguesConsecutive();
    InitialisedAs(ImageMap, ImageFieldColumns.all, 3);
  }

  lemma VideoInitialised()
    ensures VideoFieldColumns.all == AllColumns(VideoMap)
  {
    CataloguesConsecutive();
    InitialisedAs(VideoMap, VideoFieldColumns.all, 3);
  }

  lemma CategoryInitialised()
    ensures CategoryFieldColumns.all == AllColumns(CategoryMap)
  {
    CataloguesConsecutive();
    InitialisedAs(CategoryMap, CategoryFieldColumns.all, 4);
  }

  lemma BasePriceInitialised()
    ensures BasePriceFieldColumns.all == AllColumns(BasePriceMap)
  {
    CataloguesConsecutive();
    InitialisedAs(BasePriceMap, BasePriceFieldColumns.all, 5);
  }

  lemma VariantInitialised()
    ensures VariantFieldColumns.all == AllColumns(VariantMap)
  {
    CataloguesConsecutive();
    InitialisedAs(VariantMap, VariantFieldColumns.all, 5);
  }

  // ---------------------------------------------------------------------------
  // Resolving a requested field list

  /** An id that names a column: not ALL, and present in the map. */
  predicate Mapped(m: map<int, string>, id: int)
  {
    id != 0 && id in m
  }

  /** The position of the first id that is ALL or unmapped; |fids| if none. */
  function FirstUnmapped(m: map<int, string>, fids: seq<int>): (k: nat)
    ensures k <= |fids|
    ensures forall j :: 0 <= j < k ==> Mapped(m, fids[j])
    ensures k < |fids| ==> !Mapped(m, fids[k])
  {
    if |fids| == 0 || !Mapped(m, fids[0]) then 0
    else 1 + FirstUnmapped(m, fids[1..])
  }

  /** What `columns` returns: the columns and 0, `all` and 0 when ALL comes
      first, or no columns and the first unmapped id. */
  function Resolve(fc: FieldColumns, fids: seq<int>): (seq<string>, int)
  {
    var k := FirstUnmapped(fc.m, fids);
    if k == |fids| then (seq(|fids|, i requires 0 <= i < |fids| && Mapped(fc.m, fids[i]) => fc.m[fids[i]]), 0)
    else if fids[k] == 0 then (fc.all, 0)
    else ([], fids[k])
  }

  lemma FirstUnmappedAt(m: map<int, string>, fids: seq<int>, k: nat)
    requires k <= |fids|
    requires forall j :: 0 <= j < k ==> Mapped(m, fids[j])
    requires k < |fids| ==> !Mapped(m, fids[k])
    ensures FirstUnmapped(m, fids) == k
  {
    var f := FirstUnmapped(m, fids);
    if f < k {
      assert false;
    } else if f > k {
      assert false;
    }
  }

  /** ALL met before any unmapped id gives every column. */
  lemma ResolveAll(fc: FieldColumns, fids: seq<int>, k: nat)
    requires k < |fids| && fids[k] == 0
    requires forall j :: 0 <= j < k ==> Mapped(fc.m, fids[j])
    ensures Resolve(fc, fids) == (fc.all, 0)
  {
    FirstUnmappedAt(fc.m, fids, k);
  }

  /** An unmapped id met before any ALL is reported, with no columns. */
  lemma ResolveUnmapped(fc: FieldColumns, fids: seq<int>, k: nat)
    requires k < |fids| && fids[k] != 0 && fids[k] !in fc.m
    requires forall j :: 0 <= j < k ==> Mapped(fc.m, fids[j])
    ensures Resolve(fc, fids) == ([], fids[k])
  {
    FirstUnmappedAt(fc.m, fids, k);
  }

  /** Without ALL and unmapped ids, each id is replaced by its column. */
  lemma ResolveMapped(fc: FieldColumns, fids: seq<int>)
    requires forall j :: 0 <= j < |fids| ==> Mapped(fc.m, fids[j])
    ensures Resolve(fc, fids).1 == 0
    ensures |Resolve(fc, fids).0| == |fids|
    ensures forall i :: 0 <= i < |fids| ==> Resolve(fc, fids).0[i] == fc.m[fids[i]]
  {
    FirstUnmappedAt(fc.m, fids, |fids|);
  }

  /** fieldColumns.columns: fills a slice of the request's length in one
      pass, stopping at the first ALL or unmapped id. */
  method ResolveColumns(fc: FieldColumns, fids: seq<int>) returns (cols: seq<string>, id: int)
    ensures (cols, id) == Resolve(fc, fids)
  {
    var out := new string[|fids|];
    for i := 0 to |fids|
      invariant forall j :: 0 <= j < i ==> Mapped(fc.m, fids[j]) && out[j] == fc.m[fids[j]]
    {
      if fids[i] == 0 {
        ResolveAll(fc, fids, i);
        return fc.all, 0;
      }
      if fids[i] !in fc.m {
        ResolveUnmapped(fc, fids, i);
        return [], fids[i];
      }
      out[i] := fc.m[fids[i]];
    }
    ResolveMapped(fc, fids);
    assert out[..] == Resolve(fc, fids).0;
    return out[..], 0;
  }

  /** The error for a field id no column is mapped to. */
  function FieldError(id: int): Error
  {
    Status(Unimplemented, "Field " + IntToString(id) + " not defined")
  }

  /** The `XColumns` wrappers: the resolved columns, or Unimplemented when
      resolution reported an unmapped id. */
  function FieldsResult(fc: FieldColumns, fields: seq<int>): Result<seq<string>, Error>
  {
    var (cols, id) := Resolve(fc, fields);
    if id != 0 then Failure(FieldError(id)) else Success(cols)
  }

  /** A field list fails exactly when its first ALL-or-unmapped entry is not
      ALL, with the Unimplemented error naming that entry; otherwise it gives
      what `columns` resolved. */
  lemma FieldsResultSpec(fc: FieldColumns, fields: seq<int>)
    ensures var r := FieldsResult(fc, fields); var k := FirstUnmapped(fc.m, fields);
      (r.Failure? <==> k < |fields| && fields[k] != 0) &&
      (r.Failure? ==> r.error == FieldError(fields[k])) &&
      (r.Success? ==> r.value == Resolve(fc, fields).0)
  {
  }

  /** Only catalogued columns come out of a catalogue whose `all` is as
      `init` sets it: a requested field list can never inject a column name. */
  lemma ColumnsCatalogued(fc: FieldColumns, fields: seq<int>)
    requires fc.all == AllColumns(fc.m)
    ensures FieldsResult(fc, fields).Success? ==>
      forall c :: c in FieldsResult(fc, fields).value ==> c in fc.m.Values
  {
    var k := FirstUnmapped(fc.m, fields);
    var cols := Resolve(fc, fields).0;
    if k == |fields| {
      forall c | c in cols ensures c in fc.m.Values {
        var i :| 0 <= i < |fields| && cols[i] == c;
        assert Mapped(fc.m, fields[i]);
        assert fc.m[fields[i]] == c;
      }
    } else if fields[k] == 0 {
      assert cols == AllColumns(fc.m);
      AllColumnsCatalogue(fc.m);
    }
  }

  /** The six catalogue wrappers (ArticleColumns … VariantColumns). */
  function ArticleColumns(fields: seq<int>): (r: Result<seq<string>, Error>)
  {
    FieldsResult(ArticleFieldColumns, fields)
  }

  function ImageColumns(fields: seq<int>): (r: Result<seq<string>, Error>)
  {
    FieldsResult(ImageFieldColumns, fields)
  }

  function VideoColumns(fields: seq<int>): (r: Result<seq<string>, Error>)
  {
    FieldsResult(VideoFieldColumns, fields)
  }

  function CategoryColumns(fields: seq<int>): (r: Result<seq<string>, Error>)
  {
    FieldsResult(CategoryFieldColumns, fields)
  }

  function BasePriceColumns(fields: seq<int>): (r: Result<seq<string>, Error>)
  {
    FieldsResult(BasePriceFieldColumns, fields)
  }

  function VariantColumns(fields: seq<int>): (r: Result<seq<string>, Error>)
  {
    FieldsResult(VariantFieldColumns, fields)
  }

  /** The examples of columns_test.go on its three-column catalogue. */
  lemma ResolveExamples()
    ensures var fc := FieldColumns(map[1 := "one", 2 := "two", 3 := "three"], ["one", "two", "three"]);
      Resolve(fc, []) == ([], 0) &&
      Resolve(fc, [2, 3]) == (["two", "three"], 0) &&
      Resolve(fc, [2, 0]) == (["one", "two", "three"], 0) &&
      Resolve(fc, [2, 3, 4]) == ([], 4)
  {
    var fc := FieldColumns(map[1 := "one", 2 := "two", 3 := "three"], ["one", "two", "three"]);
    ResolveMapped(fc, []);
    ResolveMapped(fc, [2, 3]);
    assert Resolve(fc, [2, 3]).0 == ["two", "three"];
    ResolveAll(fc, [2, 0], 1);
    ResolveUnmapped(fc, [2, 3, 4], 2);
  }

  // ---------------------------------------------------------------------------
  // Relations of an article listing

  /** How a related table is reached from an article: directly through its
      `id` column (`article_id`), or through a join table whose two columns
      lead from the article to the related row. An empty join table means a
      direct relation. */
  datatype Relation = Relation(
    name: string,
    columns: seq<string>,
    id: string,
    joinTable: string,
    joinIDs: (string, string))

  /** The five relations in the order articleRelations emits them. */
  const RelationNames: seq<string> :=
    [ImagesTable, VideosTable, CategoriesTable, BasePricesTable, VariantsTable]

  /** The place of a relation in the emission order; 5 for any other name. */
  function Rank(name: string): nat
  {
    if name == ImagesTable then 0
    else if name == VideosTable then 1
    else if name == CategoriesTable then 2
    else if name == BasePricesTable then 3
    else if name == VariantsTable then 4
    else 5
  }

  /** The descriptor of relation `i` of the emission order over `cols`. */
  function Describe(i: nat, cols: seq<string>): (r: Relation)
    requires i < 5
    ensures r.name == RelationNames[i] && r.columns == cols
  {
    if i == 0 then Relation(ImagesTable, cols, "article_id", "", ("", ""))
    else if i == 1 then Relation(VideosTable, cols, "article_id", "", ("", ""))
    else if i == 2 then Relation(CategoriesTable, cols, "id", CategoryArticlesTable, ("article_id", "category_id"))
    else if i == 3 then Relation(BasePricesTable, cols, "id", ArticleBasePricesTable, ("article_id", "base_price_id"))
    else Relation(VariantsTable, cols, "article_id", "", ("", ""))
  }

  /** A well-formed descriptor: categories and base prices go through a
      join table from `article_id` and join on their own `id`; the others
      have no join table and join on `article_id`. */
  predicate WellFormed(r: Relation)
  {
    |r.columns| > 0 &&
    (r.joinTable != "" <==> r.name == CategoriesTable || r.name == BasePricesTable) &&
    (r.joinTable == "" ==> r.id == "article_id") &&
    (r.joinTable != "" ==> r.id == "id" && r.joinIDs.0 == "article_id")
  }

  lemma DescribeWellFormed(i: nat, cols: seq<string>)
    requires i < 5 && |cols| > 0
    ensures WellFormed(Describe(i, cols))
    ensures Rank(Describe(i, cols).name) == i
  {
  }

  /** The five column lists of a relations request, in emission order. */
  function RelationColumns(rel: Shop.ArticleRelations): (rs: seq<Result<seq<string>, Error>>)
    ensures |rs| == 5
  {
    [ImageColumns(rel.images), VideoColumns(rel.videos), CategoryColumns(rel.categories),
     BasePriceColumns(rel.baseprices), VariantColumns(rel.variants)]
  }

  /** The descriptors contributed by the first `n` column lists: one for
      each list that resolved to at least one column. */
  function Parts(rs: seq<Result<seq<string>, Error>>, n: nat): seq<Relation>
    requires n <= |rs| && n <= 5
  {
    if n == 0 then []
    else
      var r := rs[n - 1];
      Parts(rs, n - 1) + (if r.Success? && |r.value| > 0 then [Describe(n - 1, r.value)] else [])
  }

  /** Later column lists do not change the descriptors of earlier ones. */
  lemma {:induction false} PartsPrefix(rs: seq<Result<seq<string>, Error>>, x: Result<seq<string>, Error>, n: nat)
    requires n <= |rs| && n <= 5
    ensures Parts(rs + [x], n) == Parts(rs, n)
  {
    if n > 0 {
      PartsPrefix(rs, x, n - 1);
      assert (rs + [x])[n - 1] == rs[n - 1];
    }
  }

  /** Every descriptor is well formed and comes from one of the first `n`
      relations. */
  lemma {:induction false} PartsWellFormed(rs: seq<Result<seq<string>, Error>>, n: nat)
    requires n <= |rs| && |rs| == 5
    ensures forall i :: 0 <= i < |Parts(rs, n)| ==> WellFormed(Parts(rs, n)[i]) && Rank(Parts(rs, n)[i].name) < n
  {
    if n > 0 {
      PartsWellFormed(rs, n - 1);
      var r := rs[n - 1];
      if r.Success? && |r.value| > 0 {
        DescribeWellFormed(n - 1, r.value);
      }
    }
  }

  /** The descriptors come in emission order. */
  lemma {:induction false} PartsOrdered(rs: seq<Result<seq<string>, Error>>, n: nat)
    requires n <= |rs| && |rs| == 5
    ensures forall i, j :: 0 <= i < j < |Parts(rs, n)| ==> Rank(Parts(rs, n)[i].name) < Rank(Parts(rs, n)[j].name)
  {
    if n > 0 {
      PartsOrdered(rs, n - 1);
      PartsWellFormed(rs, n - 1);
      var r := rs[n - 1];
      if r.Success? && |r.value| > 0 {
        DescribeWellFormed(n - 1, r.value);
      }
    }
  }

  /** Some descriptor of `p` is for the relation `name`. */
  predicate HasRelation(p: seq<Relation>, name: string)
  {
    exists i :: 0 <= i < |p| && p[i].name == name
  }

  lemma HasRelationAppend(q: seq<Relation>, d: Relation, name: string)
    ensures HasRelation(q + [d], name) <==> HasRelation(q, name) || d.name == name
  {
    var p := q + [d];
    if HasRelation(p, name) {
      var i :| 0 <= i < |p| && p[i].name == name;
      if i < |q| { assert q[i] == p[i]; }
    }
    if HasRelation(q, name) {
      var i :| 0 <= i < |q| && q[i].name == name;
      assert p[i] == q[i];
    }
    if d.name == name {
      assert p[|q|] == d;
    }
  }

  /** Relation k is present exactly when its column list resolved to at
      least one column. */
  lemma {:induction false} PartsPresent(rs: seq<Result<seq<string>, Error>>, n: nat, k: nat)
    requires n <= |rs| && |rs| == 5 && k < n
    ensures HasRelation(Parts(rs, n), RelationNames[k]) <==> rs[k].Success? && |rs[k].value| > 0
  {
    var q := Parts(rs, n - 1);
    var r := rs[n - 1];
    if k < n - 1 {
      PartsPresent(rs, n - 1, k);
      RanksDiffer(k, n - 1);
    } else {
      PartsWellFormed(rs, n - 1);
      if HasRelation(q, RelationNames[k]) {
        assert false;
      }
    }
    if r.Success? && |r.value| > 0 {
      assert Parts(rs, n) == q + [Describe(n - 1, r.value)];
      HasRelationAppend(q, Describe(n - 1, r.value), RelationNames[k]);
    } else {
      assert Parts(rs, n) == q;
    }
  }

  lemma RanksDiffer(k: nat, l: nat)
    requires k < 5 && l < 5 && k != l
    ensures RelationNames[k] != RelationNames[l]
  {
    assert Rank(RelationNames[k]) == k && Rank(RelationNames[l]) == l;
  }

  /** The position of the first failed resolution; |rs| if none failed. */
  function FirstFailure(rs: seq<Result<seq<string>, Error>>): (k: nat)
    ensures k <= |rs|
    ensures forall j :: 0 <= j < k ==> rs[j].Success?
    ensures k < |rs| ==> rs[k].Failure?
  {
    if |rs| == 0 || rs[0].Failure? then 0 else 1 + FirstFailure(rs[1..])
  }

  /** What articleRelations returns: the first resolution error in emission
      order, or one descriptor per relation whose column list is not empty. */
  function RelationsOf(rel: Shop.ArticleRelations): (r: Result<seq<Relation>, Error>)
    ensures var rs := RelationColumns(rel);
      r.Failure? <==> exists i :: 0 <= i < 5 && rs[i].Failure?
  {
    RelationsFrom(RelationColumns(rel))
  }

  function RelationsFrom(rs: seq<Result<seq<string>, Error>>): Result<seq<Relation>, Error>
    requires |rs| == 5
  {
    var k := FirstFailure(rs);
    if k < 5 then Failure(rs[k].error)
    else Success(Parts(rs, 5))
  }

  lemma FirstFailureAt(rs: seq<Result<seq<string>, Error>>, k: nat)
    requires k <= |rs| && (k < |rs| ==> rs[k].Failure?)
    requires forall j :: 0 <= j < k ==> rs[j].Success?
    ensures FirstFailure(rs) == k
  {
    var f := FirstFailure(rs);
    if f < k {
      assert false;
    } else if f > k {
      assert false;
    }
  }

  /** A failed listing reports the error of the earliest failing relation. */
  lemma RelationsError(rel: Shop.ArticleRelations, k: nat)
    requires var rs := RelationColumns(rel);
      k < 5 && rs[k].Failure? && forall j :: 0 <= j < k ==> rs[j].Success?
    ensures RelationsOf(rel) == Failure(RelationColumns(rel)[k].error)
  {
    FirstFailureAt(RelationColumns(rel), k);
  }

  /** A successful listing: well-formed descriptors in emission order, the
      relation named k present exactly when its fields resolved to columns. */
  lemma RelationsShape(rel: Shop.ArticleRelations)
    requires RelationsOf(rel).Success?
    ensures var p := RelationsOf(rel).value;
      forall i :: 0 <= i < |p| ==> WellFormed(p[i])
    ensures var p := RelationsOf(rel).value;
      forall i, j :: 0 <= i < j < |p| ==> Rank(p[i].name) < Rank(p[j].name)
    ensures forall k :: 0 <= k < 5 ==>
      (HasRelation(RelationsOf(rel).value, RelationNames[k]) <==> |RelationColumns(rel)[k].value| > 0)
  {
    var rs := RelationColumns(rel);
    PartsWellFormed(rs, 5);
    PartsOrdered(rs, 5);
    forall k | 0 <= k < 5 ensures HasRelation(Parts(rs, 5), RelationNames[k]) <==> |rs[k].value| > 0 {
      PartsPresent(rs, 5, k);
    }
  }

  /** articleRelations: resolves the five column lists in order, appending a
      descriptor for each non-empty one and recording each error, then
      returns the first recorded error, if any. */
  method ArticleRelations(rel: Shop.ArticleRelations) returns (r: Result<seq<Relation>, Error>)
    ensures r == RelationsOf(rel)
  {
    ghost var rs := RelationColumns(rel);
    var br: seq<Relation> := [];
    var errs: seq<Option<Error>> := [None, None, None, None, None];
    br, errs := AppendRelation(br, errs, 0, ImageColumns(rel.images), rs);
    br, errs := AppendRelation(br, errs, 1, VideoColumns(rel.videos), rs);
    br, errs := AppendRelation(br, errs, 2, CategoryColumns(rel.categories), rs);
    br, errs := AppendRelation(br, errs, 3, BasePriceColumns(rel.baseprices), rs);
    br, errs := AppendRelation(br, errs, 4, VariantColumns(rel.variants), rs);
    for i := 0 to 5
      invariant forall j :: 0 <= j < i ==> rs[j].Success?
    {
      if errs[i].Some? {
        FirstFailureAt(rs, i);
        return Failure(errs[i].value);
      }
    }
    FirstFailureAt(rs, 5);
    return Success(br);
  }

  /** One step of articleRelations: records the error of column list `i`
      and appends its descriptor when it resolved to at least one column. */
  method AppendRelation(br: seq<Relation>, errs: seq<Option<Error>>, i: nat,
                        res: Result<seq<string>, Error>, ghost rs: seq<Result<seq<string>, Error>>)
    returns (br': seq<Relation>, errs': seq<Option<Error>>)
    requires |rs| == 5 && i < 5 && rs[i] == res && |errs| == 5
    requires br == Parts(rs, i)
    requires forall j :: 0 <= j < i ==> errs[j] == ErrorOf(rs[j])
    ensures br' == Parts(rs, i + 1)
    ensures |errs'| == 5 && forall j :: 0 <= j <= i ==> errs'[j] == ErrorOf(rs[j])
  {
    var cols := ColumnsOrNil(res);
    errs' := errs[i := ErrorOf(res)];
    br' := br;
    if |cols| > 0 {
      br' := br' + [Describe(i, cols)];
    }
  }

  /** The two halves of a Go (columns, error) pair: nil columns on error. */
  function ColumnsOrNil(r: Result<seq<string>, Error>): seq<string>
  {
    if r.Success? then r.value else []
  }

  function ErrorOf<T>(r: Result<T, Error>): Option<Error>
  {
    if r.Success? then None else Some(r.error)
  }
}
