/** The article list-query builder (builder/builder.go): from the conditions
    of a listing it renders one SQL statement that returns every matching
    article, with its requested relations, as a single JSON array. */
module Builder {
  import opened Wrappers
  import opened Status
  import opened Text
  import opened Models
  import opened Columns
  import Shop

  // ---------------------------------------------------------------------------
  // Templates

  /** The outer statement: the CTEs, the object's key/value list, and one
      join per relation CTE. The templates are multi-line strings; each is
      written here as its lines joined by newlines. */
  function ListQuery(ctes: string, jbo: string, joins: string): string
  {
    Join(["with " + ctes,
          "select json_agg(",
          "\tjson_build_object(",
          "\t\t" + jbo,
          "\t)",
          ")",
          "from arts a",
          joins + ";"], "\n")
  }

  /** The `filters` CTE selecting the matching ids, and the `arts` CTE
      selecting the requested columns of a page of them. The `arts` CTE joins
      `shop.articles` whatever the schema argument says. */
  function MainCTE(schema: string, name: string, filters: string, sel: string, limits: string): string
  {
    Join(["filters as (",
          "\tselect m.id",
          "\tfrom " + schema + "." + name + " m",
          "\t" + filters,
          "),",
          "arts as (",
          "\tselect " + sel,
          "\tfrom filters f",
          "\tjoin shop.articles a on a.id = f.id",
          "\t" + limits,
          ")"], "\n")
  }

  /** A relation CTE: per article, the JSON array of its related rows, or
      JSON null when there are none. */
  function RelationCTE(alias: string, jbo: string, joins: string): string
  {
    Join([alias + " as (",
          "\tselect arts.id, coalesce(json_agg(",
          "\t\tjson_build_object(",
          "\t\t\t" + jbo,
          "\t\t)",
          "\t) filter (where r.id is not null), null::JSON) as js",
          "\tfrom arts",
          "\t" + joins,
          "\tgroup by arts.id",
          ")"], "\n")
  }

  /** leftJoin: `left join schema.table alias on alias.column = la.lc`. */
  function LeftJoin(schema: string, table: string, alias: string, column: string, la: string, lc: string): string
  {
    "left join " + schema + "." + table + " " + alias + " on " + alias + "." + column + " = " + la + "." + lc
  }

  /** The left joins that reach a relation's rows from `arts`: one straight
      to the related table for a direct relation, or one to the join table
      (alias `j`) followed by one to the related table for a join-table
      relation. */
  function JoinClauses(r: Relation, schema: string): (c: seq<string>)
    ensures |c| == (if r.joinTable == "" then 1 else 2)
    ensures c[|c| - 1] == LeftJoin(schema, r.name, "r", r.id, if r.joinTable == "" then "arts" else "j",
      if r.joinTable == "" then "id" else r.joinIDs.1)
  {
    if r.joinTable == "" then [LeftJoin(schema, r.name, "r", r.id, "arts", "id")]
    else [LeftJoin(schema, r.joinTable, "j", r.joinIDs.0, "arts", "id"),
          LeftJoin(schema, r.name, "r", r.id, "j", r.joinIDs.1)]
  }

  /** relation.joins */
  function Joins(r: Relation, schema: string): string
  {
    Join(JoinClauses(r, schema), "\n\t")
  }

  // ---------------------------------------------------------------------------
  // Object keys and values

  function Quote(c: string): string
  {
    "'" + c + "'"
  }

  predicate IsNumeric(col: string)
  {
    col == "price" || col == "multiplier"
  }

  /** jboCast: `alias.col`, cast to text for the decimal columns so that
      their digits reach the JSON as a string, unrounded. */
  function JboCast(alias: string, col: string): (s: string)
    ensures |s| >= |alias| + 1 + |col| && s[..|alias| + 1 + |col|] == alias + "." + col
    ensures |s| > |alias| + 1 + |col| <==> IsNumeric(col)
    ensures |s| > |alias| + 1 + |col| ==> s[|alias| + 1 + |col|..] == "::text"
  {
    if IsNumeric(col) then alias + "." + col + "::text" else alias + "." + col
  }

  /** The key/value list of the columns `cols` of the row alias `alias`. */
  function Pairs(alias: string, cols: seq<string>): (p: seq<string>)
    ensures |p| == 2 * |cols|
  {
    if |cols| == 0 then []
    else
      var c := cols[|cols| - 1];
      Pairs(alias, cols[..|cols| - 1]) + [Quote(c), JboCast(alias, c)]
  }

  /** The i-th column contributes its quoted name as key and its (cast)
      reference as value, at positions 2i and 2i+1. */
  lemma {:induction false} PairsAt(alias: string, cols: seq<string>, i: nat)
    requires i < |cols|
    ensures Pairs(alias, cols)[2 * i] == Quote(cols[i])
    ensures Pairs(alias, cols)[2 * i + 1] == JboCast(alias, cols[i])
  {
    var n := |cols| - 1;
    if i < n {
      PairsAt(alias, cols[..n], i);
      assert cols[..n][i] == cols[i];
    }
  }

  // ---------------------------------------------------------------------------
  // One relation

  /** The spec of relation.build: the relation's CTE under `alias`, and its
      key/value pair in the outer object. */
  function RelationBuild(r: Relation, schema: string, alias: string): (string, seq<string>)
  {
    (RelationCTE(alias, Join(Pairs("r", r.columns), ", "), Joins(r, schema)), RelationPair(r.name, alias))
  }

  /** A relation's key and value in the outer object: its name, and the
      JSON its CTE aggregated. */
  function RelationPair(name: string, alias: string): seq<string>
  {
    [Quote(name), alias + ".js"]
  }

  /** relation.build: the key/value list of the related columns is built by
      appending one pair per column. */
  method Build(r: Relation, schema: string, alias: string) returns (cte: string, jb: seq<string>)
    ensures (cte, jb) == RelationBuild(r, schema, alias)
  {
    var jbo: seq<string> := [];
    for i := 0 to |r.columns|
      invariant jbo == Pairs("r", r.columns[..i])
    {
      var c := r.columns[i];
      assert r.columns[..i + 1][..i] == r.columns[..i];
      jbo := jbo + [Quote(c), JboCast("r", c)];
    }
    assert r.columns[..|r.columns|] == r.columns;
    cte := RelationCTE(alias, Join(jbo, ", "), Joins(r, schema));
    jb := RelationPair(r.name, alias);
  }

  // ---------------------------------------------------------------------------
  // The listing

  /** The `list` a listing query is rendered from. */
  datatype List = List(name: string, columns: seq<string>, relations: seq<Relation>, limit: int, offset: int)

  /** The `arts` select list: `a.id` first, then `a.<col>` for every other
      requested column, in request order. */
  function SelectList(cols: seq<string>): (sel: seq<string>)
    ensures |sel| >= 1 && sel[0] == "a.id"
  {
    if |cols| == 0 then ["a.id"]
    else
      var c := cols[|cols| - 1];
      SelectList(cols[..|cols| - 1]) + (if c != "id" then ["a." + c] else [])
  }

  /** The requested columns other than `id`, in request order, as `a.<col>`. */
  function NonIdColumns(cols: seq<string>): seq<string>
  {
    if |cols| == 0 then []
    else (if cols[0] != "id" then ["a." + cols[0]] else []) + NonIdColumns(cols[1..])
  }

  lemma {:induction false} NonIdColumnsSnoc(cols: seq<string>, c: string)
    ensures NonIdColumns(cols + [c]) == NonIdColumns(cols) + (if c != "id" then ["a." + c] else [])
  {
    if |cols| > 0 {
      assert (cols + [c])[1..] == cols[1..] + [c];
      NonIdColumnsSnoc(cols[1..], c);
    } else {
      assert [c][1..] == [];
    }
  }

  /** `id` is selected exactly once, first, and every other requested column
      is selected, in request order, and nothing else is. */
  lemma {:induction false} SelectListSpec(cols: seq<string>)
    ensures SelectList(cols) == ["a.id"] + NonIdColumns(cols)
    ensures forall i :: 1 <= i < |SelectList(cols)| ==> SelectList(cols)[i] != "a.id"
    ensures forall c :: c in cols && c != "id" ==> "a." + c in SelectList(cols)
    ensures forall i :: 1 <= i < |SelectList(cols)| ==>
      exists c :: c in cols && c != "id" && SelectList(cols)[i] == "a." + c
  {
    if |cols| > 0 {
      var init := cols[..|cols| - 1];
      var c := cols[|cols| - 1];
      SelectListSpec(init);
      assert cols == init + [c];
      NonIdColumnsSnoc(init, c);
      var s := SelectList(init);
      var t := SelectList(cols);
      assert t == s + (if c != "id" then ["a." + c] else []);
      if c != "id" {
        assert ("a." + c)[2..] == c;
      }
      forall i | 1 <= i < |t| ensures exists x :: x in cols && x != "id" && t[i] == "a." + x {
        if i < |s| {
          var x :| x in init && x != "id" && s[i] == "a." + x;
          assert x in cols && t[i] == s[i];
        } else {
          assert t[i] == "a." + c && c in cols;
        }
      }
    } else {
      assert SelectList(cols) == ["a.id"];
    }
  }

  /** The paging clause: present exactly when a limit is set. */
  function LimitsClause(limit: int, offset: int): (s: string)
    ensures s == "" <==> limit == 0
    ensures limit != 0 ==> s == "limit " + IntToString(limit) + "\n\toffset " + IntToString(offset)
  {
    if limit != 0 then "limit " + IntToString(limit) + "\n\toffset " + IntToString(offset) else ""
  }

  /** The alias of the i-th relation CTE. */
  function Alias(i: nat): string
  {
    "r" + NatToString(i)
  }

  /** Distinct relations get distinct aliases. */
  lemma AliasInjective(i: nat, k: nat)
    requires Alias(i) == Alias(k)
    ensures i == k
  {
    assert NatToString(i) == Alias(i)[1..];
    assert NatToString(k) == Alias(k)[1..];
  }

  function JoinLine(i: nat): string
  {
    "join " + Alias(i) + " on a.id = " + Alias(i) + ".id"
  }

  /** One `join rI on a.id = rI.id` line per relation, in order. */
  function JoinLines(n: nat): (j: seq<string>)
    ensures |j| == n
  {
    if n == 0 then [] else JoinLines(n - 1) + [JoinLine(n - 1)]
  }

  /** The relation CTEs, one per relation. */
  function RelationCtes(rels: seq<Relation>, schema: string): (c: seq<string>)
    ensures |c| == |rels|
  {
    CtesUpTo(rels, schema, |rels|)
  }

  /** The CTEs of the first `n` relations. */
  function CtesUpTo(rels: seq<Relation>, schema: string, n: nat): (c: seq<string>)
    requires n <= |rels|
    ensures |c| == n
  {
    if n == 0 then [] else CtesUpTo(rels, schema, n - 1) + [RelationBuild(rels[n - 1], schema, Alias(n - 1)).0]
  }

  /** The i-th relation CTE is the i-th relation's, under alias `r<i>`. */
  lemma RelationCtesAt(rels: seq<Relation>, schema: string, i: nat)
    requires i < |rels|
    ensures RelationCtes(rels, schema)[i] == RelationBuild(rels[i], schema, Alias(i)).0
  {
    CtesUpToAt(rels, schema, |rels|, i);
  }

  lemma {:induction false} CtesUpToAt(rels: seq<Relation>, schema: string, n: nat, i: nat)
    requires i < n <= |rels|
    ensures CtesUpTo(rels, schema, n)[i] == RelationBuild(rels[i], schema, Alias(i)).0
  {
    if i < n - 1 {
      CtesUpToAt(rels, schema, n - 1, i);
    }
  }

  /** The outer object's pairs for the relations: `'name', rI.js`. */
  function RelationPairs(rels: seq<Relation>): (p: seq<string>)
    ensures |p| == 2 * |rels|
  {
    PairsUpTo(rels, |rels|)
  }

  /** The pairs of the first `n` relations. */
  function PairsUpTo(rels: seq<Relation>, n: nat): (p: seq<string>)
    requires n <= |rels|
    ensures |p| == 2 * n
  {
    if n == 0 then [] else PairsUpTo(rels, n - 1) + RelationPair(rels[n - 1].name, Alias(n - 1))
  }

  /** The i-th relation's key is its quoted name and its value its CTE's
      JSON, `r<i>.js`. */
  lemma RelationPairsAt(rels: seq<Relation>, i: nat)
    requires i < |rels|
    ensures RelationPairs(rels)[2 * i] == Quote(rels[i].name)
    ensures RelationPairs(rels)[2 * i + 1] == Alias(i) + ".js"
  {
    PairsUpToAt(rels, |rels|, i);
  }

  lemma {:induction false} PairsUpToAt(rels: seq<Relation>, n: nat, i: nat)
    requires i < n <= |rels|
    ensures PairsUpTo(rels, n)[2 * i] == Quote(rels[i].name)
    ensures PairsUpTo(rels, n)[2 * i + 1] == Alias(i) + ".js"
  {
    if i < n - 1 {
      PairsUpToAt(rels, n - 1, i);
    }
  }

  /** The spec of list.query. */
  function QueryText(l: List, schema: string, filters: string): string
  {
    var main := MainCTE(schema, l.name, filters, Join(SelectList(l.columns), ", "), LimitsClause(l.limit, l.offset));
    ListQuery(Join([main] + RelationCtes(l.relations, schema), ",\n"),
              Join(Pairs("a", l.columns) + RelationPairs(l.relations), ", "),
              Join(JoinLines(|l.relations|), "\n"))
  }

  /** The keys of the outer JSON object: the requested columns in request
      order, then the relation names in relation order. */
  lemma ObjectKeys(l: List)
    ensures var p := Pairs("a", l.columns) + RelationPairs(l.relations);
      |p| == 2 * (|l.columns| + |l.relations|) &&
      (forall i :: 0 <= i < |l.columns| ==> p[2 * i] == Quote(l.columns[i])) &&
      (forall i :: 0 <= i < |l.relations| ==> p[2 * (|l.columns| + i)] == Quote(l.relations[i].name))
  {
    var a := Pairs("a", l.columns);
    var p := a + RelationPairs(l.relations);
    forall i | 0 <= i < |l.columns| ensures p[2 * i] == Quote(l.columns[i]) {
      PairsAt("a", l.columns, i);
    }
    forall i | 0 <= i < |l.relations| ensures p[2 * (|l.columns| + i)] == Quote(l.relations[i].name) {
      RelationPairsAt(l.relations, i);
      assert p[2 * (|l.columns| + i)] == RelationPairs(l.relations)[2 * i];
    }
  }

  /** The first half of list.query: one pass over the requested columns
      building the select list and the object's column pairs. */
  method SelectColumns(cols: seq<string>) returns (sel: seq<string>, jbo: seq<string>)
    ensures sel == SelectList(cols) && jbo == Pairs("a", cols)
  {
    sel, jbo := ["a.id"], [];
    for i := 0 to |cols|
      invariant sel == SelectList(cols[..i])
      invariant jbo == Pairs("a", cols[..i])
    {
      var col := cols[i];
      assert cols[..i + 1][..i] == cols[..i];
      if col != "id" {
        sel := sel + ["a." + col];
      }
      jbo := jbo + [Quote(col), JboCast("a", col)];
    }
    assert cols[..|cols|] == cols;
  }

  /** The second half of list.query: per relation, in order, its CTE, its
      pair in the outer object and the join of its CTE. */
  method BuildRelations(rels: seq<Relation>, schema: string) returns (ctes: seq<string>, jbo: seq<string>, joins: seq<string>)
    ensures ctes == RelationCtes(rels, schema)
    ensures jbo == RelationPairs(rels)
    ensures joins == JoinLines(|rels|)
  {
    ctes, jbo := [], [];
    var lines := seq(|rels|, _ => "");
    for i := 0 to |rels|
      invariant ctes == CtesUpTo(rels, schema, i)
      invariant jbo == PairsUpTo(rels, i)
      invariant |lines| == |rels| && lines[..i] == JoinLines(i)
    {
      var r := rels[i];
      var alias := "r" + NatToString(i);
      var cte, jb := Build(r, schema, alias);
      ctes := ctes + [cte];
      jbo := jbo + jb;
      lines := lines[i := "join " + alias + " on a.id = " + alias + ".id"];
      assert lines[..i + 1] == lines[..i] + [lines[i]];
    }
    joins := lines[..|rels|];
  }

  /** list.query */
  method Query(l: List, schema: string, filters: string) returns (q: string)
    ensures q == QueryText(l, schema, filters)
  {
    var sel, jbo := SelectColumns(l.columns);
    var limits := "";
    if l.limit != 0 {
      limits := "limit " + IntToString(l.limit) + "\n\toffset " + IntToString(l.offset);
    }
    var ctes := [MainCTE(schema, l.name, filters, Join(sel, ", "), limits)];
    var rctes, rjbo, joins := BuildRelations(l.relations, schema);
    ctes, jbo := ctes + rctes, jbo + rjbo;
    q := ListQuery(Join(ctes, ",\n"), Join(jbo, ", "), Join(joins, "\n"));
  }

  // ---------------------------------------------------------------------------
  // Filters

  /** A positional query argument. */
  datatype Arg = IntArg(i: int) | StrArg(s: string)

  /** The WHERE predicates in order: published, promoted, then the category
      restriction, by id when one is given and by label otherwise. */
  function CategoryArgs(c: Shop.ListConditions): (args: seq<Arg>)
    ensures |args| <= 1
  {
    if c.onlyCategoryId != 0 then [IntArg(c.onlyCategoryId)]
    else if c.onlyCategoryLabel != "" then [StrArg(c.onlyCategoryLabel)]
    else []
  }

  function Placeholder(n: nat): string
  {
    "$" + NatToString(n)
  }

  function JoinArticlesCategory(schema: string): string
  {
    "join " + schema + ".category_articles ac on ac.article_id = m.id"
  }

  function JoinCategories(schema: string): string
  {
    "join " + schema + ".categories c on c.id = ac.category_id"
  }

  function Wheres(c: Shop.ListConditions): seq<string>
  {
    FlagWheres(c) + CategoryWheres(c)
  }

  /** The published and promoted predicates, in that order. */
  function FlagWheres(c: Shop.ListConditions): seq<string>
  {
    (if c.onlyPublished then ["m.published"] else [])
      + (if c.onlyPromoted then ["m.promoted"] else [])
  }

  /** The category predicate, numbering the category argument. */
  function CategoryWheres(c: Shop.ListConditions): seq<string>
  {
    var args := CategoryArgs(c);
    if c.onlyCategoryId != 0 then ["ac.category_id = " + Placeholder(|args|)]
    else if c.onlyCategoryLabel != "" then ["c.label = " + Placeholder(|args|)]
    else []
  }

  function FilterJoins(c: Shop.ListConditions, schema: string): seq<string>
  {
    if c.onlyCategoryId != 0 then [JoinArticlesCategory(schema)]
    else if c.onlyCategoryLabel != "" then [JoinArticlesCategory(schema), JoinCategories(schema)]
    else []
  }

  /** Whether any predicate restricts the listing. */
  predicate Restricted(c: Shop.ListConditions)
  {
    c.onlyPublished || c.onlyPromoted || c.onlyCategoryId != 0 || c.onlyCategoryLabel != ""
  }

  /** filters: the join and WHERE fragment of the `filters` CTE and its
      arguments. Nothing at all when no predicate applies; otherwise at most
      one argument, the category's, which the predicates refer to as $1. */
  function Filters(c: Shop.ListConditions, schema: string): (r: (string, seq<Arg>))
    ensures r.0 == "" <==> !Restricted(c)
    ensures r.1 == CategoryArgs(c)
  {
    var wheres := Wheres(c);
    if |wheres| == 0 then ("", [])
    else
      FilterClauseText(FilterJoins(c, schema), wheres);
      (FilterClause(FilterJoins(c, schema), wheres), CategoryArgs(c))
  }

  /** The fragment for some joins and predicates: the joins, then the WHERE
      clause, on separate lines. */
  function FilterClause(joins: seq<string>, wheres: seq<string>): string
  {
    Join([Join(joins, "\n\t"), "where " + Join(wheres, "\n\tand ")], "\n\t")
  }

  lemma FilterClauseText(joins: seq<string>, wheres: seq<string>)
    ensures FilterClause(joins, wheres) == Join(joins, "\n\t") + "\n\twhere " + Join(wheres, "\n\tand ")
  {
    var j, w := Join(joins, "\n\t"), Join(wheres, "\n\tand ");
    JoinSnoc([j], "where " + w, "\n\t");
    assert [j] + ["where " + w] == [j, "where " + w];
    assert "\n\t" + "where " == "\n\twhere ";
    assert j + "\n\t" + ("where " + w) == j + ("\n\t" + "where ") + w;
  }

  /** filters as the source runs it: the predicates, joins and arguments are
      appended one by one, and the placeholder numbers the argument just
      added. */
  method BuildFilters(cond: Shop.ListConditions, schema: string) returns (filters: string, args: seq<Arg>)
    ensures (filters, args) == Filters(cond, schema)
  {
    var joins, wheres := [], [];
    args := [];
    if cond.onlyPublished {
      wheres := wheres + ["m.published"];
    }
    if cond.onlyPromoted {
      wheres := wheres + ["m.promoted"];
    }
    assert wheres == FlagWheres(cond);
    ghost var flags := wheres;
    if cond.onlyCategoryId != 0 {
      args := args + [IntArg(cond.onlyCategoryId)];
      joins := joins + [JoinArticlesCategory(schema)];
      wheres := wheres + ["ac.category_id = " + Placeholder(|args|)];
    } else if cond.onlyCategoryLabel != "" {
      args := args + [StrArg(cond.onlyCategoryLabel)];
      joins := joins + [JoinArticlesCategory(schema)];
      joins := joins + [JoinCategories(schema)];
      wheres := wheres + ["c.label = " + Placeholder(|args|)];
    }
    assert args == CategoryArgs(cond) && joins == FilterJoins(cond, schema);
    assert wheres == flags + CategoryWheres(cond);
    if |wheres| == 0 {
      return "", [];
    }
    filters := FilterClause(joins, wheres);
  }

  /** The arguments are exactly the category's, and the predicates refer
      to it by $1: the only placeholder, and only when there is an argument. */
  lemma FilterPlaceholders(c: Shop.ListConditions)
    ensures !Restricted(c) ==> CategoryArgs(c) == []
    ensures forall w :: w in Wheres(c) && w != "m.published" && w != "m.promoted" ==>
      |CategoryArgs(c)| == 1 && (w == "ac.category_id = $1" || w == "c.label = $1")
  {
    assert Placeholder(1) == "$1";
  }

  /** A restricting fragment is the category joins, then the WHERE clause
      with its predicates joined by `and`, one per line. */
  lemma FiltersText(c: Shop.ListConditions, schema: string)
    requires Restricted(c)
    ensures Filters(c, schema).0 ==
      Join(FilterJoins(c, schema), "\n\t") + "\n\twhere " + Join(Wheres(c), "\n\tand ")
  {
    assert |FlagWheres(c) + CategoryWheres(c)| > 0;
    FilterClauseText(FilterJoins(c, schema), Wheres(c));
  }

  // The filter examples of the unit tests, with the category joins left as
  // their templates.

  lemma FiltersPublishedExample()
    ensures Filters(Shop.ListConditions([], None, null, false, false, 0, ""), "shop") == ("", [])
    ensures Filters(Shop.ListConditions([], None, null, true, false, 0, ""), "shop") == ("\n\twhere m.published", [])
  {
    var c := Shop.ListConditions([], None, null, true, false, 0, "");
    assert Wheres(c) == ["m.published"] && FilterJoins(c, "shop") == [];
    FiltersText(c, "shop");
    assert Filters(c, "shop").0 == "" + "\n\twhere " + "m.published";
    assert Filters(c, "shop").0 == "\n\twhere m.published";
    assert Filters(c, "shop").1 == [];
  }

  lemma FiltersPromotedExample()
    ensures Filters(Shop.ListConditions([], None, null, false, true, 0, ""), "shop") == ("\n\twhere m.promoted", [])
  {
    var c := Shop.ListConditions([], None, null, false, true, 0, "");
    assert Wheres(c) == ["m.promoted"] && FilterJoins(c, "shop") == [];
    FiltersText(c, "shop");
    assert Filters(c, "shop").0 == "" + "\n\twhere " + "m.promoted";
    assert Filters(c, "shop").0 == "\n\twhere m.promoted";
    assert Filters(c, "shop").1 == [];
  }

  /** The category examples of the unit tests, as the joins, predicates and
      arguments that FiltersText assembles; an id takes precedence over a
      label given with it. */
  lemma FiltersCategoryExamples()
    ensures var c := Shop.ListConditions([], None, null, false, false, 5, "");
      FilterJoins(c, "shop") == [JoinArticlesCategory("shop")] &&
      Wheres(c) == ["ac.category_id = $1"] && Filters(c, "shop").1 == [IntArg(5)]
    ensures var c := Shop.ListConditions([], None, null, false, false, 0, "spanac");
      FilterJoins(c, "shop") == [JoinArticlesCategory("shop"), JoinCategories("shop")] &&
      Wheres(c) == ["c.label = $1"] && Filters(c, "shop").1 == [StrArg("spanac")]
    ensures var c := Shop.ListConditions([], None, null, true, false, 0, "spanac");
      FilterJoins(c, "shop") == [JoinArticlesCategory("shop"), JoinCategories("shop")] &&
      Wheres(c) == ["m.published", "c.label = $1"] && Filters(c, "shop").1 == [StrArg("spanac")]
    ensures var c := Shop.ListConditions([], None, null, false, false, 5, "spanac");
      FilterJoins(c, "shop") == [JoinArticlesCategory("shop")] &&
      Wheres(c) == ["ac.category_id = $1"] && Filters(c, "shop").1 == [IntArg(5)]
  {
    assert "ac.category_id = " + Placeholder(1) == "ac.category_id = $1";
    assert "c.label = " + Placeholder(1) == "c.label = $1";
  }

  // ---------------------------------------------------------------------------
  // Defaults and the whole listing

  const DefaultFields: seq<int> := [Shop.ArticleFieldsID, Shop.ArticleFieldsTITLE, Shop.ArticleFieldsPRICE, Shop.ArticleFieldsPROMOTED]
  const DefaultRelations := Shop.ArticleRelations([Shop.MediaFieldsURL, Shop.MediaFieldsLABEL], [], [], [], [])

  /** The fields a listing asks for: the default four when none are given. */
  function FieldsOrDefault(fields: seq<int>): (f: seq<int>)
    ensures |f| > 0
    ensures |fields| > 0 ==> f == fields
  {
    if |fields| == 0 then DefaultFields else fields
  }

  function RelationsOrDefault(rel: Option<Shop.ArticleRelations>): (r: Shop.ArticleRelations)
    ensures rel.Some? ==> r == rel.value
  {
    if rel.None? then DefaultRelations else rel.value
  }

  /** The limit a listing uses: the default when none (or 0) is given. */
  function LimitOrDefault(limit: int, defaultLimit: int): (l: int)
    ensures limit != 0 ==> l == limit
  {
    if limit == 0 then defaultLimit else limit
  }

  /** defaults: the fields and relations, and the paging object. A missing
      paging object is replaced by a fresh one carrying the default limit;
      a present one with limit 0 gets the default limit written into it, so
      the caller's conditions see it afterwards. */
  method Defaults(cond: Shop.ListConditions, defaultLimit: int) returns (fields: seq<int>, relations: Shop.ArticleRelations, limits: Shop.Limits)
    modifies cond.limits
    ensures fields == FieldsOrDefault(cond.fields)
    ensures relations == RelationsOrDefault(cond.relations)
    ensures cond.limits == null ==> fresh(limits) && limits.limit == defaultLimit && limits.offset == 0
    ensures cond.limits != null ==> (limits == cond.limits &&
      limits.limit == LimitOrDefault(old(cond.limits.limit), defaultLimit) && limits.offset == old(cond.limits.offset))
  {
    fields, relations := cond.fields, if cond.relations.None? then DefaultRelations else cond.relations.value;
    if |fields| == 0 {
      fields := DefaultFields;
    }
    if cond.limits == null {
      limits := new Shop.Limits(defaultLimit, 0);
    } else {
      limits := cond.limits;
      if limits.limit == 0 {
        limits.limit := defaultLimit;
      }
    }
  }

  /** What ArticleListQuery returns for conditions whose paging (before the
      defaults are applied) is `paging`: the statement and its arguments, or
      the first resolution error, fields before relations. */
  function ListingQuery(cond: Shop.ListConditions, paging: Option<(int, int)>, schema: string, defaultLimit: int)
    : Result<(string, seq<Arg>), Error>
  {
    var cols :- ArticleColumns(FieldsOrDefault(cond.fields));
    var rels :- RelationsOf(RelationsOrDefault(cond.relations));
    var (limit, offset) := if paging.None? then (defaultLimit, 0) else (LimitOrDefault(paging.value.0, defaultLimit), paging.value.1);
    var l := List(ArticlesTable, cols, rels, limit, offset);
    var (f, args) := Filters(cond, schema);
    Success((QueryText(l, schema, f), args))
  }

  /** A listing fails exactly when its fields or its relations do not
      resolve, and it then reports the fields' error first. */
  lemma ListingFails(cond: Shop.ListConditions, paging: Option<(int, int)>, schema: string, defaultLimit: int)
    ensures var r := ListingQuery(cond, paging, schema, defaultLimit);
      var fc := ArticleColumns(FieldsOrDefault(cond.fields));
      var rc := RelationsOf(RelationsOrDefault(cond.relations));
      (r.Failure? <==> fc.Failure? || rc.Failure?) &&
      (fc.Failure? ==> r.error == fc.error) &&
      (fc.Success? && rc.Failure? ==> r.error == rc.error)
  {
  }

  /** A successful listing carries the filter's arguments. */
  lemma ListingPages(cond: Shop.ListConditions, paging: Option<(int, int)>, schema: string, defaultLimit: int)
    requires ListingQuery(cond, paging, schema, defaultLimit).Success?
    ensures ListingQuery(cond, paging, schema, defaultLimit).value.1 == CategoryArgs(cond)
  {
  }

  /** ArticleListQuery: applies the defaults (writing the default limit into
      the caller's paging object), resolves columns and relations, builds the
      filters, and renders the statement. */
  method ArticleListQuery(cond: Shop.ListConditions, schema: string, defaultLimit: int) returns (r: Result<(string, seq<Arg>), Error>)
    modifies cond.limits
    ensures r == ListingQuery(cond, if cond.limits == null then None else Some((old(cond.limits.limit), old(cond.limits.offset))), schema, defaultLimit)
    ensures cond.limits != null ==>
      cond.limits.limit == LimitOrDefault(old(cond.limits.limit), defaultLimit) && cond.limits.offset == old(cond.limits.offset)
  {
    ghost var paging := if cond.limits == null then None else Some((cond.limits.limit, cond.limits.offset));
    var fields, relations, limits := Defaults(cond, defaultLimit);
    assert (limits.limit, limits.offset) ==
      if paging.None? then (defaultLimit, 0) else (LimitOrDefault(paging.value.0, defaultLimit), paging.value.1);
    var cols := ArticleColumns(fields);
    if cols.Failure? {
      return Failure(cols.error);
    }
    var rels := ArticleRelations(relations);
    if rels.Failure? {
      return Failure(rels.error);
    }
    var lq := List(ArticlesTable, cols.value, rels.value, limits.limit, limits.offset);
    var f, args := BuildFilters(cond, schema);
    var query := Query(lq, schema, f);
    return Success((query, args));
  }
}
