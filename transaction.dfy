/** The request transaction of cmd/server/transaction.go: the steps that
    change the database (deleting an article or a base price, replacing an
    article's media, variants and links, storing an order) and the query
    modifiers of the order and category listings. The database the
    transaction works on is the `db` field; every method states the whole
    new database, and the lemmas state what the replacements and deletions
    mean row by row. */
module Transaction {
  import opened Wrappers
  import opened Status
  import opened Models
  import opened Results
  import opened Tables
  import opened Store
  import opened Adaptors
  import opened OrderAdaptors
  import Shop

  /** A statement that deletes every row of `rows` owned by `key`: the rows
      left, the rows affected, and what the driver reported. */
  function DeleteOwned<T>(failing: set<string>, table: string, rows: seq<T>, owner: T -> int, key: int): (seq<T>, int, DBResult)
  {
    if table in failing then (rows, 0, Failed) else (Without(rows, owner, key), |Owned(rows, owner, key)|, Ok)
  }

  function Sum(ns: seq<int>): int
  {
    if |ns| == 0 then 0 else Sum(ns[..|ns| - 1]) + ns[|ns| - 1]
  }

  /** deleteArticle: the article's category and base price links go first,
      each failing the whole step; then its videos, images, variants and the
      article itself, whose errors are collected; the result is the sum of
      the six rows-affected counts. */
  function DeleteArticleOf(d: Db, aid: int): (Db, int, Option<Error>)
  {
    if CategoryArticlesTable in d.failing then (d, 0, Some(Status(Internal, ErrDB)))
    else
      var d1 := d.(categoryArticles := Without(d.categoryArticles, LinkArticle, aid));
      if ArticleBasePricesTable in d.failing then (d1, 0, Some(Status(Internal, ErrDB)))
      else
        var vid := DeleteOwned(d.failing, VideosTable, d.videos, MediaOwner, aid);
        var img := DeleteOwned(d.failing, ImagesTable, d.images, MediaOwner, aid);
        var vrt := DeleteOwned(d.failing, VariantsTable, d.variants, VariantOwner, aid);
        var art := DeleteOwned(d.failing, ArticlesTable, d.articles, ArticleKey, aid);
        (d1.(articleBasePrices := Without(d.articleBasePrices, LinkArticle, aid),
             videos := vid.0, images := img.0, variants := vrt.0, articles := art.0),
         Sum([vid.1, img.1, vrt.1, art.1,
              |Owned(d.categoryArticles, LinkArticle, aid)|, |Owned(d.articleBasePrices, LinkArticle, aid)|]),
         DBErrors("deleteArticle", [vid.2, img.2, vrt.2, art.2, Ok, Ok], false))
  }

  /** deleteBasePrice: a zero id is refused before anything is deleted;
      otherwise the base price's links and the base price are deleted and
      the rows affected by both are reported. */
  function DeleteBasePriceOf(d: Db, bpid: int): (Db, Result<int, Error>)
  {
    if bpid == 0 then (d, Failure(MissingError(["Id"])))
    else
      var join := DeleteOwned(d.failing, ArticleBasePricesTable, d.articleBasePrices, LinkOther, bpid);
      var bps := DeleteOwned(d.failing, BasePricesTable, d.basePrices, BasePriceKey, bpid);
      var d1 := d.(articleBasePrices := join.0, basePrices := bps.0);
      match DBErrors("deleteBasePrice", [join.2, bps.2, Ok], false)
      case Some(e) => (d1, Failure(e))
      case None => (d1, Success(bps.1 + join.1))
  }

  /** The join rows linking an article to each of a list of identifiers. */
  function LinksOf(aid: int, ids: seq<int>): (ls: seq<Link>)
    ensures |ls| == |ids|
  {
    seq(|ids|, i requires 0 <= i < |ids| => Link(aid, ids[i]))
  }

  function BasePriceIds(sbp: seq<Shop.BasePrice>): seq<int>
  {
    seq(|sbp|, i requires 0 <= i < |sbp| => sbp[i].id)
  }

  function CategoryIds(sc: seq<Shop.Category>): seq<int>
  {
    seq(|sc|, i requires 0 <= i < |sc| => sc[i].id)
  }

  /** The lines of an order as they are stored: each with the order's id. */
  function WithOrderId(lines: seq<OrderArticleRow>, id: int): (r: seq<OrderArticleRow>)
    ensures |r| == |lines|
  {
    seq(|lines|, i requires 0 <= i < |lines| => lines[i].(orderId := id))
  }

  function OrderArticleResults(d: Db, sa: seq<Shop.ArticleAmount>): seq<Result<OrderArticleRow, Error>>
  {
    seq(|sa|, i requires 0 <= i < |sa| => NewOrderArticle(d, sa[i]))
  }

  /** Inserting rows one by one after `base` and stopping at the first whose
      id is already taken, which fails as a database error. */
  function InsertRowsOf<T>(base: seq<T>, rows: seq<T>, key: T -> int): (seq<T>, Option<Error>)
  {
    var k := Inserted(base, rows, key);
    (base + rows[..k], if k == |rows| then None else Some(Status(Internal, ErrDB)))
  }

  method InsertRows<T>(base: seq<T>, rows: seq<T>, key: T -> int) returns (table: seq<T>, err: Option<Error>)
    ensures (table, err) == InsertRowsOf(base, rows, key)
  {
    table := base;
    for i := 0 to |rows|
      invariant table == base + rows[..i]
      invariant Inserted(base, rows[..i], key) == i
    {
      assert rows[..i + 1][..i] == rows[..i];
      if Clashes(table, key, rows[i]) {
        InsertedStops(base, rows, key, i + 1);
        return table, Some(Status(Internal, ErrDB));
      }
      table := table + [rows[i]];
      assert base + rows[..i + 1] == base + rows[..i] + [rows[i]];
    }
    assert rows[..|rows|] == rows;
    return table, None;
  }

  /** updateImages: the list is validated before anything is deleted; a
      failing cleanup returns the driver's error as it is; then the article's
      images are replaced by the new rows, inserted in order. */
  function UpdateImagesOf(d: Db, aid: int, mds: seq<Shop.Media>): (Db, Option<Error>)
  {
    match Sequence(MediaResults(aid, mds))
    case Failure(e) => (d, Some(e))
    case Success(rows) =>
      if ImagesTable in d.failing then (d, Some(Raw(DriverError)))
      else
        var t := InsertRowsOf(Without(d.images, MediaOwner, aid), rows, MediaKey);
        (d.(images := t.0), t.1)
  }

  /** updateVariants: as updateImages, with a cleanup failure reported as
      Internal. */
  function UpdateVariantsOf(d: Db, aid: int, sv: seq<Shop.Variant>): (Db, Option<Error>)
  {
    match Sequence(VariantResults(aid, sv))
    case Failure(e) => (d, Some(e))
    case Success(rows) =>
      if VariantsTable in d.failing then (d, Some(Status(Internal, ErrDB)))
      else
        var t := InsertRowsOf(Without(d.variants, VariantOwner, aid), rows, VariantKey);
        (d.(variants := t.0), t.1)
  }

  /** newOrder: the order and its lines are validated, each line is priced
      against the database, and then the order and its lines are stored. The
      order takes the next id of its sequence; its lines cannot be stored
      when the order itself was not. */
  function NewOrderOf(d: Db, so: Shop.Order, pm: Shop.EnumTable): (Db, Result<OrderRow, Error>)
  {
    match OrderMsgToModel(so, pm)
    case Failure(e) => (d, Failure(e))
    case Success(order) =>
      if OrderArticlesError(so.articles).Some? then (d, Failure(OrderArticlesError(so.articles).value))
      else
        match Sequence(OrderArticleResults(d, so.articles))
        case Failure(e) => (d, Failure(e))
        case Success(lines) => StoreOrder(d, order, lines)
  }

  /** The two inserts of newOrder: the order, then its lines under its new id;
      a failed insert is a database error. */
  function StoreOrder(d: Db, order: OrderRow, lines: seq<OrderArticleRow>): (Db, Result<OrderRow, Error>)
  {
    if OrdersTable in d.failing then (d, Failure(Status(Internal, ErrDB)))
    else if OrderArticlesTable in d.failing then (InsertOrder(d, order), Failure(Status(Internal, ErrDB)))
    else (AddOrderLines(InsertOrder(d, order), d.lastOrderId + 1, lines), Success(order.(id := d.lastOrderId + 1)))
  }

  /** upsertArticle: insert, or update on a clash of ids. An article
      without an id is inserted under the next value of the id sequence. */
  function UpsertArticleOf(d: Db, sa: Shop.Article): (Db, Result<ArticleRow, Error>)
  {
    match ArticleMsgToModel(sa)
    case Failure(_) => (d, Failure(Status(Internal, ErrDB)))
    case Success(art) =>
      if ArticlesTable in d.failing then (d, Failure(Status(Internal, ErrDB)))
      else if art.id == 0 then
        var a := art.(id := d.lastArticleId + 1);
        (d.(articles := Upsert(d.articles, ArticleKey, a), lastArticleId := d.lastArticleId + 1), Success(a))
      else (d.(articles := Upsert(d.articles, ArticleKey, art)), Success(art))
  }

  /** Inserting an order: it takes the next id of the order sequence. */
  function InsertOrder(d: Db, order: OrderRow): Db
  {
    d.(orders := d.orders + [order.(id := d.lastOrderId + 1)], lastOrderId := d.lastOrderId + 1)
  }

  /** Adding the lines of order `id`. */
  function AddOrderLines(d: Db, id: int, lines: seq<OrderArticleRow>): Db
  {
    d.(orderArticles := d.orderArticles + WithOrderId(lines, id))
  }

  class RequestTx {
    /** The database as this transaction sees it. */
    var db: Db

    constructor (d: Db)
      ensures db == d
    {
      db := d;
    }

    /** checkDBErrors. */
    method CheckDBErrors(logMsg: string, errs: seq<DBResult>, warnNoRows: bool) returns (err: Option<Error>)
      ensures err == DBErrors(logMsg, errs, warnNoRows)
    {
      for i := 0 to |errs|
        invariant DBErrors(logMsg, errs[i..], warnNoRows) == DBErrors(logMsg, errs, warnNoRows)
      {
        assert errs[i..][1..] == errs[i + 1..];
        match errs[i]
        case Ok =>
        case NoRows =>
          if warnNoRows {
            return Some(Status(NotFound, logMsg));
          }
        case Failed =>
          return Some(Status(Internal, ErrDB));
      }
      return None;
    }

    /** deleteArticle. */
    method DeleteArticle(aid: int) returns (total: int, err: Option<Error>)
      modifies this
      ensures (db, total, err) == DeleteArticleOf(old(db), aid)
    {
      if CategoryArticlesTable in db.failing {
        return 0, Some(Status(Internal, ErrDB));
      }
      var cat := |Owned(db.categoryArticles, LinkArticle, aid)|;
      db := db.(categoryArticles := Without(db.categoryArticles, LinkArticle, aid));
      if ArticleBasePricesTable in db.failing {
        return 0, Some(Status(Internal, ErrDB));
      }
      var bp := |Owned(db.articleBasePrices, LinkArticle, aid)|;
      db := db.(articleBasePrices := Without(db.articleBasePrices, LinkArticle, aid));

      var vid := DeleteOwned(db.failing, VideosTable, db.videos, MediaOwner, aid);
      var img := DeleteOwned(db.failing, ImagesTable, db.images, MediaOwner, aid);
      var vrt := DeleteOwned(db.failing, VariantsTable, db.variants, VariantOwner, aid);
      var art := DeleteOwned(db.failing, ArticlesTable, db.articles, ArticleKey, aid);
      db := db.(videos := vid.0, images := img.0, variants := vrt.0, articles := art.0);
      var ra := [vid.1, img.1, vrt.1, art.1, cat, bp];
      var errs := [vid.2, img.2, vrt.2, art.2, Ok, Ok];

      total := 0;
      for i := 0 to |ra|
        invariant total == Sum(ra[..i])
      {
        assert ra[..i + 1][..i] == ra[..i];
        total := total + ra[i];
      }
      assert ra[..|ra|] == ra;
      err := CheckDBErrors("deleteArticle", errs, false);
    }

    /** deleteBasePrice. */
    method DeleteBasePrice(sbp: Shop.BasePrice) returns (r: Result<int, Error>)
      modifies this
      ensures (db, r) == DeleteBasePriceOf(old(db), sbp.id)
    {
      var bpid := sbp.id;
      if bpid == 0 {
        return Failure(MissingError(["Id"]));
      }
      var join := DeleteOwned(db.failing, ArticleBasePricesTable, db.articleBasePrices, LinkOther, bpid);
      var bps := DeleteOwned(db.failing, BasePricesTable, db.basePrices, BasePriceKey, bpid);
      db := db.(articleBasePrices := join.0, basePrices := bps.0);
      var rows := bps.1;
      if join.2 == Ok {
        rows := rows + join.1;
      }
      var err := CheckDBErrors("deleteBasePrice", [join.2, bps.2, Ok], false);
      if err.Some? {
        return Failure(err.value);
      }
      return Success(rows);
    }

    /** updateImages. */
    method UpdateImages(aid: int, mds: seq<Shop.Media>) returns (err: Option<Error>)
      modifies this
      ensures (db, err) == UpdateImagesOf(old(db), aid, mds)
    {
      var imgs := MediaListMsgToModel(aid, mds);
      if imgs.Failure? {
        return Some(imgs.error);
      }
      if ImagesTable in db.failing {
        return Some(Raw(DriverError));
      }
      var table;
      table, err := InsertRows(Without(db.images, MediaOwner, aid), imgs.value, MediaKey);
      db := db.(images := table);
    }

    /** updateVideos: as updateImages, except that each row is upserted on
        its id, replacing a row of the same id in place. */
    method UpdateVideos(aid: int, mds: seq<Shop.Media>) returns (err: Option<Error>)
      modifies this
      ensures var v := Sequence(MediaResults(aid, mds));
        v.Failure? ==> err == Some(v.error) && db == old(db)
      ensures var v := Sequence(MediaResults(aid, mds));
        v.Success? && VideosTable in old(db).failing ==> err == Some(Raw(DriverError)) && db == old(db)
      ensures var v := Sequence(MediaResults(aid, mds));
        v.Success? && VideosTable !in old(db).failing ==>
          err == None && db == old(db).(videos := UpsertAll(Without(old(db).videos, MediaOwner, aid), v.value, MediaKey))
    {
      var vids := MediaListMsgToModel(aid, mds);
      if vids.Failure? {
        return Some(vids.error);
      }
      if VideosTable in db.failing {
        return Some(Raw(DriverError));
      }
      var base := Without(db.videos, MediaOwner, aid);
      db := db.(videos := base);
      var rows := vids.value;
      for i := 0 to |rows|
        invariant db == old(db).(videos := UpsertAll(base, rows[..i], MediaKey))
      {
        assert rows[..i + 1][..i] == rows[..i];
        db := db.(videos := Upsert(db.videos, MediaKey, rows[i]));
      }
      assert rows[..|rows|] == rows;
      return None;
    }

    /** updateVariants. */
    method UpdateVariants(aid: int, sv: seq<Shop.Variant>) returns (err: Option<Error>)
      modifies this
      ensures (db, err) == UpdateVariantsOf(old(db), aid, sv)
    {
      var vars := VariantsMsgToModel(aid, sv);
      if vars.Failure? {
        return Some(vars.error);
      }
      if VariantsTable in db.failing {
        return Some(Status(Internal, ErrDB));
      }
      var table;
      table, err := InsertRows(Without(db.variants, VariantOwner, aid), vars.value, VariantKey);
      db := db.(variants := table);
    }

    /** setArticleBasePrices: every base price needs an id; the article's
        links are then replaced by links to the given ones, in order. */
    method SetArticleBasePrices(aid: int, sbp: seq<Shop.BasePrice>) returns (err: Option<Error>)
      modifies this
      ensures (exists i :: 0 <= i < |sbp| && sbp[i].id == 0) ==>
        err == Some(MissingError(["ID"])) && db == old(db)
      ensures (forall i :: 0 <= i < |sbp| ==> sbp[i].id != 0) && ArticleBasePricesTable in old(db).failing ==>
        err == Some(Status(Internal, ErrDB)) && db == old(db)
      ensures (forall i :: 0 <= i < |sbp| ==> sbp[i].id != 0) && ArticleBasePricesTable !in old(db).failing ==>
        err == None &&
        db == old(db).(articleBasePrices := Without(old(db).articleBasePrices, LinkArticle, aid) + LinksOf(aid, BasePriceIds(sbp)))
    {
      var bases := [];
      for i := 0 to |sbp|
        invariant bases == BasePriceIds(sbp[..i])
        invariant forall j :: 0 <= j < i ==> sbp[j].id != 0
      {
        bases := bases + [sbp[i].id];
        if sbp[i].id == 0 {
          return Some(MissingError(["ID"]));
        }
      }
      assert sbp[..|sbp|] == sbp;
      if ArticleBasePricesTable in db.failing {
        return Some(Status(Internal, ErrDB));
      }
      db := db.(articleBasePrices := Without(db.articleBasePrices, LinkArticle, aid) + LinksOf(aid, bases));
      return None;
    }

    /** setArticleCategories: the article's category links are replaced by
        links to the given categories, in order. */
    method SetArticleCategories(aid: int, sc: seq<Shop.Category>) returns (err: Option<Error>)
      modifies this
      ensures CategoryArticlesTable in old(db).failing ==> err == Some(Status(Internal, ErrDB)) && db == old(db)
      ensures CategoryArticlesTable !in old(db).failing ==>
        err == None &&
        db == old(db).(categoryArticles := Without(old(db).categoryArticles, LinkArticle, aid) + LinksOf(aid, CategoryIds(sc)))
    {
      var cats := [];
      for i := 0 to |sc|
        invariant cats == CategoryIds(sc[..i])
      {
        cats := cats + [sc[i].id];
      }
      assert sc[..|sc|] == sc;
      if CategoryArticlesTable in db.failing {
        return Some(Status(Internal, ErrDB));
      }
      db := db.(categoryArticles := Without(db.categoryArticles, LinkArticle, aid) + LinksOf(aid, cats));
      return None;
    }

    /** upsertArticle: a validation error is only logged, so the upsert that
        follows has no article and fails as a database error. An article
        without an id is inserted under the next value of the id sequence,
        which is what the caller gets back. */
    method UpsertArticle(sa: Shop.Article) returns (r: Result<ArticleRow, Error>)
      modifies this
      ensures (db, r) == UpsertArticleOf(old(db), sa)
    {
      var art := ArticleMsgToModel(sa);
      if art.Failure? || ArticlesTable in db.failing {
        return Failure(Status(Internal, ErrDB));
      }
      var a := art.value;
      if a.id == 0 {
        a := a.(id := db.lastArticleId + 1);
        db := db.(lastArticleId := db.lastArticleId + 1);
      }
      db := db.(articles := Upsert(db.articles, ArticleKey, a));
      return Success(a);
    }

    /** The loop of newOrder that prices each line against the database,
        stopping at the first line that cannot be priced. */
    method OrderLines(sa: seq<Shop.ArticleAmount>) returns (r: Result<seq<OrderArticleRow>, Error>)
      ensures r == Sequence(OrderArticleResults(db, sa))
    {
      var rs := OrderArticleResults(db, sa);
      var arts := seq(|sa|, _ => OrderArticleRow(0, 0, 0, "", Decimal.Zero, NoDetails));
      for i := 0 to |sa|
        invariant |arts| == |sa|
        invariant Sequence(rs[..i]) == Success(arts[..i])
      {
        var a := NewOrderArticle(db, sa[i]);
        if a.Failure? {
          SequenceFailsAt(rs, i, a);
          return Failure(a.error);
        }
        SequenceGrow(rs, i, arts[..i], a);
        arts := arts[i := a.value];
        assert arts[..i + 1] == arts[..i] + [a.value];
      }
      assert rs[..|sa|] == rs && arts[..|sa|] == arts;
      return Success(arts);
    }

    /** newOrder. */
    method NewOrder(so: Shop.Order, pm: Shop.EnumTable) returns (r: Result<OrderRow, Error>)
      modifies this
      ensures (db, r) == NewOrderOf(old(db), so, pm)
    {
      var order := OrderMsgToModel(so, pm);
      if order.Failure? {
        return Failure(order.error);
      }
      var checked := CheckOrderArticles(so.articles);
      if checked.Some? {
        return Failure(checked.value);
      }
      var arts := OrderLines(so.articles);
      if arts.Failure? {
        return Failure(arts.error);
      }

      var o := order.value;
      var errs := [Ok, Ok];
      if OrdersTable in db.failing {
        errs := errs[0 := Failed];
      } else {
        o := o.(id := db.lastOrderId + 1);
        db := db.(orders := db.orders + [o], lastOrderId := o.id);
      }
      if errs[0] == Failed || OrderArticlesTable in db.failing {
        errs := errs[1 := Failed];
      } else {
        db := db.(orderArticles := db.orderArticles + WithOrderId(arts.value, o.id));
      }
      var err := CheckDBErrors("newOrder", errs, false);
      if err.Some? {
        return Failure(err.value);
      }
      return Success(o);
    }
  }

  // ---------------------------------------------------------------------------
  // What the steps do to the tables

  /** None of the tables deleteArticle touches reports an error. */
  predicate ArticleTablesUp(d: Db)
  {
    CategoryArticlesTable !in d.failing && ArticleBasePricesTable !in d.failing &&
    VideosTable !in d.failing && ImagesTable !in d.failing &&
    VariantsTable !in d.failing && ArticlesTable !in d.failing
  }

  lemma SumOfSix(a: int, b: int, c: int, e: int, f: int, g: int)
    ensures Sum([a, b, c, e, f, g]) == a + b + c + e + f + g
  {
    assert [a][..0] == [];
    assert Sum([a]) == a;
    assert [a, b][..1] == [a];
    assert Sum([a, b]) == a + b;
    assert [a, b, c][..2] == [a, b];
    assert Sum([a, b, c]) == a + b + c;
    assert [a, b, c, e][..3] == [a, b, c];
    assert Sum([a, b, c, e]) == a + b + c + e;
    assert [a, b, c, e, f][..4] == [a, b, c, e];
    assert Sum([a, b, c, e, f]) == a + b + c + e + f;
    assert [a, b, c, e, f, g][..5] == [a, b, c, e, f];
  }

  /** Deleting an article leaves no row of it in any of its tables, and
      reports as many rows as there were. */
  lemma DeleteArticleClears(d: Db, aid: int)
    requires ArticleTablesUp(d)
    ensures var r := DeleteArticleOf(d, aid);
      r.2 == None &&
      Owned(r.0.articles, ArticleKey, aid) == [] && Owned(r.0.images, MediaOwner, aid) == [] &&
      Owned(r.0.videos, MediaOwner, aid) == [] && Owned(r.0.variants, VariantOwner, aid) == [] &&
      Owned(r.0.categoryArticles, LinkArticle, aid) == [] && Owned(r.0.articleBasePrices, LinkArticle, aid) == []
    ensures DeleteArticleOf(d, aid).1 ==
      |Owned(d.videos, MediaOwner, aid)| + |Owned(d.images, MediaOwner, aid)| +
      |Owned(d.variants, VariantOwner, aid)| + |Owned(d.articles, ArticleKey, aid)| +
      |Owned(d.categoryArticles, LinkArticle, aid)| + |Owned(d.articleBasePrices, LinkArticle, aid)|
  {
    OwnedWithout(d.articles, ArticleKey, aid, aid);
    OwnedWithout(d.images, MediaOwner, aid, aid);
    OwnedWithout(d.videos, MediaOwner, aid, aid);
    OwnedWithout(d.variants, VariantOwner, aid, aid);
    OwnedWithout(d.categoryArticles, LinkArticle, aid, aid);
    OwnedWithout(d.articleBasePrices, LinkArticle, aid, aid);
    DBErrorsNone("deleteArticle", [Ok, Ok, Ok, Ok, Ok, Ok], false);
    SumOfSix(|Owned(d.videos, MediaOwner, aid)|, |Owned(d.images, MediaOwner, aid)|,
      |Owned(d.variants, VariantOwner, aid)|, |Owned(d.articles, ArticleKey, aid)|,
      |Owned(d.categoryArticles, LinkArticle, aid)|, |Owned(d.articleBasePrices, LinkArticle, aid)|);
  }

  /** Deleting an article leaves every other article's rows as they were,
      and touches no other table. */
  lemma DeleteArticleKeepsOthers(d: Db, aid: int, other: int)
    requires ArticleTablesUp(d) && other != aid
    ensures var n := DeleteArticleOf(d, aid).0;
      Owned(n.articles, ArticleKey, other) == Owned(d.articles, ArticleKey, other) &&
      Owned(n.images, MediaOwner, other) == Owned(d.images, MediaOwner, other) &&
      Owned(n.videos, MediaOwner, other) == Owned(d.videos, MediaOwner, other) &&
      Owned(n.variants, VariantOwner, other) == Owned(d.variants, VariantOwner, other) &&
      Owned(n.categoryArticles, LinkArticle, other) == Owned(d.categoryArticles, LinkArticle, other) &&
      Owned(n.articleBasePrices, LinkArticle, other) == Owned(d.articleBasePrices, LinkArticle, other)
    ensures var n := DeleteArticleOf(d, aid).0;
      n.basePrices == d.basePrices && n.orders == d.orders && n.orderArticles == d.orderArticles &&
      n.lastOrderId == d.lastOrderId && n.failing == d.failing
  {
    OwnedWithout(d.articles, ArticleKey, aid, other);
    OwnedWithout(d.images, MediaOwner, aid, other);
    OwnedWithout(d.videos, MediaOwner, aid, other);
    OwnedWithout(d.variants, VariantOwner, aid, other);
    OwnedWithout(d.categoryArticles, LinkArticle, aid, other);
    OwnedWithout(d.articleBasePrices, LinkArticle, aid, other);
  }

  /** Deleting an article nothing refers to changes nothing and reports no
      rows. */
  lemma DeleteArticleUnknown(d: Db, aid: int)
    requires ArticleTablesUp(d)
    requires forall i :: 0 <= i < |d.articles| ==> d.articles[i].id != aid
    requires forall i :: 0 <= i < |d.images| ==> d.images[i].articleId != aid
    requires forall i :: 0 <= i < |d.videos| ==> d.videos[i].articleId != aid
    requires forall i :: 0 <= i < |d.variants| ==> d.variants[i].articleId != aid
    requires forall i :: 0 <= i < |d.categoryArticles| ==> d.categoryArticles[i].articleId != aid
    requires forall i :: 0 <= i < |d.articleBasePrices| ==> d.articleBasePrices[i].articleId != aid
    ensures DeleteArticleOf(d, aid) == (d, 0, None)
  {
    NoneOwned(d.articles, ArticleKey, aid);
    NoneOwned(d.images, MediaOwner, aid);
    NoneOwned(d.videos, MediaOwner, aid);
    NoneOwned(d.variants, VariantOwner, aid);
    NoneOwned(d.categoryArticles, LinkArticle, aid);
    NoneOwned(d.articleBasePrices, LinkArticle, aid);
    DBErrorsNone("deleteArticle", [Ok, Ok, Ok, Ok, Ok, Ok], false);
    SumOfSix(0, 0, 0, 0, 0, 0);
  }

  /** deleteArticle fails exactly when one of its tables reports an error,
      and then as a database error. */
  lemma DeleteArticleFails(d: Db, aid: int)
    ensures DeleteArticleOf(d, aid).2.Some? <==> !ArticleTablesUp(d)
    ensures DeleteArticleOf(d, aid).2.Some? ==> DeleteArticleOf(d, aid).2 == Some(Status(Internal, ErrDB))
  {
    if CategoryArticlesTable !in d.failing && ArticleBasePricesTable !in d.failing {
      var vid := DeleteOwned(d.failing, VideosTable, d.videos, MediaOwner, aid);
      var img := DeleteOwned(d.failing, ImagesTable, d.images, MediaOwner, aid);
      var vrt := DeleteOwned(d.failing, VariantsTable, d.variants, VariantOwner, aid);
      var art := DeleteOwned(d.failing, ArticlesTable, d.articles, ArticleKey, aid);
      var errs := [vid.2, img.2, vrt.2, art.2, Ok, Ok];
      DBErrorsNone("deleteArticle", errs, false);
      if !ArticleTablesUp(d) {
        assert Decisive(errs[0], false) || Decisive(errs[1], false) || Decisive(errs[2], false) || Decisive(errs[3], false);
      }
    }
  }

  /** deleteBasePrice succeeds exactly for a non-zero id when both tables
      answer; a zero id changes nothing; and on success the base price and
      every link to it are gone and their number is reported. */
  lemma DeleteBasePriceOutcome(d: Db, bpid: int)
    ensures var r := DeleteBasePriceOf(d, bpid);
      r.1.Success? <==> bpid != 0 && ArticleBasePricesTable !in d.failing && BasePricesTable !in d.failing
    ensures bpid == 0 ==> DeleteBasePriceOf(d, bpid) == (d, Failure(MissingError(["Id"])))
    ensures var r := DeleteBasePriceOf(d, bpid);
      bpid != 0 && r.1.Failure? ==> r.1.error == Status(Internal, ErrDB)
    ensures var r := DeleteBasePriceOf(d, bpid);
      r.1.Success? ==>
        r.1.value == |Owned(d.basePrices, BasePriceKey, bpid)| + |Owned(d.articleBasePrices, LinkOther, bpid)| &&
        Owned(r.0.basePrices, BasePriceKey, bpid) == [] && Owned(r.0.articleBasePrices, LinkOther, bpid) == []
  {
    if bpid != 0 {
      var join := DeleteOwned(d.failing, ArticleBasePricesTable, d.articleBasePrices, LinkOther, bpid);
      var bps := DeleteOwned(d.failing, BasePricesTable, d.basePrices, BasePriceKey, bpid);
      DBErrorsNone("deleteBasePrice", [join.2, bps.2, Ok], false);
      OwnedWithout(d.basePrices, BasePriceKey, bpid, bpid);
      OwnedWithout(d.articleBasePrices, LinkOther, bpid, bpid);
    }
  }

  /** deleteBasePrice leaves every other base price and its links, and the
      other tables, as they were. */
  lemma DeleteBasePriceKeepsOthers(d: Db, bpid: int, other: int)
    requires other != bpid
    ensures var n := DeleteBasePriceOf(d, bpid).0;
      Owned(n.basePrices, BasePriceKey, other) == Owned(d.basePrices, BasePriceKey, other) &&
      Owned(n.articleBasePrices, LinkOther, other) == Owned(d.articleBasePrices, LinkOther, other)
    ensures var n := DeleteBasePriceOf(d, bpid).0;
      n.articles == d.articles && n.variants == d.variants && n.categoryArticles == d.categoryArticles &&
      n.orders == d.orders
  {
    DeleteBasePriceTables(d, bpid);
    OwnedWithout(d.basePrices, BasePriceKey, bpid, other);
    OwnedWithout(d.articleBasePrices, LinkOther, bpid, other);
  }

  /** deleteBasePrice changes only its two tables, each either untouched or
      without the base price's rows. */
  lemma DeleteBasePriceTables(d: Db, bpid: int)
    ensures var n := DeleteBasePriceOf(d, bpid).0;
      n == d.(basePrices := n.basePrices, articleBasePrices := n.articleBasePrices) &&
      (n.basePrices == d.basePrices || n.basePrices == Without(d.basePrices, BasePriceKey, bpid)) &&
      (n.articleBasePrices == d.articleBasePrices || n.articleBasePrices == Without(d.articleBasePrices, LinkOther, bpid))
  {
  }

  /** Replacing an article's images: when the list is valid and its ids are
      new, the article's images become exactly the list, numbered from 1,
      and no other article's images change. */
  lemma UpdateImagesReplaces(d: Db, aid: int, mds: seq<Shop.Media>, rows: seq<MediaRow>, other: int)
    requires Sequence(MediaResults(aid, mds)) == Success(rows)
    requires ImagesTable !in d.failing
    requires DistinctKeys(Without(d.images, MediaOwner, aid), rows, MediaKey)
    requires other != aid
    ensures var r := UpdateImagesOf(d, aid, mds);
      r.1 == None && r.0 == d.(images := r.0.images) &&
      Owned(r.0.images, MediaOwner, aid) == rows &&
      Owned(r.0.images, MediaOwner, other) == Owned(d.images, MediaOwner, other)
    ensures forall i :: 0 <= i < |mds| ==> rows[i] == MediaRow(mds[i].id, aid, i + 1, mds[i].labelText, mds[i].url)
  {
    MediaListSpec(aid, mds);
    var base := Without(d.images, MediaOwner, aid);
    DistinctNew(base, rows, MediaKey);
    InsertedNew(base, rows, MediaKey);
    assert rows[..|rows|] == rows;
    Replace(d.images, rows, MediaOwner, aid, other);
  }

  /** An invalid image list is refused before any image is deleted. */
  lemma UpdateImagesInvalid(d: Db, aid: int, mds: seq<Shop.Media>)
    requires |mds| > 0
    requires aid == 0 || exists i :: 0 <= i < |mds| && (mds[i].labelText == "" || mds[i].url == "")
    ensures var r := UpdateImagesOf(d, aid, mds);
      r.0 == d && r.1.Some? && r.1.value.Status? && r.1.value.code == InvalidArgument &&
      MissingPrefix <= r.1.value.message
  {
    var rs := MediaResults(aid, mds);
    var j := 0;
    if aid != 0 {
      j :| 0 <= j < |mds| && (mds[j].labelText == "" || mds[j].url == "");
    }
    assert rs[j].Failure?;
    SequenceSuccess(rs);
    var k := SequenceError(rs);
    MediaResultAt(aid, mds, k);
    assert UpdateImagesOf(d, aid, mds) == (d, Some(rs[k].error));
  }

  /** Replacing an article's videos: as for images, upserting rows with new
      ids appends them, so the article's videos become exactly the list. */
  lemma UpdateVideosReplaces(d: Db, aid: int, mds: seq<Shop.Media>, rows: seq<MediaRow>, other: int)
    requires Sequence(MediaResults(aid, mds)) == Success(rows)
    requires DistinctKeys(Without(d.videos, MediaOwner, aid), rows, MediaKey)
    requires other != aid
    ensures var n := UpsertAll(Without(d.videos, MediaOwner, aid), rows, MediaKey);
      Owned(n, MediaOwner, aid) == rows && Owned(n, MediaOwner, other) == Owned(d.videos, MediaOwner, other)
  {
    MediaListSpec(aid, mds);
    var base := Without(d.videos, MediaOwner, aid);
    DistinctNew(base, rows, MediaKey);
    UpsertAllNew(base, rows, MediaKey);
    Replace(d.videos, rows, MediaOwner, aid, other);
  }

  /** Replacing an article's variants: when the list is valid and its ids
      are new, the article's variants become exactly the list and no other
      article's variants change. */
  lemma UpdateVariantsReplaces(d: Db, aid: int, sv: seq<Shop.Variant>, rows: seq<VariantRow>, other: int)
    requires Sequence(VariantResults(aid, sv)) == Success(rows)
    requires VariantsTable !in d.failing
    requires DistinctKeys(Without(d.variants, VariantOwner, aid), rows, VariantKey)
    requires other != aid
    ensures var r := UpdateVariantsOf(d, aid, sv);
      r.1 == None && r.0 == d.(variants := r.0.variants) &&
      Owned(r.0.variants, VariantOwner, aid) == rows &&
      Owned(r.0.variants, VariantOwner, other) == Owned(d.variants, VariantOwner, other)
    ensures forall i :: 0 <= i < |sv| ==>
      Decimal.Parse(sv[i].multiplier).Some? &&
      rows[i] == VariantRow(sv[i].id, aid, sv[i].labels, Decimal.Parse(sv[i].multiplier).value)
  {
    var rs := VariantResults(aid, sv);
    SequenceSuccess(rs);
    assert forall i :: 0 <= i < |sv| ==> rs[i] == VariantMsgToModel(aid, sv[i]);
    var base := Without(d.variants, VariantOwner, aid);
    DistinctNew(base, rows, VariantKey);
    InsertedNew(base, rows, VariantKey);
    assert rows[..|rows|] == rows;
    Replace(d.variants, rows, VariantOwner, aid, other);
  }

  /** Setting an article's links: the article is linked to exactly the given
      ids, in order, and every other article keeps its links. */
  lemma SetLinksReplaces(links: seq<Link>, aid: int, ids: seq<int>, other: int)
    requires other != aid
    ensures var n := Without(links, LinkArticle, aid) + LinksOf(aid, ids);
      |Owned(n, LinkArticle, aid)| == |ids| &&
      (forall i :: 0 <= i < |ids| ==> Owned(n, LinkArticle, aid)[i] == Link(aid, ids[i])) &&
      Owned(n, LinkArticle, other) == Owned(links, LinkArticle, other)
  {
    Replace(links, LinksOf(aid, ids), LinkArticle, aid, other);
  }

  /** An invalid message or a failing table is a database error that
      changes nothing. */
  lemma UpsertArticleRefused(d: Db, sa: Shop.Article)
    requires ArticleMsgToModel(sa).Failure? || ArticlesTable in d.failing
    ensures UpsertArticleOf(d, sa) == (d, Failure(Status(Internal, ErrDB)))
  {
  }

  /** An upserted article keeps its id, or takes the next value of the
      sequence when it has none; afterwards that id finds it, every other id
      finds what it found before, and only the articles and the sequence
      change. */
  lemma UpsertArticleStores(d: Db, sa: Shop.Article, k: int)
    requires ArticleMsgToModel(sa).Success? && ArticlesTable !in d.failing
    ensures var u := UpsertArticleOf(d, sa);
      var art := ArticleMsgToModel(sa).value;
      u.1.Success? && u.1.value.id != 0 &&
      u.1.value == art.(id := if art.id == 0 then d.lastArticleId + 1 else art.id) &&
      u.0 == d.(articles := u.0.articles, lastArticleId := u.0.lastArticleId) &&
      u.0.lastArticleId == (if art.id == 0 then d.lastArticleId + 1 else d.lastArticleId)
    ensures var u := UpsertArticleOf(d, sa);
      Lookup(u.0.articles, ArticleKey, k) ==
        if k == u.1.value.id then Some(u.1.value) else Lookup(d.articles, ArticleKey, k)
  {
    var art := ArticleMsgToModel(sa).value;
    var a := art.(id := if art.id == 0 then d.lastArticleId + 1 else art.id);
    var last := if art.id == 0 then d.lastArticleId + 1 else d.lastArticleId;
    assert UpsertArticleOf(d, sa) == (d.(articles := Upsert(d.articles, ArticleKey, a), lastArticleId := last), Success(a));
    UpsertLookup(d.articles, ArticleKey, a, k);
  }

  /** The article id sequence is ahead of every stored article. */
  predicate ArticleIdsIssued(d: Db)
  {
    forall i :: 0 <= i < |d.articles| ==> d.articles[i].id <= d.lastArticleId
  }

  /** A new article takes an id no article had, is appended, and the
      sequence stays ahead of every article. */
  lemma UpsertArticleFresh(d: Db, sa: Shop.Article)
    requires ArticleMsgToModel(sa).Success? && sa.id == 0 && ArticlesTable !in d.failing
    requires ArticleIdsIssued(d)
    ensures var u := UpsertArticleOf(d, sa);
      Lookup(d.articles, ArticleKey, d.lastArticleId + 1) == None &&
      u.1.Success? && u.1.value.id == d.lastArticleId + 1 &&
      u.0.articles == d.articles + [u.1.value] && ArticleIdsIssued(u.0)
  {
    var id := d.lastArticleId + 1;
    var a := ArticleMsgToModel(sa).value.(id := id);
    assert UpsertArticleOf(d, sa) == (d.(articles := Upsert(d.articles, ArticleKey, a), lastArticleId := id), Success(a));
    assert Lookup(d.articles, ArticleKey, id) == None;
    assert Upsert(d.articles, ArticleKey, a) == d.articles + [a];
  }

  /** On an empty table with a fresh sequence, a new article gets id 1. */
  lemma UpsertNewArticleFirstId(d: Db, sa: Shop.Article)
    requires ArticleMsgToModel(sa).Success? && sa.id == 0 && ArticlesTable !in d.failing
    requires d.articles == [] && d.lastArticleId == 0
    ensures UpsertArticleOf(d, sa).1.Success? && UpsertArticleOf(d, sa).1.value.id == 1
  {
    UpsertArticleFresh(d, sa);
  }

  function OrderKey(o: OrderRow): int { o.id }
  function LineOrder(l: OrderArticleRow): int { l.orderId }

  /** The order sequence is ahead of every stored order and order line. */
  predicate OrderIdsIssued(d: Db)
  {
    (forall i :: 0 <= i < |d.orders| ==> d.orders[i].id <= d.lastOrderId) &&
    (forall i :: 0 <= i < |d.orderArticles| ==> d.orderArticles[i].orderId <= d.lastOrderId)
  }

  /** An inserted order takes an id no order had, and the sequence stays
      ahead of every order and order line. */
  lemma InsertOrderFresh(d: Db, order: OrderRow)
    requires OrderIdsIssued(d)
    ensures var id := d.lastOrderId + 1;
      Lookup(d.orders, OrderKey, id) == None &&
      Lookup(InsertOrder(d, order).orders, OrderKey, id) == Some(order.(id := id))
    ensures OrderIdsIssued(InsertOrder(d, order))
  {
    LookupAppend(d.orders, OrderKey, order.(id := d.lastOrderId + 1), d.lastOrderId + 1);
  }

  /** The lines stored under a new order id are exactly the given lines, in
      order, and the sequence stays ahead. */
  lemma AddOrderLinesOwned(d: Db, lines: seq<OrderArticleRow>)
    requires OrderIdsIssued(d)
    requires forall i :: 0 <= i < |d.orderArticles| ==> d.orderArticles[i].orderId < d.lastOrderId
    ensures var n := AddOrderLines(d, d.lastOrderId, lines);
      Owned(n.orderArticles, LineOrder, d.lastOrderId) == WithOrderId(lines, d.lastOrderId) &&
      OrderIdsIssued(n)
  {
    var id := d.lastOrderId;
    LinesOwned(d.orderArticles, lines, id);
    var all := d.orderArticles + WithOrderId(lines, id);
    forall i | 0 <= i < |all| ensures all[i].orderId <= id {
      if i >= |d.orderArticles| {
        assert all[i] == WithOrderId(lines, id)[i - |d.orderArticles|];
      }
    }
  }

  lemma LinesOwned(rows: seq<OrderArticleRow>, lines: seq<OrderArticleRow>, id: int)
    requires forall i :: 0 <= i < |rows| ==> rows[i].orderId != id
    ensures Owned(rows + WithOrderId(lines, id), LineOrder, id) == WithOrderId(lines, id)
  {
    var added := WithOrderId(lines, id);
    NoneOwned(rows, LineOrder, id);
    AllOwned(added, LineOrder, id);
    WithoutAppend(rows, added, LineOrder, id);
  }

  /** A new order that succeeds stores the order with the next id and, under
      it, every line of the request priced against the database. */
  lemma NewOrderStores(d: Db, so: Shop.Order, pm: Shop.EnumTable)
    requires NewOrderOf(d, so, pm).1.Success?
    ensures OrderMsgToModel(so, pm).Success?
    ensures Sequence(OrderArticleResults(d, so.articles)).Success?
    ensures NewOrderOf(d, so, pm) ==
        (AddOrderLines(InsertOrder(d, OrderMsgToModel(so, pm).value), d.lastOrderId + 1, Sequence(OrderArticleResults(d, so.articles)).value),
         Success(OrderMsgToModel(so, pm).value.(id := d.lastOrderId + 1)))
    ensures NewOrderLines(d, so.articles)
  {
    NewOrderShape(d, so, pm);
    OrderLinesBuilt(d, so.articles);
  }

  /** The lines built for an order are, one per article and in order, the
      line built for that article. */
  ghost predicate NewOrderLines(d: Db, sa: seq<Shop.ArticleAmount>)
    requires Sequence(OrderArticleResults(d, sa)).Success?
  {
    var lines := Sequence(OrderArticleResults(d, sa)).value;
    |lines| == |sa| &&
    forall i :: 0 <= i < |sa| ==> NewOrderArticle(d, sa[i]).Success? && lines[i] == NewOrderArticle(d, sa[i]).value
  }

  lemma OrderLinesBuilt(d: Db, sa: seq<Shop.ArticleAmount>)
    requires Sequence(OrderArticleResults(d, sa)).Success?
    ensures NewOrderLines(d, sa)
  {
    var rs := OrderArticleResults(d, sa);
    SequenceSuccess(rs);
    var lines := Sequence(rs).value;
    forall i | 0 <= i < |sa|
      ensures NewOrderArticle(d, sa[i]).Success? && lines[i] == NewOrderArticle(d, sa[i]).value
    {
      assert rs[i] == NewOrderArticle(d, sa[i]);
    }
  }

  /** A successful new order got past every check and both inserts. */
  lemma NewOrderShape(d: Db, so: Shop.Order, pm: Shop.EnumTable)
    requires NewOrderOf(d, so, pm).1.Success?
    ensures OrderMsgToModel(so, pm).Success?
    ensures Sequence(OrderArticleResults(d, so.articles)).Success?
    ensures NewOrderOf(d, so, pm) ==
        (AddOrderLines(InsertOrder(d, OrderMsgToModel(so, pm).value), d.lastOrderId + 1, Sequence(OrderArticleResults(d, so.articles)).value),
         Success(OrderMsgToModel(so, pm).value.(id := d.lastOrderId + 1)))
  {
    NewOrderChecked(d, so, pm);
    StoreOrderStored(d, OrderMsgToModel(so, pm).value, Sequence(OrderArticleResults(d, so.articles)).value);
  }

  lemma NewOrderChecked(d: Db, so: Shop.Order, pm: Shop.EnumTable)
    requires NewOrderOf(d, so, pm).1.Success?
    ensures OrderMsgToModel(so, pm).Success?
    ensures Sequence(OrderArticleResults(d, so.articles)).Success?
    ensures NewOrderOf(d, so, pm) == StoreOrder(d, OrderMsgToModel(so, pm).value, Sequence(OrderArticleResults(d, so.articles)).value)
  {
  }

  lemma StoreOrderStored(d: Db, order: OrderRow, lines: seq<OrderArticleRow>)
    requires StoreOrder(d, order, lines).1.Success?
    ensures StoreOrder(d, order, lines) == (AddOrderLines(InsertOrder(d, order), d.lastOrderId + 1, lines), Success(order.(id := d.lastOrderId + 1)))
  {
  }

  // ---------------------------------------------------------------------------
  // Query modifiers

  /** The query modifiers of the two listings. */
  datatype QueryMod =
    | StatusIs(status: string)
    | OrderBy(column: string)
    | InnerJoin(clause: string)
    | GroupBy(column: string)
    | WhereTrue(clause: string)

  /** orderListQms: a status filter unless any status is asked for. */
  function OrderListQms(cond: Shop.ListOrderConditions, st: Shop.EnumTable): (qms: seq<QueryMod>)
  {
    if cond.status != Shop.ListOrderConditionsANY then [StatusIs(st.Name(cond.status))] else []
  }

  /** Whether a listing with these modifiers returns an order. */
  predicate Selects(qms: seq<QueryMod>, o: OrderRow)
  {
    forall i :: 0 <= i < |qms| && qms[i].StatusIs? ==> o.status == qms[i].status
  }

  /** The order listing returns every order for ANY, and otherwise exactly the
      orders whose stored status is the enum name of the one asked for. */
  lemma OrderListSelects(cond: Shop.ListOrderConditions, st: Shop.EnumTable, o: OrderRow)
    ensures Selects(OrderListQms(cond, st), o) <==>
      cond.status == Shop.ListOrderConditionsANY || o.status == st.Name(cond.status)
  {
    if cond.status != Shop.ListOrderConditionsANY {
      assert OrderListQms(cond, st)[0] == StatusIs(st.Name(cond.status));
    }
  }

  const CategoryArticlesJoin := "shop.category_articles ca on shop.categories.id = ca.category_id"
  const ArticlesJoin := "shop.articles a on ca.article_id = a.id"
  const CategoryGroup := "categories.id"
  const PublishedWhere := "a.published=?"

  /** listCategoriesQms: categories in position order; when only categories
      with published articles are asked for, joined through their article
      links to the articles, one row per category, published only. */
  function ListCategoriesQms(clc: Shop.CategoryListConditions): (qms: seq<QueryMod>)
    ensures |qms| > 0 && qms[0] == OrderBy("position")
    ensures WhereTrue(PublishedWhere) in qms <==> clc.onlyPublishedArticles
    ensures clc.onlyPublishedArticles ==>
      InnerJoin(CategoryArticlesJoin) in qms && InnerJoin(ArticlesJoin) in qms && GroupBy(CategoryGroup) in qms
  {
    [OrderBy("position")] +
    (if clc.onlyPublishedArticles
     then [InnerJoin(CategoryArticlesJoin), InnerJoin(ArticlesJoin), GroupBy(CategoryGroup), WhereTrue(PublishedWhere)]
     else [])
  }
}
