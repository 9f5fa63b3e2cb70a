/** The database a request transaction works on, and the read-only steps of
    cmd/server/transaction.go that price an order line. Tables are row
    sequences (module Tables); a statement on a table named in `failing`
    reports a driver error, which stands for every failure of the database
    connection. */
module Store {
  import opened Wrappers
  import opened Status
  import opened Text
  import opened Decimal
  import opened Models
  import opened Tables
  import Shop

  datatype Db = Db(
    articles: seq<ArticleRow>,
    images: seq<MediaRow>,
    videos: seq<MediaRow>,
    variants: seq<VariantRow>,
    basePrices: seq<BasePriceRow>,
    categoryArticles: seq<Link>,
    articleBasePrices: seq<Link>,
    orders: seq<OrderRow>,
    orderArticles: seq<OrderArticleRow>,
    lastArticleId: nat,
    lastOrderId: nat,
    failing: set<string>)

  // Columns the statements select on.
  function ArticleKey(a: ArticleRow): int { a.id }
  function MediaKey(m: MediaRow): int { m.id }
  function MediaOwner(m: MediaRow): int { m.articleId }
  function VariantKey(v: VariantRow): int { v.id }
  function VariantOwner(v: VariantRow): int { v.articleId }
  function BasePriceKey(b: BasePriceRow): int { b.id }
  function LinkArticle(l: Link): int { l.articleId }
  function LinkOther(l: Link): int { l.otherId }

  // ---------------------------------------------------------------------------
  // checkDBErrors

  /** What one statement reported: nothing, sql.ErrNoRows, or another error. */
  datatype DBResult = Ok | NoRows | Failed

  /** A result that decides checkDBErrors: any error except a no-rows error
      nobody asked to be warned about. */
  predicate Decisive(e: DBResult, warnNoRows: bool)
  {
    e == Failed || (e == NoRows && warnNoRows)
  }

  /** checkDBErrors: the first decisive result gives NotFound with the log
      message for a no-rows error and Internal for any other; without one
      there is no error. */
  function DBErrors(logMsg: string, errs: seq<DBResult>, warnNoRows: bool): (r: Option<Error>)
    ensures r.Some? ==> r == Some(Status(NotFound, logMsg)) || r == Some(Status(Internal, ErrDB))
    ensures r.Some? && !warnNoRows ==> r == Some(Status(Internal, ErrDB))
  {
    if |errs| == 0 then None
    else if errs[0] == Failed then Some(Status(Internal, ErrDB))
    else if errs[0] == NoRows && warnNoRows then Some(Status(NotFound, logMsg))
    else DBErrors(logMsg, errs[1..], warnNoRows)
  }

  /** No error is reported iff no result is decisive. */
  lemma {:induction false} DBErrorsNone(logMsg: string, errs: seq<DBResult>, warnNoRows: bool)
    ensures DBErrors(logMsg, errs, warnNoRows).None? <==> forall i :: 0 <= i < |errs| ==> !Decisive(errs[i], warnNoRows)
  {
    if |errs| > 0 {
      DBErrorsNone(logMsg, errs[1..], warnNoRows);
      assert forall i :: 1 <= i < |errs| ==> errs[i] == errs[1..][i - 1];
    }
  }

  /** The first decisive result decides, whatever follows it. */
  lemma {:induction false} DBErrorsFirst(logMsg: string, errs: seq<DBResult>, warnNoRows: bool, k: nat)
    requires k < |errs| && Decisive(errs[k], warnNoRows)
    requires forall i :: 0 <= i < k ==> !Decisive(errs[i], warnNoRows)
    ensures DBErrors(logMsg, errs, warnNoRows) ==
      if errs[k] == Failed then Some(Status(Internal, ErrDB)) else Some(Status(NotFound, logMsg))
  {
    if k > 0 {
      assert errs[1..][k - 1] == errs[k];
      DBErrorsFirst(logMsg, errs[1..], warnNoRows, k - 1);
    }
  }

  /** The cases of the unit tests of checkDBErrors. */
  lemma DBErrorsExamples()
    ensures DBErrors("testing", [], false) == None
    ensures DBErrors("testing", [Ok, Ok, Ok], false) == None
    ensures DBErrors("testing", [Ok, NoRows, Ok], true) == Some(Status(NotFound, "testing"))
    ensures DBErrors("testing", [Ok, NoRows, Ok], false) == None
    ensures DBErrors("testing", [Ok, Failed, Ok], true) == Some(Status(Internal, ErrDB))
    ensures DBErrors("testing", [Ok, Failed, NoRows], true) == Some(Status(Internal, ErrDB))
  {
    assert [Ok, NoRows, Ok][1..] == [NoRows, Ok];
    assert [Ok, Failed, Ok][1..] == [Failed, Ok];
    assert [Ok, Failed, NoRows][1..] == [Failed, NoRows];
  }

  // ---------------------------------------------------------------------------
  // Lookups

  /** A Find by primary key: the row, or no rows, or the driver's error. */
  function Find<T>(d: Db, table: string, rows: seq<T>, key: T -> int, k: int): (Option<T>, DBResult)
  {
    if table in d.failing then (None, Failed)
    else match Lookup(rows, key, k)
      case Some(r) => (Some(r), Ok)
      case None => (None, NoRows)
  }

  /** An Exists query: whether `rows` has one owned by `aid`; false with the
      driver's error when the table fails. */
  function Exists<T>(fails: bool, rows: seq<T>, owner: T -> int, aid: int): (bool, DBResult)
  {
    if fails then (false, Failed)
    else (|Owned(rows, owner, aid)| > 0, Ok)
  }

  // ---------------------------------------------------------------------------
  // Pricing

  /** shouldCalcPrice: whether the article has a base price (through the
      article_base_prices join) and a variant, and the first query error. */
  function ShouldCalcPrice(d: Db, aid: int): (r: (bool, Option<Error>))
    ensures r.1.None? <==> ArticleBasePricesTable !in d.failing && BasePricesTable !in d.failing && VariantsTable !in d.failing
    ensures r.1.Some? ==> r.1 == Some(Status(Internal, ErrDB))
  {
    var bp := Exists(ArticleBasePricesTable in d.failing || BasePricesTable in d.failing, d.articleBasePrices, LinkArticle, aid);
    var vt := Exists(VariantsTable in d.failing, d.variants, VariantOwner, aid);
    DBErrorsNone("shouldCalcPrice", [bp.1, vt.1], false);
    (bp.0 && vt.0, DBErrors("shouldCalcPrice", [bp.1, vt.1], false))
  }

  /** When the queries succeed, prices are calculated iff the article has at
      least one base price and at least one variant. */
  lemma ShouldCalcPriceIff(d: Db, aid: int)
    requires ShouldCalcPrice(d, aid).1.None?
    ensures ShouldCalcPrice(d, aid).0 <==>
      (exists l :: l in d.articleBasePrices && l.articleId == aid) && (exists v :: v in d.variants && v.articleId == aid)
  {
    Partition(d.articleBasePrices, LinkArticle, aid);
    Partition(d.variants, VariantOwner, aid);
    var links := Owned(d.articleBasePrices, LinkArticle, aid);
    var vs := Owned(d.variants, VariantOwner, aid);
    if |links| > 0 {
      assert links[0] in links;
    }
    if |vs| > 0 {
      assert vs[0] in vs;
    }
  }

  /** The price of an order line and how it was arrived at. */
  datatype Calculation = Calculation(price: Dec, details: Shop.Details)

  /** errVrtPrice for an article. */
  function VrtPriceError(aid: int): Error
  {
    Status(InvalidArgument, "Article ID " + IntToString(aid) + " missing BasePrice or Variant ID")
  }

  /** The log message, and NotFound message, of calcPrice's lookups. */
  function PriceLookupMessage(aid: int): string
  {
    "BasePrice and/or Variant for Article ID " + IntToString(aid)
  }

  /** The details of a calculation: the base price's label and price and the
      variant's labels and multiplier, as text; identifiers are not fetched. */
  function DetailsOf(bp: BasePriceRow, v: VariantRow): Shop.Details
  {
    Shop.Details(Shop.BasePrice(0, None, None, bp.labelText, Format(bp.price)), Shop.Variant(0, v.labels, Format(v.multiplier)))
  }

  /** calcPrice: both identifiers are required before anything is looked up;
      a missing base price or variant is NotFound; the price is the base
      price times the multiplier, exactly. */
  function CalcPrice(d: Db, aid: int, bpID: int, vrtID: int): (r: Result<Calculation, Error>)
    ensures bpID == 0 || vrtID == 0 ==> r == Failure(VrtPriceError(aid))
    ensures r.Success? ==>
      (Lookup(d.basePrices, BasePriceKey, bpID).Some? && Lookup(d.variants, VariantKey, vrtID).Some? &&
       var bp := Lookup(d.basePrices, BasePriceKey, bpID).value;
       var v := Lookup(d.variants, VariantKey, vrtID).value;
       r.value.price == Mul(bp.price, v.multiplier) && r.value.details == DetailsOf(bp, v))
  {
    if bpID == 0 || vrtID == 0 then Failure(VrtPriceError(aid))
    else
      var bp := Find(d, BasePricesTable, d.basePrices, BasePriceKey, bpID);
      var vrt := Find(d, VariantsTable, d.variants, VariantKey, vrtID);
      match DBErrors(PriceLookupMessage(aid), [bp.1, vrt.1], true)
      case Some(e) => Failure(e)
      case None =>
        DBErrorsNone(PriceLookupMessage(aid), [bp.1, vrt.1], true);
        Success(Calculation(Mul(bp.0.value.price, vrt.0.value.multiplier), DetailsOf(bp.0.value, vrt.0.value)))
  }

  /** With both identifiers given and the tables answering, calcPrice fails
      exactly when a row is missing, and then with NotFound. */
  lemma CalcPriceMissing(d: Db, aid: int, bpID: int, vrtID: int)
    requires bpID != 0 && vrtID != 0
    requires BasePricesTable !in d.failing && VariantsTable !in d.failing
    ensures CalcPrice(d, aid, bpID, vrtID).Success? <==>
      Lookup(d.basePrices, BasePriceKey, bpID).Some? && Lookup(d.variants, VariantKey, vrtID).Some?
    ensures CalcPrice(d, aid, bpID, vrtID).Failure? ==>
      CalcPrice(d, aid, bpID, vrtID).error == Status(NotFound, PriceLookupMessage(aid))
  {
    var bp := Find(d, BasePricesTable, d.basePrices, BasePriceKey, bpID);
    var vrt := Find(d, VariantsTable, d.variants, VariantKey, vrtID);
    DBErrorsNone(PriceLookupMessage(aid), [bp.1, vrt.1], true);
  }

  /** A table that fails makes calcPrice fail with Internal, whether the rows
      exist or not. */
  lemma CalcPriceFailing(d: Db, aid: int, bpID: int, vrtID: int)
    requires bpID != 0 && vrtID != 0
    requires BasePricesTable in d.failing
    ensures CalcPrice(d, aid, bpID, vrtID) == Failure(Status(Internal, ErrDB))
  {
  }

  /** The base prices and variants of the unit tests of calcPrice. */
  const PricingDb := Db([], [], [],
    [VariantRow(41, 3, ["hello", "world"], Dec(333, 2)), VariantRow(42, 3, ["foo", "bar"], Dec(999, 2))],
    [BasePriceRow(31, ZeroTime, ZeroTime, "Cheap material", Dec(4455, 2)),
     BasePriceRow(32, ZeroTime, ZeroTime, "Premium material", Dec(9999, 2))],
    [], [], [], [], 0, 0, {})

  /** 44.55 × 3.33 is 148.3515, with no rounding. */
  lemma CalcPriceCheapExample()
    ensures CalcPrice(PricingDb, 3, 31, 41).Success?
    ensures CalcPrice(PricingDb, 3, 31, 41).value.price == Dec(1483515, 4)
  {
    assert Lookup(PricingDb.basePrices, BasePriceKey, 31) == Some(PricingDb.basePrices[0]);
    assert Lookup(PricingDb.variants, VariantKey, 41) == Some(PricingDb.variants[0]);
    CalcPriceMissing(PricingDb, 3, 31, 41);
  }

  /** 99.99 × 9.99 is 998.9001. */
  lemma CalcPricePremiumExample()
    ensures CalcPrice(PricingDb, 3, 32, 42).Success?
    ensures CalcPrice(PricingDb, 3, 32, 42).value.price == Dec(9989001, 4)
  {
    assert PricingDb.basePrices[1..] == [PricingDb.basePrices[1]];
    assert PricingDb.variants[1..] == [PricingDb.variants[1]];
    assert Lookup(PricingDb.basePrices, BasePriceKey, 32) == Some(PricingDb.basePrices[1]);
    assert Lookup(PricingDb.variants, VariantKey, 42) == Some(PricingDb.variants[1]);
    CalcPriceMissing(PricingDb, 3, 32, 42);
  }

  /** There is no base price 29. */
  lemma CalcPriceMissingExample()
    ensures CalcPrice(PricingDb, 3, 29, 41) == Failure(Status(NotFound, PriceLookupMessage(3)))
  {
    assert PricingDb.basePrices[1..][1..] == [];
    assert Lookup(PricingDb.basePrices, BasePriceKey, 29) == None;
    CalcPriceMissing(PricingDb, 3, 29, 41);
  }

  /** errNotFound for an article identifier. */
  function ArticleNotFound(aid: int): Error
  {
    Status(NotFound, "Article with ID " + IntToString(aid) + " not found")
  }

  /** newOrderArticle: the line takes the article's title and price; when
      the article has base prices and variants the price is calculated from
      the chosen ones and the calculation is kept as the line's details. */
  function NewOrderArticle(d: Db, so: Shop.ArticleAmount): (r: Result<OrderArticleRow, Error>)
    ensures ArticlesTable in d.failing ==> r == Failure(Status(Internal, ErrDB))
    ensures ArticlesTable !in d.failing && Lookup(d.articles, ArticleKey, so.articleId).None? ==>
      r == Failure(ArticleNotFound(so.articleId))
    ensures r.Success? ==>
      (Lookup(d.articles, ArticleKey, so.articleId).Some? && ShouldCalcPrice(d, so.articleId).1.None? &&
       var art := Lookup(d.articles, ArticleKey, so.articleId).value;
       r.value.articleId == so.articleId && r.value.amount == so.amount && r.value.title == art.title &&
       (if ShouldCalcPrice(d, so.articleId).0
        then CalcPrice(d, so.articleId, so.basePriceId, so.variantId).Success? &&
             r.value.price == CalcPrice(d, so.articleId, so.basePriceId, so.variantId).value.price &&
             r.value.details == DetailsJSON(CalcPrice(d, so.articleId, so.basePriceId, so.variantId).value.details)
        else r.value.price == art.price && r.value.details == NoDetails))
  {
    var aid := so.articleId;
    var found := Find(d, ArticlesTable, d.articles, ArticleKey, aid);
    if found.1 == Failed then Failure(Status(Internal, ErrDB))
    else if found.0.None? then Failure(ArticleNotFound(aid))
    else
      var art := found.0.value;
      var oa := OrderArticleRow(0, aid, so.amount, art.title, art.price, NoDetails);
      var should := ShouldCalcPrice(d, aid);
      if should.1.Some? then Failure(should.1.value)
      else if !should.0 then Success(oa)
      else
        var computed :- CalcPrice(d, aid, so.basePriceId, so.variantId);
        Success(oa.(price := computed.price, details := DetailsJSON(computed.details)))
  }
}
