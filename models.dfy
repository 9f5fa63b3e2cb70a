/** The row records of the shop database schema (package models), reduced to
    the columns the core reads or writes. */
module Models {
  import opened Decimal
  import Shop

  /** Table names (models/boil_table_names.go). */
  const ArticleBasePricesTable := "article_base_prices"
  const ArticlesTable := "articles"
  const BasePricesTable := "base_prices"
  const CategoriesTable := "categories"
  const CategoryArticlesTable := "category_articles"
  const ImagesTable := "images"
  const OrderArticlesTable := "order_articles"
  const OrdersTable := "orders"
  const VideosTable := "videos"
  const VariantsTable := "variants"

  /** A time.Time as seconds and nanoseconds since the Unix epoch, in UTC. */
  datatype Time = Time(unix: int, nanos: nat)

  /** Go's zero time, 0001-01-01T00:00:00Z. */
  const ZeroTime := Time(-62135596800, 0)

  datatype ArticleRow = ArticleRow(
    id: int,
    created: Time,
    updated: Time,
    published: bool,
    title: string,
    description: string,
    price: Dec,
    promoted: bool)

  /** A row of `images` or of `videos`. */
  datatype MediaRow = MediaRow(id: int, articleId: int, position: int, labelText: string, url: string)

  datatype VariantRow = VariantRow(id: int, articleId: int, labels: seq<string>, multiplier: Dec)

  datatype CategoryRow = CategoryRow(id: int, created: Time, updated: Time, labelText: string, position: int)

  datatype BasePriceRow = BasePriceRow(id: int, created: Time, updated: Time, labelText: string, price: Dec)

  /** The relations loaded into an article record (its `R` struct). */
  datatype Related = Related(
    images: seq<MediaRow>,
    videos: seq<MediaRow>,
    categories: seq<CategoryRow>,
    basePrices: seq<BasePriceRow>,
    variants: seq<VariantRow>)

  /** A row of a join table: `category_articles` or `article_base_prices`. */
  datatype Link = Link(articleId: int, otherId: int)

  datatype OrderRow = OrderRow(
    id: int,
    created: Time,
    updated: Time,
    fullName: string,
    email: string,
    phone: string,
    fullAddress: string,
    message: string,
    paymentMethod: string,
    status: string)

  /** The JSON `details` column of an order line: NULL, the JSON of a
      shop.Details, or text that does not decode as one, with the error
      the JSON decoder reports for it. */
  datatype StoredDetails = NoDetails | DetailsJSON(details: Shop.Details) | Malformed(decodeError: string)

  datatype OrderArticleRow = OrderArticleRow(
    orderId: int,
    articleId: int,
    amount: int,
    title: string,
    price: Dec,
    details: StoredDetails)

  datatype MessageRow = MessageRow(name: string, email: string, phone: string, subject: string, message: string)
}
