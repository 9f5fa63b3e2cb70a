/** The protocol messages of the shop service (package shop), reduced to the
    fields the core reads or writes. A repeated field is a sequence, a message
    field that may be absent is an Option, and an enum is its number. */
module Shop {
  import opened Wrappers
  import Text

  /** Numbers of the field-selection enums. 0 is the `*_ALL` value of every
      one of them; the others follow declaration order. */
  const ALL := 0
  const ArticleFieldsID := 1
  const ArticleFieldsTITLE := 5
  const ArticleFieldsPRICE := 7
  const ArticleFieldsPROMOTED := 8
  const MediaFieldsLABEL := 2
  const MediaFieldsURL := 3

  /** Which columns of each relation a listing should carry. */
  datatype ArticleRelations = ArticleRelations(
    images: seq<int>,
    videos: seq<int>,
    categories: seq<int>,
    baseprices: seq<int>,
    variants: seq<int>)

  /** Paging of a listing. The builder writes a default limit into it, so it
      is an object the caller shares. */
  class Limits {
    var limit: int
    var offset: int

    constructor (limit: int, offset: int)
      ensures this.limit == limit && this.offset == offset
    {
      this.limit := limit;
      this.offset := offset;
    }
  }

  datatype ListConditions = ListConditions(
    fields: seq<int>,
    relations: Option<ArticleRelations>,
    limits: Limits?,
    onlyPublished: bool,
    onlyPromoted: bool,
    onlyCategoryId: int,
    onlyCategoryLabel: string)

  /** google.protobuf.Timestamp */
  datatype Timestamp = Timestamp(seconds: int, nanos: int)

  datatype Media = Media(id: int, labelText: string, url: string)

  datatype Category = Category(id: int, created: Option<Timestamp>, updated: Option<Timestamp>, labelText: string)

  datatype BasePrice = BasePrice(
    id: int,
    created: Option<Timestamp>,
    updated: Option<Timestamp>,
    labelText: string,
    price: string)

  datatype Variant = Variant(id: int, labels: seq<string>, multiplier: string)

  /** How an order line's price was calculated. */
  datatype Details = Details(basePrice: BasePrice, variant: Variant)

  datatype Article = Article(
    id: int,
    created: Option<Timestamp>,
    updated: Option<Timestamp>,
    published: bool,
    title: string,
    description: string,
    price: string,
    promoted: bool,
    images: seq<Media>,
    videos: seq<Media>,
    categories: seq<Category>,
    baseprices: seq<BasePrice>,
    variants: seq<Variant>)

  /** One line of an order (Order_ArticleAmount). */
  datatype ArticleAmount = ArticleAmount(
    articleId: int,
    amount: int,
    title: string,
    price: string,
    total: string,
    basePriceId: int,
    variantId: int,
    details: Option<Details>)

  datatype Order = Order(
    id: int,
    created: Option<Timestamp>,
    updated: Option<Timestamp>,
    fullName: string,
    email: string,
    phone: string,
    fullAddress: string,
    message: string,
    paymentMethod: int,
    status: int,
    articles: seq<ArticleAmount>)

  datatype Message = Message(name: string, email: string, phone: string, subject: string, message: string)

  datatype ListOrderConditions = ListOrderConditions(status: int)

  /** The ANY value of ListOrderConditions_Status. */
  const ListOrderConditionsANY := 0

  datatype CategoryListConditions = CategoryListConditions(onlyPublishedArticles: bool)

  /** A generated enum: its value names and the reverse lookup table
      (`X_name` and `X_value`). */
  datatype EnumTable = EnumTable(names: map<int, string>, values: map<string, int>)
  {
    /** The two tables are inverse to each other. */
    predicate Consistent()
    {
      (forall v :: v in names ==> names[v] in values && values[names[v]] == v) &&
      (forall s :: s in values ==> values[s] in names && names[values[s]] == s)
    }

    /** The enum's String(): its name, or the number for a value without one. */
    function Name(v: int): (s: string)
      ensures v in names ==> s == names[v]
    {
      if v in names then names[v] else Text.IntToString(v)
    }
  }
}
