/** Reading the article listing's JSON result (cmd/server/adaptors.go): the
    query the builder produces returns one JSON array of article objects, and
    the server walks it with fastjson's typed getters, which yield the zero
    value for a missing key or a value of another kind. */
module JsonValues {
  import opened Wrappers
  import opened Status
  import opened Models
  import opened Results
  import opened Adaptors
  import Shop
  import Columns

  /** A parsed JSON value. Numbers are integers: every number the listing
      query emits is an identifier. */
  datatype Json =
    | JNull
    | JBool(b: bool)
    | JNum(n: int)
    | JStr(s: string)
    | JArr(items: seq<Json>)
    | JObj(fields: map<string, Json>)

  // ---------------------------------------------------------------------------
  // fastjson's getters

  /** Value.GetInt(key): the number under `key`, 0 when there is none. */
  function GetInt(v: Json, key: string): (n: int)
    ensures n != 0 ==> v.JObj? && key in v.fields && v.fields[key] == JNum(n)
  {
    if v.JObj? && key in v.fields && v.fields[key].JNum? then v.fields[key].n else 0
  }

  /** Value.GetStringBytes(key): the string under `key`, empty when there is none. */
  function GetString(v: Json, key: string): (s: string)
    ensures s != "" ==> v.JObj? && key in v.fields && v.fields[key] == JStr(s)
  {
    if v.JObj? && key in v.fields && v.fields[key].JStr? then v.fields[key].s else ""
  }

  /** Value.GetBool(key): the boolean under `key`, false when there is none. */
  function GetBool(v: Json, key: string): (b: bool)
    ensures b ==> v.JObj? && key in v.fields && v.fields[key] == JBool(true)
  {
    v.JObj? && key in v.fields && v.fields[key].JBool? && v.fields[key].b
  }

  /** Value.GetArray(key): the items under `key`, none when there is no array. */
  function GetArray(v: Json, key: string): (a: seq<Json>)
    ensures |a| > 0 ==> v.JObj? && key in v.fields && v.fields[key] == JArr(a)
  {
    if v.JObj? && key in v.fields && v.fields[key].JArr? then v.fields[key].items else []
  }

  /** strconv.Unquote of a value's JSON text: a string's contents; anything
      else is not a quoted string, and the error is dropped, leaving "". */
  function Unquote(v: Json): string
  {
    if v.JStr? then v.s else ""
  }

  // ---------------------------------------------------------------------------
  // Values to messages

  function MediaOfValue(m: Json): Shop.Media
  {
    Shop.Media(GetInt(m, "id"), GetString(m, "label"), GetString(m, "url"))
  }

  /** Only the identifier and the label of a category are read. */
  function CategoryOfValue(c: Json): Shop.Category
  {
    Shop.Category(GetInt(c, "id"), None, None, GetString(c, "label"))
  }

  /** The price stays text, as the query wrote it. */
  function BasePriceOfValue(b: Json): Shop.BasePrice
  {
    Shop.BasePrice(GetInt(b, "id"), None, None, GetString(b, "label"), GetString(b, "price"))
  }

  function LabelsOf(ls: seq<Json>): (labels: seq<string>)
    ensures |labels| == |ls|
  {
    seq(|ls|, i requires 0 <= i < |ls| => Unquote(ls[i]))
  }

  function VariantOfValue(v: Json): Shop.Variant
  {
    Shop.Variant(GetInt(v, "id"), LabelsOf(GetArray(v, "labels")), GetString(v, "multiplier"))
  }

  function MediaValues(mds: seq<Json>): (sm: seq<Shop.Media>)
    ensures |sm| == |mds|
  {
    seq(|mds|, i requires 0 <= i < |mds| => MediaOfValue(mds[i]))
  }

  function CategoryValues(cvs: seq<Json>): (sc: seq<Shop.Category>)
    ensures |sc| == |cvs|
  {
    seq(|cvs|, i requires 0 <= i < |cvs| => CategoryOfValue(cvs[i]))
  }

  function BasePriceValues(bpv: seq<Json>): (sbp: seq<Shop.BasePrice>)
    ensures |sbp| == |bpv|
  {
    seq(|bpv|, i requires 0 <= i < |bpv| => BasePriceOfValue(bpv[i]))
  }

  function VariantValues(vts: seq<Json>): (sv: seq<Shop.Variant>)
    ensures |sv| == |vts|
  {
    seq(|vts|, i requires 0 <= i < |vts| => VariantOfValue(vts[i]))
  }

  /** mediaValuesToMsg. */
  method MediaValuesToMsg(mds: seq<Json>) returns (sm: seq<Shop.Media>)
    ensures sm == MediaValues(mds)
  {
    if |mds| == 0 {
      return [];
    }
    sm := seq(|mds|, _ => Shop.Media(0, "", ""));
    for i := 0 to |mds|
      invariant |sm| == |mds|
      invariant forall j :: 0 <= j < i ==> sm[j] == MediaOfValue(mds[j])
    {
      sm := sm[i := Shop.Media(GetInt(mds[i], "id"), GetString(mds[i], "label"), GetString(mds[i], "url"))];
    }
  }

  /** categoryValuesToMsg. */
  method CategoryValuesToMsg(cvs: seq<Json>) returns (sc: seq<Shop.Category>)
    ensures sc == CategoryValues(cvs)
  {
    if |cvs| == 0 {
      return [];
    }
    sc := seq(|cvs|, _ => Shop.Category(0, None, None, ""));
    for i := 0 to |cvs|
      invariant |sc| == |cvs|
      invariant forall j :: 0 <= j < i ==> sc[j] == CategoryOfValue(cvs[j])
    {
      sc := sc[i := Shop.Category(GetInt(cvs[i], "id"), None, None, GetString(cvs[i], "label"))];
    }
  }

  /** basePriceValuesToMsg. */
  method BasePriceValuesToMsg(bpv: seq<Json>) returns (sbp: seq<Shop.BasePrice>)
    ensures sbp == BasePriceValues(bpv)
  {
    if |bpv| == 0 {
      return [];
    }
    sbp := seq(|bpv|, _ => Shop.BasePrice(0, None, None, "", ""));
    for i := 0 to |bpv|
      invariant |sbp| == |bpv|
      invariant forall j :: 0 <= j < i ==> sbp[j] == BasePriceOfValue(bpv[j])
    {
      var b := bpv[i];
      sbp := sbp[i := Shop.BasePrice(GetInt(b, "id"), None, None, GetString(b, "label"), GetString(b, "price"))];
    }
  }

  /** variantValuesToMsg: the labels are appended one by one to each variant. */
  method VariantValuesToMsg(vts: seq<Json>) returns (sv: seq<Shop.Variant>)
    ensures sv == VariantValues(vts)
  {
    if |vts| == 0 {
      return [];
    }
    sv := seq(|vts|, _ => Shop.Variant(0, [], ""));
    for i := 0 to |vts|
      invariant |sv| == |vts|
      invariant forall j :: 0 <= j < i ==> sv[j] == VariantOfValue(vts[j])
    {
      var v := vts[i];
      var ls := GetArray(v, "labels");
      var labels: seq<string> := [];
      for k := 0 to |ls|
        invariant labels == LabelsOf(ls[..k])
      {
        labels := labels + [Unquote(ls[k])];
      }
      assert ls[..|ls|] == ls;
      sv := sv[i := Shop.Variant(GetInt(v, "id"), labels, GetString(v, "multiplier"))];
    }
  }

  // ---------------------------------------------------------------------------
  // Timestamps as text

  /** How a text timestamp reads: the time it denotes, or the parser's
      complaint. */
  type TimeParser = string -> Result<Time, string>

  /** An empty text stands for the zero time; a parse error is OutOfRange. */
  function ParseTime(text: string, parse: TimeParser): (r: Result<Time, Error>)
    ensures text == "" ==> r == Success(ZeroTime)
    ensures text != "" ==> (parse(text).Success? <==> r.Success?)
    ensures text != "" && r.Success? ==> r.value == parse(text).value
    ensures text != "" && r.Failure? ==> r.error == Status(OutOfRange, parse(text).error)
  {
    if |text| == 0 then Success(ZeroTime)
    else match parse(text)
      case Success(t) => Success(t)
      case Failure(m) => Failure(Status(OutOfRange, m))
  }

  /** timeBytesToMsg: both texts are parsed as RFC 3339, created first, and
      the two times are then converted as timeModelToMsg converts them. */
  function TimeBytesToMsg(ca: string, ua: string, parse: TimeParser): (r: Result<(Option<Shop.Timestamp>, Option<Shop.Timestamp>), Error>)
    ensures ca == "" && ua == "" ==> r == Success((None, None))
    ensures ca != "" && parse(ca).Failure? ==> r == Failure(Status(OutOfRange, parse(ca).error))
    ensures r.Success? ==>
      (ParseTime(ca, parse).Success? && ParseTime(ua, parse).Success? &&
       Denotes(r.value.0, ParseTime(ca, parse).value) && Denotes(r.value.1, ParseTime(ua, parse).value))
    ensures r.Failure? ==> r.error.Status? && r.error.code == OutOfRange
  {
    var ct :- ParseTime(ca, parse);
    var ut :- ParseTime(ua, parse);
    TimeModelToMsg(ct, ut)
  }

  // ---------------------------------------------------------------------------
  // Articles

  /** articleValueToMsg with the key its base prices are read from: the
      relation fields are read with GetArray, so a key the object does not
      have yields no elements rather than an error. */
  function ArticleFromValue(art: Json, parse: TimeParser, basePricesKey: string): Result<Shop.Article, Error>
  {
    var times :- TimeBytesToMsg(GetString(art, "created_at"), GetString(art, "updated_at"), parse);
    Success(Shop.Article(
      GetInt(art, "id"), times.0, times.1, GetBool(art, "published"),
      GetString(art, "title"), GetString(art, "description"), GetString(art, "price"), GetBool(art, "promoted"),
      MediaValues(GetArray(art, ImagesTable)), MediaValues(GetArray(art, VideosTable)),
      CategoryValues(GetArray(art, CategoriesTable)),
      BasePriceValues(GetArray(art, basePricesKey)),
      VariantValues(GetArray(art, VariantsTable))))
  }

  /** articleValueToMsg as written: the base prices are looked up under
      "baseprices". */
  function ArticleValueToMsgAsWritten(art: Json, parse: TimeParser): Result<Shop.Article, Error>
  {
    ArticleFromValue(art, parse, "baseprices")
  }

  /** articleValueToMsg reading the base prices under the key the listing
      query emits for them, the relation's name "base_prices". */
  function ArticleValueToMsg(art: Json, parse: TimeParser): (r: Result<Shop.Article, Error>)
    ensures r.Success? <==> TimeBytesToMsg(GetString(art, "created_at"), GetString(art, "updated_at"), parse).Success?
    ensures r.Success? ==> r.value.baseprices == BasePriceValues(GetArray(art, BasePricesTable))
  {
    ArticleFromValue(art, parse, BasePricesTable)
  }

  // ---------------------------------------------------------------------------
  // The objects the listing query builds

  function MediaValue(m: Shop.Media): Json
  {
    JObj(map["id" := JNum(m.id), "label" := JStr(m.labelText), "url" := JStr(m.url)])
  }

  function CategoryValue(c: Shop.Category): Json
  {
    JObj(map["id" := JNum(c.id), "label" := JStr(c.labelText)])
  }

  function BasePriceValue(b: Shop.BasePrice): Json
  {
    JObj(map["id" := JNum(b.id), "label" := JStr(b.labelText), "price" := JStr(b.price)])
  }

  function VariantValue(v: Shop.Variant): Json
  {
    JObj(map["id" := JNum(v.id), "labels" := JArr(seq(|v.labels|, i requires 0 <= i < |v.labels| => JStr(v.labels[i]))),
             "multiplier" := JStr(v.multiplier)])
  }

  function MediaArray(ms: seq<Shop.Media>): seq<Json>
  {
    seq(|ms|, i requires 0 <= i < |ms| => MediaValue(ms[i]))
  }

  function CategoryArray(cs: seq<Shop.Category>): seq<Json>
  {
    seq(|cs|, i requires 0 <= i < |cs| => CategoryValue(cs[i]))
  }

  function BasePriceArray(bs: seq<Shop.BasePrice>): seq<Json>
  {
    seq(|bs|, i requires 0 <= i < |bs| => BasePriceValue(bs[i]))
  }

  function VariantArray(vs: seq<Shop.Variant>): seq<Json>
  {
    seq(|vs|, i requires 0 <= i < |vs| => VariantValue(vs[i]))
  }

  /** The article object: its columns under their column names, its times as
      RFC 3339 text, and each relation's array under the relation's name. */
  function ArticleValue(sa: Shop.Article, ca: string, ua: string): Json
  {
    JObj(map[
      "id" := JNum(sa.id), "created_at" := JStr(ca), "updated_at" := JStr(ua),
      "published" := JBool(sa.published), "title" := JStr(sa.title), "description" := JStr(sa.description),
      "price" := JStr(sa.price), "promoted" := JBool(sa.promoted),
      ImagesTable := JArr(MediaArray(sa.images)), VideosTable := JArr(MediaArray(sa.videos)),
      CategoriesTable := JArr(CategoryArray(sa.categories)), BasePricesTable := JArr(BasePriceArray(sa.baseprices)),
      VariantsTable := JArr(VariantArray(sa.variants))])
  }

  /** The fields a listing carries: categories and base prices without their
      own timestamps. */
  predicate Listed(sa: Shop.Article)
  {
    (forall c :: c in sa.categories ==> c.created == None && c.updated == None) &&
    (forall b :: b in sa.baseprices ==> b.created == None && b.updated == None)
  }

  lemma MediaValueRoundTrip(m: Shop.Media)
    ensures MediaOfValue(MediaValue(m)) == m
  {
  }

  lemma VariantValueRoundTrip(v: Shop.Variant)
    ensures VariantOfValue(VariantValue(v)) == v
  {
    var ls := GetArray(VariantValue(v), "labels");
    assert |ls| == |v.labels|;
    assert forall i :: 0 <= i < |ls| ==> Unquote(ls[i]) == v.labels[i];
  }

  lemma MediaArrayRoundTrip(ms: seq<Shop.Media>)
    ensures MediaValues(MediaArray(ms)) == ms
  {
    var out := MediaValues(MediaArray(ms));
    forall i | 0 <= i < |ms| ensures out[i] == ms[i] {
      MediaValueRoundTrip(ms[i]);
    }
  }

  /** Categories come back with their identifier and label, which is all a
      listing carries of them. */
  lemma CategoryArrayRoundTrip(cs: seq<Shop.Category>)
    requires forall c :: c in cs ==> c.created == None && c.updated == None
    ensures CategoryValues(CategoryArray(cs)) == cs
  {
    var out := CategoryValues(CategoryArray(cs));
    forall i | 0 <= i < |cs| ensures out[i] == cs[i] {
      assert cs[i] in cs;
    }
  }

  lemma BasePriceArrayRoundTrip(bs: seq<Shop.BasePrice>)
    requires forall b :: b in bs ==> b.created == None && b.updated == None
    ensures BasePriceValues(BasePriceArray(bs)) == bs
  {
    var out := BasePriceValues(BasePriceArray(bs));
    forall i | 0 <= i < |bs| ensures out[i] == bs[i] {
      assert bs[i] in bs;
    }
  }

  lemma VariantArrayRoundTrip(vs: seq<Shop.Variant>)
    ensures VariantValues(VariantArray(vs)) == vs
  {
    var out := VariantValues(VariantArray(vs));
    forall i | 0 <= i < |vs| ensures out[i] == vs[i] {
      VariantValueRoundTrip(vs[i]);
    }
  }

  /** The getters find the article's identifier and times where the object
      put them. */
  lemma ArticleValueTimes(sa: Shop.Article, ca: string, ua: string)
    ensures var art := ArticleValue(sa, ca, ua);
      GetInt(art, "id") == sa.id && GetString(art, "created_at") == ca && GetString(art, "updated_at") == ua
  {
  }

  /** The getters find the article's other columns where the object put them. */
  lemma ArticleValueColumns(sa: Shop.Article, ca: string, ua: string)
    ensures var art := ArticleValue(sa, ca, ua);
      GetBool(art, "published") == sa.published && GetString(art, "title") == sa.title &&
      GetString(art, "description") == sa.description && GetString(art, "price") == sa.price &&
      GetBool(art, "promoted") == sa.promoted
  {
  }

  /** The getters find each relation's array under the relation's name. */
  lemma ArticleValueRelations(sa: Shop.Article, ca: string, ua: string)
    ensures var art := ArticleValue(sa, ca, ua);
      GetArray(art, ImagesTable) == MediaArray(sa.images) && GetArray(art, VideosTable) == MediaArray(sa.videos) &&
      GetArray(art, CategoriesTable) == CategoryArray(sa.categories) &&
      GetArray(art, BasePricesTable) == BasePriceArray(sa.baseprices) &&
      GetArray(art, VariantsTable) == VariantArray(sa.variants)
  {
  }

  /** Every field and relation list of a listed article survives the JSON
      object the query builds and articleValueToMsg reading it back. */
  lemma ArticleValueRoundTrip(sa: Shop.Article, ca: string, ua: string, parse: TimeParser)
    requires Listed(sa)
    requires TimeBytesToMsg(ca, ua, parse).Success?
    ensures var t := TimeBytesToMsg(ca, ua, parse).value;
      ArticleValueToMsg(ArticleValue(sa, ca, ua), parse) == Success(sa.(created := t.0, updated := t.1))
  {
    ArticleValueTimes(sa, ca, ua);
    ArticleValueColumns(sa, ca, ua);
    ArticleValueRelations(sa, ca, ua);
    MediaArrayRoundTrip(sa.images);
    MediaArrayRoundTrip(sa.videos);
    CategoryArrayRoundTrip(sa.categories);
    BasePriceArrayRoundTrip(sa.baseprices);
    VariantArrayRoundTrip(sa.variants);
  }

  /** The listing query names the base prices' array after the relation,
      "base_prices", while the reader as written looks under "baseprices": an
      article with base prices comes back without them. */
  lemma AsWrittenDropsBasePrices(sa: Shop.Article, ca: string, ua: string, parse: TimeParser)
    requires |sa.baseprices| > 0
    requires TimeBytesToMsg(ca, ua, parse).Success?
    ensures Columns.RelationNames[3] == BasePricesTable
    ensures ArticleValueToMsgAsWritten(ArticleValue(sa, ca, ua), parse).Success?
    ensures ArticleValueToMsgAsWritten(ArticleValue(sa, ca, ua), parse).value.baseprices == []
  {
    ArticleValueTimes(sa, ca, ua);
    assert "baseprices" !in ArticleValue(sa, ca, ua).fields;
  }

  // ---------------------------------------------------------------------------
  // The scanner

  /** What database/sql hands to Scan: NULL, the column's bytes, or a value
      of another type. */
  datatype Scanned = NilValue | Bytes(b: string) | OtherValue

  /** How a JSON text parses: the value, or the parser's complaint. */
  type JsonParser = string -> Result<Json, string>

  function ArticleResults(va: seq<Json>, parse: TimeParser): (rs: seq<Result<Shop.Article, Error>>)
    ensures |rs| == |va|
  {
    seq(|va|, i requires 0 <= i < |va| => ArticleValueToMsg(va[i], parse))
  }

  /** What articlesJSONtoMsg returns: every article of the array in order,
      or the first article's error; a result that is not an array is a
      fatal error. */
  function ArticlesOf(v: Json, parse: TimeParser): Result<seq<Shop.Article>, Error>
  {
    if v.JArr? then Sequence(ArticleResults(v.items, parse)) else Failure(Status(Internal, ErrFatal))
  }

  /** jsonScanner: a database/sql Scanner that keeps the parsed JSON of the
      column it scans. */
  class JsonScanner {
    var value: Option<Json>
    const parser: JsonParser

    constructor (parser: JsonParser)
      ensures value == None && this.parser == parser
    {
      value := None;
      this.parser := parser;
    }

    /** Scan: NULL and values that are not bytes are refused and leave the
        scanner as it was; bytes are parsed, and a parse failure clears the
        value and is wrapped. */
    method Scan(v: Scanned) returns (err: Option<Error>)
      modifies this
      ensures v.NilValue? ==> err == Some(Raw(ErrJSONEmpty)) && value == old(value)
      ensures v.OtherValue? ==> err == Some(Raw(ErrJSONAssert)) && value == old(value)
      ensures v.Bytes? && parser(v.b).Failure? ==> err == Some(Raw("json Scan: " + parser(v.b).error)) && value == None
      ensures v.Bytes? && parser(v.b).Success? ==> err == None && value == Some(parser(v.b).value)
    {
      match v
      case NilValue => return Some(Raw(ErrJSONEmpty));
      case OtherValue => return Some(Raw(ErrJSONAssert));
      case Bytes(js) =>
        match parser(js)
        case Failure(m) =>
          value := None;
          return Some(Raw("json Scan: " + m));
        case Success(j) =>
          value := Some(j);
          return None;
    }

    /** articlesJSONtoMsg: the scanned value must be an array; its articles
        are converted in order, stopping at the first error. */
    method ArticlesJSONtoMsg(parse: TimeParser) returns (r: Result<seq<Shop.Article>, Error>)
      requires value.Some?
      ensures r == ArticlesOf(value.value, parse)
    {
      var v := value.value;
      if !v.JArr? {
        return Failure(Status(Internal, ErrFatal));
      }
      var va := v.items;
      var rs := ArticleResults(va, parse);
      var sas := seq(|va|, _ => Shop.Article(0, None, None, false, "", "", "", false, [], [], [], [], []));
      for i := 0 to |va|
        invariant |sas| == |va|
        invariant Sequence(rs[..i]) == Success(sas[..i])
      {
        var a := ArticleValueToMsg(va[i], parse);
        if a.Failure? {
          SequenceFailsAt(rs, i, a);
          return Failure(a.error);
        }
        SequenceGrow(rs, i, sas[..i], a);
        sas := sas[i := a.value];
        assert sas[..i + 1] == sas[..i] + [a.value];
      }
      assert rs[..|va|] == rs && sas[..|va|] == sas;
      r := Success(sas);
    }
  }

  /** A listing result read back: the articles the query encoded, each with
      its relation lists, when none carries a timestamp. */
  lemma {:induction false} ArticlesRoundTrip(sas: seq<Shop.Article>, parse: TimeParser)
    requires forall i :: 0 <= i < |sas| ==> Listed(sas[i]) && sas[i].created == None && sas[i].updated == None
    ensures ArticlesOf(JArr(seq(|sas|, i requires 0 <= i < |sas| => ArticleValue(sas[i], "", ""))), parse) == Success(sas)
  {
    var va := seq(|sas|, i requires 0 <= i < |sas| => ArticleValue(sas[i], "", ""));
    var rs := ArticleResults(va, parse);
    forall i | 0 <= i < |sas| ensures rs[i] == Success(sas[i]) {
      ArticleValueRoundTrip(sas[i], "", "", parse);
    }
    SequenceSuccess(rs);
    var out := Sequence(rs).value;
    assert |out| == |sas|;
    assert forall i :: 0 <= i < |sas| ==> out[i] == sas[i];
    assert out == sas;
  }

  /** A result that is not an array is a fatal error, whatever it holds. */
  lemma NotAnArray(v: Json, parse: TimeParser)
    requires !v.JArr?
    ensures ArticlesOf(v, parse) == Failure(Status(Internal, ErrFatal))
  {
  }
}
