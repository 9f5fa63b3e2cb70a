/** The adaptors between the service's messages and the database rows
    (cmd/server/adaptors.go): required-field validation, decimal and
    timestamp conversion, and the per-entity mappings in both directions.
    Loops that fill a slice by index are methods proved equal to a function
    over the whole input; the round trips between the two directions are
    lemmas. */
module Adaptors {
  import opened Wrappers
  import opened Status
  import opened Text
  import opened Decimal
  import opened Models
  import opened Results
  import Shop

  const MissingPrefix := "Missing required fields: "

  /** The field names the decimal errors report. */
  const ArtDecimal := "Price"
  const VarDecimal := "Multiplier"

  // ---------------------------------------------------------------------------
  // Required fields

  /** A value checkRequired inspects, by the dynamic type behind the
      interface: nil, a string, an int, a float64 or a []string. */
  datatype Val = Nil | Str(s: string) | IntV(i: int) | FloatV(r: real) | Strs(ss: seq<string>)

  /** nil, "", 0, 0.0 and an empty []string count as missing. */
  predicate Empty(v: Val)
  {
    match v
    case Nil => true
    case Str(s) => s == ""
    case IntV(i) => i == 0
    case FloatV(r) => r == 0.0
    case Strs(ss) => |ss| == 0
  }

  function EmptyKeys(vals: map<string, Val>): set<string>
  {
    set k | k in vals && Empty(vals[k])
  }

  function MissingError(names: seq<string>): Error
  {
    Status(InvalidArgument, MissingPrefix + Join(names, ", "))
  }

  /** What checkRequired reports: nothing when no value is missing, otherwise
      one InvalidArgument error naming the missing keys in ascending order. */
  function RequiredError(vals: map<string, Val>): (r: Option<Error>)
    ensures r.None? <==> forall k :: k in vals ==> !Empty(vals[k])
  {
    var empty := EmptyKeys(vals);
    assert forall k :: k in vals && Empty(vals[k]) ==> k in empty;
    if empty == {} then None else Some(MissingError(SortedOf(empty)))
  }

  /** The error names exactly the missing keys, sorted, whatever order the map
      hands them out in. */
  lemma RequiredErrorLists(vals: map<string, Val>, names: seq<string>)
    requires StrictlySorted(names) && |names| > 0
    requires forall x :: x in names <==> x in vals && Empty(vals[x])
    ensures RequiredError(vals) == Some(MissingError(names))
  {
    assert names[0] in EmptyKeys(vals);
    StrictlySortedUnique(names, SortedOf(EmptyKeys(vals)));
  }

  /** checkRequired: visits the map in an arbitrary order, collects the keys
      of missing values, sorts them and reports them together. */
  method CheckRequired(vals: map<string, Val>) returns (err: Option<Error>)
    ensures err == RequiredError(vals)
  {
    var empty: seq<string> := [];
    var unvisited := vals.Keys;
    while unvisited != {}
      invariant unvisited <= vals.Keys
      invariant Distinct(empty)
      invariant forall x :: x in empty <==> x in vals && x !in unvisited && Empty(vals[x])
      decreases |unvisited|
    {
      var k :| k in unvisited;
      if Empty(vals[k]) {
        empty := empty + [k];
      }
      unvisited := unvisited - {k};
    }
    var sorted := SortDistinct(empty);
    assert (set x | x in empty) == EmptyKeys(vals);
    if |sorted| > 0 {
      err := Some(MissingError(sorted));
    } else {
      err := None;
    }
  }

  /** All four kinds of empty value are reported, in byte order of their keys. */
  lemma CheckRequiredExample()
    ensures RequiredError(map["Nil" := Nil, "String" := Str(""), "Int" := IntV(0), "Float" := FloatV(0.0)])
      == Some(MissingError(["Float", "Int", "Nil", "String"]))
  {
    var names := ["Float", "Int", "Nil", "String"];
    assert Less(names[0], names[1]) && Less(names[1], names[2]) && Less(names[2], names[3]);
    forall i, j | 0 <= i < j < 4 ensures Less(names[i], names[j]) {
      if j > i + 1 { LessTransitive(names[i], names[i + 1], names[j]); }
      if j > i + 2 { LessTransitive(names[i], names[i + 2], names[j]); }
    }
    RequiredErrorLists(map["Nil" := Nil, "String" := Str(""), "Int" := IntV(0), "Float" := FloatV(0.0)], names);
  }

  // ---------------------------------------------------------------------------
  // Decimals

  function DecimalError(field: string, s: string): Error
  {
    Status(InvalidArgument, "Can't convert " + field + " string " + s + " to decimal")
  }

  /** decimal.Big.SetString, reporting failure as an InvalidArgument error
      that names the field and the text. */
  function ParseDecimal(field: string, s: string): Result<Dec, Error>
  {
    match Parse(s)
    case Some(d) => Success(d)
    case None => Failure(DecimalError(field, s))
  }

  lemma ParseEmpty()
    ensures Parse("") == None
  {
  }

  // ---------------------------------------------------------------------------
  // Messages to rows

  function ArticleVals(sa: Shop.Article): map<string, Val>
  {
    map["Title" := Str(sa.title), "Description" := Str(sa.description), ArtDecimal := Str(sa.price)]
  }

  /** articleMsgToModel: title, description and price are required; the
      price must parse as a decimal; the other fields are copied. */
  function ArticleMsgToModel(sa: Shop.Article): (r: Result<ArticleRow, Error>)
    ensures r.Success? <==> sa.title != "" && sa.description != "" && Parse(sa.price).Some?
    ensures r.Success? ==>
      r.value == ArticleRow(sa.id, ZeroTime, ZeroTime, sa.published, sa.title, sa.description, Parse(sa.price).value, sa.promoted)
    ensures (sa.title == "" || sa.description == "" || sa.price == "") ==>
      r.Failure? && r.error.Status? && r.error.code == InvalidArgument && MissingPrefix <= r.error.message
    ensures sa.title != "" && sa.description != "" && sa.price != "" && Parse(sa.price).None? ==>
      r == Failure(DecimalError(ArtDecimal, sa.price))
  {
    ParseEmpty();
    var vals := ArticleVals(sa);
    assert vals["Title"] == Str(sa.title) && vals["Description"] == Str(sa.description) && vals[ArtDecimal] == Str(sa.price);
    match RequiredError(vals)
    case Some(e) => Failure(e)
    case None =>
      var price :- ParseDecimal(ArtDecimal, sa.price);
      Success(ArticleRow(sa.id, ZeroTime, ZeroTime, sa.published, sa.title, sa.description, price, sa.promoted))
  }

  function BasePriceVals(sbp: Shop.BasePrice): map<string, Val>
  {
    map["Label" := Str(sbp.labelText), "Price" := Str(sbp.price)]
  }

  /** basePriceMsgToModel: label and price are required, and the price must
      parse as a decimal. */
  function BasePriceMsgToModel(sbp: Shop.BasePrice): (r: Result<BasePriceRow, Error>)
    ensures r.Success? <==> sbp.labelText != "" && Parse(sbp.price).Some?
    ensures r.Success? ==> r.value == BasePriceRow(sbp.id, ZeroTime, ZeroTime, sbp.labelText, Parse(sbp.price).value)
    ensures (sbp.labelText == "" || sbp.price == "") ==>
      r.Failure? && r.error.Status? && r.error.code == InvalidArgument && MissingPrefix <= r.error.message
    ensures sbp.labelText != "" && sbp.price != "" && Parse(sbp.price).None? ==>
      r == Failure(DecimalError(ArtDecimal, sbp.price))
  {
    ParseEmpty();
    var vals := BasePriceVals(sbp);
    assert vals["Label"] == Str(sbp.labelText) && vals["Price"] == Str(sbp.price);
    match RequiredError(vals)
    case Some(e) => Failure(e)
    case None =>
      var price :- ParseDecimal(ArtDecimal, sbp.price);
      Success(BasePriceRow(sbp.id, ZeroTime, ZeroTime, sbp.labelText, price))
  }

  function VariantVals(aid: int, v: Shop.Variant): map<string, Val>
  {
    map["ArticleID" := IntV(aid), "Labels" := Strs(v.labels), VarDecimal := Str(v.multiplier)]
  }

  /** One element of variantsMsgToModel: the article id and at least one
      label are required, and the multiplier must parse as a decimal. */
  function VariantMsgToModel(aid: int, v: Shop.Variant): (r: Result<VariantRow, Error>)
    ensures r.Success? <==> aid != 0 && |v.labels| > 0 && Parse(v.multiplier).Some?
    ensures r.Success? ==> r.value == VariantRow(v.id, aid, v.labels, Parse(v.multiplier).value)
    ensures (aid == 0 || |v.labels| == 0 || v.multiplier == "") ==>
      r.Failure? && r.error.Status? && r.error.code == InvalidArgument && MissingPrefix <= r.error.message
    ensures aid != 0 && |v.labels| > 0 && v.multiplier != "" && Parse(v.multiplier).None? ==>
      r == Failure(DecimalError(VarDecimal, v.multiplier))
  {
    ParseEmpty();
    var vals := VariantVals(aid, v);
    assert vals["ArticleID"] == IntV(aid) && vals["Labels"] == Strs(v.labels) && vals[VarDecimal] == Str(v.multiplier);
    match RequiredError(vals)
    case Some(e) => Failure(e)
    case None =>
      var mpl :- ParseDecimal(VarDecimal, v.multiplier);
      Success(VariantRow(v.id, aid, v.labels, mpl))
  }

  function VariantResults(aid: int, sv: seq<Shop.Variant>): seq<Result<VariantRow, Error>>
  {
    seq(|sv|, i requires 0 <= i < |sv| => VariantMsgToModel(aid, sv[i]))
  }

  /** variantsMsgToModel: every variant converted in order, or the first
      error. */
  method VariantsMsgToModel(aid: int, sv: seq<Shop.Variant>) returns (r: Result<seq<VariantRow>, Error>)
    ensures r == Sequence(VariantResults(aid, sv))
  {
    var rs := VariantResults(aid, sv);
    var vars := seq(|sv|, _ => VariantRow(0, 0, [], Zero));
    for i := 0 to |sv|
      invariant |vars| == |sv|
      invariant Sequence(rs[..i]) == Success(vars[..i])
    {
      var v := VariantMsgToModel(aid, sv[i]);
      if v.Failure? {
        SequenceFailsAt(rs, i, v);
        return Failure(v.error);
      }
      SequenceGrow(rs, i, vars[..i], v);
      vars := vars[i := v.value];
      assert vars[..i + 1] == vars[..i] + [v.value];
    }
    assert rs[..|sv|] == rs && vars[..|sv|] == vars;
    r := Success(vars);
  }

  function MediaVals(aid: int, m: Shop.Media): map<string, Val>
  {
    map["ArticleID" := IntV(aid), "Label" := Str(m.labelText), "URL" := Str(m.url)]
  }

  /** One element of imagesMsgToModel or videosMsgToModel: the article id,
      label and URL are required; `position` is the element's 1-based
      place in the list. */
  function MediaMsgToModel(aid: int, m: Shop.Media, position: int): (r: Result<MediaRow, Error>)
    ensures r.Success? <==> aid != 0 && m.labelText != "" && m.url != ""
    ensures r.Success? ==> r.value == MediaRow(m.id, aid, position, m.labelText, m.url)
    ensures r.Failure? ==> r.error.Status? && r.error.code == InvalidArgument && MissingPrefix <= r.error.message
  {
    var vals := MediaVals(aid, m);
    assert vals["ArticleID"] == IntV(aid) && vals["Label"] == Str(m.labelText) && vals["URL"] == Str(m.url);
    match RequiredError(vals)
    case Some(e) => Failure(e)
    case None => Success(MediaRow(m.id, aid, position, m.labelText, m.url))
  }

  function MediaResults(aid: int, sm: seq<Shop.Media>): seq<Result<MediaRow, Error>>
  {
    seq(|sm|, i requires 0 <= i < |sm| => MediaMsgToModel(aid, sm[i], i + 1))
  }

  /** One element of a media list: its row, or its missing-field error. */
  lemma MediaResultAt(aid: int, sm: seq<Shop.Media>, i: nat)
    requires i < |sm|
    ensures var r := MediaResults(aid, sm)[i];
      (r.Success? <==> aid != 0 && sm[i].labelText != "" && sm[i].url != "") &&
      (r.Success? ==> r.value == MediaRow(sm[i].id, aid, i + 1, sm[i].labelText, sm[i].url)) &&
      (r.Failure? ==> r.error.Status? && r.error.code == InvalidArgument && MissingPrefix <= r.error.message)
  {
    assert MediaResults(aid, sm)[i] == MediaMsgToModel(aid, sm[i], i + 1);
  }

  /** imagesMsgToModel and videosMsgToModel (the two are the same code over
      different row types): every element converted in order with its
      1-based position, or the first error. */
  method MediaListMsgToModel(aid: int, sm: seq<Shop.Media>) returns (r: Result<seq<MediaRow>, Error>)
    ensures r == Sequence(MediaResults(aid, sm))
  {
    var rs := MediaResults(aid, sm);
    var rows := seq(|sm|, _ => MediaRow(0, 0, 0, "", ""));
    for i := 0 to |sm|
      invariant |rows| == |sm|
      invariant Sequence(rs[..i]) == Success(rows[..i])
    {
      var m := MediaMsgToModel(aid, sm[i], i + 1);
      if m.Failure? {
        SequenceFailsAt(rs, i, m);
        return Failure(m.error);
      }
      SequenceGrow(rs, i, rows[..i], m);
      rows := rows[i := m.value];
      assert rows[..i + 1] == rows[..i] + [m.value];
    }
    assert rs[..|sm|] == rs && rows[..|sm|] == rows;
    r := Success(rows);
  }

  /** Images and videos keep the submitted order and length, belong to the
      article and are numbered from 1; any missing label or URL, or a zero
      article id, fails the whole list. */
  lemma MediaListSpec(aid: int, sm: seq<Shop.Media>)
    ensures Sequence(MediaResults(aid, sm)).Success? <==>
      |sm| == 0 || (aid != 0 && forall i :: 0 <= i < |sm| ==> sm[i].labelText != "" && sm[i].url != "")
    ensures Sequence(MediaResults(aid, sm)).Success? ==>
      var rows := Sequence(MediaResults(aid, sm)).value;
      |rows| == |sm| &&
      forall i :: 0 <= i < |sm| ==> rows[i] == MediaRow(sm[i].id, aid, i + 1, sm[i].labelText, sm[i].url)
  {
    var rs := MediaResults(aid, sm);
    SequenceSuccess(rs);
    forall i | 0 <= i < |sm|
      ensures (rs[i].Success? <==> aid != 0 && sm[i].labelText != "" && sm[i].url != "")
      ensures rs[i].Success? ==> rs[i].value == MediaRow(sm[i].id, aid, i + 1, sm[i].labelText, sm[i].url)
    {
      MediaResultAt(aid, sm, i);
    }
  }

  /** Categories of a category list: the label is required; `position` is
      the element's 1-based place in the list. */
  function CategoryMsgToModel(c: Shop.Category, position: int): (r: Result<CategoryRow, Error>)
    ensures r.Success? <==> c.labelText != ""
    ensures r.Success? ==> r.value == CategoryRow(c.id, ZeroTime, ZeroTime, c.labelText, position)
    ensures r.Failure? ==> r.error == MissingError(["Label"])
  {
    var row := CategoryRow(c.id, ZeroTime, ZeroTime, c.labelText, position);
    if row.labelText == "" then Failure(MissingError(["Label"])) else Success(row)
  }

  function CategoryResults(list: seq<Shop.Category>): seq<Result<CategoryRow, Error>>
  {
    seq(|list|, i requires 0 <= i < |list| => CategoryMsgToModel(list[i], i + 1))
  }

  /** categoriesMsgToModel: every category converted in order with its
      1-based position, or the error of the first one without a label. */
  method CategoriesMsgToModel(list: seq<Shop.Category>) returns (r: Result<seq<CategoryRow>, Error>)
    ensures r == Sequence(CategoryResults(list))
  {
    var rs := CategoryResults(list);
    var cats := seq(|list|, _ => CategoryRow(0, ZeroTime, ZeroTime, "", 0));
    for i := 0 to |list|
      invariant |cats| == |list|
      invariant Sequence(rs[..i]) == Success(cats[..i])
    {
      var c := CategoryMsgToModel(list[i], i + 1);
      if c.Failure? {
        SequenceFailsAt(rs, i, c);
        return Failure(c.error);
      }
      SequenceGrow(rs, i, cats[..i], c);
      cats := cats[i := c.value];
      assert cats[..i + 1] == cats[..i] + [c.value];
    }
    assert rs[..|list|] == rs && cats[..|list|] == cats;
    r := Success(cats);
  }

  /** The list keeps its order and length and is numbered from 1; one empty
      label fails it with "Missing required fields: Label". */
  lemma CategoriesSpec(list: seq<Shop.Category>)
    ensures Sequence(CategoryResults(list)).Success? <==> forall i :: 0 <= i < |list| ==> list[i].labelText != ""
    ensures Sequence(CategoryResults(list)).Success? ==>
      var rows := Sequence(CategoryResults(list)).value;
      |rows| == |list| &&
      forall i :: 0 <= i < |list| ==> rows[i] == CategoryRow(list[i].id, ZeroTime, ZeroTime, list[i].labelText, i + 1)
    ensures Sequence(CategoryResults(list)).Failure? ==> Sequence(CategoryResults(list)).error == MissingError(["Label"])
  {
    var rs := CategoryResults(list);
    SequenceSuccess(rs);
    assert forall i :: 0 <= i < |list| ==> (rs[i].Success? <==> list[i].labelText != "");
    if Sequence(rs).Failure? {
      var k := FirstFailed(rs);
      SequenceFailure(rs, k);
    }
  }

  /** The position of the first failed step; |rs| when none failed. */
  function FirstFailed<T>(rs: seq<Result<T, Error>>): (k: nat)
    ensures k <= |rs|
    ensures forall j :: 0 <= j < k ==> rs[j].Success?
    ensures k < |rs| ==> rs[k].Failure?
  {
    if |rs| == 0 then 0
    else if rs[0].Failure? then 0
    else 1 + FirstFailed(rs[1..])
  }

  function MessageVals(sm: Shop.Message): map<string, Val>
  {
    map["Name" := Str(sm.name), "Email" := Str(sm.email), "Message" := Str(sm.message)]
  }

  /** messageMsgToModel: name, email and message are required; phone and
      subject are copied as given. */
  function MessageMsgToModel(sm: Shop.Message): (r: Result<MessageRow, Error>)
    ensures r.Success? <==> sm.name != "" && sm.email != "" && sm.message != ""
    ensures r.Success? ==> r.value == MessageRow(sm.name, sm.email, sm.phone, sm.subject, sm.message)
    ensures r.Failure? ==> r.error.Status? && r.error.code == InvalidArgument && MissingPrefix <= r.error.message
  {
    var vals := MessageVals(sm);
    assert vals["Name"] == Str(sm.name) && vals["Email"] == Str(sm.email) && vals["Message"] == Str(sm.message);
    match RequiredError(vals)
    case Some(e) => Failure(e)
    case None => Success(MessageRow(sm.name, sm.email, sm.phone, sm.subject, sm.message))
  }

  // ---------------------------------------------------------------------------
  // Timestamps

  /** The range google.protobuf.Timestamp can hold: 0001-01-01T00:00:00Z up
      to, not including, 10000-01-01T00:00:00Z. */
  const MinValidSeconds := -62135596800
  const MaxValidSeconds := 253402300800

  predicate Representable(t: Time)
  {
    MinValidSeconds <= t.unix < MaxValidSeconds && t.nanos < 1000000000
  }

  /** How a timestamp prints in an error: its set fields in compact text
      form. */
  function TimestampText(seconds: int, nanos: int): string
  {
    "seconds:" + IntToString(seconds) + (if nanos != 0 then " nanos:" + IntToString(nanos) else "")
  }

  /** ptypes.TimestampProto: the timestamp of a time, or the reason it is out
      of range. */
  function TimestampProto(t: Time): (r: Result<Shop.Timestamp, string>)
    ensures r.Success? <==> Representable(t)
    ensures r.Success? ==> r.value.seconds == t.unix && r.value.nanos == t.nanos
  {
    var text := TimestampText(t.unix, t.nanos);
    if t.unix < MinValidSeconds then Failure("timestamp: " + text + " before 0001-01-01")
    else if t.unix >= MaxValidSeconds then Failure("timestamp: " + text + " after 10000-01-01")
    else if t.nanos >= 1000000000 then Failure("timestamp: " + text + ": nanos not in range [0, 1e9)")
    else Success(Shop.Timestamp(t.unix, t.nanos))
  }

  /** A zero time is left out of the message; any other becomes a timestamp,
      and one out of range is an OutOfRange error. */
  function TimeToMsg(t: Time): Result<Option<Shop.Timestamp>, Error>
  {
    if t == ZeroTime then Success(None)
    else match TimestampProto(t)
      case Success(ts) => Success(Some(ts))
      case Failure(m) => Failure(Status(OutOfRange, m))
  }

  /** The message field denotes the time: absent for the zero time, else
      the same seconds and nanoseconds. */
  predicate Denotes(o: Option<Shop.Timestamp>, t: Time)
  {
    if t == ZeroTime then o == None
    else o.Some? && o.value.seconds == t.unix && o.value.nanos == t.nanos
  }

  /** timeModelToMsg: the created time is converted first, then the updated
      time; either failing fails the pair. */
  function TimeModelToMsg(created: Time, updated: Time): (r: Result<(Option<Shop.Timestamp>, Option<Shop.Timestamp>), Error>)
    ensures r.Success? <==> Representable(created) && Representable(updated)
    ensures r.Success? ==> Denotes(r.value.0, created) && Denotes(r.value.1, updated)
    ensures !Representable(created) ==> r == Failure(Status(OutOfRange, TimestampProto(created).error))
    ensures r.Failure? ==> r.error.Status? && r.error.code == OutOfRange
  {
    var c :- TimeToMsg(created);
    var u :- TimeToMsg(updated);
    Success((c, u))
  }

  /** A timestamp read back as a time. */
  function TimeOf(o: Option<Shop.Timestamp>): Time
  {
    match o
    case None => ZeroTime
    case Some(ts) => Time(ts.seconds, if ts.nanos < 0 then 0 else ts.nanos)
  }

  /** Converting representable times to timestamps loses nothing. */
  lemma TimeRoundTrip(created: Time, updated: Time)
    requires Representable(created) && Representable(updated)
    ensures var r := TimeModelToMsg(created, updated);
      r.Success? && TimeOf(r.value.0) == created && TimeOf(r.value.1) == updated
  {
  }

  // ---------------------------------------------------------------------------
  // Rows to messages

  function MediaToMsg(m: MediaRow): Shop.Media
  {
    Shop.Media(m.id, m.labelText, m.url)
  }

  function MediaMessages(rows: seq<MediaRow>): (ms: seq<Shop.Media>)
    ensures |ms| == |rows|
  {
    seq(|rows|, i requires 0 <= i < |rows| => MediaToMsg(rows[i]))
  }

  function CategoryRowToMsg(c: CategoryRow): Shop.Category
  {
    Shop.Category(c.id, None, None, c.labelText)
  }

  function CategoryRowMessages(rows: seq<CategoryRow>): (ms: seq<Shop.Category>)
    ensures |ms| == |rows|
  {
    seq(|rows|, i requires 0 <= i < |rows| => CategoryRowToMsg(rows[i]))
  }

  function BasePriceRowToMsg(bp: BasePriceRow): Shop.BasePrice
  {
    Shop.BasePrice(bp.id, None, None, bp.labelText, Format(bp.price))
  }

  function BasePriceRowMessages(rows: seq<BasePriceRow>): (ms: seq<Shop.BasePrice>)
    ensures |ms| == |rows|
  {
    seq(|rows|, i requires 0 <= i < |rows| => BasePriceRowToMsg(rows[i]))
  }

  function VariantToMsg(v: VariantRow): Shop.Variant
  {
    Shop.Variant(v.id, v.labels, Format(v.multiplier))
  }

  function VariantMessages(rows: seq<VariantRow>): (ms: seq<Shop.Variant>)
    ensures |ms| == |rows|
  {
    seq(|rows|, i requires 0 <= i < |rows| => VariantToMsg(rows[i]))
  }

  method MediaRowsToMsg(rows: seq<MediaRow>) returns (ms: seq<Shop.Media>)
    ensures ms == MediaMessages(rows)
  {
    ms := seq(|rows|, _ => Shop.Media(0, "", ""));
    for i := 0 to |rows|
      invariant |ms| == |rows|
      invariant forall j :: 0 <= j < i ==> ms[j] == MediaToMsg(rows[j])
    {
      ms := ms[i := MediaToMsg(rows[i])];
    }
  }

  method CategoryRowsToMsg(rows: seq<CategoryRow>) returns (ms: seq<Shop.Category>)
    ensures ms == CategoryRowMessages(rows)
  {
    ms := seq(|rows|, _ => Shop.Category(0, None, None, ""));
    for i := 0 to |rows|
      invariant |ms| == |rows|
      invariant forall j :: 0 <= j < i ==> ms[j] == CategoryRowToMsg(rows[j])
    {
      ms := ms[i := CategoryRowToMsg(rows[i])];
    }
  }

  method BasePriceRowsToMsg(rows: seq<BasePriceRow>) returns (ms: seq<Shop.BasePrice>)
    ensures ms == BasePriceRowMessages(rows)
  {
    ms := seq(|rows|, _ => Shop.BasePrice(0, None, None, "", ""));
    for i := 0 to |rows|
      invariant |ms| == |rows|
      invariant forall j :: 0 <= j < i ==> ms[j] == BasePriceRowToMsg(rows[j])
    {
      ms := ms[i := BasePriceRowToMsg(rows[i])];
    }
  }

  method VariantRowsToMsg(rows: seq<VariantRow>) returns (ms: seq<Shop.Variant>)
    ensures ms == VariantMessages(rows)
  {
    ms := seq(|rows|, _ => Shop.Variant(0, [], ""));
    for i := 0 to |rows|
      invariant |ms| == |rows|
      invariant forall j :: 0 <= j < i ==> ms[j] == VariantToMsg(rows[j])
    {
      ms := ms[i := VariantToMsg(rows[i])];
    }
  }

  /** An article with no loaded relations carries empty relation lists. */
  const NoRelations := Related([], [], [], [], [])

  /** What articleModelToMsg returns: the timestamps, the copied fields, the
      price as text, and each loaded relation converted element by element. */
  function ArticleOf(art: ArticleRow, r: Option<Related>): Result<Shop.Article, Error>
  {
    var times :- TimeModelToMsg(art.created, art.updated);
    var rel := if r.Some? then r.value else NoRelations;
    Success(Shop.Article(
      art.id, times.0, times.1, art.published, art.title, art.description, Format(art.price), art.promoted,
      MediaMessages(rel.images), MediaMessages(rel.videos), CategoryRowMessages(rel.categories),
      BasePriceRowMessages(rel.basePrices), VariantMessages(rel.variants)))
  }

  /** articleModelToMsg. */
  method ArticleModelToMsg(art: ArticleRow, r: Option<Related>) returns (res: Result<Shop.Article, Error>)
    ensures res == ArticleOf(art, r)
  {
    var times := TimeModelToMsg(art.created, art.updated);
    if times.Failure? {
      return Failure(times.error);
    }
    var rel := if r.Some? then r.value else NoRelations;
    var images := MediaRowsToMsg(rel.images);
    var videos := MediaRowsToMsg(rel.videos);
    var categories := CategoryRowsToMsg(rel.categories);
    var baseprices := BasePriceRowsToMsg(rel.basePrices);
    var variants := VariantRowsToMsg(rel.variants);
    res := Success(Shop.Article(
      art.id, times.value.0, times.value.1, art.published, art.title, art.description, Format(art.price),
      art.promoted, images, videos, categories, baseprices, variants));
  }

  /** An article sent out and read back in is the same record, except for
      the timestamps, which the database keeps. */
  lemma ArticleRoundTrip(art: ArticleRow, r: Option<Related>)
    requires ArticleOf(art, r).Success?
    requires art.title != "" && art.description != ""
    ensures ArticleMsgToModel(ArticleOf(art, r).value) == Success(art.(created := ZeroTime, updated := ZeroTime))
  {
    ParseFormat(art.price);
  }

  /** The media of an article sent out and read back in are the same rows. */
  lemma MediaRoundTrip(aid: int, rows: seq<MediaRow>)
    requires aid != 0
    requires forall i :: 0 <= i < |rows| ==>
      rows[i].articleId == aid && rows[i].position == i + 1 && rows[i].labelText != "" && rows[i].url != ""
    ensures Sequence(MediaResults(aid, MediaMessages(rows))) == Success(rows)
  {
    var sm := MediaMessages(rows);
    assert forall i :: 0 <= i < |rows| ==> sm[i] == MediaToMsg(rows[i]);
    MediaListSpec(aid, sm);
    assert Sequence(MediaResults(aid, sm)).Success?;
    var out := Sequence(MediaResults(aid, sm)).value;
    assert |out| == |rows|;
    assert forall i :: 0 <= i < |rows| ==> out[i] == rows[i];
    assert out == rows;
  }

  /** The variants of an article sent out and read back in are the same rows. */
  lemma VariantsRoundTrip(aid: int, rows: seq<VariantRow>)
    requires aid != 0
    requires forall i :: 0 <= i < |rows| ==> rows[i].articleId == aid && |rows[i].labels| > 0
    ensures Sequence(VariantResults(aid, VariantMessages(rows))) == Success(rows)
  {
    var sv := VariantMessages(rows);
    var rs := VariantResults(aid, sv);
    forall i | 0 <= i < |rows| ensures rs[i] == Success(rows[i]) {
      assert sv[i] == VariantToMsg(rows[i]);
      VariantRoundTrip(aid, rows[i]);
    }
    SequenceSuccess(rs);
    var out := Sequence(rs).value;
    assert |out| == |rows|;
    assert forall i :: 0 <= i < |rows| ==> out[i] == rows[i];
    assert out == rows;
  }

  lemma VariantRoundTrip(aid: int, row: VariantRow)
    requires aid != 0 && row.articleId == aid && |row.labels| > 0
    ensures VariantMsgToModel(aid, VariantToMsg(row)) == Success(row)
  {
    ParseFormat(row.multiplier);
  }

  /** basePriceModeltoMsg. */
  function BasePriceModelToMsg(bp: BasePriceRow): (r: Result<Shop.BasePrice, Error>)
    ensures r.Success? <==> Representable(bp.created) && Representable(bp.updated)
    ensures r.Success? ==> Denotes(r.value.created, bp.created) && Denotes(r.value.updated, bp.updated)
    ensures r.Success? ==> r.value.id == bp.id && r.value.labelText == bp.labelText && Parse(r.value.price) == Some(bp.price)
  {
    ParseFormat(bp.price);
    var times :- TimeModelToMsg(bp.created, bp.updated);
    Success(Shop.BasePrice(bp.id, times.0, times.1, bp.labelText, Format(bp.price)))
  }

  function BasePriceMessageResults(bps: seq<BasePriceRow>): seq<Result<Shop.BasePrice, Error>>
  {
    seq(|bps|, i requires 0 <= i < |bps| => BasePriceModelToMsg(bps[i]))
  }

  /** basePricesModeltoMsg: every base price converted in order, or the
      first timestamp error. */
  method BasePricesModelToMsg(bps: seq<BasePriceRow>) returns (r: Result<seq<Shop.BasePrice>, Error>)
    ensures r == Sequence(BasePriceMessageResults(bps))
  {
    var rs := BasePriceMessageResults(bps);
    var sbp := seq(|bps|, _ => Shop.BasePrice(0, None, None, "", ""));
    for i := 0 to |bps|
      invariant |sbp| == |bps|
      invariant Sequence(rs[..i]) == Success(sbp[..i])
    {
      var b := BasePriceModelToMsg(bps[i]);
      if b.Failure? {
        SequenceFailsAt(rs, i, b);
        return Failure(b.error);
      }
      SequenceGrow(rs, i, sbp[..i], b);
      sbp := sbp[i := b.value];
      assert sbp[..i + 1] == sbp[..i] + [b.value];
    }
    assert rs[..|bps|] == rs && sbp[..|bps|] == sbp;
    r := Success(sbp);
  }

  /** A base price sent out and read back in is the same row, except for the
      timestamps, which the database keeps. */
  lemma BasePriceRoundTrip(bp: BasePriceRow)
    requires Representable(bp.created) && Representable(bp.updated)
    requires bp.labelText != ""
    ensures BasePriceMsgToModel(BasePriceModelToMsg(bp).value) == Success(bp.(created := ZeroTime, updated := ZeroTime))
  {
    ParseFormat(bp.price);
  }

  /** One element of categoriesModeltoMsg. */
  function CategoryModelToMsg(c: CategoryRow): (r: Result<Shop.Category, Error>)
    ensures r.Success? <==> Representable(c.created) && Representable(c.updated)
    ensures r.Success? ==> Denotes(r.value.created, c.created) && Denotes(r.value.updated, c.updated)
    ensures r.Success? ==> r.value.id == c.id && r.value.labelText == c.labelText
  {
    var times :- TimeModelToMsg(c.created, c.updated);
    Success(Shop.Category(c.id, times.0, times.1, c.labelText))
  }

  function CategoryMessageResults(cats: seq<CategoryRow>): seq<Result<Shop.Category, Error>>
  {
    seq(|cats|, i requires 0 <= i < |cats| => CategoryModelToMsg(cats[i]))
  }

  /** categoriesModeltoMsg: every category converted in order, or the first
      timestamp error. */
  method CategoriesModelToMsg(cats: seq<CategoryRow>) returns (r: Result<seq<Shop.Category>, Error>)
    ensures r == Sequence(CategoryMessageResults(cats))
  {
    var rs := CategoryMessageResults(cats);
    var scs := seq(|cats|, _ => Shop.Category(0, None, None, ""));
    for i := 0 to |cats|
      invariant |scs| == |cats|
      invariant Sequence(rs[..i]) == Success(scs[..i])
    {
      var c := CategoryModelToMsg(cats[i]);
      if c.Failure? {
        SequenceFailsAt(rs, i, c);
        return Failure(c.error);
      }
      SequenceGrow(rs, i, scs[..i], c);
      scs := scs[i := c.value];
      assert scs[..i + 1] == scs[..i] + [c.value];
    }
    assert rs[..|cats|] == rs && scs[..|cats|] == scs;
    r := Success(scs);
  }

  /** A category list sent out and read back in is the same list, provided it
      was numbered from 1 and every category has a label. */
  lemma CategoriesRoundTrip(cats: seq<CategoryRow>)
    requires forall i :: 0 <= i < |cats| ==>
      Representable(cats[i].created) && Representable(cats[i].updated) &&
      cats[i].labelText != "" && cats[i].position == i + 1
    ensures Sequence(CategoryMessageResults(cats)).Success?
    ensures var sent := Sequence(CategoryMessageResults(cats)).value;
      Sequence(CategoryResults(sent)) ==
        Success(seq(|cats|, i requires 0 <= i < |cats| => cats[i].(created := ZeroTime, updated := ZeroTime)))
  {
    var rs := CategoryMessageResults(cats);
    SequenceSuccess(rs);
    var sent := Sequence(rs).value;
    assert forall i :: 0 <= i < |cats| ==> sent[i] == rs[i].value;
    CategoriesSpec(sent);
    var back := Sequence(CategoryResults(sent)).value;
    var want := seq(|cats|, i requires 0 <= i < |cats| => cats[i].(created := ZeroTime, updated := ZeroTime));
    assert |back| == |want|;
    assert forall i :: 0 <= i < |cats| ==> back[i] == want[i];
    assert back == want;
  }
}
