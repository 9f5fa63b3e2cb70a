/** The order side of the adaptors (cmd/server/adaptors.go): validating a new
    order and its lines, pricing the stored lines for display, and mapping
    orders between messages and rows through the enum name tables. */
module OrderAdaptors {
  import opened Wrappers
  import opened Status
  import opened Text
  import opened Decimal
  import opened Models
  import opened Results
  import opened Adaptors
  import Shop

  // ---------------------------------------------------------------------------
  // A new order

  function OrderVals(so: Shop.Order): map<string, Val>
  {
    map["FullName" := Str(so.fullName), "Email" := Str(so.email), "Phone" := Str(so.phone),
        "FullAddress" := Str(so.fullAddress)]
  }

  /** orderMsgToModel: name, email, phone and address are required; the
      message is copied and the payment method is stored by its enum name.
      Id, timestamps and status are left to the database. */
  function OrderMsgToModel(so: Shop.Order, pm: Shop.EnumTable): (r: Result<OrderRow, Error>)
    ensures r.Success? <==> so.fullName != "" && so.email != "" && so.phone != "" && so.fullAddress != ""
    ensures r.Success? ==>
      r.value == OrderRow(0, ZeroTime, ZeroTime, so.fullName, so.email, so.phone, so.fullAddress, so.message,
                          pm.Name(so.paymentMethod), "")
    ensures r.Failure? ==> r.error.Status? && r.error.code == InvalidArgument && MissingPrefix <= r.error.message
  {
    var vals := OrderVals(so);
    assert vals["FullName"] == Str(so.fullName) && vals["Email"] == Str(so.email) &&
      vals["Phone"] == Str(so.phone) && vals["FullAddress"] == Str(so.fullAddress);
    match RequiredError(vals)
    case Some(e) => Failure(e)
    case None =>
      Success(OrderRow(0, ZeroTime, ZeroTime, so.fullName, so.email, so.phone, so.fullAddress, so.message,
                       pm.Name(so.paymentMethod), ""))
  }

  /** A payment method with a name is stored under that name, which reads
      back as the same number. */
  lemma PaymentMethodStored(so: Shop.Order, pm: Shop.EnumTable)
    requires pm.Consistent() && so.paymentMethod in pm.names
    requires OrderMsgToModel(so, pm).Success?
    ensures var row := OrderMsgToModel(so, pm).value;
      row.paymentMethod in pm.values && pm.values[row.paymentMethod] == so.paymentMethod
  {
  }

  // ---------------------------------------------------------------------------
  // The lines of a new order

  function NegAmountError(a: Shop.ArticleAmount): Error
  {
    Status(InvalidArgument, "Negative amount on order article " + IntToString(a.articleId) + ": " + IntToString(a.amount))
  }

  /** The place of the first line with a negative amount; |sa| if none. */
  function FirstNegative(sa: seq<Shop.ArticleAmount>): (k: nat)
    ensures k <= |sa|
    ensures forall j :: 0 <= j < k ==> sa[j].amount >= 0
    ensures k < |sa| ==> sa[k].amount < 0
  {
    if |sa| == 0 then 0
    else if sa[0].amount < 0 then 0
    else 1 + FirstNegative(sa[1..])
  }

  /** The total number of articles ordered. */
  function AmountSum(sa: seq<Shop.ArticleAmount>): int
  {
    if |sa| == 0 then 0 else AmountSum(sa[..|sa| - 1]) + sa[|sa| - 1].amount
  }

  /** What checkOrderArticles reports: the first negative amount, else an
      order of nothing, else no error. */
  function OrderArticlesError(sa: seq<Shop.ArticleAmount>): Option<Error>
  {
    var k := FirstNegative(sa);
    if k < |sa| then Some(NegAmountError(sa[k]))
    else if AmountSum(sa) == 0 then Some(Status(InvalidArgument, ErrNoArts))
    else None
  }

  /** checkOrderArticles. */
  method CheckOrderArticles(sa: seq<Shop.ArticleAmount>) returns (err: Option<Error>)
    ensures err == OrderArticlesError(sa)
  {
    var total := 0;
    for i := 0 to |sa|
      invariant forall j :: 0 <= j < i ==> sa[j].amount >= 0
      invariant total == AmountSum(sa[..i])
    {
      if sa[i].amount < 0 {
        assert FirstNegative(sa) == i;
        return Some(NegAmountError(sa[i]));
      }
      assert sa[..i + 1][..i] == sa[..i];
      total := total + sa[i].amount;
    }
    assert sa[..|sa|] == sa;
    if total == 0 {
      return Some(Status(InvalidArgument, ErrNoArts));
    }
    return None;
  }

  /** Amounts that are all non-negative add up to zero iff every one is zero. */
  lemma {:induction false} AmountSumZero(sa: seq<Shop.ArticleAmount>)
    requires forall i :: 0 <= i < |sa| ==> sa[i].amount >= 0
    ensures AmountSum(sa) >= 0
    ensures AmountSum(sa) == 0 <==> forall i :: 0 <= i < |sa| ==> sa[i].amount == 0
  {
    if |sa| > 0 {
      var front := sa[..|sa| - 1];
      assert forall i :: 0 <= i < |front| ==> front[i] == sa[i];
      AmountSumZero(front);
    }
  }

  /** An order is accepted iff no amount is negative and at least one article
      is ordered; a rejection for a negative amount names the first such
      line. */
  lemma OrderArticlesAccepted(sa: seq<Shop.ArticleAmount>)
    ensures OrderArticlesError(sa).None? <==>
      (forall i :: 0 <= i < |sa| ==> sa[i].amount >= 0) && (exists i :: 0 <= i < |sa| && sa[i].amount > 0)
    ensures forall k :: 0 <= k < |sa| && sa[k].amount < 0 && (forall j :: 0 <= j < k ==> sa[j].amount >= 0) ==>
      OrderArticlesError(sa) == Some(NegAmountError(sa[k]))
  {
    var k := FirstNegative(sa);
    if k == |sa| {
      AmountSumZero(sa);
    }
  }

  function LineOf(aid: int, amount: int): Shop.ArticleAmount
  {
    Shop.ArticleAmount(aid, amount, "", "", "", 0, 0, None)
  }

  /** Orders of nothing: no lines, or only zero amounts. */
  lemma NothingOrderedExamples()
    ensures OrderArticlesError([]) == Some(Status(InvalidArgument, ErrNoArts))
    ensures OrderArticlesError([LineOf(1, 0), LineOf(2, 0), LineOf(3, 0)]) == Some(Status(InvalidArgument, ErrNoArts))
  {
    OrderArticlesAccepted([LineOf(1, 0), LineOf(2, 0), LineOf(3, 0)]);
  }

  /** A negative amount is reported with its article; positive amounts
      beside zero ones are accepted. */
  lemma NegativeAndValidExamples()
    ensures OrderArticlesError([LineOf(1, 0), LineOf(2, -1), LineOf(3, 0)]) == Some(NegAmountError(LineOf(2, -1)))
    ensures OrderArticlesError([LineOf(1, 0), LineOf(2, 10), LineOf(3, 22)]) == None
  {
    OrderArticlesAccepted([LineOf(1, 0), LineOf(2, -1), LineOf(3, 0)]);
    var ok := [LineOf(1, 0), LineOf(2, 10), LineOf(3, 22)];
    OrderArticlesAccepted(ok);
    assert ok[1].amount > 0;
  }

  // ---------------------------------------------------------------------------
  // Stored lines to messages

  /** A line's total: its price times its amount. */
  function LineTotal(a: OrderArticleRow): Dec
  {
    Mul(a.price, FromInt(a.amount))
  }

  /** A line total is exact. */
  lemma LineTotalValue(a: OrderArticleRow)
    ensures Value(LineTotal(a)) == Value(a.price) * a.amount as real
  {
  }

  /** The details a line carries: none, the decoded value, or the decoder's
      error, passed through as it is. */
  function DetailsOf(d: StoredDetails): Result<Option<Shop.Details>, Error>
  {
    match d
    case NoDetails => Success(None)
    case DetailsJSON(x) => Success(Some(x))
    case Malformed(e) => Failure(Raw(e))
  }

  function LineMessage(a: OrderArticleRow): Result<Shop.ArticleAmount, Error>
  {
    var details :- DetailsOf(a.details);
    Success(Shop.ArticleAmount(a.articleId, a.amount, a.title, Format(a.price), Format(LineTotal(a)), 0, 0, details))
  }

  function LineResults(arts: seq<OrderArticleRow>): seq<Result<Shop.ArticleAmount, Error>>
  {
    seq(|arts|, i requires 0 <= i < |arts| => LineMessage(arts[i]))
  }

  /** The running sum of the line totals, as decimal.Big.Add accumulates it
      from zero. */
  function SumOf(arts: seq<OrderArticleRow>): Dec
  {
    if |arts| == 0 then Zero else Add(SumOf(arts[..|arts| - 1]), LineTotal(arts[|arts| - 1]))
  }

  /** What orderArticlesModelsToMsg returns: the lines with their totals and
      the order's sum as text, or the first details decoding error. */
  function OrderLinesOf(arts: seq<OrderArticleRow>): Result<(seq<Shop.ArticleAmount>, string), Error>
  {
    var lines :- Sequence(LineResults(arts));
    Success((lines, Format(SumOf(arts))))
  }

  /** One more line of the loop in orderArticlesModelsToMsg: the messages so
      far grow by the line's message, the sum by its total. */
  lemma LineStep(arts: seq<OrderArticleRow>, i: nat, prev: seq<Shop.ArticleAmount>, m: Shop.ArticleAmount)
    requires i < |arts|
    requires Sequence(LineResults(arts)[..i]) == Success(prev)
    requires LineMessage(arts[i]) == Success(m)
    ensures Sequence(LineResults(arts)[..i + 1]) == Success(prev + [m])
    ensures SumOf(arts[..i + 1]) == Add(SumOf(arts[..i]), LineTotal(arts[i]))
  {
    var rs := LineResults(arts);
    assert rs[i] == Success(m);
    SequenceStep(rs, i);
    SumStep(arts, i);
  }

  lemma SumStep(arts: seq<OrderArticleRow>, i: nat)
    requires i < |arts|
    ensures SumOf(arts[..i + 1]) == Add(SumOf(arts[..i]), LineTotal(arts[i]))
  {
    var front := arts[..i + 1];
    assert front[..|front| - 1] == arts[..i];
    assert front[|front| - 1] == arts[i];
  }

  /** The body of the loop in orderArticlesModelsToMsg: one line's message,
      its details decoded, and its total. */
  method LineToMsg(a: OrderArticleRow) returns (r: Result<Shop.ArticleAmount, Error>, total: Dec)
    ensures r == LineMessage(a) && total == LineTotal(a)
  {
    total := Mul(a.price, FromInt(a.amount));
    var m := Shop.ArticleAmount(a.articleId, a.amount, a.title, Format(a.price), Format(total), 0, 0, None);
    match a.details {
      case NoDetails =>
        r := Success(m);
      case DetailsJSON(x) =>
        r := Success(m.(details := Some(x)));
      case Malformed(e) =>
        r := Failure(Raw(e));
    }
  }

  /** A line whose details do not decode ends the loop with that error. */
  lemma LineFails(arts: seq<OrderArticleRow>, i: nat)
    requires i < |arts|
    requires Sequence(LineResults(arts)[..i]).Success?
    requires LineMessage(arts[i]).Failure?
    ensures OrderLinesOf(arts) == Failure(LineMessage(arts[i]).error)
  {
    SequenceStep(LineResults(arts), i);
    SequenceStops(LineResults(arts), i + 1);
  }

  /** After the last line the loop's messages and sum are the result. */
  lemma LinesDone(arts: seq<OrderArticleRow>, soaa: seq<Shop.ArticleAmount>)
    requires Sequence(LineResults(arts)[..|arts|]) == Success(soaa)
    ensures OrderLinesOf(arts) == Success((soaa, Format(SumOf(arts[..|arts|]))))
  {
    assert LineResults(arts)[..|arts|] == LineResults(arts);
    assert arts[..|arts|] == arts;
  }

  /** orderArticlesModelsToMsg. */
  method OrderArticlesModelsToMsg(arts: seq<OrderArticleRow>) returns (r: Result<(seq<Shop.ArticleAmount>, string), Error>)
    ensures r == OrderLinesOf(arts)
  {
    var sum := Zero;
    var soaa := seq(|arts|, _ => Shop.ArticleAmount(0, 0, "", "", "", 0, 0, None));
    for i := 0 to |arts|
      invariant |soaa| == |arts|
      invariant Sequence(LineResults(arts)[..i]) == Success(soaa[..i])
      invariant sum == SumOf(arts[..i])
    {
      var line, total := LineToMsg(arts[i]);
      if line.Failure? {
        LineFails(arts, i);
        return Failure(line.error);
      }
      LineStep(arts, i, soaa[..i], line.value);
      assert soaa[i := line.value][..i + 1] == soaa[..i] + [line.value];
      soaa := soaa[i := line.value];
      sum := Add(sum, total);
    }
    assert soaa[..|arts|] == soaa;
    LinesDone(arts, soaa);
    r := Success((soaa, Format(sum)));
  }

  /** The exact total of an order: each price times its amount, added up. */
  function Total(arts: seq<OrderArticleRow>): real
  {
    if |arts| == 0 then 0.0 else Total(arts[..|arts| - 1]) + Value(arts[|arts| - 1].price) * arts[|arts| - 1].amount as real
  }

  /** The sum is the exact total of the line totals: nothing is rounded. */
  lemma {:induction false} SumIsTotal(arts: seq<OrderArticleRow>)
    ensures Value(SumOf(arts)) == Total(arts)
  {
    if |arts| > 0 {
      SumIsTotal(arts[..|arts| - 1]);
      LineTotalValue(arts[|arts| - 1]);
    }
  }

  /** Each line's total text reads back as exactly its price times its
      amount, and its price text as its price. */
  lemma LineTotalText(a: OrderArticleRow)
    requires LineMessage(a).Success?
    ensures var m := LineMessage(a).value;
      Parse(m.total).Some? && Value(Parse(m.total).value) == Value(a.price) * a.amount as real &&
      Parse(m.price) == Some(a.price)
  {
    ParseFormat(LineTotal(a));
    ParseFormat(a.price);
    LineTotalValue(a);
  }

  /** The prices of the unit tests: 44.44 four times and 55.55 five times
      come to 177.76 and 277.75, and to 455.51 together. */
  lemma OrderSumExample()
    ensures var arts := [OrderArticleRow(0, 44, 4, "Something 4", Dec(4444, 2), NoDetails),
                         OrderArticleRow(0, 55, 5, "Something 5", Dec(5555, 2), NoDetails)];
      LineTotal(arts[0]) == Dec(17776, 2) && LineTotal(arts[1]) == Dec(27775, 2) &&
      SumOf(arts) == Dec(45551, 2)
  {
    var a := OrderArticleRow(0, 44, 4, "Something 4", Dec(4444, 2), NoDetails);
    var b := OrderArticleRow(0, 55, 5, "Something 5", Dec(5555, 2), NoDetails);
    var arts := [a, b];
    assert LineTotal(a) == Dec(17776, 2);
    assert LineTotal(b) == Dec(27775, 2);
    assert arts[..1] == [a] && arts[..1][..0] == [];
    var first := Add(Zero, Dec(17776, 2));
    assert Pow10(2) == 100;
    assert first == Dec(17776, 2);
    assert SumOf(arts[..1]) == first;
    assert SumOf(arts) == Add(Dec(17776, 2), Dec(27775, 2));
  }

  /** The order of the transaction tests: 30000.99 once, 12.12 three times
      and the computed 148.3515 five times come to 30779.1075, with every
      digit of the computed price kept. */
  lemma OrderTotalExample()
    ensures var arts := [OrderArticleRow(0, 11, 1, "ID 11", Dec(3000099, 2), NoDetails),
                         OrderArticleRow(0, 12, 3, "ID 12", Dec(1212, 2), NoDetails),
                         OrderArticleRow(0, 13, 5, "ID 13", Dec(1483515, 4), NoDetails)];
      LineTotal(arts[1]) == Dec(3636, 2) && LineTotal(arts[2]) == Dec(7417575, 4) &&
      SumOf(arts) == Dec(307791075, 4)
  {
    var a := OrderArticleRow(0, 11, 1, "ID 11", Dec(3000099, 2), NoDetails);
    var b := OrderArticleRow(0, 12, 3, "ID 12", Dec(1212, 2), NoDetails);
    var c := OrderArticleRow(0, 13, 5, "ID 13", Dec(1483515, 4), NoDetails);
    var arts := [a, b, c];
    assert LineTotal(a) == Dec(3000099, 2);
    assert LineTotal(b) == Dec(3636, 2);
    assert LineTotal(c) == Dec(7417575, 4);
    assert arts[..2] == [a, b] && arts[..2][..1] == [a] && arts[..2][..1][..0] == [];
    assert Pow10(2) == 100 && Pow10(4) == 10000;
    var first := Add(Zero, Dec(3000099, 2));
    assert first == Dec(3000099, 2);
    assert SumOf(arts[..2][..1]) == first;
    var second := Add(first, Dec(3636, 2));
    assert second == Dec(3003735, 2);
    assert SumOf(arts[..2]) == second;
    assert SumOf(arts) == Add(second, Dec(7417575, 4));
  }

  /** An empty order has no lines and sums to "0". */
  lemma EmptyOrderLines()
    ensures OrderLinesOf([]) == Success(([], "0"))
  {
    assert SumOf([]) == Zero;
    assert Sequence(LineResults([])) == Success([]);
    FormatZero();
  }

  // ---------------------------------------------------------------------------
  // Orders to messages and back

  function EnumError(name: string): Error
  {
    Status(Unimplemented, "ENUM mismatch: " + name)
  }

  /** orderModelToMsg: timestamps first, then the payment method and the
      status are looked up by name; a name the enum does not know is
      Unimplemented. */
  function OrderModelToMsg(order: OrderRow, pm: Shop.EnumTable, st: Shop.EnumTable): (r: Result<Shop.Order, Error>)
    ensures r.Success? <==>
      Representable(order.created) && Representable(order.updated) &&
      order.paymentMethod in pm.values && order.status in st.values
    ensures r.Success? ==>
      Denotes(r.value.created, order.created) && Denotes(r.value.updated, order.updated) &&
      r.value.paymentMethod == pm.values[order.paymentMethod] && r.value.status == st.values[order.status] &&
      r.value.articles == []
    ensures Representable(order.created) && Representable(order.updated) && order.paymentMethod !in pm.values ==>
      r == Failure(EnumError(order.paymentMethod))
    ensures (Representable(order.created) && Representable(order.updated) &&
             order.paymentMethod in pm.values && order.status !in st.values) ==>
      r == Failure(EnumError(order.status))
  {
    var times :- TimeModelToMsg(order.created, order.updated);
    if order.paymentMethod !in pm.values then Failure(EnumError(order.paymentMethod))
    else if order.status !in st.values then Failure(EnumError(order.status))
    else Success(Shop.Order(
      order.id, times.0, times.1, order.fullName, order.email, order.phone, order.fullAddress, order.message,
      pm.values[order.paymentMethod], st.values[order.status], []))
  }

  /** orderUpdateMsgToModel: an update must name its order; enum values are
      stored by name. */
  function OrderUpdateMsgToModel(so: Shop.Order, pm: Shop.EnumTable, st: Shop.EnumTable): (r: Result<OrderRow, Error>)
    ensures r.Failure? <==> so.id <= 0
    ensures r.Failure? ==> r.error == MissingError(["ID"])
    ensures r.Success? ==>
      r.value.id == so.id && r.value.paymentMethod == pm.Name(so.paymentMethod) && r.value.status == st.Name(so.status)
  {
    var order := OrderRow(so.id, ZeroTime, ZeroTime, so.fullName, so.email, so.phone, so.fullAddress, so.message,
                          pm.Name(so.paymentMethod), st.Name(so.status));
    if order.id <= 0 then Failure(MissingError(["ID"])) else Success(order)
  }

  /** An update read in and sent back out is the same order, for enum values
      that have names. */
  lemma OrderUpdateRoundTrip(so: Shop.Order, pm: Shop.EnumTable, st: Shop.EnumTable)
    requires pm.Consistent() && st.Consistent()
    requires so.id > 0 && so.paymentMethod in pm.names && so.status in st.names
    ensures OrderModelToMsg(OrderUpdateMsgToModel(so, pm, st).value, pm, st) ==
      Success(so.(created := None, updated := None, articles := []))
  {
  }

  /** An order sent out and read back in as an update is the same row,
      except for the timestamps, which the database keeps. */
  lemma OrderRowRoundTrip(order: OrderRow, pm: Shop.EnumTable, st: Shop.EnumTable)
    requires pm.Consistent() && st.Consistent()
    requires order.id > 0 && OrderModelToMsg(order, pm, st).Success?
    ensures OrderUpdateMsgToModel(OrderModelToMsg(order, pm, st).value, pm, st) ==
      Success(order.(created := ZeroTime, updated := ZeroTime))
  {
  }
}
