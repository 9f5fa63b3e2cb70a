# Shop core: article list queries, message adaptors and request transactions

This project models the core of the kreativio shop server, version 0.4.1, and proves properties about it. The server is a gRPC shop backend on PostgreSQL. Three parts are modelled.

- **The list-query builder** (`builder/columns.go`, `builder/builder.go`).
  - Every entity (article, image, video, category, base price, variant) has a catalogue from field ids to column names; id 0 means every column, in ascending id order.
  - `ArticleListQuery` fills in defaults, resolves the requested columns and related lists, builds the filter with its positional arguments, and renders one SQL text: a `filters` CTE, an `arts` CTE, one `rN` CTE per relation and a final `json_agg`.
  - Modules `Columns` and `Builder`. The catalogues' `init` loop, `columns`, `articleRelations`, `filters`, `defaults` and `list.query` are methods that build their results step by step (with loops where the source has them), proved against the functions that specify them.
- **The adaptors** (`cmd/server/adaptors.go`), modules `Adaptors`, `OrderAdaptors` and `JsonValues`.
  - They validate request messages and turn them into table rows. `checkRequired` reports every empty field at once.
  - They turn rows back into messages and check order lines.
  - They total orders with exact decimals, and read the builder's JSON result back into article messages.
  - Prices are decimals kept exactly as a coefficient and a scale (module `Decimal`), so 44.55 × 3.33 is 148.3515.
- **The request transaction** (`cmd/server/transaction.go`), module `Transaction`.
  - Class `RequestTx` holds the database the transaction sees (module `Store`): one sequence of rows per table, the last article id and the last order id issued, and the set of tables whose statements fail.
  - Each method states its whole new state and result through a specification function of the old state. Lemmas prove what the operations promise:
    - a deleted article leaves nothing behind and its count is right;
    - replace-on-save leaves an article with exactly the submitted rows, in order, and other articles untouched;
    - a new order gets a fresh id and exactly its lines;
    - prices are the exact product of base price and multiplier.

Library behaviour the core relies on is modelled explicitly or passed in:
- the decimal library's `Mul`, `Add`, `SetString` and `String` are modelled on plain notation;
- RFC 3339 time parsing and the fastjson byte parser are function parameters;
- the protobuf timestamp range is a predicate;
- the generated enum name tables are an `EnumTable` parameter;
- `DefaultLimit` is a parameter.

Two behaviours of the source are kept as written:
- `upsertArticle` only logs a validation failure, so a message missing a field ends as an Internal error when the upsert of the absent row fails (`Transaction.RequestTx.UpsertArticle`);
- `updateImages` and `updateVideos` return the cleanup statement's own error rather than the Internal status.

## Model

| member | source | states |
|---|---|---|
| Columns.AllColumns | kreativio/shop-0.4.1/builder/columns.go:117-130 | `all` has one column per catalogued field id |
| Columns.AllColumnsCatalogue | kreativio/shop-0.4.1/builder/columns.go:117-130 | `all` holds every column of the catalogue and nothing else |
| Columns.AllColumnsOfAnyEnumeration | kreativio/shop-0.4.1/builder/columns.go:119-128 | whatever order the map's keys are visited in, once sorted ascending they give the same `all`: element i is the column of the i-th smallest id |
| Columns.InitAll | kreativio/shop-0.4.1/builder/columns.go:117-130 | collecting the keys, sorting them and reading the columns in that order yields exactly the ascending-id column list |
| Columns.AllColumnsConsecutive | kreativio/shop-0.4.1/builder/columns.go:117-130 | for a catalogue numbered 1..n, element i of `all` is the column of field i+1 |
| Columns.CataloguesConsecutive | kreativio/shop-0.4.1/builder/columns.go:41-103 | the six catalogues map exactly the field ids 1..8, 1..3, 1..3, 1..4, 1..5 and 1..5 |
| Columns.InitialisedAs | kreativio/shop-0.4.1/builder/columns.go:117-130 | a list naming the columns of fields 1..n in order is the catalogue's `all` |
| Columns.ArticleInitialised | kreativio/shop-0.4.1/builder/columns.go:43-53 | the article catalogue's `all` is what `init` computes from its map |
| Columns.ImageInitialised | kreativio/shop-0.4.1/builder/columns.go:57-62 | the same for images |
| Columns.VideoInitialised | kreativio/shop-0.4.1/builder/columns.go:66-71 | the same for videos |
| Columns.CategoryInitialised | kreativio/shop-0.4.1/builder/columns.go:75-81 | the same for categories |
| Columns.BasePriceInitialised | kreativio/shop-0.4.1/builder/columns.go:84-92 | the same for base prices |
| Columns.VariantInitialised | kreativio/shop-0.4.1/builder/columns.go:95-103 | the same for variants |
| Columns.FirstUnmapped | kreativio/shop-0.4.1/builder/columns.go:27-35 | the position where the scan stops: every id before it names a column, the id at it is ALL or unmapped |
| Columns.FirstUnmappedAt | kreativio/shop-0.4.1/builder/columns.go:27-35 | the stopping position is unique |
| Columns.ResolveAll | kreativio/shop-0.4.1/builder/columns.go:28-30 | ALL met before any unmapped id returns the whole `all` list with code 0 |
| Columns.ResolveUnmapped | kreativio/shop-0.4.1/builder/columns.go:32-35 | an unmapped id met before any ALL returns no columns and that id |
| Columns.ResolveMapped | kreativio/shop-0.4.1/builder/columns.go:26-38 | with no ALL and no unmapped id, code 0, the input's length and `cols[i]` is the column of `fids[i]` (so empty input gives an empty list) |
| Columns.ResolveColumns | kreativio/shop-0.4.1/builder/columns.go:25-39 | the loop with early returns computes exactly the scan above |
| Columns.FieldsResultSpec | kreativio/shop-0.4.1/builder/columns.go:136-148 | a wrapper fails with the Unimplemented field error iff the scan stopped on a non-zero id, and otherwise returns the scan's columns unchanged |
| Columns.ColumnsCatalogued | kreativio/shop-0.4.1/builder/columns.go:136-148 | every column a wrapper returns is a column of its catalogue |
| Columns.ResolveExamples | kreativio/shop-0.4.1/builder/columns_test.go:34-63 | the unit-test cases: empty input, `[2,3]`, `[2,0]` gives all columns, `[2,3,4]` reports 4 |
| Columns.Describe | kreativio/shop-0.4.1/builder/columns.go:244-289 | the descriptor of relation i carries the i-th relation name and the given columns |
| Columns.DescribeWellFormed | kreativio/shop-0.4.1/builder/columns.go:248-289 | categories and base_prices have a join table, join ids and the `id` column; images, videos and variants have no join table and use `article_id`; the descriptor's rank is its place in the order |
| Columns.RelationColumns | kreativio/shop-0.4.1/builder/columns.go:244-287 | the five column lists are resolved, in emission order |
| Columns.PartsPrefix | kreativio/shop-0.4.1/builder/columns.go:244-291 | later relations do not change the descriptors already emitted |
| Columns.PartsWellFormed | kreativio/shop-0.4.1/builder/columns.go:244-291 | every emitted descriptor is well formed |
| Columns.PartsOrdered | kreativio/shop-0.4.1/builder/columns.go:244-291 | descriptors come in the fixed order images, videos, categories, base_prices, variants |
| Columns.HasRelationAppend | kreativio/shop-0.4.1/builder/columns.go:244-291 | appending a descriptor adds exactly its relation |
| Columns.PartsPresent | kreativio/shop-0.4.1/builder/columns.go:245-291 | a relation is emitted iff its column list resolved and is non-empty |
| Columns.RanksDiffer | kreativio/shop-0.4.1/builder/columns.go:244-291 | the five relation names are distinct |
| Columns.FirstFailure | kreativio/shop-0.4.1/builder/columns.go:293-297 | the first relation whose columns failed to resolve |
| Columns.RelationsOf | kreativio/shop-0.4.1/builder/columns.go:237-300 | resolution fails iff some relation's field list fails |
| Columns.FirstFailureAt | kreativio/shop-0.4.1/builder/columns.go:293-297 | the first failure is unique |
| Columns.RelationsError | kreativio/shop-0.4.1/builder/columns.go:293-299 | a failure reports the error of the earliest failing relation and no relations |
| Columns.RelationsShape | kreativio/shop-0.4.1/builder/columns.go:237-300 | on success the descriptors are well formed, in the fixed order, and relation k is present iff its column list is non-empty |
| Columns.ArticleRelations | kreativio/shop-0.4.1/builder/columns.go:237-300 | the appending code with its error array computes exactly that result |
| Columns.AppendRelation | kreativio/shop-0.4.1/builder/columns.go:244-291 | one step of the appending code: the descriptors of the first i+1 relations and their errors |
| Builder.JoinClauses | kreativio/shop-0.4.1/builder/builder.go:68-77 | a direct relation renders one left join of the relation on `arts.id`; a join-table relation renders two, the last joining the relation through alias `j` |
| Builder.JboCast | kreativio/shop-0.4.1/builder/builder.go:79-86 | the text is `alias.col`, followed by `::text` iff the column is `price` or `multiplier` |
| Builder.Pairs | kreativio/shop-0.4.1/builder/builder.go:89-92 | two object entries per column |
| Builder.PairsAt | kreativio/shop-0.4.1/builder/builder.go:89-92 | entry 2i is the quoted column name and entry 2i+1 its cast value |
| Builder.Build | kreativio/shop-0.4.1/builder/builder.go:88-104 | the appending loop yields the relation's CTE and its `'name', alias.js` pair |
| Builder.SelectList | kreativio/shop-0.4.1/builder/builder.go:117-125 | the select list starts with `a.id` |
| Builder.SelectListSpec | kreativio/shop-0.4.1/builder/builder.go:117-125 | the select list is `a.id` followed by `a.<col>` for every requested column other than `id`, in request order; so `a.id` appears only first, every other requested column appears, and nothing else does |
| Builder.LimitsClause | kreativio/shop-0.4.1/builder/builder.go:127-130 | the `limit … offset …` clause is emitted iff the limit is non-zero, with both numbers in decimal |
| Builder.AliasInjective | kreativio/shop-0.4.1/builder/builder.go:143 | distinct relations get distinct aliases `r<i>` |
| Builder.JoinLines | kreativio/shop-0.4.1/builder/builder.go:141-148 | exactly one `join r<i>` line per relation |
| Builder.RelationCtes | kreativio/shop-0.4.1/builder/builder.go:141-148 | one CTE per relation |
| Builder.RelationCtesAt | kreativio/shop-0.4.1/builder/builder.go:142-145 | the i-th CTE is the i-th relation built under alias `r<i>` |
| Builder.RelationPairs | kreativio/shop-0.4.1/builder/builder.go:142-146 | two object entries per relation |
| Builder.RelationPairsAt | kreativio/shop-0.4.1/builder/builder.go:100-103 | relation i contributes its quoted name and `r<i>.js` |
| Builder.ObjectKeys | kreativio/shop-0.4.1/builder/builder.go:120-148 | the JSON object's keys are the requested columns in request order, then one name per relation |
| Builder.SelectColumns | kreativio/shop-0.4.1/builder/builder.go:116-125 | the column loop builds exactly the select list and the column entries |
| Builder.BuildRelations | kreativio/shop-0.4.1/builder/builder.go:141-148 | the relation loop builds exactly the CTEs, relation entries and join lines |
| Builder.Query | kreativio/shop-0.4.1/builder/builder.go:115-156 | the rendered query is the template filled with those parts |
| Builder.CategoryArgs | kreativio/shop-0.4.1/builder/builder.go:205-214 | at most one argument |
| Builder.Filters | kreativio/shop-0.4.1/builder/builder.go:194-224 | the fragment is empty iff no predicate applies, and the arguments are the category argument if any |
| Builder.BuildFilters | kreativio/shop-0.4.1/builder/builder.go:194-224 | appending the predicates, joins and arguments one by one, with the placeholder numbering the argument just appended, gives exactly `Filters` |
| Builder.FilterPlaceholders | kreativio/shop-0.4.1/builder/builder.go:198-214 | no predicate means no arguments; a category predicate has the single placeholder `$1` and takes the id before the label |
| Builder.FiltersText | kreativio/shop-0.4.1/builder/builder.go:220-223 | the fragment is the joins, then `where` and the predicates joined by `and` |
| Builder.FiltersPublishedExample | kreativio/shop-0.4.1/builder/builder_test.go:814-833 | no condition gives no filter; published only gives `where m.published` |
| Builder.FiltersPromotedExample | kreativio/shop-0.4.1/builder/builder_test.go:834-844 | promoted only gives `where m.promoted` |
| Builder.FiltersCategoryExamples | kreativio/shop-0.4.1/builder/builder_test.go:845-884 | category id, category label, both (the id wins) and published with a label give the joins, predicates and argument of the tests |
| Builder.FieldsOrDefault | kreativio/shop-0.4.1/builder/builder.go:159-167 | given fields are kept; otherwise some fields are chosen |
| Builder.RelationsOrDefault | kreativio/shop-0.4.1/builder/builder.go:169-176 | given relations are kept |
| Builder.LimitOrDefault | kreativio/shop-0.4.1/builder/builder.go:178-184 | a non-zero limit is kept |
| Builder.Defaults | kreativio/shop-0.4.1/builder/builder.go:158-187 | empty fields become ID, TITLE, PRICE, PROMOTED; no relations become images URL, LABEL; no limits become new limits with the default limit; a zero limit is overwritten in the caller's limits, and the offset is kept |
| Builder.ListingFails | kreativio/shop-0.4.1/builder/builder.go:233-260 | the listing fails iff column or relation resolution fails, with the column error first |
| Builder.ListingPages | kreativio/shop-0.4.1/builder/builder.go:254-259 | a successful listing returns the filter's arguments |
| Builder.ArticleListQuery | kreativio/shop-0.4.1/builder/builder.go:233-260 | the query and arguments are `ListingQuery` of the conditions as they were on entry; a zero limit in the caller's paging object is overwritten with the default limit and its offset is kept |
| Adaptors.RequiredError | kreativio/shop-0.4.1/cmd/server/adaptors.go:31-51 | there is no error iff no value is nil, `""`, 0, 0.0 or an empty string list |
| Adaptors.RequiredErrorLists | kreativio/shop-0.4.1/cmd/server/adaptors.go:41-49 | the error is InvalidArgument "Missing required fields: " followed by exactly the empty keys, sorted and joined by ", " |
| Adaptors.CheckRequired | kreativio/shop-0.4.1/cmd/server/adaptors.go:31-51 | the collecting loop and the sort compute exactly that error |
| Adaptors.CheckRequiredExample | kreativio/shop-0.4.1/cmd/server/adaptors_test.go:36-43 | nil, "", 0 and 0.0 are all reported, as "Float, Int, Nil, String" |
| Adaptors.ParseEmpty | kreativio/shop-0.4.1/cmd/server/adaptors.go:66-71 | an empty decimal text does not parse, so the missing-field check catches it first |
| Adaptors.ArticleMsgToModel | kreativio/shop-0.4.1/cmd/server/adaptors.go:57-80 | succeeds iff title, description and a parsable price are given, copying every field; a missing field gives the missing-fields error; an unparsable price the decimal error |
| Adaptors.BasePriceMsgToModel | kreativio/shop-0.4.1/cmd/server/adaptors.go:549-568 | the same for a base price: label and parsable price |
| Adaptors.VariantMsgToModel | kreativio/shop-0.4.1/cmd/server/adaptors.go:86-112 | a variant needs the article id, at least one label and a parsable multiplier, missing fields first; on success its fields are copied |
| Adaptors.VariantsMsgToModel | kreativio/shop-0.4.1/cmd/server/adaptors.go:86-112 | the loop returns every variant converted in order, or the first error |
| Adaptors.MediaMsgToModel | kreativio/shop-0.4.1/cmd/server/adaptors.go:114-134 | a medium needs the article id, a label and a URL; on success it belongs to the article at the given position |
| Adaptors.MediaListMsgToModel | kreativio/shop-0.4.1/cmd/server/adaptors.go:114-156 | the loop of imagesMsgToModel and videosMsgToModel returns every element converted in order, or the first error |
| Adaptors.MediaListSpec | kreativio/shop-0.4.1/cmd/server/adaptors.go:114-156 | the list converts iff it is empty or the article id is set and every label and URL is given; then it keeps length and order, belongs to the article, and position is i+1 |
| Adaptors.CategoryMsgToModel | kreativio/shop-0.4.1/cmd/server/adaptors.go:363-376 | a category needs a label; on success it is at the given position |
| Adaptors.CategoriesMsgToModel | kreativio/shop-0.4.1/cmd/server/adaptors.go:363-376 | the loop returns every category converted in order, or the first error |
| Adaptors.CategoriesSpec | kreativio/shop-0.4.1/cmd/server/adaptors.go:363-376 | the list converts iff every label is given; then it keeps length and order with position i+1; otherwise the error names the Label |
| Adaptors.FirstFailed | kreativio/shop-0.4.1/cmd/server/adaptors.go:363-376 | the first element whose conversion failed |
| Adaptors.MessageMsgToModel | kreativio/shop-0.4.1/cmd/server/adaptors.go:598-615 | a contact message needs name, email and message; on success every field is copied |
| Adaptors.TimestampProto | kreativio/shop-0.4.1/cmd/server/adaptors.go:158-173 | a time converts iff it is in the timestamp range, keeping seconds and nanoseconds |
| Adaptors.TimeModelToMsg | kreativio/shop-0.4.1/cmd/server/adaptors.go:158-173 | both times convert iff both are in range, the created time's error first, each as OutOfRange |
| Adaptors.TimeRoundTrip | kreativio/shop-0.4.1/cmd/server/adaptors.go:158-173 | converted times denote the original times |
| Adaptors.MediaMessages | kreativio/shop-0.4.1/cmd/server/adaptors.go:193-213 | one message per row |
| Adaptors.CategoryRowMessages | kreativio/shop-0.4.1/cmd/server/adaptors.go:215-223 | one message per row |
| Adaptors.BasePriceRowMessages | kreativio/shop-0.4.1/cmd/server/adaptors.go:225-234 | one message per row |
| Adaptors.VariantMessages | kreativio/shop-0.4.1/cmd/server/adaptors.go:236-245 | one message per row |
| Adaptors.MediaRowsToMsg | kreativio/shop-0.4.1/cmd/server/adaptors.go:193-213 | the loop fills exactly those messages |
| Adaptors.CategoryRowsToMsg | kreativio/shop-0.4.1/cmd/server/adaptors.go:215-223 | the loop fills exactly those messages |
| Adaptors.BasePriceRowsToMsg | kreativio/shop-0.4.1/cmd/server/adaptors.go:225-234 | the loop fills exactly those messages |
| Adaptors.VariantRowsToMsg | kreativio/shop-0.4.1/cmd/server/adaptors.go:236-245 | the loop fills exactly those messages |
| Adaptors.ArticleModelToMsg | kreativio/shop-0.4.1/cmd/server/adaptors.go:175-248 | the article's message, with its related lists when loaded, or the time conversion error |
| Adaptors.ArticleRoundTrip | kreativio/shop-0.4.1/cmd/server/adaptors.go:57-80 | an article sent out and read back is the same article without its timestamps |
| Adaptors.MediaRoundTrip | kreativio/shop-0.4.1/cmd/server/adaptors.go:114-134 | an article's media sent out and read back are the same rows |
| Adaptors.VariantsRoundTrip | kreativio/shop-0.4.1/cmd/server/adaptors.go:86-112 | an article's variants sent out and read back are the same rows |
| Adaptors.VariantRoundTrip | kreativio/shop-0.4.1/cmd/server/adaptors.go:86-112 | one variant sent out and read back is the same row |
| Adaptors.BasePriceModelToMsg | kreativio/shop-0.4.1/cmd/server/adaptors.go:570-583 | converts iff both times are in range; the price text parses back to the price |
| Adaptors.BasePricesModelToMsg | kreativio/shop-0.4.1/cmd/server/adaptors.go:585-596 | the loop converts every base price in order, or returns the first error |
| Adaptors.BasePriceRoundTrip | kreativio/shop-0.4.1/cmd/server/adaptors.go:549-583 | a base price sent out and read back is the same row without its timestamps |
| Adaptors.CategoryModelToMsg | kreativio/shop-0.4.1/cmd/server/adaptors.go:378-396 | converts iff both times are in range, copying id and label |
| Adaptors.CategoriesModelToMsg | kreativio/shop-0.4.1/cmd/server/adaptors.go:378-396 | the loop converts every category in order, or returns the first error |
| Adaptors.CategoriesRoundTrip | kreativio/shop-0.4.1/cmd/server/adaptors.go:363-396 | a category list sent out and read back is the same rows without their timestamps |
| OrderAdaptors.OrderMsgToModel | kreativio/shop-0.4.1/cmd/server/adaptors.go:250-269 | an order converts iff name, email, phone and address are given; then the fields are copied with id 0 and the payment method's enum name; otherwise the missing-fields error |
| OrderAdaptors.PaymentMethodStored | kreativio/shop-0.4.1/cmd/server/adaptors.go:250-269 | the stored payment method name reads back to the message's enum value |
| OrderAdaptors.FirstNegative | kreativio/shop-0.4.1/cmd/server/adaptors.go:271-287 | the position of the first line with a negative amount, every earlier amount being non-negative |
| OrderAdaptors.CheckOrderArticles | kreativio/shop-0.4.1/cmd/server/adaptors.go:271-287 | the loop's error is exactly the order-lines check |
| OrderAdaptors.AmountSumZero | kreativio/shop-0.4.1/cmd/server/adaptors.go:271-287 | with no negative amount, the amount sum is zero iff every amount is zero |
| OrderAdaptors.OrderArticlesAccepted | kreativio/shop-0.4.1/cmd/server/adaptors.go:271-287 | the lines are accepted iff no amount is negative and one is positive; the first negative line is the one reported |
| OrderAdaptors.NothingOrderedExamples | kreativio/shop-0.4.1/cmd/server/adaptors_test.go:486-517 | no lines, or only zero amounts, are refused as nothing ordered |
| OrderAdaptors.NegativeAndValidExamples | kreativio/shop-0.4.1/cmd/server/adaptors_test.go:486-517 | a negative amount names its line; positive amounts pass |
| OrderAdaptors.LineTotalValue | kreativio/shop-0.4.1/cmd/server/adaptors.go:293-297 | a line's total is its price times its amount, exactly |
| OrderAdaptors.LineToMsg | kreativio/shop-0.4.1/cmd/server/adaptors.go:293-311 | one iteration: the line's message (id, amount, title, price text, total text and decoded details) or its details error, and the line total price × amount |
| OrderAdaptors.OrderArticlesModelsToMsg | kreativio/shop-0.4.1/cmd/server/adaptors.go:289-315 | the loop produces one message per line and the sum text, or the first details decoding error |
| OrderAdaptors.SumIsTotal | kreativio/shop-0.4.1/cmd/server/adaptors.go:289-315 | the accumulated sum is the exact total of all lines |
| OrderAdaptors.LineTotalText | kreativio/shop-0.4.1/cmd/server/adaptors.go:299-305 | the price and total texts read back to the price and to price times amount |
| OrderAdaptors.OrderSumExample | kreativio/shop-0.4.1/cmd/server/adaptors_test.go:538-578 | 44.44 x 4 and 55.55 x 5 give 177.76, 277.75 and the sum 455.51 |
| OrderAdaptors.OrderTotalExample | kreativio/shop-0.4.1/cmd/server/transaction_test.go:2028-2060 | 12.12 x 3 is 36.36 and 148.3515 x 5 is 741.7575, summing to 30779.1075 with 30000.99 |
| OrderAdaptors.EmptyOrderLines | kreativio/shop-0.4.1/cmd/server/adaptors.go:289-315 | no lines give no messages and the sum "0" |
| OrderAdaptors.OrderModelToMsg | kreativio/shop-0.4.1/cmd/server/adaptors.go:317-344 | converts iff both times are in range and both enum names are known; the unknown name is reported, payment method first; on success the times denote the row's times |
| OrderAdaptors.OrderUpdateMsgToModel | kreativio/shop-0.4.1/cmd/server/adaptors.go:346-361 | fails iff the id is not positive, with the missing ID error; otherwise id and both enum names are carried over |
| OrderAdaptors.OrderUpdateRoundTrip | kreativio/shop-0.4.1/cmd/server/adaptors.go:317-361 | a message with a positive id and known enums survives a round trip, without times and lines |
| OrderAdaptors.OrderRowRoundTrip | kreativio/shop-0.4.1/cmd/server/adaptors.go:317-361 | a row that converts survives a round trip, without its times |
| JsonValues.GetInt | kreativio/shop-0.4.1/cmd/server/adaptors.go:485-505 | a non-zero result is the number stored under the key of an object |
| JsonValues.GetString | kreativio/shop-0.4.1/cmd/server/adaptors.go:485-505 | a non-empty result is the string stored under the key of an object |
| JsonValues.GetBool | kreativio/shop-0.4.1/cmd/server/adaptors.go:485-505 | true only when true is stored under the key of an object |
| JsonValues.GetArray | kreativio/shop-0.4.1/cmd/server/adaptors.go:485-505 | a non-empty result is the array stored under the key of an object |
| JsonValues.LabelsOf | kreativio/shop-0.4.1/cmd/server/adaptors.go:475-478 | one label per array element |
| JsonValues.MediaValues | kreativio/shop-0.4.1/cmd/server/adaptors.go:418-433 | one medium per value |
| JsonValues.CategoryValues | kreativio/shop-0.4.1/cmd/server/adaptors.go:435-448 | one category per value |
| JsonValues.BasePriceValues | kreativio/shop-0.4.1/cmd/server/adaptors.go:450-464 | one base price per value |
| JsonValues.VariantValues | kreativio/shop-0.4.1/cmd/server/adaptors.go:466-483 | one variant per value |
| JsonValues.MediaValuesToMsg | kreativio/shop-0.4.1/cmd/server/adaptors.go:418-433 | the loop fills exactly those media |
| JsonValues.CategoryValuesToMsg | kreativio/shop-0.4.1/cmd/server/adaptors.go:435-448 | the loop fills exactly those categories |
| JsonValues.BasePriceValuesToMsg | kreativio/shop-0.4.1/cmd/server/adaptors.go:450-464 | the loop fills exactly those base prices |
| JsonValues.VariantValuesToMsg | kreativio/shop-0.4.1/cmd/server/adaptors.go:466-483 | the loop fills exactly those variants |
| JsonValues.ParseTime | kreativio/shop-0.4.1/cmd/server/adaptors.go:404-413 | empty text is the zero time; other text converts iff the parser accepts it, its error becoming OutOfRange |
| JsonValues.TimeBytesToMsg | kreativio/shop-0.4.1/cmd/server/adaptors.go:399-416 | empty texts give no timestamps; a bad created time is reported first; on success both timestamps denote the parsed times; every error is OutOfRange |
| JsonValues.ArticleValueToMsg | kreativio/shop-0.4.1/cmd/server/adaptors.go:485-505 | converts iff both times convert; the base prices are read from the builder's "base_prices" array |
| JsonValues.MediaValueRoundTrip | kreativio/shop-0.4.1/cmd/server/adaptors.go:418-433 | a medium written as the builder's JSON object reads back unchanged |
| JsonValues.VariantValueRoundTrip | kreativio/shop-0.4.1/cmd/server/adaptors.go:466-483 | a variant written as JSON, labels included, reads back unchanged |
| JsonValues.MediaArrayRoundTrip | kreativio/shop-0.4.1/cmd/server/adaptors.go:418-433 | a media list written as a JSON array reads back unchanged |
| JsonValues.CategoryArrayRoundTrip | kreativio/shop-0.4.1/cmd/server/adaptors.go:435-448 | a category list without times reads back unchanged |
| JsonValues.BasePriceArrayRoundTrip | kreativio/shop-0.4.1/cmd/server/adaptors.go:450-464 | a base price list without times reads back unchanged |
| JsonValues.VariantArrayRoundTrip | kreativio/shop-0.4.1/cmd/server/adaptors.go:466-483 | a variant list reads back unchanged |
| JsonValues.ArticleValueTimes | kreativio/shop-0.4.1/cmd/server/adaptors.go:485-500 | the id and both time texts are read back from the article object |
| JsonValues.ArticleValueColumns | kreativio/shop-0.4.1/cmd/server/adaptors.go:487-491 | published, title, description, price and promoted are read back |
| JsonValues.ArticleValueRelations | kreativio/shop-0.4.1/cmd/server/adaptors.go:492-497 | every related array is found under its relation's name |
| JsonValues.ArticleValueRoundTrip | kreativio/shop-0.4.1/cmd/server/adaptors.go:485-505 | an article written as the builder's JSON reads back unchanged but for its timestamps |
| JsonValues.AsWrittenDropsBasePrices | kreativio/shop-0.4.1/cmd/server/adaptors.go:496 | reading "baseprices", as the source does, loses every base price of an article that has some |
| JsonValues.ArticleResults | kreativio/shop-0.4.1/cmd/server/adaptors.go:540-545 | one conversion per array element |
| JsonValues.JsonScanner.constructor | kreativio/shop-0.4.1/cmd/server/adaptors.go:507-510 | a scanner holds no value yet |
| JsonValues.JsonScanner.Scan | kreativio/shop-0.4.1/cmd/server/adaptors.go:517-532 | nil and non-byte values are refused, leaving the value; bytes are parsed, storing the value or wrapping the parser's error |
| JsonValues.JsonScanner.ArticlesJSONtoMsg | kreativio/shop-0.4.1/cmd/server/adaptors.go:534-547 | a non-array is an Internal error; otherwise every element converts through the corrected reader `ArticleValueToMsg` (base prices read from "base_prices", see Findings), or the first error is returned |
| JsonValues.ArticlesRoundTrip | kreativio/shop-0.4.1/cmd/server/adaptors.go:534-547 | a JSON array of listed articles reads back as the same articles |
| JsonValues.NotAnArray | kreativio/shop-0.4.1/cmd/server/adaptors.go:535-538 | a value that is not an array is the fatal Internal error |
| Store.DBErrors | kreativio/shop-0.4.1/cmd/server/transaction.go:276-293 | the first decisive result decides: NotFound with the log message only for a missing row when asked to warn, Internal for any other failure |
| Store.DBErrorsNone | kreativio/shop-0.4.1/cmd/server/transaction.go:276-293 | there is no error iff no result is decisive |
| Store.DBErrorsFirst | kreativio/shop-0.4.1/cmd/server/transaction.go:276-293 | the first decisive result alone determines the error |
| Store.DBErrorsExamples | kreativio/shop-0.4.1/cmd/server/transaction_test.go:1419-1472 | nothing, all-ok and ignored missing rows pass; a warned missing row is NotFound; a failure is Internal, even before a missing row |
| Store.ShouldCalcPrice | kreativio/shop-0.4.1/cmd/server/transaction.go:329-336 | errors iff one of the three tables fails, always as Internal |
| Store.ShouldCalcPriceIff | kreativio/shop-0.4.1/cmd/server/transaction.go:329-336 | the price is calculated iff the article has a base price link and a variant |
| Store.CalcPrice | kreativio/shop-0.4.1/cmd/server/transaction.go:343-387 | a zero base price or variant id is refused; on success both rows exist, the price is their exact product and the details name both |
| Store.CalcPriceMissing | kreativio/shop-0.4.1/cmd/server/transaction.go:343-387 | with both tables up, succeeds iff both rows exist, else NotFound naming the article |
| Store.CalcPriceFailing | kreativio/shop-0.4.1/cmd/server/transaction.go:343-387 | a failing base price table is Internal |
| Store.CalcPriceCheapExample | kreativio/shop-0.4.1/cmd/server/transaction_test.go:1629-1715 | 44.55 x 3.33 is 148.3515 |
| Store.CalcPricePremiumExample | kreativio/shop-0.4.1/cmd/server/transaction_test.go:1629-1715 | the second base price and variant give 998.9001 |
| Store.CalcPriceMissingExample | kreativio/shop-0.4.1/cmd/server/transaction_test.go:1629-1715 | an unknown base price is NotFound |
| Store.NewOrderArticle | kreativio/shop-0.4.1/cmd/server/transaction.go:389-434 | a failing articles table is Internal; an unknown article is NotFound; on success the line carries the article's id, amount and title, with the calculated price and details when the article has base prices and variants, otherwise its list price |
| Transaction.LinksOf | kreativio/shop-0.4.1/cmd/server/transaction.go:92-126 | one link per id |
| Transaction.WithOrderId | kreativio/shop-0.4.1/cmd/server/transaction.go:436-462 | one stored line per line |
| Transaction.InsertRows | kreativio/shop-0.4.1/cmd/server/transaction.go:128-178 | the insert loop stores rows until the first key clash, which is reported as a database error |
| Transaction.RequestTx.constructor | kreativio/shop-0.4.1/cmd/server/transaction.go:51-57 | a request transaction works on the given database |
| Transaction.RequestTx.CheckDBErrors | kreativio/shop-0.4.1/cmd/server/transaction.go:276-293 | the loop returns exactly the database error rule |
| Transaction.RequestTx.DeleteArticle | kreativio/shop-0.4.1/cmd/server/transaction.go:300-327 | the new database, total and error are those of the deletion specification, the total summed by the loop |
| Transaction.RequestTx.DeleteBasePrice | kreativio/shop-0.4.1/cmd/server/transaction.go:720-746 | the new database and result are those of the deletion specification |
| Transaction.RequestTx.UpdateImages | kreativio/shop-0.4.1/cmd/server/transaction.go:154-178 | the new database and error are those of the image replacement specification |
| Transaction.RequestTx.UpdateVideos | kreativio/shop-0.4.1/cmd/server/transaction.go:180-205 | an invalid list changes nothing; a failing table changes nothing and returns the driver error; otherwise the article's videos are removed and the new ones upserted |
| Transaction.RequestTx.UpdateVariants | kreativio/shop-0.4.1/cmd/server/transaction.go:128-152 | the new database and error are those of the variant replacement specification |
| Transaction.RequestTx.SetArticleBasePrices | kreativio/shop-0.4.1/cmd/server/transaction.go:108-126 | a zero id is refused, changing nothing; a failing table is Internal, changing nothing; otherwise the article's links become exactly the given ids |
| Transaction.RequestTx.SetArticleCategories | kreativio/shop-0.4.1/cmd/server/transaction.go:92-106 | a failing table is Internal, changing nothing; otherwise the article's links become exactly the given categories |
| Transaction.RequestTx.UpsertArticle | kreativio/shop-0.4.1/cmd/server/transaction.go:76-90 | the new database and the result are those of `UpsertArticleOf`: an Internal error changing nothing, or the converted article, given the next sequence id when it has none, upserted and returned |
| Transaction.RequestTx.OrderLines | kreativio/shop-0.4.1/cmd/server/transaction.go:447-453 | the loop returns every line built in order, or the first error |
| Transaction.RequestTx.NewOrder | kreativio/shop-0.4.1/cmd/server/transaction.go:436-462 | the new database and result are those of the order specification |
| Transaction.SumOfSix | kreativio/shop-0.4.1/cmd/server/transaction.go:320-323 | the total of six counts |
| Transaction.DeleteArticleClears | kreativio/shop-0.4.1/cmd/server/transaction.go:300-327 | with the tables up, nothing of the article remains in its six tables, and the total counts every deleted row |
| Transaction.DeleteArticleKeepsOthers | kreativio/shop-0.4.1/cmd/server/transaction.go:300-327 | other articles' rows and the unrelated tables are untouched |
| Transaction.DeleteArticleUnknown | kreativio/shop-0.4.1/cmd/server/transaction.go:300-327 | deleting an article that owns nothing changes nothing and counts 0 |
| Transaction.DeleteArticleFails | kreativio/shop-0.4.1/cmd/server/transaction.go:300-327 | there is an error iff one of the tables fails, always Internal |
| Transaction.DeleteBasePriceOutcome | kreativio/shop-0.4.1/cmd/server/transaction.go:720-746 | succeeds iff the id is set and both tables are up; a zero id is the missing Id error; failures are Internal; the count covers both tables and nothing of the base price remains |
| Transaction.DeleteBasePriceKeepsOthers | kreativio/shop-0.4.1/cmd/server/transaction.go:720-746 | other base prices and the unrelated tables are untouched |
| Transaction.UpdateImagesReplaces | kreativio/shop-0.4.1/cmd/server/transaction.go:154-178 | with new keys, the article's images become exactly the converted list, other articles' images are untouched and nothing else changes |
| Transaction.UpdateImagesInvalid | kreativio/shop-0.4.1/cmd/server/transaction.go:154-178 | an invalid list is an InvalidArgument missing-fields error, changing nothing |
| Transaction.UpdateVideosReplaces | kreativio/shop-0.4.1/cmd/server/transaction.go:180-205 | with new keys, the article's videos become exactly the converted list and other articles' are untouched |
| Transaction.UpdateVariantsReplaces | kreativio/shop-0.4.1/cmd/server/transaction.go:128-152 | with new keys, the article's variants become exactly the converted list and other articles' are untouched |
| Transaction.SetLinksReplaces | kreativio/shop-0.4.1/cmd/server/transaction.go:92-126 | the article's links are exactly one per id, in order, and other articles' links are untouched |
| Transaction.UpsertArticleRefused | kreativio/shop-0.4.1/cmd/server/transaction.go:76-90 | an invalid message or a failing articles table gives an Internal database error and leaves the database as it was |
| Transaction.UpsertArticleStores | kreativio/shop-0.4.1/cmd/server/transaction.go:76-90 | the upsert succeeds with the converted article, under its own id or, when it has none, under the next value of the id sequence (never 0); afterwards that id finds it, every other id finds what it found before, and only the articles and the sequence change |
| Transaction.UpsertArticleFresh | kreativio/shop-0.4.1/cmd/server/transaction.go:76-90 | while the sequence is ahead of every stored id, a new article takes an id no article had, is appended, and the sequence stays ahead |
| Transaction.UpsertNewArticleFirstId | kreativio/shop-0.4.1/cmd/server/transaction_test.go:85-102 | on an empty table with a fresh sequence the first new article gets id 1 |
| Transaction.InsertOrderFresh | kreativio/shop-0.4.1/cmd/server/transaction.go:455 | a new order gets an id not used before and is found under it |
| Transaction.AddOrderLinesOwned | kreativio/shop-0.4.1/cmd/server/transaction.go:456 | the lines of the new order are exactly the given lines |
| Transaction.LinesOwned | kreativio/shop-0.4.1/cmd/server/transaction.go:456 | appended lines are the only ones with their order id |
| Transaction.NewOrderStores | kreativio/shop-0.4.1/cmd/server/transaction.go:436-462 | a stored order passed every check, got the next id, and its lines are the lines built for its articles, in order |
| Transaction.OrderListSelects | kreativio/shop-0.4.1/cmd/server/transaction.go:472-482 | an order is listed iff the condition is ANY or the order has the asked status |
| Transaction.ListCategoriesQms | kreativio/shop-0.4.1/cmd/server/transaction.go:603-617 | categories are ordered by position; the published filter, with its joins and grouping, is added iff only published articles are asked for |
| Results.Sequence | kreativio/shop-0.4.1/cmd/server/adaptors.go:86-112 | a loop that fills a slice returns as many values as steps, or the first error |
| Results.SequenceSuccess | kreativio/shop-0.4.1/cmd/server/adaptors.go:86-112 | the loop succeeds iff every step does, and then holds every step's value in order |
| Results.SequenceFailure | kreativio/shop-0.4.1/cmd/server/adaptors.go:86-112 | a failed loop reports the error of the first failing step |
| Results.SequenceError | kreativio/shop-0.4.1/cmd/server/transaction.go:447-453 | a failed loop reports the error of one of its steps |
| Tables.Partition | kreativio/shop-0.4.1/cmd/server/transaction.go:300-327 | deleting an article's rows keeps exactly the rows of other articles, and the deleted count is the number of its rows |
| Tables.Replace | kreativio/shop-0.4.1/cmd/server/transaction.go:92-126 | after deleting an article's rows and adding new ones, the article owns exactly the new rows and other articles keep theirs |
| Tables.OwnedWithout | kreativio/shop-0.4.1/cmd/server/transaction.go:300-327 | deleting one article's rows leaves every other article's rows as they were |
| Tables.Lookup | kreativio/shop-0.4.1/cmd/server/transaction.go:389-400 | a found row is in the table under the key; when none is found no row has the key |
| Tables.InsertedNew | kreativio/shop-0.4.1/cmd/server/transaction.go:140-151 | rows with new keys are all inserted |
| Tables.Upsert | kreativio/shop-0.4.1/cmd/server/transaction.go:84 | an upsert updates a row in place or appends one |
| Tables.UpsertLookup | kreativio/shop-0.4.1/cmd/server/transaction.go:84 | after an upsert the row is found under its key and every other key finds what it found before |
| Tables.UpsertAllNew | kreativio/shop-0.4.1/cmd/server/transaction.go:190-201 | upserting rows with new keys appends them in order |
| Decimal.Mul | kreativio/shop-0.4.1/cmd/server/transaction.go:377 | the product keeps every digit: its value is the product of the values and the scales add |
| Decimal.Add | kreativio/shop-0.4.1/cmd/server/adaptors.go:307 | the sum keeps every digit: its value is the sum of the values, at the larger scale |
| Decimal.Parse | kreativio/shop-0.4.1/cmd/server/adaptors.go:67-70 | a negative coefficient comes only from text with a leading minus sign |
| Decimal.ParseFormat | kreativio/shop-0.4.1/cmd/server/adaptors.go:67-70 | a decimal written out as text parses back to the same coefficient and scale |
| Text.NatToString | kreativio/shop-0.4.1/builder/builder.go:143 | the decimal digits of a number, without leading zeros |
| Text.SortedOf | kreativio/shop-0.4.1/cmd/server/adaptors.go:41 | the names in strictly increasing order, each exactly once |
| Text.SortDistinct | kreativio/shop-0.4.1/cmd/server/adaptors.go:41 | sorting distinct names gives that order |
| Keys.SortedKeys | kreativio/shop-0.4.1/builder/columns.go:119-123 | the keys in strictly increasing order, each once |
| Keys.SortInts | kreativio/shop-0.4.1/builder/columns.go:123 | sorting distinct keys gives them in strictly increasing order |
| Keys.CollectKeys | kreativio/shop-0.4.1/builder/columns.go:119-122 | the loop collects every key of the map once |

## Left out

- Database plumbing is not modelled: SQL execution, the ORM, transaction begin, commit and rollback, and context cancellation. The `created_at` and `updated_at` timestamps the ORM sets on insert and upsert come from a clock and are not modelled: rows keep the zero time. A table is a sequence of rows, and a table named in `failing` fails every statement on it; that is the only failure model.
- Serial ids are modelled for articles and orders only. Images, videos and variants keep the id they were submitted with, so a new one is stored under id 0 rather than the next value of its sequence. Inserting a row whose id is already present is the only key clash, and it is reported as a database error.
- Foreign keys are not modelled. Adding order lines after the order's own insert failed is modelled as failing.
- Transaction.RequestTx.NewOrder: on a database error the source also returns the order row it built; the model returns only the error.
- Transaction.RequestTx.UpdateVideos: an upsert after a successful cleanup never fails, because the only failure model is a failing table, and that already fails the cleanup.
- Store.NewOrderArticle: a failure of `json.Marshal` on the price details is not modelled. The details are a value and are always encoded.
- Go's `int32` conversions of ids and amounts are not modelled; ids and amounts are unbounded integers.
- Nil and empty slices are the same sequence: where the source returns nil for an empty list, the model returns the empty sequence.
- Decimal.Parse and Decimal.Format: the decimal library's exponent notation, infinities and NaN are not modelled; only plain notation is.
- JsonValues.LabelsOf: `strconv.Unquote` is modelled on JSON strings without escapes. Duplicate keys in a JSON object and non-integer numbers are not modelled.
- RFC 3339 parsing and the fastjson parser are parameters rather than models.
- The protobuf enum tables are parameters. The field-enum numbers are assumed to follow declaration order from 1, with 0 as ALL.
- Logging (`rt.Log`, `entry`) and the builder's `Debug` print are left out; they do not affect results.
- Not modelled, because they are request plumbing, search or I/O:
  - `newTx`, `newAuthTx`, `viewArticle`, `listArticles`, `listOrders`, `getOrderArticles`, `saveOrder`, `saveCategories`, `listCategories`;
  - `searchArticles`, `suggest`, `suggestCategory`, `upsertBasePrice`, `listBasePrices`;
  - `encryptOrder`, `newMessage`, `sendOrderMail`, `sendMail`.
- Transaction.OrderListSelects and Transaction.ListCategoriesQms: query modifiers are modelled as data. Only the status filter's meaning on an order row is given; the joins and grouping are not executed.
- Store.ShouldCalcPrice: `Exists` through the join table is modelled as the existence of a link row for the article, not of a base price row it points to.

## Findings

| source | as written | input that shows it | evidently intended | confidence | as-written member | corrected member |
|---|---|---|---|---|---|---|
| kreativio/shop-0.4.1/cmd/server/adaptors.go:496 | `articleValueToMsg` reads an article's base prices from the key `"baseprices"` | any listed article with at least one base price. The builder names that relation after the `base_prices` table (builder/columns.go:276), and the JSON it emits holds `"base_prices"` (builder/builder_test.go:739) and the key read finds nothing | read the base prices from `"base_prices"`, the name the builder emits | not executed | JsonValues.AsWrittenDropsBasePrices | JsonValues.ArticleValueRoundTrip |

The rest of the model uses the corrected reader: `JsonValues.JsonScanner.ArticlesJSONtoMsg` converts each listed article with `JsonValues.ArticleValueToMsg`, so it returns the base prices the as-written code drops.
