/**
 * The admin customer search (`CustomerRepositoryExtension::getQueryBuilderBySearchData`):
 * the criteria of the customer list screen become a conjunction of fragments
 * on customers (c), joined to their orders (o) and order items (oi) only when
 * a purchased product is searched for.
 */
module CustomerSearch {
  import opened Values
  import opened Text
  import opened QueryModel

  /** `CustomerRepositoryExtension::COLUMNS`: the sort keys the customer list offers. */
  const COLUMNS: map<string, Expr> := map["customer_id" := Col(C, Id), "name" := Col(C, Name01)]

  /** The customer search criteria; an absent key is `None` or an empty collection. */
  datatype Criteria = Criteria(
    multi: Option<string>,
    pref: Option<Ref>,
    sex: seq<Ref>,
    birthMonth: Option<Value>,
    birthStart: Option<DateTime>,
    birthEnd: Option<DateTime>,
    phoneNumber: Option<string>,
    buyTotalStart: Option<string>,
    buyTotalEnd: Option<string>,
    buyTimesStart: Option<string>,
    buyTimesEnd: Option<string>,
    createDate: DateRange,
    updateDate: DateRange,
    lastBuyDate: DateRange,
    customerStatus: seq<Ref>,
    buyProductName: Option<string>,
    sortkey: Option<string>,
    sorttype: Option<string>)

  /** Criteria with every key absent. */
  const NO_CRITERIA: Criteria := Criteria(
    None, None, [], None, None, None, None, None, None, None, None,
    DateRange(None, None, None, None), DateRange(None, None, None, None), DateRange(None, None, None, None),
    [], None, None, None)

  /** CONCAT(c.name01, c.name02) */
  const NAME: Expr := Concat([Col(C, Name01), Col(C, Name02)])
  /** CONCAT(COALESCE(c.kana01, ''), COALESCE(c.kana02, '')) */
  const KANA: Expr := Concat([CoalesceEmpty(Col(C, Kana01)), CoalesceEmpty(Col(C, Kana02))])
  /** CONCAT(c.phone_number01, c.phone_number02, c.phone_number03) */
  const PHONE: Expr := Concat([Col(C, PhoneNumber01), Col(C, PhoneNumber02), Col(C, PhoneNumber03)])
  /** EXTRACT(MONTH FROM c.birth) */
  const BIRTH_MONTH: Expr := MonthOf(Col(C, Birth))

  /** The joins a purchased-product search adds: the customer's orders and their items. */
  const PRODUCT_JOINS: seq<Join> := [LeftJoin(C, "Orders", O), LeftJoin(O, "OrderItems", OI)]

  /** PHP truthiness of a scalar criterion: null, "", "0" and 0 are false, anything else (an object too) true. */
  predicate Truthy(v: Value)
  {
    match v
    case Null => false
    case Str(s) => !PhpEmpty(s)
    case Int(i) => i != 0
    case At(_) => true
  }

  /** `!empty($x) && $x` on a scalar criterion. */
  predicate Present(o: Option<Value>)
  {
    o.Some? && Truthy(o.value)
  }

  /** The value a present optional criterion binds (null when absent; only read when present). */
  function ValueOf(o: Option<Value>): Value
  {
    if o.Some? then o.value else Null
  }

  /** The id a present optional entity binds (null when absent; only read when present). */
  function RefValue(o: Option<Ref>): Value
  {
    if o.Some? then Int(o.value.id) else Null
  }

  /** The `multi` disjunction: id, name, kana and e-mail, all against the cleaned term. */
  function MultiPredicate(raw: string, isPostgreSQL: bool): Predicate
  {
    var cleaned := StripSpaces(raw);
    var likeMulti := LikeContains(cleaned);
    Or([Eq(Col(C, Id), IdParam(GuardedId(cleaned, isPostgreSQL))),
        Like(NAME, likeMulti),
        Like(KANA, likeMulti),
        Like(Col(C, Email), likeMulti)])
  }

  /** The two conjuncts of a purchased-product search: the product name, and no transient order status. */
  function ProductPredicates(name: Option<string>): seq<Predicate>
  {
    if Given(name) then [Like(Col(OI, ProductName), LikeContains(Arg(name))), NotIn(Col(O, OrderStatus), TRANSIENT)]
    else []
  }

  /** Lines 64-116: the conjunction so far extended by the `multi` term, prefecture, sex, birth month and birthday. */
  function ProfilePredicates(acc: seq<Predicate>, c: Criteria, isPostgreSQL: bool): seq<Predicate>
  {
    acc
    + When(Given(c.multi), MultiPredicate(Arg(c.multi), isPostgreSQL))
    + When(c.pref.Some?, Eq(Col(C, Pref), RefValue(c.pref)))
    + When(|c.sex| > 0, In(Col(C, Sex), IdValues(c.sex)))
    + When(Present(c.birthMonth), Eq(BIRTH_MONTH, ValueOf(c.birthMonth)))
    + RangePredicates(Col(C, Birth), DateOnly(c.birthStart, c.birthEnd))
  }

  /** Lines 118-149: extended by the phone digits and the purchase total and count bounds. */
  function MetricPredicates(acc: seq<Predicate>, c: Criteria): seq<Predicate>
  {
    acc
    + When(Given(c.phoneNumber), Like(PHONE, LikeContains(DigitsOnly(Arg(c.phoneNumber)))))
    + When(Given(c.buyTotalStart), Ge(Col(C, BuyTotal), Str(Arg(c.buyTotalStart))))
    + When(Given(c.buyTotalEnd), Le(Col(C, BuyTotal), Str(Arg(c.buyTotalEnd))))
    + When(Given(c.buyTimesStart), Ge(Col(C, BuyTimes), Str(Arg(c.buyTimesStart))))
    + When(Given(c.buyTimesEnd), Le(Col(C, BuyTimes), Str(Arg(c.buyTimesEnd))))
  }

  /** Lines 151-224: extended by the registration, update and last-purchase date ranges. */
  function DatePredicates(acc: seq<Predicate>, c: Criteria): seq<Predicate>
  {
    acc
    + RangePredicates(Col(C, CreateDate), c.createDate)
    + RangePredicates(Col(C, UpdateDate), c.updateDate)
    + RangePredicates(Col(C, LastBuyDate), c.lastBuyDate)
  }

  /** Lines 226-242: extended by the customer statuses and the purchased product. */
  function StatusPredicates(acc: seq<Predicate>, c: Criteria): seq<Predicate>
  {
    acc
    + When(|c.customerStatus| > 0, In(Col(C, Status), IdValues(c.customerStatus)))
    + ProductPredicates(c.buyProductName)
  }

  /** The conjunction the customer search builds, section by section in the order of the source. */
  function Where(c: Criteria, isPostgreSQL: bool): seq<Predicate>
  {
    StatusPredicates(DatePredicates(MetricPredicates(ProfilePredicates([], c, isPostgreSQL), c), c), c)
  }

  /** The joins: none, unless a purchased product is searched for. */
  function Joins(c: Criteria): seq<Join>
  {
    if Given(c.buyProductName) then PRODUCT_JOINS else []
  }

  /** The whole query: root alias c, the joins, the conjunction and the ordering by the customer sort keys. */
  function SearchQuery(c: Criteria, isPostgreSQL: bool): Query
    requires SortKeyKnown(COLUMNS, c.sortkey)
  {
    Query(C, Joins(c), Where(c, isPostgreSQL), SortOrder(COLUMNS, c.sortkey, c.sorttype, C))
  }

  /** Lines 87-96: the chosen sexes, their ids collected by a loop. */
  method AndWhereSex(qb: Query, sex: seq<Ref>) returns (qb': Query)
    ensures qb' == qb.(where := qb.where + When(|sex| > 0, In(Col(C, Sex), IdValues(sex))))
  {
    qb' := qb;
    if |sex| > 0 {
      var sexs := CollectIds(sex);
      qb' := qb'.AndWhere(In(Col(C, Sex), sexs));
    }
  }

  /** Lines 234-242: the purchased product, through joins on the customer's orders and their items. */
  method AndWhereProduct(qb: Query, name: Option<string>) returns (qb': Query)
    ensures qb'.root == qb.root && qb'.orderBy == qb.orderBy
    ensures qb'.joins == qb.joins + (if Given(name) then PRODUCT_JOINS else [])
    ensures qb'.where == qb.where + ProductPredicates(name)
  {
    qb' := qb;
    if name.Some? && !IsBlank(name.value) {
      qb' := qb'.AddJoin(LeftJoin(C, "Orders", O));
      qb' := qb'.AddJoin(LeftJoin(O, "OrderItems", OI));
      qb' := qb'.AndWhere(Like(Col(OI, ProductName), LikeContains(name.value)));
      qb' := qb'.AndWhere(NotIn(Col(O, OrderStatus), TRANSIENT));
    }
  }

  /** Lines 64-116 as written. */
  method AndWhereProfile(qb: Query, c: Criteria, isPostgreSQL: bool) returns (qb': Query)
    ensures qb' == qb.(where := ProfilePredicates(qb.where, c, isPostgreSQL))
  {
    qb' := AndWhereWhen(qb, Given(c.multi), MultiPredicate(Arg(c.multi), isPostgreSQL));
    qb' := AndWhereWhen(qb', c.pref.Some?, Eq(Col(C, Pref), RefValue(c.pref)));
    qb' := AndWhereSex(qb', c.sex);
    qb' := AndWhereWhen(qb', Present(c.birthMonth), Eq(BIRTH_MONTH, ValueOf(c.birthMonth)));
    qb' := AndWhereRange(qb', Col(C, Birth), DateOnly(c.birthStart, c.birthEnd));
  }

  /** Lines 118-149 as written. */
  method AndWhereMetrics(qb: Query, c: Criteria) returns (qb': Query)
    ensures qb' == qb.(where := MetricPredicates(qb.where, c))
  {
    qb' := AndWhereWhen(qb, Given(c.phoneNumber), Like(PHONE, LikeContains(DigitsOnly(Arg(c.phoneNumber)))));
    qb' := AndWhereWhen(qb', Given(c.buyTotalStart), Ge(Col(C, BuyTotal), Str(Arg(c.buyTotalStart))));
    qb' := AndWhereWhen(qb', Given(c.buyTotalEnd), Le(Col(C, BuyTotal), Str(Arg(c.buyTotalEnd))));
    qb' := AndWhereWhen(qb', Given(c.buyTimesStart), Ge(Col(C, BuyTimes), Str(Arg(c.buyTimesStart))));
    qb' := AndWhereWhen(qb', Given(c.buyTimesEnd), Le(Col(C, BuyTimes), Str(Arg(c.buyTimesEnd))));
  }

  /** Lines 151-224 as written: one `if / elseif` pair per side of each date range. */
  method AndWhereDates(qb: Query, c: Criteria) returns (qb': Query)
    ensures qb' == qb.(where := DatePredicates(qb.where, c))
  {
    qb' := AndWhereRange(qb, Col(C, CreateDate), c.createDate);
    qb' := AndWhereRange(qb', Col(C, UpdateDate), c.updateDate);
    qb' := AndWhereRange(qb', Col(C, LastBuyDate), c.lastBuyDate);
  }

  /** Lines 226-242 as written. */
  method AndWhereStatus(qb: Query, c: Criteria) returns (qb': Query)
    ensures qb'.root == qb.root && qb'.orderBy == qb.orderBy
    ensures qb'.joins == qb.joins + Joins(c)
    ensures qb'.where == StatusPredicates(qb.where, c)
  {
    qb' := AndWhereWhen(qb, |c.customerStatus| > 0, In(Col(C, Status), IdValues(c.customerStatus)));
    qb' := AndWhereProduct(qb', c.buyProductName);
  }

  /**
   * The composer, lines 59-256. `isPostgreSQL` stands for the platform check;
   * the sort key must name a column of `COLUMNS`, which the source indexes unchecked.
   */
  method QueryBySearchData(c: Criteria, isPostgreSQL: bool) returns (qb: Query)
    requires SortKeyKnown(COLUMNS, c.sortkey)
    ensures qb == SearchQuery(c, isPostgreSQL)
  {
    qb := Query(C, [], [], []);
    qb := AndWhereProfile(qb, c, isPostgreSQL);
    qb := AndWhereMetrics(qb, c);
    qb := AndWhereDates(qb, c);
    qb := AndWhereStatus(qb, c);
    qb := OrderBySort(qb, COLUMNS, c.sortkey, c.sorttype, C);
  }

  // ---------------------------------------------------------------------
  // Which section writes which column

  /** The profile section only adds the disjunction and conjuncts on prefecture, sex, birth month and birthday. */
  lemma ProfileFrame(acc: seq<Predicate>, c: Criteria, isPostgreSQL: bool, k: Key)
    requires k !in {Disjunction, Column(Col(C, Pref)), Column(Col(C, Sex)), Column(BIRTH_MONTH), Column(Col(C, Birth))}
    ensures On(ProfilePredicates(acc, c, isPostgreSQL), k) == On(acc, k)
  {
    var byMulti := acc + When(Given(c.multi), MultiPredicate(Arg(c.multi), isPostgreSQL));
    var byPref := byMulti + When(c.pref.Some?, Eq(Col(C, Pref), RefValue(c.pref)));
    var bySex := byPref + When(|c.sex| > 0, In(Col(C, Sex), IdValues(c.sex)));
    var byMonth := bySex + When(Present(c.birthMonth), Eq(BIRTH_MONTH, ValueOf(c.birthMonth)));
    OnSkip(acc, Given(c.multi), MultiPredicate(Arg(c.multi), isPostgreSQL), k);
    OnSkip(byMulti, c.pref.Some?, Eq(Col(C, Pref), RefValue(c.pref)), k);
    OnSkip(byPref, |c.sex| > 0, In(Col(C, Sex), IdValues(c.sex)), k);
    OnSkip(bySex, Present(c.birthMonth), Eq(BIRTH_MONTH, ValueOf(c.birthMonth)), k);
    OnSkipRange(byMonth, Col(C, Birth), DateOnly(c.birthStart, c.birthEnd), k);
  }

  /** The metrics section only adds conjuncts on the phone, the purchase total and the purchase count. */
  lemma MetricsFrame(acc: seq<Predicate>, c: Criteria, k: Key)
    requires k !in {Column(PHONE), Column(Col(C, BuyTotal)), Column(Col(C, BuyTimes))}
    ensures On(MetricPredicates(acc, c), k) == On(acc, k)
  {
    var byPhone := acc + When(Given(c.phoneNumber), Like(PHONE, LikeContains(DigitsOnly(Arg(c.phoneNumber)))));
    var byTotalStart := byPhone + When(Given(c.buyTotalStart), Ge(Col(C, BuyTotal), Str(Arg(c.buyTotalStart))));
    var byTotalEnd := byTotalStart + When(Given(c.buyTotalEnd), Le(Col(C, BuyTotal), Str(Arg(c.buyTotalEnd))));
    var byTimesStart := byTotalEnd + When(Given(c.buyTimesStart), Ge(Col(C, BuyTimes), Str(Arg(c.buyTimesStart))));
    OnSkip(acc, Given(c.phoneNumber), Like(PHONE, LikeContains(DigitsOnly(Arg(c.phoneNumber)))), k);
    OnSkip(byPhone, Given(c.buyTotalStart), Ge(Col(C, BuyTotal), Str(Arg(c.buyTotalStart))), k);
    OnSkip(byTotalStart, Given(c.buyTotalEnd), Le(Col(C, BuyTotal), Str(Arg(c.buyTotalEnd))), k);
    OnSkip(byTotalEnd, Given(c.buyTimesStart), Ge(Col(C, BuyTimes), Str(Arg(c.buyTimesStart))), k);
    OnSkip(byTimesStart, Given(c.buyTimesEnd), Le(Col(C, BuyTimes), Str(Arg(c.buyTimesEnd))), k);
  }

  /** The date section only adds conjuncts on the three date columns. */
  lemma DatesFrame(acc: seq<Predicate>, c: Criteria, k: Key)
    requires k !in {Column(Col(C, CreateDate)), Column(Col(C, UpdateDate)), Column(Col(C, LastBuyDate))}
    ensures On(DatePredicates(acc, c), k) == On(acc, k)
  {
    var byCreated := acc + RangePredicates(Col(C, CreateDate), c.createDate);
    var byUpdated := byCreated + RangePredicates(Col(C, UpdateDate), c.updateDate);
    OnSkipRange(acc, Col(C, CreateDate), c.createDate, k);
    OnSkipRange(byCreated, Col(C, UpdateDate), c.updateDate, k);
    OnSkipRange(byUpdated, Col(C, LastBuyDate), c.lastBuyDate, k);
  }

  /** The product conjuncts are on the product name and the order status only. */
  lemma ProductKeys(name: Option<string>)
    ensures forall p :: p in ProductPredicates(name) ==> KeyOf(p) in {Column(Col(OI, ProductName)), Column(Col(O, OrderStatus))}
  {
  }

  /** The status section only adds conjuncts on the customer status, the product name and the order status. */
  lemma StatusFrame(acc: seq<Predicate>, c: Criteria, k: Key)
    requires k !in {Column(Col(C, Status)), Column(Col(OI, ProductName)), Column(Col(O, OrderStatus))}
    ensures On(StatusPredicates(acc, c), k) == On(acc, k)
  {
    var byStatus := acc + When(|c.customerStatus| > 0, In(Col(C, Status), IdValues(c.customerStatus)));
    OnSkip(acc, |c.customerStatus| > 0, In(Col(C, Status), IdValues(c.customerStatus)), k);
    ProductKeys(c.buyProductName);
    OnConcat(byStatus, ProductPredicates(c.buyProductName), k);
    OnNone(ProductPredicates(c.buyProductName), k);
    assert On(byStatus, k) + [] == On(byStatus, k);
  }

  /** The conjunction before the date section, and its silence on every later key. */
  function UpToDates(c: Criteria, isPostgreSQL: bool): seq<Predicate>
  {
    MetricPredicates(ProfilePredicates([], c, isPostgreSQL), c)
  }

  lemma UpToDatesFrame(c: Criteria, isPostgreSQL: bool, k: Key)
    requires k !in {Disjunction, Column(Col(C, Pref)), Column(Col(C, Sex)), Column(BIRTH_MONTH), Column(Col(C, Birth))}
    requires k !in {Column(PHONE), Column(Col(C, BuyTotal)), Column(Col(C, BuyTimes))}
    ensures On(UpToDates(c, isPostgreSQL), k) == []
  {
    MetricsFrame(ProfilePredicates([], c, isPostgreSQL), c, k);
    ProfileFrame([], c, isPostgreSQL, k);
  }

  /** Past the metrics section, nothing is added on a profile or metrics key. */
  lemma FromDatesFrame(c: Criteria, isPostgreSQL: bool, k: Key)
    requires k !in {Column(Col(C, CreateDate)), Column(Col(C, UpdateDate)), Column(Col(C, LastBuyDate))}
    requires k !in {Column(Col(C, Status)), Column(Col(OI, ProductName)), Column(Col(O, OrderStatus))}
    ensures On(Where(c, isPostgreSQL), k) == On(UpToDates(c, isPostgreSQL), k)
  {
    StatusFrame(DatePredicates(UpToDates(c, isPostgreSQL), c), c, k);
    DatesFrame(UpToDates(c, isPostgreSQL), c, k);
  }

  /** Past the profile section, nothing is added on a profile key. */
  lemma FromMetricsFrame(c: Criteria, isPostgreSQL: bool, k: Key)
    requires k !in {Column(PHONE), Column(Col(C, BuyTotal)), Column(Col(C, BuyTimes))}
    requires k !in {Column(Col(C, CreateDate)), Column(Col(C, UpdateDate)), Column(Col(C, LastBuyDate))}
    requires k !in {Column(Col(C, Status)), Column(Col(OI, ProductName)), Column(Col(O, OrderStatus))}
    ensures On(Where(c, isPostgreSQL), k) == On(ProfilePredicates([], c, isPostgreSQL), k)
  {
    FromDatesFrame(c, isPostgreSQL, k);
    MetricsFrame(ProfilePredicates([], c, isPostgreSQL), c, k);
  }

  // ---------------------------------------------------------------------
  // Properties of the customer search

  /** The profile section adds exactly the `multi` disjunction as its only disjunction. */
  lemma ProfileOnDisjunction(acc: seq<Predicate>, c: Criteria, isPostgreSQL: bool)
    ensures On(ProfilePredicates(acc, c, isPostgreSQL), Disjunction)
         == On(acc, Disjunction) + When(Given(c.multi), MultiPredicate(Arg(c.multi), isPostgreSQL))
  {
    var k := Disjunction;
    var byMulti := acc + When(Given(c.multi), MultiPredicate(Arg(c.multi), isPostgreSQL));
    var byPref := byMulti + When(c.pref.Some?, Eq(Col(C, Pref), RefValue(c.pref)));
    var bySex := byPref + When(|c.sex| > 0, In(Col(C, Sex), IdValues(c.sex)));
    var byMonth := bySex + When(Present(c.birthMonth), Eq(BIRTH_MONTH, ValueOf(c.birthMonth)));
    OnSkipRange(byMonth, Col(C, Birth), DateOnly(c.birthStart, c.birthEnd), k);
    OnSkip(bySex, Present(c.birthMonth), Eq(BIRTH_MONTH, ValueOf(c.birthMonth)), k);
    OnSkip(byPref, |c.sex| > 0, In(Col(C, Sex), IdValues(c.sex)), k);
    OnSkip(byMulti, c.pref.Some?, Eq(Col(C, Pref), RefValue(c.pref)), k);
    OnTake(acc, Given(c.multi), MultiPredicate(Arg(c.multi), isPostgreSQL));
  }

  /** The `multi` term is the search's only disjunction. */
  lemma MultiIsTheOnlyDisjunction(c: Criteria, isPostgreSQL: bool)
    ensures On(Where(c, isPostgreSQL), Disjunction) == When(Given(c.multi), MultiPredicate(Arg(c.multi), isPostgreSQL))
  {
    FromMetricsFrame(c, isPostgreSQL, Disjunction);
    ProfileOnDisjunction([], c, isPostgreSQL);
    assert [] + When(Given(c.multi), MultiPredicate(Arg(c.multi), isPostgreSQL))
        == When(Given(c.multi), MultiPredicate(Arg(c.multi), isPostgreSQL));
  }

  /**
   * The multi disjunction has four branches. The id branch binds the cleaned
   * term only when it is 0 to 10 digits and, on PostgreSQL, at most
   * 2147483647, and null otherwise; the name, kana and e-mail branches all
   * match the cleaned term.
   */
  lemma MultiBranches(raw: string, isPostgreSQL: bool)
    ensures var d := MultiPredicate(raw, isPostgreSQL).disjuncts;
      var cleaned := StripSpaces(raw);
      && |d| == 4
      && d[0].Eq? && d[0].lhs == Col(C, Id)
      && (d[0].v != Null <==> |cleaned| <= 10 && AllDigits(cleaned) && !(isPostgreSQL && DecimalValue(cleaned) > PG_INT_MAX))
      && (d[0].v != Null ==> d[0].v == Str(cleaned))
      && d[1] == Like(NAME, LikeContains(cleaned))
      && d[2] == Like(KANA, LikeContains(cleaned))
      && d[3] == Like(Col(C, Email), LikeContains(cleaned))
  {
    CleanedIdPattern(raw);
    GuardedIdSpec(StripSpaces(raw), isPostgreSQL);
  }

  /** The profile section adds on the birth-month expression exactly its guarded conjunct. */
  lemma ProfileOnBirthMonth(acc: seq<Predicate>, c: Criteria, isPostgreSQL: bool)
    ensures On(ProfilePredicates(acc, c, isPostgreSQL), Column(BIRTH_MONTH))
         == On(acc, Column(BIRTH_MONTH)) + When(Present(c.birthMonth), Eq(BIRTH_MONTH, ValueOf(c.birthMonth)))
  {
    var k := Column(BIRTH_MONTH);
    var byMulti := acc + When(Given(c.multi), MultiPredicate(Arg(c.multi), isPostgreSQL));
    var byPref := byMulti + When(c.pref.Some?, Eq(Col(C, Pref), RefValue(c.pref)));
    var bySex := byPref + When(|c.sex| > 0, In(Col(C, Sex), IdValues(c.sex)));
    var byMonth := bySex + When(Present(c.birthMonth), Eq(BIRTH_MONTH, ValueOf(c.birthMonth)));
    OnSkipRange(byMonth, Col(C, Birth), DateOnly(c.birthStart, c.birthEnd), k);
    OnTake(bySex, Present(c.birthMonth), Eq(BIRTH_MONTH, ValueOf(c.birthMonth)));
    OnSkip(byPref, |c.sex| > 0, In(Col(C, Sex), IdValues(c.sex)), k);
    OnSkip(byMulti, c.pref.Some?, Eq(Col(C, Pref), RefValue(c.pref)), k);
    OnSkip(acc, Given(c.multi), MultiPredicate(Arg(c.multi), isPostgreSQL), k);
  }

  /**
   * The birth month is compared only when it is truthy in PHP's sense: a
   * month 0, "0" or "" adds nothing, any other value is compared as given.
   */
  lemma BirthMonthFilter(c: Criteria, isPostgreSQL: bool)
    ensures Present(c.birthMonth) ==> On(Where(c, isPostgreSQL), Column(BIRTH_MONTH)) == [Eq(BIRTH_MONTH, c.birthMonth.value)]
    ensures c.birthMonth in {None, Some(Null), Some(Int(0)), Some(Str("")), Some(Str("0"))}
         ==> On(Where(c, isPostgreSQL), Column(BIRTH_MONTH)) == []
  {
    var k := Column(BIRTH_MONTH);
    FromMetricsFrame(c, isPostgreSQL, k);
    ProfileOnBirthMonth([], c, isPostgreSQL);
    assert [] + When(Present(c.birthMonth), Eq(BIRTH_MONTH, ValueOf(c.birthMonth)))
        == When(Present(c.birthMonth), Eq(BIRTH_MONTH, ValueOf(c.birthMonth)));
  }

  /** The profile section adds on the birthday exactly its date-only range. */
  lemma ProfileOnBirth(acc: seq<Predicate>, c: Criteria, isPostgreSQL: bool)
    ensures On(ProfilePredicates(acc, c, isPostgreSQL), Column(Col(C, Birth)))
         == On(acc, Column(Col(C, Birth))) + RangePredicates(Col(C, Birth), DateOnly(c.birthStart, c.birthEnd))
  {
    var k := Column(Col(C, Birth));
    var byMulti := acc + When(Given(c.multi), MultiPredicate(Arg(c.multi), isPostgreSQL));
    var byPref := byMulti + When(c.pref.Some?, Eq(Col(C, Pref), RefValue(c.pref)));
    var bySex := byPref + When(|c.sex| > 0, In(Col(C, Sex), IdValues(c.sex)));
    var byMonth := bySex + When(Present(c.birthMonth), Eq(BIRTH_MONTH, ValueOf(c.birthMonth)));
    OnTakeRange(byMonth, Col(C, Birth), DateOnly(c.birthStart, c.birthEnd));
    OnSkip(bySex, Present(c.birthMonth), Eq(BIRTH_MONTH, ValueOf(c.birthMonth)), k);
    OnSkip(byPref, |c.sex| > 0, In(Col(C, Sex), IdValues(c.sex)), k);
    OnSkip(byMulti, c.pref.Some?, Eq(Col(C, Pref), RefValue(c.pref)), k);
    OnSkip(acc, Given(c.multi), MultiPredicate(Arg(c.multi), isPostgreSQL), k);
  }

  /**
   * The birthday is constrained by its date-only range alone: at most a
   * `>=` on the start day and a `<` on the day after the end day.
   */
  lemma BirthResolved(c: Criteria, isPostgreSQL: bool)
    ensures On(Where(c, isPostgreSQL), Column(Col(C, Birth))) == RangePredicates(Col(C, Birth), DateOnly(c.birthStart, c.birthEnd))
  {
    FromMetricsFrame(c, isPostgreSQL, Column(Col(C, Birth)));
    ProfileOnBirth([], c, isPostgreSQL);
    assert [] + RangePredicates(Col(C, Birth), DateOnly(c.birthStart, c.birthEnd))
        == RangePredicates(Col(C, Birth), DateOnly(c.birthStart, c.birthEnd));
  }

  /** The metrics section adds on the phone expression exactly the digits-only LIKE. */
  lemma MetricsOnPhone(acc: seq<Predicate>, c: Criteria)
    ensures On(MetricPredicates(acc, c), Column(PHONE))
         == On(acc, Column(PHONE)) + When(Given(c.phoneNumber), Like(PHONE, LikeContains(DigitsOnly(Arg(c.phoneNumber)))))
  {
    var k := Column(PHONE);
    var byPhone := acc + When(Given(c.phoneNumber), Like(PHONE, LikeContains(DigitsOnly(Arg(c.phoneNumber)))));
    var byTotalStart := byPhone + When(Given(c.buyTotalStart), Ge(Col(C, BuyTotal), Str(Arg(c.buyTotalStart))));
    var byTotalEnd := byTotalStart + When(Given(c.buyTotalEnd), Le(Col(C, BuyTotal), Str(Arg(c.buyTotalEnd))));
    var byTimesStart := byTotalEnd + When(Given(c.buyTimesStart), Ge(Col(C, BuyTimes), Str(Arg(c.buyTimesStart))));
    OnSkip(byTimesStart, Given(c.buyTimesEnd), Le(Col(C, BuyTimes), Str(Arg(c.buyTimesEnd))), k);
    OnSkip(byTotalEnd, Given(c.buyTimesStart), Ge(Col(C, BuyTimes), Str(Arg(c.buyTimesStart))), k);
    OnSkip(byTotalStart, Given(c.buyTotalEnd), Le(Col(C, BuyTotal), Str(Arg(c.buyTotalEnd))), k);
    OnSkip(byPhone, Given(c.buyTotalStart), Ge(Col(C, BuyTotal), Str(Arg(c.buyTotalStart))), k);
    OnTake(acc, Given(c.phoneNumber), Like(PHONE, LikeContains(DigitsOnly(Arg(c.phoneNumber)))));
  }

  /** The phone is searched by its digits only: one LIKE on the digits of the input, whose pattern `DigitsPattern` describes. */
  lemma PhoneDigitsOnly(c: Criteria, isPostgreSQL: bool)
    ensures Given(c.phoneNumber) ==> On(Where(c, isPostgreSQL), Column(PHONE)) == [Like(PHONE, LikeContains(DigitsOnly(c.phoneNumber.value)))]
    ensures !Given(c.phoneNumber) ==> On(Where(c, isPostgreSQL), Column(PHONE)) == []
  {
    var k := Column(PHONE);
    FromDatesFrame(c, isPostgreSQL, k);
    MetricsOnPhone(ProfilePredicates([], c, isPostgreSQL), c);
    ProfileFrame([], c, isPostgreSQL, k);
    assert [] + When(Given(c.phoneNumber), Like(PHONE, LikeContains(DigitsOnly(Arg(c.phoneNumber)))))
        == When(Given(c.phoneNumber), Like(PHONE, LikeContains(DigitsOnly(Arg(c.phoneNumber)))));
  }

  /** The metrics section adds on the purchase total exactly its two inclusive bounds, start first. */
  lemma MetricsOnBuyTotal(acc: seq<Predicate>, c: Criteria)
    ensures On(MetricPredicates(acc, c), Column(Col(C, BuyTotal)))
         == On(acc, Column(Col(C, BuyTotal)))
            + When(Given(c.buyTotalStart), Ge(Col(C, BuyTotal), Str(Arg(c.buyTotalStart))))
            + When(Given(c.buyTotalEnd), Le(Col(C, BuyTotal), Str(Arg(c.buyTotalEnd))))
  {
    var k := Column(Col(C, BuyTotal));
    var byPhone := acc + When(Given(c.phoneNumber), Like(PHONE, LikeContains(DigitsOnly(Arg(c.phoneNumber)))));
    var byTotalStart := byPhone + When(Given(c.buyTotalStart), Ge(Col(C, BuyTotal), Str(Arg(c.buyTotalStart))));
    var byTotalEnd := byTotalStart + When(Given(c.buyTotalEnd), Le(Col(C, BuyTotal), Str(Arg(c.buyTotalEnd))));
    var byTimesStart := byTotalEnd + When(Given(c.buyTimesStart), Ge(Col(C, BuyTimes), Str(Arg(c.buyTimesStart))));
    OnSkip(byTimesStart, Given(c.buyTimesEnd), Le(Col(C, BuyTimes), Str(Arg(c.buyTimesEnd))), k);
    OnSkip(byTotalEnd, Given(c.buyTimesStart), Ge(Col(C, BuyTimes), Str(Arg(c.buyTimesStart))), k);
    OnTake(byTotalStart, Given(c.buyTotalEnd), Le(Col(C, BuyTotal), Str(Arg(c.buyTotalEnd))));
    OnTake(byPhone, Given(c.buyTotalStart), Ge(Col(C, BuyTotal), Str(Arg(c.buyTotalStart))));
    OnSkip(acc, Given(c.phoneNumber), Like(PHONE, LikeContains(DigitsOnly(Arg(c.phoneNumber)))), k);
  }

  /** The metrics section adds on the purchase count exactly its two inclusive bounds, start first. */
  lemma MetricsOnBuyTimes(acc: seq<Predicate>, c: Criteria)
    ensures On(MetricPredicates(acc, c), Column(Col(C, BuyTimes)))
         == On(acc, Column(Col(C, BuyTimes)))
            + When(Given(c.buyTimesStart), Ge(Col(C, BuyTimes), Str(Arg(c.buyTimesStart))))
            + When(Given(c.buyTimesEnd), Le(Col(C, BuyTimes), Str(Arg(c.buyTimesEnd))))
  {
    var k := Column(Col(C, BuyTimes));
    var byPhone := acc + When(Given(c.phoneNumber), Like(PHONE, LikeContains(DigitsOnly(Arg(c.phoneNumber)))));
    var byTotalStart := byPhone + When(Given(c.buyTotalStart), Ge(Col(C, BuyTotal), Str(Arg(c.buyTotalStart))));
    var byTotalEnd := byTotalStart + When(Given(c.buyTotalEnd), Le(Col(C, BuyTotal), Str(Arg(c.buyTotalEnd))));
    var byTimesStart := byTotalEnd + When(Given(c.buyTimesStart), Ge(Col(C, BuyTimes), Str(Arg(c.buyTimesStart))));
    OnTake(byTimesStart, Given(c.buyTimesEnd), Le(Col(C, BuyTimes), Str(Arg(c.buyTimesEnd))));
    OnTake(byTotalEnd, Given(c.buyTimesStart), Ge(Col(C, BuyTimes), Str(Arg(c.buyTimesStart))));
    OnSkip(byTotalStart, Given(c.buyTotalEnd), Le(Col(C, BuyTotal), Str(Arg(c.buyTotalEnd))), k);
    OnSkip(byPhone, Given(c.buyTotalStart), Ge(Col(C, BuyTotal), Str(Arg(c.buyTotalStart))), k);
    OnSkip(acc, Given(c.phoneNumber), Like(PHONE, LikeContains(DigitsOnly(Arg(c.phoneNumber)))), k);
  }

  /**
   * An empty projection in front of two fragments leaves just the fragments.
   * A separate lemma because the same step asserted inside the lemmas below,
   * with the whole search in scope, is far more expensive to prove.
   */
  lemma EmptyPrefix(a: seq<Predicate>, b: seq<Predicate>)
    ensures [] + a + b == a + b
  {
  }

  /**
   * The purchase total is bounded inclusively on both sides (`>=` the start,
   * `<=` the end), each side only when supplied and not blank, and by nothing else.
   */
  lemma BuyTotalInclusive(c: Criteria, isPostgreSQL: bool)
    ensures On(Where(c, isPostgreSQL), Column(Col(C, BuyTotal)))
         == When(Given(c.buyTotalStart), Ge(Col(C, BuyTotal), Str(Arg(c.buyTotalStart))))
            + When(Given(c.buyTotalEnd), Le(Col(C, BuyTotal), Str(Arg(c.buyTotalEnd))))
  {
    var k := Column(Col(C, BuyTotal));
    var start := When(Given(c.buyTotalStart), Ge(Col(C, BuyTotal), Str(Arg(c.buyTotalStart))));
    var end := When(Given(c.buyTotalEnd), Le(Col(C, BuyTotal), Str(Arg(c.buyTotalEnd))));
    var profile := ProfilePredicates([], c, isPostgreSQL);
    FromDatesFrame(c, isPostgreSQL, k);
    assert UpToDates(c, isPostgreSQL) == MetricPredicates(profile, c);
    MetricsOnBuyTotal(profile, c);
    ProfileFrame([], c, isPostgreSQL, k);
    assert On(profile, k) == [];
    EmptyPrefix(start, end);
  }

  /** The purchase count is bounded inclusively on both sides, in the same way. */
  lemma BuyTimesInclusive(c: Criteria, isPostgreSQL: bool)
    ensures On(Where(c, isPostgreSQL), Column(Col(C, BuyTimes)))
         == When(Given(c.buyTimesStart), Ge(Col(C, BuyTimes), Str(Arg(c.buyTimesStart))))
            + When(Given(c.buyTimesEnd), Le(Col(C, BuyTimes), Str(Arg(c.buyTimesEnd))))
  {
    var k := Column(Col(C, BuyTimes));
    var start := When(Given(c.buyTimesStart), Ge(Col(C, BuyTimes), Str(Arg(c.buyTimesStart))));
    var end := When(Given(c.buyTimesEnd), Le(Col(C, BuyTimes), Str(Arg(c.buyTimesEnd))));
    var profile := ProfilePredicates([], c, isPostgreSQL);
    FromDatesFrame(c, isPostgreSQL, k);
    assert UpToDates(c, isPostgreSQL) == MetricPredicates(profile, c);
    MetricsOnBuyTimes(profile, c);
    ProfileFrame([], c, isPostgreSQL, k);
    assert On(profile, k) == [];
    EmptyPrefix(start, end);
  }

  /** The date section adds on the registration date exactly its range. */
  lemma DatesOnCreateDate(acc: seq<Predicate>, c: Criteria)
    ensures On(DatePredicates(acc, c), Column(Col(C, CreateDate)))
         == On(acc, Column(Col(C, CreateDate))) + RangePredicates(Col(C, CreateDate), c.createDate)
  {
    var k := Column(Col(C, CreateDate));
    var byCreated := acc + RangePredicates(Col(C, CreateDate), c.createDate);
    var byUpdated := byCreated + RangePredicates(Col(C, UpdateDate), c.updateDate);
    OnSkipRange(byUpdated, Col(C, LastBuyDate), c.lastBuyDate, k);
    OnSkipRange(byCreated, Col(C, UpdateDate), c.updateDate, k);
    OnTakeRange(acc, Col(C, CreateDate), c.createDate);
  }

  /** The date section adds on the update date exactly its range. */
  lemma DatesOnUpdateDate(acc: seq<Predicate>, c: Criteria)
    ensures On(DatePredicates(acc, c), Column(Col(C, UpdateDate)))
         == On(acc, Column(Col(C, UpdateDate))) + RangePredicates(Col(C, UpdateDate), c.updateDate)
  {
    var k := Column(Col(C, UpdateDate));
    var byCreated := acc + RangePredicates(Col(C, CreateDate), c.createDate);
    var byUpdated := byCreated + RangePredicates(Col(C, UpdateDate), c.updateDate);
    OnSkipRange(byUpdated, Col(C, LastBuyDate), c.lastBuyDate, k);
    OnTakeRange(byCreated, Col(C, UpdateDate), c.updateDate);
    OnSkipRange(acc, Col(C, CreateDate), c.createDate, k);
  }

  /** The date section adds on the last purchase date exactly its range. */
  lemma DatesOnLastBuyDate(acc: seq<Predicate>, c: Criteria)
    ensures On(DatePredicates(acc, c), Column(Col(C, LastBuyDate)))
         == On(acc, Column(Col(C, LastBuyDate))) + RangePredicates(Col(C, LastBuyDate), c.lastBuyDate)
  {
    var k := Column(Col(C, LastBuyDate));
    var byCreated := acc + RangePredicates(Col(C, CreateDate), c.createDate);
    var byUpdated := byCreated + RangePredicates(Col(C, UpdateDate), c.updateDate);
    OnTakeRange(byUpdated, Col(C, LastBuyDate), c.lastBuyDate);
    OnSkipRange(byCreated, Col(C, UpdateDate), c.updateDate, k);
    OnSkipRange(acc, Col(C, CreateDate), c.createDate, k);
  }

  lemma CreateDateResolved(c: Criteria, isPostgreSQL: bool)
    ensures On(Where(c, isPostgreSQL), Column(Col(C, CreateDate))) == RangePredicates(Col(C, CreateDate), c.createDate)
  {
    var k := Column(Col(C, CreateDate));
    StatusFrame(DatePredicates(UpToDates(c, isPostgreSQL), c), c, k);
    DatesOnCreateDate(UpToDates(c, isPostgreSQL), c);
    UpToDatesFrame(c, isPostgreSQL, k);
    assert [] + RangePredicates(Col(C, CreateDate), c.createDate) == RangePredicates(Col(C, CreateDate), c.createDate);
  }

  lemma UpdateDateResolved(c: Criteria, isPostgreSQL: bool)
    ensures On(Where(c, isPostgreSQL), Column(Col(C, UpdateDate))) == RangePredicates(Col(C, UpdateDate), c.updateDate)
  {
    var k := Column(Col(C, UpdateDate));
    StatusFrame(DatePredicates(UpToDates(c, isPostgreSQL), c), c, k);
    DatesOnUpdateDate(UpToDates(c, isPostgreSQL), c);
    UpToDatesFrame(c, isPostgreSQL, k);
    assert [] + RangePredicates(Col(C, UpdateDate), c.updateDate) == RangePredicates(Col(C, UpdateDate), c.updateDate);
  }

  lemma LastBuyDateResolved(c: Criteria, isPostgreSQL: bool)
    ensures On(Where(c, isPostgreSQL), Column(Col(C, LastBuyDate))) == RangePredicates(Col(C, LastBuyDate), c.lastBuyDate)
  {
    var k := Column(Col(C, LastBuyDate));
    StatusFrame(DatePredicates(UpToDates(c, isPostgreSQL), c), c, k);
    DatesOnLastBuyDate(UpToDates(c, isPostgreSQL), c);
    UpToDatesFrame(c, isPostgreSQL, k);
    assert [] + RangePredicates(Col(C, LastBuyDate), c.lastBuyDate) == RangePredicates(Col(C, LastBuyDate), c.lastBuyDate);
  }

  /**
   * Each of the three customer date columns is constrained by its range alone;
   * with the range lemmas of the query model this gives the precise bounds
   * precedence per side and advances a date-only end by one day.
   */
  lemma DateColumnsResolved(c: Criteria, isPostgreSQL: bool)
    ensures On(Where(c, isPostgreSQL), Column(Col(C, CreateDate))) == RangePredicates(Col(C, CreateDate), c.createDate)
    ensures On(Where(c, isPostgreSQL), Column(Col(C, UpdateDate))) == RangePredicates(Col(C, UpdateDate), c.updateDate)
    ensures On(Where(c, isPostgreSQL), Column(Col(C, LastBuyDate))) == RangePredicates(Col(C, LastBuyDate), c.lastBuyDate)
  {
    CreateDateResolved(c, isPostgreSQL);
    UpdateDateResolved(c, isPostgreSQL);
    LastBuyDateResolved(c, isPostgreSQL);
  }

  /** The status section adds on the customer status exactly its guarded conjunct. */
  lemma StatusOnStatus(acc: seq<Predicate>, c: Criteria)
    ensures On(StatusPredicates(acc, c), Column(Col(C, Status)))
         == On(acc, Column(Col(C, Status))) + When(|c.customerStatus| > 0, In(Col(C, Status), IdValues(c.customerStatus)))
  {
    var k := Column(Col(C, Status));
    var byStatus := acc + When(|c.customerStatus| > 0, In(Col(C, Status), IdValues(c.customerStatus)));
    OnTake(acc, |c.customerStatus| > 0, In(Col(C, Status), IdValues(c.customerStatus)));
    ProductKeys(c.buyProductName);
    OnConcat(byStatus, ProductPredicates(c.buyProductName), k);
    OnNone(ProductPredicates(c.buyProductName), k);
    assert On(byStatus, k) + [] == On(byStatus, k);
  }

  /** Unlike the order search, no customer status is excluded by default: the status is filtered only when some are chosen. */
  lemma CustomerStatusFilter(c: Criteria, isPostgreSQL: bool)
    ensures |c.customerStatus| > 0 ==> On(Where(c, isPostgreSQL), Column(Col(C, Status))) == [In(Col(C, Status), IdValues(c.customerStatus))]
    ensures |c.customerStatus| == 0 ==> On(Where(c, isPostgreSQL), Column(Col(C, Status))) == []
  {
    var k := Column(Col(C, Status));
    StatusOnStatus(DatePredicates(UpToDates(c, isPostgreSQL), c), c);
    DatesFrame(UpToDates(c, isPostgreSQL), c, k);
    UpToDatesFrame(c, isPostgreSQL, k);
    assert [] + When(|c.customerStatus| > 0, In(Col(C, Status), IdValues(c.customerStatus)))
        == When(|c.customerStatus| > 0, In(Col(C, Status), IdValues(c.customerStatus)));
  }

  /** The status section adds on the order status exactly the transient-status exclusion of a product search. */
  lemma StatusOnOrderStatus(acc: seq<Predicate>, c: Criteria)
    ensures On(StatusPredicates(acc, c), Column(Col(O, OrderStatus)))
         == On(acc, Column(Col(O, OrderStatus))) + When(Given(c.buyProductName), NotIn(Col(O, OrderStatus), TRANSIENT))
  {
    var k := Column(Col(O, OrderStatus));
    var byStatus := acc + When(|c.customerStatus| > 0, In(Col(C, Status), IdValues(c.customerStatus)));
    OnSkip(acc, |c.customerStatus| > 0, In(Col(C, Status), IdValues(c.customerStatus)), k);
    OnConcat(byStatus, ProductPredicates(c.buyProductName), k);
    if Given(c.buyProductName) {
      var like := Like(Col(OI, ProductName), LikeContains(Arg(c.buyProductName)));
      var notIn := NotIn(Col(O, OrderStatus), TRANSIENT);
      assert ProductPredicates(c.buyProductName) == [like] + [notIn];
      OnConcat([like], [notIn], k);
      OnNone([like], k);
      OnAll([notIn], k);
    }
  }

  /**
   * A purchased-product search joins the customer's orders and items, matches
   * the product name, and leaves out orders with a transient status; without
   * one, the query has no join and no conjunct on orders.
   */
  lemma ProductSearch(c: Criteria, isPostgreSQL: bool)
    ensures Given(c.buyProductName) ==> Joins(c) == [LeftJoin(C, "Orders", O), LeftJoin(O, "OrderItems", OI)]
    ensures !Given(c.buyProductName) ==> Joins(c) == []
    ensures On(Where(c, isPostgreSQL), Column(Col(O, OrderStatus))) == When(Given(c.buyProductName), NotIn(Col(O, OrderStatus), [Int(PROCESSING), Int(PENDING)]))
  {
    var k := Column(Col(O, OrderStatus));
    StatusOnOrderStatus(DatePredicates(UpToDates(c, isPostgreSQL), c), c);
    DatesFrame(UpToDates(c, isPostgreSQL), c, k);
    UpToDatesFrame(c, isPostgreSQL, k);
    assert [] + When(Given(c.buyProductName), NotIn(Col(O, OrderStatus), TRANSIENT))
        == When(Given(c.buyProductName), NotIn(Col(O, OrderStatus), TRANSIENT));
  }

  /** A sort key is accepted when it is absent or empty, or it is one of the two keys of the customer list. */
  lemma SortKeys(sortkey: Option<string>)
    ensures SortKeyKnown(COLUMNS, sortkey) <==> !Filled(sortkey) || sortkey.value in {"customer_id", "name"}
    ensures sortkey == Some("customer_id") ==> COLUMNS[sortkey.value] == Col(C, Id)
    ensures sortkey == Some("name") ==> COLUMNS[sortkey.value] == Col(C, Name01)
  {
  }

  /** With no criterion at all, the customer search has no conjunct, no join, and the default order. */
  lemma NoCriteriaSearch(isPostgreSQL: bool)
    ensures Where(NO_CRITERIA, isPostgreSQL) == []
    ensures SearchQuery(NO_CRITERIA, isPostgreSQL) == Query(C, [], [], [(Col(C, UpdateDate), Desc), (Col(C, Id), Desc)])
  {
    var c := NO_CRITERIA;
    assert ProfilePredicates([], c, isPostgreSQL) == [];
    assert MetricPredicates([], c) == [];
    assert DatePredicates([], c) == [];
    assert StatusPredicates([], c) == [];
  }
}
