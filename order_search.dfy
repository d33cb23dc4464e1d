/**
 * The admin order search (`OrderRepositoryExtension::getQueryBuilderBySearchDataForAdmin`):
 * the criteria of the order list screen become a conjunction of fragments on
 * orders (o), their items (oi), their shippings (s) and their payment (p).
 */
module OrderSearch {
  import opened Values
  import opened Text
  import opened QueryModel

  /** `Shipping::SHIPPING_MAIL_UNSENT` and `Shipping::SHIPPING_MAIL_SENT`. */
  const SHIPPING_MAIL_UNSENT: int := 1
  const SHIPPING_MAIL_SENT: int := 2

  /** The order search criteria; an absent key is `None` or an empty collection. */
  datatype Criteria = Criteria(
    orderId: Option<string>,
    orderNo: Option<string>,
    orderIdStart: Option<string>,
    multi: Option<string>,
    orderIdEnd: Option<string>,
    status: seq<Ref>,
    companyName: Option<string>,
    name: Option<string>,
    kana: Option<string>,
    email: Option<string>,
    phoneNumber: Option<string>,
    sex: seq<Ref>,
    payment: seq<Ref>,
    orderDate: DateRange,
    paymentDate: DateRange,
    updateDate: DateRange,
    paymentTotalStart: Option<string>,
    paymentTotalEnd: Option<string>,
    buyProductName: Option<string>,
    shippingMail: seq<int>,
    trackingNumber: Option<string>,
    shippingDeliveryDate: DateRange,
    sortkey: Option<string>,
    sorttype: Option<string>)

  const NO_RANGE: DateRange := DateRange(None, None, None, None)

  /** Criteria with every key absent. */
  const NO_CRITERIA: Criteria := Criteria(
    None, None, None, None, None, [], None, None, None, None, None, [], [],
    NO_RANGE, NO_RANGE, NO_RANGE, None, None, None, [], None, NO_RANGE, None, None)

  /** CONCAT(o.name01, o.name02) */
  const NAME: Expr := Concat([Col(O, Name01), Col(O, Name02)])
  /** CONCAT(COALESCE(o.kana01, ''), COALESCE(o.kana02, '')) */
  const KANA: Expr := Concat([CoalesceEmpty(Col(O, Kana01)), CoalesceEmpty(Col(O, Kana02))])
  /** CONCAT(o.phone_number01, o.phone_number02, o.phone_number03) */
  const PHONE: Expr := Concat([Col(O, PhoneNumber01), Col(O, PhoneNumber02), Col(O, PhoneNumber03)])

  /** The tables every order search starts from. */
  const BASE_JOINS: seq<Join> := [LeftJoin(O, "OrderItems", OI), LeftJoin(O, "Pref", PREF), InnerJoin(O, "Shippings", S)]

  /** The `multi` disjunction of one free-text term over seven columns. */
  function MultiPredicate(raw: string, isPostgreSQL: bool): Predicate
  {
    var cleaned := StripSpaces(raw);
    var likeMulti := LikeContains(cleaned);
    Or([Eq(Col(O, Id), IdParam(GuardedId(cleaned, isPostgreSQL))),
        Like(NAME, likeMulti),
        Like(KANA, likeMulti),
        Like(Col(O, CompanyName), LikeContains(raw)),
        Like(Col(O, OrderNo), likeMulti),
        Like(Col(O, Email), likeMulti),
        Like(PHONE, likeMulti)])
  }

  /** The status conjunct: the chosen statuses, or else every status but the transient ones. */
  function StatusPredicate(status: seq<Ref>): Predicate
  {
    if |status| > 0 then In(Col(O, OrderStatus), IdValues(status)) else NotIn(Col(O, OrderStatus), TRANSIENT)
  }

  /** The shipping-mail conjunct, only when exactly one box is checked. */
  function MailPredicates(checked: seq<int>): seq<Predicate>
  {
    if |checked| == 1 then
      if checked[0] == SHIPPING_MAIL_UNSENT then [IsNull(Col(S, MailSendDate))]
      else if checked[0] == SHIPPING_MAIL_SENT then [IsNotNull(Col(S, MailSendDate))]
      else []
    else []
  }

  /** Lines 73-116: the conjunction so far extended by identifiers, order number and the free-text `multi` term. */
  function IdentityPredicates(acc: seq<Predicate>, c: Criteria, isPostgreSQL: bool): seq<Predicate>
  {
    acc
    + When(Given(c.orderId), Eq(Col(O, Id), Str(Arg(c.orderId))))
    + When(Given(c.orderNo), Eq(Col(O, OrderNo), Str(Arg(c.orderNo))))
    + When(Given(c.orderIdStart), Ge(Col(O, Id), Str(Arg(c.orderIdStart))))
    + When(Given(c.multi), MultiPredicate(Arg(c.multi), isPostgreSQL))
    + When(Given(c.orderIdEnd), Le(Col(O, Id), Str(Arg(c.orderIdEnd))))
  }

  /** Lines 133-189: extended by the orderer's company, name, kana, e-mail, phone, sex, and the payment method. */
  function OrdererPredicates(acc: seq<Predicate>, c: Criteria): seq<Predicate>
  {
    acc
    + When(Given(c.companyName), Like(Col(O, CompanyName), LikeContains(Arg(c.companyName))))
    + When(Given(c.name), Like(NAME, LikeContains(StripSpaces(Arg(c.name)))))
    + When(Given(c.kana), Like(KANA, LikeContains(StripSpaces(Arg(c.kana)))))
    + When(Given(c.email), Like(Col(O, Email), LikeContains(Arg(c.email))))
    + When(Given(c.phoneNumber), Like(PHONE, LikeContains(DigitsOnly(Arg(c.phoneNumber)))))
    + When(|c.sex| > 0, In(Col(O, Sex), IdValues(c.sex)))
    + When(|c.payment| > 0, In(Col(P, Id), IdValues(c.payment)))
  }

  /** Lines 191-289: extended by order, payment and update dates, payment total, purchased product. */
  function DatePredicates(acc: seq<Predicate>, c: Criteria): seq<Predicate>
  {
    acc
    + RangePredicates(Col(O, OrderDate), c.orderDate)
    + RangePredicates(Col(O, PaymentDate), c.paymentDate)
    + RangePredicates(Col(O, UpdateDate), c.updateDate)
    + When(Given(c.paymentTotalStart), Ge(Col(O, PaymentTotal), Str(Arg(c.paymentTotalStart))))
    + When(Given(c.paymentTotalEnd), Le(Col(O, PaymentTotal), Str(Arg(c.paymentTotalEnd))))
    + When(Given(c.buyProductName), Like(Col(OI, ProductName), LikeContains(Arg(c.buyProductName))))
  }

  /** Lines 291-340: extended by shipping mail state, tracking number, delivery date. */
  function ShippingPredicates(acc: seq<Predicate>, c: Criteria): seq<Predicate>
  {
    acc
    + MailPredicates(c.shippingMail)
    + When(Filled(c.trackingNumber), Eq(Col(S, TrackingNumber), Str(Arg(c.trackingNumber))))
    + RangePredicates(Col(S, ShippingDeliveryDate), c.shippingDeliveryDate)
  }

  /** The conjunction the order search builds, section by section in the order of the source. */
  function Where(c: Criteria, isPostgreSQL: bool): seq<Predicate>
  {
    var identity := IdentityPredicates([], c, isPostgreSQL);
    ShippingPredicates(DatePredicates(OrdererPredicates(identity + [StatusPredicate(c.status)], c), c), c)
  }

  /** The whole query: base joins plus the payment join, the conjunction, and the ordering. */
  function SearchQuery(c: Criteria, isPostgreSQL: bool, columns: map<string, Expr>): Query
    requires SortKeyKnown(columns, c.sortkey)
  {
    Query(O,
          BASE_JOINS + (if |c.payment| > 0 then [LeftJoin(O, "Payment", P)] else []),
          Where(c, isPostgreSQL),
          SortOrder(columns, c.sortkey, c.sorttype, O))
  }

  /** Lines 118-131: the chosen statuses, or, when none is chosen, every status but the transient ones. */
  method AndWhereStatus(qb: Query, status: seq<Ref>) returns (qb': Query)
    ensures qb' == qb.(where := qb.where + [StatusPredicate(status)])
  {
    qb' := qb;
    var filterStatus := false;
    if |status| > 0 {
      qb' := qb'.AndWhere(In(Col(O, OrderStatus), IdValues(status)));
      filterStatus := true;
    }
    if !filterStatus {
      qb' := qb'.AndWhere(NotIn(Col(O, OrderStatus), TRANSIENT));
    }
  }

  /** Lines 292-305: the shipping-mail state, only when exactly one of the two boxes is checked. */
  method AndWhereMail(qb: Query, checked: seq<int>) returns (qb': Query)
    ensures qb' == qb.(where := qb.where + MailPredicates(checked))
  {
    qb' := qb;
    var count := |checked|;
    if count > 0 {
      if count < 2 {
        var first := checked[0];
        if first == SHIPPING_MAIL_UNSENT {
          qb' := qb'.AndWhere(IsNull(Col(S, MailSendDate)));
        } else if first == SHIPPING_MAIL_SENT {
          qb' := qb'.AndWhere(IsNotNull(Col(S, MailSendDate)));
        }
      }
    }
  }

  /** Lines 73-116 as written: one guarded `andWhere` per identifier criterion and the `multi` term. */
  method AndWhereIdentity(qb: Query, c: Criteria, isPostgreSQL: bool) returns (qb': Query)
    ensures qb' == qb.(where := IdentityPredicates(qb.where, c, isPostgreSQL))
  {
    qb' := AndWhereWhen(qb, Given(c.orderId), Eq(Col(O, Id), Str(Arg(c.orderId))));
    qb' := AndWhereWhen(qb', Given(c.orderNo), Eq(Col(O, OrderNo), Str(Arg(c.orderNo))));
    qb' := AndWhereWhen(qb', Given(c.orderIdStart), Ge(Col(O, Id), Str(Arg(c.orderIdStart))));
    qb' := AndWhereWhen(qb', Given(c.multi), MultiPredicate(Arg(c.multi), isPostgreSQL));
    qb' := AndWhereWhen(qb', Given(c.orderIdEnd), Le(Col(O, Id), Str(Arg(c.orderIdEnd))));
  }

  /** Lines 133-189 as written: the orderer's criteria, then the payment join. */
  method AndWhereOrderer(qb: Query, c: Criteria) returns (qb': Query)
    ensures qb'.root == qb.root && qb'.orderBy == qb.orderBy
    ensures qb'.joins == qb.joins + (if |c.payment| > 0 then [LeftJoin(O, "Payment", P)] else [])
    ensures qb'.where == OrdererPredicates(qb.where, c)
  {
    qb' := AndWhereWhen(qb, Given(c.companyName), Like(Col(O, CompanyName), LikeContains(Arg(c.companyName))));
    qb' := AndWhereWhen(qb', Given(c.name), Like(NAME, LikeContains(StripSpaces(Arg(c.name)))));
    qb' := AndWhereWhen(qb', Given(c.kana), Like(KANA, LikeContains(StripSpaces(Arg(c.kana)))));
    qb' := AndWhereWhen(qb', Given(c.email), Like(Col(O, Email), LikeContains(Arg(c.email))));
    qb' := AndWhereWhen(qb', Given(c.phoneNumber), Like(PHONE, LikeContains(DigitsOnly(Arg(c.phoneNumber)))));
    qb' := AndWhereWhen(qb', |c.sex| > 0, In(Col(O, Sex), IdValues(c.sex)));
    qb' := AndWherePayment(qb', c.payment);
  }

  /** Lines 191-289 as written: three date ranges, the payment total bounds, the purchased product. */
  method AndWhereDates(qb: Query, c: Criteria) returns (qb': Query)
    ensures qb' == qb.(where := DatePredicates(qb.where, c))
  {
    qb' := AndWhereRange(qb, Col(O, OrderDate), c.orderDate);
    qb' := AndWhereRange(qb', Col(O, PaymentDate), c.paymentDate);
    qb' := AndWhereRange(qb', Col(O, UpdateDate), c.updateDate);
    qb' := AndWhereWhen(qb', Given(c.paymentTotalStart), Ge(Col(O, PaymentTotal), Str(Arg(c.paymentTotalStart))));
    qb' := AndWhereWhen(qb', Given(c.paymentTotalEnd), Le(Col(O, PaymentTotal), Str(Arg(c.paymentTotalEnd))));
    qb' := AndWhereWhen(qb', Given(c.buyProductName), Like(Col(OI, ProductName), LikeContains(Arg(c.buyProductName))));
  }

  /** Lines 291-340 as written: the mail state, the tracking number, the delivery date. */
  method AndWhereShipping(qb: Query, c: Criteria) returns (qb': Query)
    ensures qb' == qb.(where := ShippingPredicates(qb.where, c))
  {
    qb' := AndWhereMail(qb, c.shippingMail);
    qb' := AndWhereWhen(qb', Filled(c.trackingNumber), Eq(Col(S, TrackingNumber), Str(Arg(c.trackingNumber))));
    qb' := AndWhereRange(qb', Col(S, ShippingDeliveryDate), c.shippingDeliveryDate);
  }

  /**
   * The composer, lines 64-355. `columns` is the inherited sort-column map;
   * `isPostgreSQL` stands for the platform check. Each guarded `andWhere` of
   * the source is one `AndWhereWhen` step; the steps are grouped by section.
   */
  method QueryBySearchDataForAdmin(c: Criteria, isPostgreSQL: bool, columns: map<string, Expr>) returns (qb: Query)
    requires SortKeyKnown(columns, c.sortkey)
    ensures qb == SearchQuery(c, isPostgreSQL, columns)
  {
    qb := Query(O, BASE_JOINS, [], []);
    qb := AndWhereIdentity(qb, c, isPostgreSQL);
    qb := AndWhereStatus(qb, c.status);
    qb := AndWhereOrderer(qb, c);
    qb := AndWhereDates(qb, c);
    qb := AndWhereShipping(qb, c);
    qb := OrderBySort(qb, columns, c.sortkey, c.sorttype, O);
  }

  // ---------------------------------------------------------------------
  // Which section writes which column

  /** The identity section only adds conjuncts on o.id, o.order_no and the `multi` disjunction. */
  lemma IdentityFrame(acc: seq<Predicate>, c: Criteria, isPostgreSQL: bool, k: Key)
    requires k !in {Column(Col(O, Id)), Column(Col(O, OrderNo)), Disjunction}
    ensures On(IdentityPredicates(acc, c, isPostgreSQL), k) == On(acc, k)
  {
    var byId := acc + When(Given(c.orderId), Eq(Col(O, Id), Str(Arg(c.orderId))));
    var byNo := byId + When(Given(c.orderNo), Eq(Col(O, OrderNo), Str(Arg(c.orderNo))));
    var byStart := byNo + When(Given(c.orderIdStart), Ge(Col(O, Id), Str(Arg(c.orderIdStart))));
    var byMulti := byStart + When(Given(c.multi), MultiPredicate(Arg(c.multi), isPostgreSQL));
    OnSkip(acc, Given(c.orderId), Eq(Col(O, Id), Str(Arg(c.orderId))), k);
    OnSkip(byId, Given(c.orderNo), Eq(Col(O, OrderNo), Str(Arg(c.orderNo))), k);
    OnSkip(byNo, Given(c.orderIdStart), Ge(Col(O, Id), Str(Arg(c.orderIdStart))), k);
    OnSkip(byStart, Given(c.multi), MultiPredicate(Arg(c.multi), isPostgreSQL), k);
    OnSkip(byMulti, Given(c.orderIdEnd), Le(Col(O, Id), Str(Arg(c.orderIdEnd))), k);
  }

  /** The orderer section only adds conjuncts on the orderer's columns and the payment id. */
  lemma OrdererFrame(acc: seq<Predicate>, c: Criteria, k: Key)
    requires k !in {Column(Col(O, CompanyName)), Column(NAME), Column(KANA), Column(Col(O, Email)),
                    Column(PHONE), Column(Col(O, Sex)), Column(Col(P, Id))}
    ensures On(OrdererPredicates(acc, c), k) == On(acc, k)
  {
    var byCompany := acc + When(Given(c.companyName), Like(Col(O, CompanyName), LikeContains(Arg(c.companyName))));
    var byName := byCompany + When(Given(c.name), Like(NAME, LikeContains(StripSpaces(Arg(c.name)))));
    var byKana := byName + When(Given(c.kana), Like(KANA, LikeContains(StripSpaces(Arg(c.kana)))));
    var byEmail := byKana + When(Given(c.email), Like(Col(O, Email), LikeContains(Arg(c.email))));
    var byPhone := byEmail + When(Given(c.phoneNumber), Like(PHONE, LikeContains(DigitsOnly(Arg(c.phoneNumber)))));
    var bySex := byPhone + When(|c.sex| > 0, In(Col(O, Sex), IdValues(c.sex)));
    OnSkip(acc, Given(c.companyName), Like(Col(O, CompanyName), LikeContains(Arg(c.companyName))), k);
    OnSkip(byCompany, Given(c.name), Like(NAME, LikeContains(StripSpaces(Arg(c.name)))), k);
    OnSkip(byName, Given(c.kana), Like(KANA, LikeContains(StripSpaces(Arg(c.kana)))), k);
    OnSkip(byKana, Given(c.email), Like(Col(O, Email), LikeContains(Arg(c.email))), k);
    OnSkip(byEmail, Given(c.phoneNumber), Like(PHONE, LikeContains(DigitsOnly(Arg(c.phoneNumber)))), k);
    OnSkip(byPhone, |c.sex| > 0, In(Col(O, Sex), IdValues(c.sex)), k);
    OnSkip(bySex, |c.payment| > 0, In(Col(P, Id), IdValues(c.payment)), k);
  }

  /** The date section only adds conjuncts on the three order dates, the payment total and the item's product name. */
  lemma DatesFrame(acc: seq<Predicate>, c: Criteria, k: Key)
    requires k !in {Column(Col(O, OrderDate)), Column(Col(O, PaymentDate)), Column(Col(O, UpdateDate)),
                    Column(Col(O, PaymentTotal)), Column(Col(OI, ProductName))}
    ensures On(DatePredicates(acc, c), k) == On(acc, k)
  {
    var byOrdered := acc + RangePredicates(Col(O, OrderDate), c.orderDate);
    var byPaid := byOrdered + RangePredicates(Col(O, PaymentDate), c.paymentDate);
    var byUpdated := byPaid + RangePredicates(Col(O, UpdateDate), c.updateDate);
    var byTotalStart := byUpdated + When(Given(c.paymentTotalStart), Ge(Col(O, PaymentTotal), Str(Arg(c.paymentTotalStart))));
    var byTotalEnd := byTotalStart + When(Given(c.paymentTotalEnd), Le(Col(O, PaymentTotal), Str(Arg(c.paymentTotalEnd))));
    OnSkipRange(acc, Col(O, OrderDate), c.orderDate, k);
    OnSkipRange(byOrdered, Col(O, PaymentDate), c.paymentDate, k);
    OnSkipRange(byPaid, Col(O, UpdateDate), c.updateDate, k);
    OnSkip(byUpdated, Given(c.paymentTotalStart), Ge(Col(O, PaymentTotal), Str(Arg(c.paymentTotalStart))), k);
    OnSkip(byTotalStart, Given(c.paymentTotalEnd), Le(Col(O, PaymentTotal), Str(Arg(c.paymentTotalEnd))), k);
    OnSkip(byTotalEnd, Given(c.buyProductName), Like(Col(OI, ProductName), LikeContains(Arg(c.buyProductName))), k);
  }

  /** The mail conjunct is on the mail date. */
  lemma {:induction false} MailKeys(checked: seq<int>)
    ensures forall p :: p in MailPredicates(checked) ==> KeyOf(p) == Column(Col(S, MailSendDate))
  {
  }

  /** The shipping section only adds conjuncts on the mail date, the tracking number and the delivery date. */
  lemma ShippingFrame(acc: seq<Predicate>, c: Criteria, k: Key)
    requires k !in {Column(Col(S, MailSendDate)), Column(Col(S, TrackingNumber)), Column(Col(S, ShippingDeliveryDate))}
    ensures On(ShippingPredicates(acc, c), k) == On(acc, k)
  {
    var byMail := acc + MailPredicates(c.shippingMail);
    var byTracking := byMail + When(Filled(c.trackingNumber), Eq(Col(S, TrackingNumber), Str(Arg(c.trackingNumber))));
    MailKeys(c.shippingMail);
    OnConcat(acc, MailPredicates(c.shippingMail), k);
    OnNone(MailPredicates(c.shippingMail), k);
    assert On(acc, k) + [] == On(acc, k);
    OnSkip(byMail, Filled(c.trackingNumber), Eq(Col(S, TrackingNumber), Str(Arg(c.trackingNumber))), k);
    OnSkipRange(byTracking, Col(S, ShippingDeliveryDate), c.shippingDeliveryDate, k);
  }

  // ---------------------------------------------------------------------
  // Properties of the order search

  /**
   * Exactly one conjunct is about the order status: the chosen statuses when
   * some are chosen, otherwise the exclusion of the two transient statuses.
   */
  lemma StatusPolicy(c: Criteria, isPostgreSQL: bool)
    ensures |c.status| > 0 ==> On(Where(c, isPostgreSQL), Column(Col(O, OrderStatus))) == [In(Col(O, OrderStatus), IdValues(c.status))]
    ensures |c.status| == 0 ==> On(Where(c, isPostgreSQL), Column(Col(O, OrderStatus))) == [NotIn(Col(O, OrderStatus), [Int(PROCESSING), Int(PENDING)])]
  {
    StatusOn(c, isPostgreSQL);
  }

  /** The status conjunct is the only one on the status column. */
  lemma StatusOn(c: Criteria, isPostgreSQL: bool)
    ensures On(Where(c, isPostgreSQL), Column(Col(O, OrderStatus))) == [StatusPredicate(c.status)]
  {
    var k := Column(Col(O, OrderStatus));
    var identity := IdentityPredicates([], c, isPostgreSQL);
    FromDatesFrame(c, isPostgreSQL, k);
    OrdererFrame(identity + [StatusPredicate(c.status)], c, k);
    IdentityFrame([], c, isPostgreSQL, k);
    StatusTake(identity, c.status);
  }

  /** Appending the status conjunct adds exactly it on the status column. */
  lemma StatusTake(acc: seq<Predicate>, status: seq<Ref>)
    ensures On(acc + [StatusPredicate(status)], Column(Col(O, OrderStatus)))
         == On(acc, Column(Col(O, OrderStatus))) + [StatusPredicate(status)]
  {
    OnConcat(acc, [StatusPredicate(status)], Column(Col(O, OrderStatus)));
    OnAll([StatusPredicate(status)], Column(Col(O, OrderStatus)));
  }

  /** The conjunction before the date section: identity, status and orderer conjuncts. */
  function UpToDates(c: Criteria, isPostgreSQL: bool): seq<Predicate>
  {
    OrdererPredicates(IdentityPredicates([], c, isPostgreSQL) + [StatusPredicate(c.status)], c)
  }

  /** No conjunct before the date section is about a date, the payment total, a product name or a shipping column. */
  lemma UpToDatesFrame(c: Criteria, isPostgreSQL: bool, k: Key)
    requires k !in {Column(Col(O, Id)), Column(Col(O, OrderNo)), Disjunction, Column(Col(O, OrderStatus))}
    requires k !in {Column(Col(O, CompanyName)), Column(NAME), Column(KANA), Column(Col(O, Email)),
                    Column(PHONE), Column(Col(O, Sex)), Column(Col(P, Id))}
    ensures On(UpToDates(c, isPostgreSQL), k) == []
  {
    var identity := IdentityPredicates([], c, isPostgreSQL);
    OrdererFrame(identity + [StatusPredicate(c.status)], c, k);
    StatusFrame(identity, c.status, k);
    IdentityFrame([], c, isPostgreSQL, k);
  }

  /** The date section adds on `OrderDate` exactly the conjuncts of its range. */
  lemma DatesOnOrderDate(acc: seq<Predicate>, c: Criteria)
    ensures On(DatePredicates(acc, c), Column(Col(O, OrderDate)))
         == On(acc, Column(Col(O, OrderDate))) + RangePredicates(Col(O, OrderDate), c.orderDate)
  {
    var k := Column(Col(O, OrderDate));
    var byOrdered := acc + RangePredicates(Col(O, OrderDate), c.orderDate);
    var byPaid := byOrdered + RangePredicates(Col(O, PaymentDate), c.paymentDate);
    var byUpdated := byPaid + RangePredicates(Col(O, UpdateDate), c.updateDate);
    var byTotalStart := byUpdated + When(Given(c.paymentTotalStart), Ge(Col(O, PaymentTotal), Str(Arg(c.paymentTotalStart))));
    var byTotalEnd := byTotalStart + When(Given(c.paymentTotalEnd), Le(Col(O, PaymentTotal), Str(Arg(c.paymentTotalEnd))));
    OnSkip(byTotalEnd, Given(c.buyProductName), Like(Col(OI, ProductName), LikeContains(Arg(c.buyProductName))), k);
    OnSkip(byTotalStart, Given(c.paymentTotalEnd), Le(Col(O, PaymentTotal), Str(Arg(c.paymentTotalEnd))), k);
    OnSkip(byUpdated, Given(c.paymentTotalStart), Ge(Col(O, PaymentTotal), Str(Arg(c.paymentTotalStart))), k);
    OnSkipRange(byPaid, Col(O, UpdateDate), c.updateDate, k);
    OnSkipRange(byOrdered, Col(O, PaymentDate), c.paymentDate, k);
    OnTakeRange(acc, Col(O, OrderDate), c.orderDate);
  }

  lemma OrderDateResolved(c: Criteria, isPostgreSQL: bool)
    ensures On(Where(c, isPostgreSQL), Column(Col(O, OrderDate))) == RangePredicates(Col(O, OrderDate), c.orderDate)
  {
    var k := Column(Col(O, OrderDate));
    var before := UpToDates(c, isPostgreSQL);
    ShippingFrame(DatePredicates(before, c), c, k);
    DatesOnOrderDate(before, c);
    UpToDatesFrame(c, isPostgreSQL, k);
    assert [] + RangePredicates(Col(O, OrderDate), c.orderDate) == RangePredicates(Col(O, OrderDate), c.orderDate);
  }

  /** The date section adds on `PaymentDate` exactly the conjuncts of its range. */
  lemma DatesOnPaymentDate(acc: seq<Predicate>, c: Criteria)
    ensures On(DatePredicates(acc, c), Column(Col(O, PaymentDate)))
         == On(acc, Column(Col(O, PaymentDate))) + RangePredicates(Col(O, PaymentDate), c.paymentDate)
  {
    var k := Column(Col(O, PaymentDate));
    var byOrdered := acc + RangePredicates(Col(O, OrderDate), c.orderDate);
    var byPaid := byOrdered + RangePredicates(Col(O, PaymentDate), c.paymentDate);
    var byUpdated := byPaid + RangePredicates(Col(O, UpdateDate), c.updateDate);
    var byTotalStart := byUpdated + When(Given(c.paymentTotalStart), Ge(Col(O, PaymentTotal), Str(Arg(c.paymentTotalStart))));
    var byTotalEnd := byTotalStart + When(Given(c.paymentTotalEnd), Le(Col(O, PaymentTotal), Str(Arg(c.paymentTotalEnd))));
    OnSkip(byTotalEnd, Given(c.buyProductName), Like(Col(OI, ProductName), LikeContains(Arg(c.buyProductName))), k);
    OnSkip(byTotalStart, Given(c.paymentTotalEnd), Le(Col(O, PaymentTotal), Str(Arg(c.paymentTotalEnd))), k);
    OnSkip(byUpdated, Given(c.paymentTotalStart), Ge(Col(O, PaymentTotal), Str(Arg(c.paymentTotalStart))), k);
    OnSkipRange(byPaid, Col(O, UpdateDate), c.updateDate, k);
    OnTakeRange(byOrdered, Col(O, PaymentDate), c.paymentDate);
    OnSkipRange(acc, Col(O, OrderDate), c.orderDate, k);
  }

  lemma PaymentDateResolved(c: Criteria, isPostgreSQL: bool)
    ensures On(Where(c, isPostgreSQL), Column(Col(O, PaymentDate))) == RangePredicates(Col(O, PaymentDate), c.paymentDate)
  {
    var k := Column(Col(O, PaymentDate));
    var before := UpToDates(c, isPostgreSQL);
    ShippingFrame(DatePredicates(before, c), c, k);
    DatesOnPaymentDate(before, c);
    UpToDatesFrame(c, isPostgreSQL, k);
    assert [] + RangePredicates(Col(O, PaymentDate), c.paymentDate) == RangePredicates(Col(O, PaymentDate), c.paymentDate);
  }

  /** The date section adds on `UpdateDate` exactly the conjuncts of its range. */
  lemma DatesOnUpdateDate(acc: seq<Predicate>, c: Criteria)
    ensures On(DatePredicates(acc, c), Column(Col(O, UpdateDate)))
         == On(acc, Column(Col(O, UpdateDate))) + RangePredicates(Col(O, UpdateDate), c.updateDate)
  {
    var k := Column(Col(O, UpdateDate));
    var byOrdered := acc + RangePredicates(Col(O, OrderDate), c.orderDate);
    var byPaid := byOrdered + RangePredicates(Col(O, PaymentDate), c.paymentDate);
    var byUpdated := byPaid + RangePredicates(Col(O, UpdateDate), c.updateDate);
    var byTotalStart := byUpdated + When(Given(c.paymentTotalStart), Ge(Col(O, PaymentTotal), Str(Arg(c.paymentTotalStart))));
    var byTotalEnd := byTotalStart + When(Given(c.paymentTotalEnd), Le(Col(O, PaymentTotal), Str(Arg(c.paymentTotalEnd))));
    OnSkip(byTotalEnd, Given(c.buyProductName), Like(Col(OI, ProductName), LikeContains(Arg(c.buyProductName))), k);
    OnSkip(byTotalStart, Given(c.paymentTotalEnd), Le(Col(O, PaymentTotal), Str(Arg(c.paymentTotalEnd))), k);
    OnSkip(byUpdated, Given(c.paymentTotalStart), Ge(Col(O, PaymentTotal), Str(Arg(c.paymentTotalStart))), k);
    OnTakeRange(byPaid, Col(O, UpdateDate), c.updateDate);
    OnSkipRange(byOrdered, Col(O, PaymentDate), c.paymentDate, k);
    OnSkipRange(acc, Col(O, OrderDate), c.orderDate, k);
  }

  lemma UpdateDateResolved(c: Criteria, isPostgreSQL: bool)
    ensures On(Where(c, isPostgreSQL), Column(Col(O, UpdateDate))) == RangePredicates(Col(O, UpdateDate), c.updateDate)
  {
    var k := Column(Col(O, UpdateDate));
    var before := UpToDates(c, isPostgreSQL);
    ShippingFrame(DatePredicates(before, c), c, k);
    DatesOnUpdateDate(before, c);
    UpToDatesFrame(c, isPostgreSQL, k);
    assert [] + RangePredicates(Col(O, UpdateDate), c.updateDate) == RangePredicates(Col(O, UpdateDate), c.updateDate);
  }

  lemma DeliveryDateResolved(c: Criteria, isPostgreSQL: bool)
    ensures On(Where(c, isPostgreSQL), Column(Col(S, ShippingDeliveryDate)))
         == RangePredicates(Col(S, ShippingDeliveryDate), c.shippingDeliveryDate)
  {
    var k := Column(Col(S, ShippingDeliveryDate));
    var dates := DatePredicates(UpToDates(c, isPostgreSQL), c);
    var byMail := dates + MailPredicates(c.shippingMail);
    var byTracking := byMail + When(Filled(c.trackingNumber), Eq(Col(S, TrackingNumber), Str(Arg(c.trackingNumber))));
    OnTakeRange(byTracking, Col(S, ShippingDeliveryDate), c.shippingDeliveryDate);
    OnSkip(byMail, Filled(c.trackingNumber), Eq(Col(S, TrackingNumber), Str(Arg(c.trackingNumber))), k);
    MailKeys(c.shippingMail);
    OnConcat(dates, MailPredicates(c.shippingMail), k);
    OnNone(MailPredicates(c.shippingMail), k);
    DatesFrame(UpToDates(c, isPostgreSQL), c, k);
    UpToDatesFrame(c, isPostgreSQL, k);
    assert [] + RangePredicates(Col(S, ShippingDeliveryDate), c.shippingDeliveryDate)
        == RangePredicates(Col(S, ShippingDeliveryDate), c.shippingDeliveryDate);
  }

  /**
   * Each of the four date columns is constrained by its range alone. With the
   * range lemmas of the query model, this gives at most one `>=` and one `<`
   * per column, precise bounds taking precedence per side, and a date-only
   * end advanced by one day.
   */
  lemma DateColumnsResolved(c: Criteria, isPostgreSQL: bool)
    ensures On(Where(c, isPostgreSQL), Column(Col(O, OrderDate))) == RangePredicates(Col(O, OrderDate), c.orderDate)
    ensures On(Where(c, isPostgreSQL), Column(Col(O, PaymentDate))) == RangePredicates(Col(O, PaymentDate), c.paymentDate)
    ensures On(Where(c, isPostgreSQL), Column(Col(O, UpdateDate))) == RangePredicates(Col(O, UpdateDate), c.updateDate)
    ensures On(Where(c, isPostgreSQL), Column(Col(S, ShippingDeliveryDate)))
         == RangePredicates(Col(S, ShippingDeliveryDate), c.shippingDeliveryDate)
  {
    OrderDateResolved(c, isPostgreSQL);
    PaymentDateResolved(c, isPostgreSQL);
    UpdateDateResolved(c, isPostgreSQL);
    DeliveryDateResolved(c, isPostgreSQL);
  }

  /** Past the orderer section, nothing is added on an identity or orderer key. */
  lemma FromDatesFrame(c: Criteria, isPostgreSQL: bool, k: Key)
    requires k !in {Column(Col(O, OrderDate)), Column(Col(O, PaymentDate)), Column(Col(O, UpdateDate)),
                    Column(Col(O, PaymentTotal)), Column(Col(OI, ProductName))}
    requires k !in {Column(Col(S, MailSendDate)), Column(Col(S, TrackingNumber)), Column(Col(S, ShippingDeliveryDate))}
    ensures On(Where(c, isPostgreSQL), k) == On(UpToDates(c, isPostgreSQL), k)
  {
    ShippingFrame(DatePredicates(UpToDates(c, isPostgreSQL), c), c, k);
    DatesFrame(UpToDates(c, isPostgreSQL), c, k);
  }

  /** The `multi` term is the identity section's only disjunction. */
  lemma IdentityOnDisjunction(c: Criteria, isPostgreSQL: bool)
    ensures On(IdentityPredicates([], c, isPostgreSQL), Disjunction) == When(Given(c.multi), MultiPredicate(Arg(c.multi), isPostgreSQL))
  {
    var byId := [] + When(Given(c.orderId), Eq(Col(O, Id), Str(Arg(c.orderId))));
    var byNo := byId + When(Given(c.orderNo), Eq(Col(O, OrderNo), Str(Arg(c.orderNo))));
    var byStart := byNo + When(Given(c.orderIdStart), Ge(Col(O, Id), Str(Arg(c.orderIdStart))));
    var byMulti := byStart + When(Given(c.multi), MultiPredicate(Arg(c.multi), isPostgreSQL));
    OnSkip([], Given(c.orderId), Eq(Col(O, Id), Str(Arg(c.orderId))), Disjunction);
    OnSkip(byId, Given(c.orderNo), Eq(Col(O, OrderNo), Str(Arg(c.orderNo))), Disjunction);
    OnSkip(byNo, Given(c.orderIdStart), Ge(Col(O, Id), Str(Arg(c.orderIdStart))), Disjunction);
    OnTake(byStart, Given(c.multi), MultiPredicate(Arg(c.multi), isPostgreSQL));
    OnSkip(byMulti, Given(c.orderIdEnd), Le(Col(O, Id), Str(Arg(c.orderIdEnd))), Disjunction);
    assert [] + When(Given(c.multi), MultiPredicate(Arg(c.multi), isPostgreSQL)) == When(Given(c.multi), MultiPredicate(Arg(c.multi), isPostgreSQL));
  }

  /** The identity section's conjuncts on o.id: the exact id, then the two ends of the id range. */
  lemma IdentityOnId(c: Criteria, isPostgreSQL: bool)
    ensures On(IdentityPredicates([], c, isPostgreSQL), Column(Col(O, Id)))
         == When(Given(c.orderId), Eq(Col(O, Id), Str(Arg(c.orderId))))
          + When(Given(c.orderIdStart), Ge(Col(O, Id), Str(Arg(c.orderIdStart))))
          + When(Given(c.orderIdEnd), Le(Col(O, Id), Str(Arg(c.orderIdEnd))))
  {
    var id := Column(Col(O, Id));
    var byId := [] + When(Given(c.orderId), Eq(Col(O, Id), Str(Arg(c.orderId))));
    var byNo := byId + When(Given(c.orderNo), Eq(Col(O, OrderNo), Str(Arg(c.orderNo))));
    var byStart := byNo + When(Given(c.orderIdStart), Ge(Col(O, Id), Str(Arg(c.orderIdStart))));
    var byMulti := byStart + When(Given(c.multi), MultiPredicate(Arg(c.multi), isPostgreSQL));
    OnTake([], Given(c.orderId), Eq(Col(O, Id), Str(Arg(c.orderId))));
    OnSkip(byId, Given(c.orderNo), Eq(Col(O, OrderNo), Str(Arg(c.orderNo))), id);
    OnTake(byNo, Given(c.orderIdStart), Ge(Col(O, Id), Str(Arg(c.orderIdStart))));
    OnSkip(byStart, Given(c.multi), MultiPredicate(Arg(c.multi), isPostgreSQL), id);
    OnTake(byMulti, Given(c.orderIdEnd), Le(Col(O, Id), Str(Arg(c.orderIdEnd))));
    assert [] + When(Given(c.orderId), Eq(Col(O, Id), Str(Arg(c.orderId)))) == When(Given(c.orderId), Eq(Col(O, Id), Str(Arg(c.orderId))));
  }

  /** Past the identity section, nothing is added on an identity key. */
  lemma FromStatusFrame(c: Criteria, isPostgreSQL: bool, k: Key)
    requires k in {Column(Col(O, Id)), Column(Col(O, OrderNo)), Disjunction}
    ensures On(Where(c, isPostgreSQL), k) == On(IdentityPredicates([], c, isPostgreSQL), k)
  {
    var identity := IdentityPredicates([], c, isPostgreSQL);
    FromDatesFrame(c, isPostgreSQL, k);
    OrdererFrame(identity + [StatusPredicate(c.status)], c, k);
    StatusFrame(identity, c.status, k);
  }

  /** The status conjunct is about the status column only. */
  lemma StatusFrame(acc: seq<Predicate>, status: seq<Ref>, k: Key)
    requires k != Column(Col(O, OrderStatus))
    ensures On(acc + [StatusPredicate(status)], k) == On(acc, k)
  {
    OnConcat(acc, [StatusPredicate(status)], k);
    OnNone([StatusPredicate(status)], k);
    assert On(acc, k) + [] == On(acc, k);
  }

  /** The `multi` term is the only disjunction of the search. */
  lemma MultiIsTheOnlyDisjunction(c: Criteria, isPostgreSQL: bool)
    ensures Given(c.multi) ==> On(Where(c, isPostgreSQL), Disjunction) == [MultiPredicate(c.multi.value, isPostgreSQL)]
    ensures !Given(c.multi) ==> On(Where(c, isPostgreSQL), Disjunction) == []
  {
    FromStatusFrame(c, isPostgreSQL, Disjunction);
    IdentityOnDisjunction(c, isPostgreSQL);
  }

  /** The order id is compared for equality and inclusively against both ends of its range. */
  lemma IdBoundsInclusive(c: Criteria, isPostgreSQL: bool)
    ensures On(Where(c, isPostgreSQL), Column(Col(O, Id)))
         == When(Given(c.orderId), Eq(Col(O, Id), Str(Arg(c.orderId))))
          + When(Given(c.orderIdStart), Ge(Col(O, Id), Str(Arg(c.orderIdStart))))
          + When(Given(c.orderIdEnd), Le(Col(O, Id), Str(Arg(c.orderIdEnd))))
  {
    FromStatusFrame(c, isPostgreSQL, Column(Col(O, Id)));
    IdentityOnId(c, isPostgreSQL);
  }

  /**
   * The multi disjunction has seven branches. The id branch binds the
   * cleaned term only when it is 0 to 10 digits and, on PostgreSQL, at most
   * 2147483647, and null otherwise; every LIKE branch matches the cleaned
   * term except the company name, which matches the term as typed.
   */
  lemma MultiBranches(raw: string, isPostgreSQL: bool)
    ensures var d := MultiPredicate(raw, isPostgreSQL).disjuncts;
      var cleaned := StripSpaces(raw);
      && |d| == 7
      && d[0].Eq? && d[0].lhs == Col(O, Id)
      && (d[0].v == Null || d[0].v == Str(cleaned))
      && (d[0].v != Null <==> |cleaned| <= 10 && AllDigits(cleaned) && !(isPostgreSQL && DecimalValue(cleaned) > PG_INT_MAX))
      && [d[1].lhs, d[2].lhs, d[3].lhs, d[4].lhs, d[5].lhs, d[6].lhs] == [NAME, KANA, Col(O, CompanyName), Col(O, OrderNo), Col(O, Email), PHONE]
      && (forall i :: 1 <= i < 7 ==> d[i].Like?)
      && (forall i :: 1 <= i < 7 && i != 3 ==> d[i].pattern == LikeContains(cleaned))
      && d[3].pattern == LikeContains(raw)
  {
    CleanedIdPattern(raw);
    GuardedIdSpec(StripSpaces(raw), isPostgreSQL);
  }

  /** A term with spaces inside still reaches the id branch once cleaned; the company branch keeps the spaces. */
  lemma {:induction false} MultiExample()
    ensures MultiPredicate("12 34", true).disjuncts[0] == Eq(Col(O, Id), Str("1234"))
    ensures MultiPredicate("12 34", true).disjuncts[3] == Like(Col(O, CompanyName), "%12 34%")
  {
    CleanedExample();
    GuardExample();
  }

  lemma {:induction false} CleanedExample()
    ensures StripSpaces("12 34") == "1234"
  {
    assert StripSpaces("34") == "34" by {
      assert "34"[1..] == "4";
      assert "4"[1..] == "";
    }
    assert "12 34"[1..] == "2 34";
    assert "2 34"[1..] == " 34";
    assert " 34"[1..] == "34";
  }

  lemma {:induction false} GuardExample()
    ensures GuardedId("1234", true) == Some("1234")
  {
    assert AllDigits("1234");
    assert IdDigits("1234") == "1234";
    assert "1234"[..3] == "123";
    assert "123"[..2] == "12";
    assert "12"[..1] == "1";
    assert "1"[..0] == "";
  }

  /** The orderer section's only conjunct on the phone concatenation. */
  lemma OrdererOnPhone(acc: seq<Predicate>, c: Criteria)
    ensures On(OrdererPredicates(acc, c), Column(PHONE))
         == On(acc, Column(PHONE)) + When(Given(c.phoneNumber), Like(PHONE, LikeContains(DigitsOnly(Arg(c.phoneNumber)))))
  {
    var k := Column(PHONE);
    var byCompany := acc + When(Given(c.companyName), Like(Col(O, CompanyName), LikeContains(Arg(c.companyName))));
    var byName := byCompany + When(Given(c.name), Like(NAME, LikeContains(StripSpaces(Arg(c.name)))));
    var byKana := byName + When(Given(c.kana), Like(KANA, LikeContains(StripSpaces(Arg(c.kana)))));
    var byEmail := byKana + When(Given(c.email), Like(Col(O, Email), LikeContains(Arg(c.email))));
    var byPhone := byEmail + When(Given(c.phoneNumber), Like(PHONE, LikeContains(DigitsOnly(Arg(c.phoneNumber)))));
    var bySex := byPhone + When(|c.sex| > 0, In(Col(O, Sex), IdValues(c.sex)));
    OnSkip(bySex, |c.payment| > 0, In(Col(P, Id), IdValues(c.payment)), k);
    OnSkip(byPhone, |c.sex| > 0, In(Col(O, Sex), IdValues(c.sex)), k);
    OnTake(byEmail, Given(c.phoneNumber), Like(PHONE, LikeContains(DigitsOnly(Arg(c.phoneNumber)))));
    OnSkip(byKana, Given(c.email), Like(Col(O, Email), LikeContains(Arg(c.email))), k);
    OnSkip(byName, Given(c.kana), Like(KANA, LikeContains(StripSpaces(Arg(c.kana)))), k);
    OnSkip(byCompany, Given(c.name), Like(NAME, LikeContains(StripSpaces(Arg(c.name)))), k);
    OnSkip(acc, Given(c.companyName), Like(Col(O, CompanyName), LikeContains(Arg(c.companyName))), k);
  }

  /** The phone conjunct matches the digits of the criterion and nothing else of it. */
  lemma PhoneDigitsOnly(c: Criteria, isPostgreSQL: bool)
    ensures Given(c.phoneNumber) ==> On(Where(c, isPostgreSQL), Column(PHONE)) == [Like(PHONE, LikeContains(DigitsOnly(c.phoneNumber.value)))]
    ensures !Given(c.phoneNumber) ==> On(Where(c, isPostgreSQL), Column(PHONE)) == []
  {
    var k := Column(PHONE);
    var identity := IdentityPredicates([], c, isPostgreSQL);
    FromDatesFrame(c, isPostgreSQL, k);
    OrdererOnPhone(identity + [StatusPredicate(c.status)], c);
    StatusFrame(identity, c.status, k);
    IdentityFrame([], c, isPostgreSQL, k);
    assert [] + [] + When(Given(c.phoneNumber), Like(PHONE, LikeContains(DigitsOnly(Arg(c.phoneNumber)))))
        == When(Given(c.phoneNumber), Like(PHONE, LikeContains(DigitsOnly(Arg(c.phoneNumber)))));
  }

  /** The shipping section adds on the mail date exactly the mail conjuncts. */
  lemma ShippingOnMail(acc: seq<Predicate>, c: Criteria)
    ensures On(ShippingPredicates(acc, c), Column(Col(S, MailSendDate)))
         == On(acc, Column(Col(S, MailSendDate))) + MailPredicates(c.shippingMail)
  {
    var k := Column(Col(S, MailSendDate));
    var byMail := acc + MailPredicates(c.shippingMail);
    var byTracking := byMail + When(Filled(c.trackingNumber), Eq(Col(S, TrackingNumber), Str(Arg(c.trackingNumber))));
    OnSkipRange(byTracking, Col(S, ShippingDeliveryDate), c.shippingDeliveryDate, k);
    OnSkip(byMail, Filled(c.trackingNumber), Eq(Col(S, TrackingNumber), Str(Arg(c.trackingNumber))), k);
    MailKeys(c.shippingMail);
    OnConcat(acc, MailPredicates(c.shippingMail), k);
    OnAll(MailPredicates(c.shippingMail), k);
  }

  /** The mail conjuncts are the only ones on the mail date. */
  lemma MailOn(c: Criteria, isPostgreSQL: bool)
    ensures On(Where(c, isPostgreSQL), Column(Col(S, MailSendDate))) == MailPredicates(c.shippingMail)
  {
    var k := Column(Col(S, MailSendDate));
    ShippingOnMail(DatePredicates(UpToDates(c, isPostgreSQL), c), c);
    DatesFrame(UpToDates(c, isPostgreSQL), c, k);
    UpToDatesFrame(c, isPostgreSQL, k);
    assert [] + MailPredicates(c.shippingMail) == MailPredicates(c.shippingMail);
  }

  /** The shipping section adds on the tracking number exactly its tracking conjunct. */
  lemma ShippingOnTracking(acc: seq<Predicate>, c: Criteria)
    ensures On(ShippingPredicates(acc, c), Column(Col(S, TrackingNumber)))
         == On(acc, Column(Col(S, TrackingNumber)))
          + When(Filled(c.trackingNumber), Eq(Col(S, TrackingNumber), Str(Arg(c.trackingNumber))))
  {
    var k := Column(Col(S, TrackingNumber));
    var byMail := acc + MailPredicates(c.shippingMail);
    var byTracking := byMail + When(Filled(c.trackingNumber), Eq(Col(S, TrackingNumber), Str(Arg(c.trackingNumber))));
    OnSkipRange(byTracking, Col(S, ShippingDeliveryDate), c.shippingDeliveryDate, k);
    OnTake(byMail, Filled(c.trackingNumber), Eq(Col(S, TrackingNumber), Str(Arg(c.trackingNumber))));
    MailKeys(c.shippingMail);
    OnConcat(acc, MailPredicates(c.shippingMail), k);
    OnNone(MailPredicates(c.shippingMail), k);
    assert On(acc, k) + [] == On(acc, k);
  }

  /** The tracking-number conjunct is the only one on the tracking number. */
  lemma TrackingOn(c: Criteria, isPostgreSQL: bool)
    ensures On(Where(c, isPostgreSQL), Column(Col(S, TrackingNumber)))
         == When(Filled(c.trackingNumber), Eq(Col(S, TrackingNumber), Str(Arg(c.trackingNumber))))
  {
    var k := Column(Col(S, TrackingNumber));
    ShippingOnTracking(DatePredicates(UpToDates(c, isPostgreSQL), c), c);
    DatesFrame(UpToDates(c, isPostgreSQL), c, k);
    UpToDatesFrame(c, isPostgreSQL, k);
    assert [] + When(Filled(c.trackingNumber), Eq(Col(S, TrackingNumber), Str(Arg(c.trackingNumber))))
        == When(Filled(c.trackingNumber), Eq(Col(S, TrackingNumber), Str(Arg(c.trackingNumber))));
  }

  /**
   * The mail state is filtered only when exactly one box is checked: "unsent"
   * asks for no mail date, "sent" for one; none, both, or an unknown value add nothing.
   */
  lemma MailFlag(c: Criteria, isPostgreSQL: bool)
    ensures c.shippingMail == [SHIPPING_MAIL_UNSENT] ==> On(Where(c, isPostgreSQL), Column(Col(S, MailSendDate))) == [IsNull(Col(S, MailSendDate))]
    ensures c.shippingMail == [SHIPPING_MAIL_SENT] ==> On(Where(c, isPostgreSQL), Column(Col(S, MailSendDate))) == [IsNotNull(Col(S, MailSendDate))]
    ensures |c.shippingMail| != 1 ==> On(Where(c, isPostgreSQL), Column(Col(S, MailSendDate))) == []
    ensures |c.shippingMail| == 1 && c.shippingMail[0] !in {SHIPPING_MAIL_UNSENT, SHIPPING_MAIL_SENT}
         ==> On(Where(c, isPostgreSQL), Column(Col(S, MailSendDate))) == []
  {
    MailOn(c, isPostgreSQL);
  }

  /** PHP `empty()` drops a tracking number "0"; any other non-empty value, even a blank one, is matched exactly. */
  lemma TrackingNumberFilter(c: Criteria, isPostgreSQL: bool)
    ensures c.trackingNumber == Some("0") ==> On(Where(c, isPostgreSQL), Column(Col(S, TrackingNumber))) == []
    ensures c.trackingNumber.Some? && c.trackingNumber.value !in {"", "0"}
         ==> On(Where(c, isPostgreSQL), Column(Col(S, TrackingNumber))) == [Eq(Col(S, TrackingNumber), Str(c.trackingNumber.value))]
  {
    TrackingOn(c, isPostgreSQL);
    TrackingWhen(c.trackingNumber);
  }

  lemma TrackingWhen(t: Option<string>)
    ensures t == Some("0") ==> When(Filled(t), Eq(Col(S, TrackingNumber), Str(Arg(t)))) == []
    ensures t.Some? && t.value !in {"", "0"}
         ==> When(Filled(t), Eq(Col(S, TrackingNumber), Str(Arg(t)))) == [Eq(Col(S, TrackingNumber), Str(t.value))]
  {
  }

  /** With no criterion at all, the search keeps only the exclusion of transient statuses, the base joins and the default order. */
  lemma NoCriteriaSearch(isPostgreSQL: bool, columns: map<string, Expr>)
    ensures Where(NO_CRITERIA, isPostgreSQL) == [NotIn(Col(O, OrderStatus), [Int(PROCESSING), Int(PENDING)])]
    ensures SearchQuery(NO_CRITERIA, isPostgreSQL, columns).joins == BASE_JOINS
    ensures SearchQuery(NO_CRITERIA, isPostgreSQL, columns).orderBy == [(Col(O, UpdateDate), Desc), (Col(O, Id), Desc)]
  {
    var c := NO_CRITERIA;
    assert IdentityPredicates([], c, isPostgreSQL) == [];
    assert OrdererPredicates([StatusPredicate(c.status)], c) == [StatusPredicate(c.status)];
    assert DatePredicates([StatusPredicate(c.status)], c) == [StatusPredicate(c.status)];
    assert ShippingPredicates([StatusPredicate(c.status)], c) == [StatusPredicate(c.status)];
  }
}
