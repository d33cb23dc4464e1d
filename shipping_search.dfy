/**
 * The admin shipment search (`ShippingRepositoryExtension::getQueryBuilderBySearchDataForAdmin`,
 * marked deprecated in the source but complete): the criteria become a
 * conjunction of fragments on shippings (s), their items (si), the items'
 * order (o) and that order's payment (p). Unlike the order search, the
 * free-text term is used as typed, date ranges have date-only bounds, and
 * the ordering is fixed.
 */
module ShippingSearch {
  import opened Values
  import opened Text
  import opened QueryModel

  /** The shipment search criteria; an absent key is `None` or an empty collection. */
  datatype Criteria = Criteria(
    shippingIdStart: Option<string>,
    multi: Option<string>,
    shippingIdEnd: Option<string>,
    orderId: Option<string>,
    orderNo: Option<string>,
    orderStatus: seq<Ref>,
    name: Option<string>,
    kana: Option<string>,
    orderName: Option<string>,
    orderKana: Option<string>,
    email: Option<string>,
    phoneNumber: Option<string>,
    payment: seq<Ref>,
    orderDateStart: Option<DateTime>,
    orderDateEnd: Option<DateTime>,
    shippingDeliveryDateStart: Option<DateTime>,
    shippingDeliveryDateEnd: Option<DateTime>,
    shippingDateStart: Option<DateTime>,
    shippingDateEnd: Option<DateTime>,
    updateDateStart: Option<DateTime>,
    updateDateEnd: Option<DateTime>,
    paymentTotalStart: Option<string>,
    paymentTotalEnd: Option<string>,
    buyProductName: Option<string>)

  /** Criteria with every key absent. */
  const NO_CRITERIA: Criteria := Criteria(
    None, None, None, None, None, [], None, None, None, None, None, None, [],
    None, None, None, None, None, None, None, None, None, None, None)

  /** CONCAT(s.name01, s.name02) */
  const NAME: Expr := Concat([Col(S, Name01), Col(S, Name02)])
  /** CONCAT(s.kana01, s.kana02) */
  const KANA: Expr := Concat([Col(S, Kana01), Col(S, Kana02)])
  /** CONCAT(o.name01, o.name02) */
  const ORDER_NAME: Expr := Concat([Col(O, Name01), Col(O, Name02)])
  /** CONCAT(o.kana01, s.kana02): the orderer kana pairs the order's first kana with the shipping's second. */
  const ORDER_KANA: Expr := Concat([Col(O, Kana01), Col(S, Kana02)])
  /** CONCAT(s.phone_number01, s.phone_number02, s.phone_number03) */
  const PHONE: Expr := Concat([Col(S, PhoneNumber01), Col(S, PhoneNumber02), Col(S, PhoneNumber03)])

  /** The joins every shipment search starts from: the shipping's items and their order. */
  const BASE_JOINS: seq<Join> := [LeftJoin(S, "OrderItems", SI), LeftJoin(SI, "Order", O)]

  /** The fixed ordering: newest update first, then highest id. */
  const ORDERING: seq<(Expr, Dir)> := [(Col(S, UpdateDate), Desc), (Col(S, Id), Desc)]

  /**
   * The `multi` disjunction over six shipping columns. The term is neither
   * cleaned nor range-checked: the id branch binds it whenever it matches
   * `^\d{0,10}$` (a final "\n" included), and every LIKE uses it as typed.
   */
  function MultiPredicate(raw: string): Predicate
  {
    var like := LikeContains(raw);
    Or([Eq(Col(S, Id), if MatchesIdPattern(raw) then Str(raw) else Null),
        Like(Col(S, Name01), like),
        Like(Col(S, Name02), like),
        Like(Col(S, Kana01), like),
        Like(Col(S, Kana02), like),
        Like(Col(S, CompanyName), like)])
  }

  /** Lines 32-74: the conjunction so far extended by shipping ids, the `multi` term, order id, number and status. */
  function IdentityPredicates(acc: seq<Predicate>, c: Criteria): seq<Predicate>
  {
    acc
    + When(Given(c.shippingIdStart), Ge(Col(S, Id), Str(Arg(c.shippingIdStart))))
    + When(Given(c.multi), MultiPredicate(Arg(c.multi)))
    + When(Given(c.shippingIdEnd), Le(Col(S, Id), Str(Arg(c.shippingIdEnd))))
    + When(Given(c.orderId), Eq(Col(O, Id), Str(Arg(c.orderId))))
    + When(Given(c.orderNo), Like(Col(O, OrderNo), LikeContains(Arg(c.orderNo))))
    + When(|c.orderStatus| > 0, In(Col(O, OrderStatus), IdValues(c.orderStatus)))
  }

  /** Lines 75-129: extended by addressee and orderer names, kana, e-mail, phone digits and payment method. */
  function AddresseePredicates(acc: seq<Predicate>, c: Criteria): seq<Predicate>
  {
    acc
    + When(Given(c.name), Like(NAME, LikeContains(Arg(c.name))))
    + When(Given(c.kana), Like(KANA, LikeContains(Arg(c.kana))))
    + When(Given(c.orderName), Like(ORDER_NAME, LikeContains(Arg(c.orderName))))
    + When(Given(c.orderKana), Like(ORDER_KANA, LikeContains(Arg(c.orderKana))))
    + When(Given(c.email), Like(Col(O, Email), LikeContains(Arg(c.email))))
    + When(Given(c.phoneNumber), Like(PHONE, LikeContains(DigitsOnly(Arg(c.phoneNumber)))))
    + When(|c.payment| > 0, In(Col(P, Id), IdValues(c.payment)))
  }

  /** Lines 131-212: extended by four date-only ranges, the payment total bounds and the shipped product. */
  function DatePredicates(acc: seq<Predicate>, c: Criteria): seq<Predicate>
  {
    acc
    + RangePredicates(Col(O, OrderDate), DateOnly(c.orderDateStart, c.orderDateEnd))
    + RangePredicates(Col(S, ShippingDeliveryDate), DateOnly(c.shippingDeliveryDateStart, c.shippingDeliveryDateEnd))
    + RangePredicates(Col(S, ShippingDate), DateOnly(c.shippingDateStart, c.shippingDateEnd))
    + RangePredicates(Col(S, UpdateDate), DateOnly(c.updateDateStart, c.updateDateEnd))
    + When(Given(c.paymentTotalStart), Ge(Col(O, PaymentTotal), Str(Arg(c.paymentTotalStart))))
    + When(Given(c.paymentTotalEnd), Le(Col(O, PaymentTotal), Str(Arg(c.paymentTotalEnd))))
    + When(Given(c.buyProductName), Like(Col(SI, ProductName), LikeContains(Arg(c.buyProductName))))
  }

  /** The conjunction the shipment search builds, section by section in the order of the source. */
  function Where(c: Criteria): seq<Predicate>
  {
    DatePredicates(AddresseePredicates(IdentityPredicates([], c), c), c)
  }

  /** The whole query: base joins plus the payment join, the conjunction, and the fixed ordering. */
  function SearchQuery(c: Criteria): Query
  {
    Query(S, BASE_JOINS + (if |c.payment| > 0 then [LeftJoin(O, "Payment", P)] else []), Where(c), ORDERING)
  }

  /** Lines 32-74 as written. */
  method AndWhereIdentity(qb: Query, c: Criteria) returns (qb': Query)
    ensures qb' == qb.(where := IdentityPredicates(qb.where, c))
  {
    qb' := AndWhereWhen(qb, Given(c.shippingIdStart), Ge(Col(S, Id), Str(Arg(c.shippingIdStart))));
    qb' := AndWhereWhen(qb', Given(c.multi), MultiPredicate(Arg(c.multi)));
    qb' := AndWhereWhen(qb', Given(c.shippingIdEnd), Le(Col(S, Id), Str(Arg(c.shippingIdEnd))));
    qb' := AndWhereWhen(qb', Given(c.orderId), Eq(Col(O, Id), Str(Arg(c.orderId))));
    qb' := AndWhereWhen(qb', Given(c.orderNo), Like(Col(O, OrderNo), LikeContains(Arg(c.orderNo))));
    qb' := AndWhereWhen(qb', |c.orderStatus| > 0, In(Col(O, OrderStatus), IdValues(c.orderStatus)));
  }

  /** Lines 75-129 as written, ending with the payment join. */
  method AndWhereAddressee(qb: Query, c: Criteria) returns (qb': Query)
    ensures qb'.root == qb.root && qb'.orderBy == qb.orderBy
    ensures qb'.joins == qb.joins + (if |c.payment| > 0 then [LeftJoin(O, "Payment", P)] else [])
    ensures qb'.where == AddresseePredicates(qb.where, c)
  {
    qb' := AndWhereWhen(qb, Given(c.name), Like(NAME, LikeContains(Arg(c.name))));
    qb' := AndWhereWhen(qb', Given(c.kana), Like(KANA, LikeContains(Arg(c.kana))));
    qb' := AndWhereWhen(qb', Given(c.orderName), Like(ORDER_NAME, LikeContains(Arg(c.orderName))));
    qb' := AndWhereWhen(qb', Given(c.orderKana), Like(ORDER_KANA, LikeContains(Arg(c.orderKana))));
    qb' := AndWhereWhen(qb', Given(c.email), Like(Col(O, Email), LikeContains(Arg(c.email))));
    qb' := AndWhereWhen(qb', Given(c.phoneNumber), Like(PHONE, LikeContains(DigitsOnly(Arg(c.phoneNumber)))));
    qb' := AndWherePayment(qb', c.payment);
  }

  /** Lines 131-212 as written: one start and one end test per date column. */
  method AndWhereDates(qb: Query, c: Criteria) returns (qb': Query)
    ensures qb' == qb.(where := DatePredicates(qb.where, c))
  {
    qb' := AndWhereRange(qb, Col(O, OrderDate), DateOnly(c.orderDateStart, c.orderDateEnd));
    qb' := AndWhereRange(qb', Col(S, ShippingDeliveryDate), DateOnly(c.shippingDeliveryDateStart, c.shippingDeliveryDateEnd));
    qb' := AndWhereRange(qb', Col(S, ShippingDate), DateOnly(c.shippingDateStart, c.shippingDateEnd));
    qb' := AndWhereRange(qb', Col(S, UpdateDate), DateOnly(c.updateDateStart, c.updateDateEnd));
    qb' := AndWhereWhen(qb', Given(c.paymentTotalStart), Ge(Col(O, PaymentTotal), Str(Arg(c.paymentTotalStart))));
    qb' := AndWhereWhen(qb', Given(c.paymentTotalEnd), Le(Col(O, PaymentTotal), Str(Arg(c.paymentTotalEnd))));
    qb' := AndWhereWhen(qb', Given(c.buyProductName), Like(Col(SI, ProductName), LikeContains(Arg(c.buyProductName))));
  }

  /** The composer, lines 26-219: the two base joins, the three sections, the fixed ordering. */
  method QueryBySearchDataForAdmin(c: Criteria) returns (qb: Query)
    ensures qb == SearchQuery(c)
  {
    qb := Query(S, [], [], []);
    qb := qb.AddJoin(LeftJoin(S, "OrderItems", SI));
    qb := qb.AddJoin(LeftJoin(SI, "Order", O));
    assert qb == Query(S, BASE_JOINS, [], []);
    qb := AndWhereIdentity(qb, c);
    qb := AndWhereAddressee(qb, c);
    qb := AndWhereDates(qb, c);
    qb := OrderByFixed(qb);
  }

  /** Lines 214-216: newest update first, then highest id, replacing any earlier ordering. */
  method OrderByFixed(qb: Query) returns (qb': Query)
    ensures qb' == qb.(orderBy := ORDERING)
  {
    qb' := qb.OrderBy(Col(S, UpdateDate), Desc);
    qb' := qb'.AddOrderBy(Col(S, Id), Desc);
  }

  // ---------------------------------------------------------------------
  // Which section writes which column

  /** The identity section only adds conjuncts on the shipping id, the disjunction, the order id, number and status. */
  lemma IdentityFrame(acc: seq<Predicate>, c: Criteria, k: Key)
    requires k !in {Column(Col(S, Id)), Disjunction, Column(Col(O, Id)), Column(Col(O, OrderNo)), Column(Col(O, OrderStatus))}
    ensures On(IdentityPredicates(acc, c), k) == On(acc, k)
  {
    var byStart := acc + When(Given(c.shippingIdStart), Ge(Col(S, Id), Str(Arg(c.shippingIdStart))));
    var byMulti := byStart + When(Given(c.multi), MultiPredicate(Arg(c.multi)));
    var byEnd := byMulti + When(Given(c.shippingIdEnd), Le(Col(S, Id), Str(Arg(c.shippingIdEnd))));
    var byOrderId := byEnd + When(Given(c.orderId), Eq(Col(O, Id), Str(Arg(c.orderId))));
    var byOrderNo := byOrderId + When(Given(c.orderNo), Like(Col(O, OrderNo), LikeContains(Arg(c.orderNo))));
    OnSkip(acc, Given(c.shippingIdStart), Ge(Col(S, Id), Str(Arg(c.shippingIdStart))), k);
    OnSkip(byStart, Given(c.multi), MultiPredicate(Arg(c.multi)), k);
    OnSkip(byMulti, Given(c.shippingIdEnd), Le(Col(S, Id), Str(Arg(c.shippingIdEnd))), k);
    OnSkip(byEnd, Given(c.orderId), Eq(Col(O, Id), Str(Arg(c.orderId))), k);
    OnSkip(byOrderId, Given(c.orderNo), Like(Col(O, OrderNo), LikeContains(Arg(c.orderNo))), k);
    OnSkip(byOrderNo, |c.orderStatus| > 0, In(Col(O, OrderStatus), IdValues(c.orderStatus)), k);
  }

  /** The addressee section only adds conjuncts on the name, kana, e-mail and phone expressions and the payment id. */
  lemma AddresseeFrame(acc: seq<Predicate>, c: Criteria, k: Key)
    requires k !in {Column(NAME), Column(KANA), Column(ORDER_NAME), Column(ORDER_KANA), Column(Col(O, Email)),
                    Column(PHONE), Column(Col(P, Id))}
    ensures On(AddresseePredicates(acc, c), k) == On(acc, k)
  {
    var byName := acc + When(Given(c.name), Like(NAME, LikeContains(Arg(c.name))));
    var byKana := byName + When(Given(c.kana), Like(KANA, LikeContains(Arg(c.kana))));
    var byOrderName := byKana + When(Given(c.orderName), Like(ORDER_NAME, LikeContains(Arg(c.orderName))));
    var byOrderKana := byOrderName + When(Given(c.orderKana), Like(ORDER_KANA, LikeContains(Arg(c.orderKana))));
    var byEmail := byOrderKana + When(Given(c.email), Like(Col(O, Email), LikeContains(Arg(c.email))));
    var byPhone := byEmail + When(Given(c.phoneNumber), Like(PHONE, LikeContains(DigitsOnly(Arg(c.phoneNumber)))));
    OnSkip(acc, Given(c.name), Like(NAME, LikeContains(Arg(c.name))), k);
    OnSkip(byName, Given(c.kana), Like(KANA, LikeContains(Arg(c.kana))), k);
    OnSkip(byKana, Given(c.orderName), Like(ORDER_NAME, LikeContains(Arg(c.orderName))), k);
    OnSkip(byOrderName, Given(c.orderKana), Like(ORDER_KANA, LikeContains(Arg(c.orderKana))), k);
    OnSkip(byOrderKana, Given(c.email), Like(Col(O, Email), LikeContains(Arg(c.email))), k);
    OnSkip(byEmail, Given(c.phoneNumber), Like(PHONE, LikeContains(DigitsOnly(Arg(c.phoneNumber)))), k);
    OnSkip(byPhone, |c.payment| > 0, In(Col(P, Id), IdValues(c.payment)), k);
  }

  /** The date section only adds conjuncts on the four date columns, the payment total and the item's product name. */
  lemma DatesFrame(acc: seq<Predicate>, c: Criteria, k: Key)
    requires k !in {Column(Col(O, OrderDate)), Column(Col(S, ShippingDeliveryDate)), Column(Col(S, ShippingDate)),
                    Column(Col(S, UpdateDate)), Column(Col(O, PaymentTotal)), Column(Col(SI, ProductName))}
    ensures On(DatePredicates(acc, c), k) == On(acc, k)
  {
    var byOrdered := acc + RangePredicates(Col(O, OrderDate), DateOnly(c.orderDateStart, c.orderDateEnd));
    var byDelivery := byOrdered + RangePredicates(Col(S, ShippingDeliveryDate), DateOnly(c.shippingDeliveryDateStart, c.shippingDeliveryDateEnd));
    var byShipped := byDelivery + RangePredicates(Col(S, ShippingDate), DateOnly(c.shippingDateStart, c.shippingDateEnd));
    var byUpdated := byShipped + RangePredicates(Col(S, UpdateDate), DateOnly(c.updateDateStart, c.updateDateEnd));
    var byTotalStart := byUpdated + When(Given(c.paymentTotalStart), Ge(Col(O, PaymentTotal), Str(Arg(c.paymentTotalStart))));
    var byTotalEnd := byTotalStart + When(Given(c.paymentTotalEnd), Le(Col(O, PaymentTotal), Str(Arg(c.paymentTotalEnd))));
    OnSkipRange(acc, Col(O, OrderDate), DateOnly(c.orderDateStart, c.orderDateEnd), k);
    OnSkipRange(byOrdered, Col(S, ShippingDeliveryDate), DateOnly(c.shippingDeliveryDateStart, c.shippingDeliveryDateEnd), k);
    OnSkipRange(byDelivery, Col(S, ShippingDate), DateOnly(c.shippingDateStart, c.shippingDateEnd), k);
    OnSkipRange(byShipped, Col(S, UpdateDate), DateOnly(c.updateDateStart, c.updateDateEnd), k);
    OnSkip(byUpdated, Given(c.paymentTotalStart), Ge(Col(O, PaymentTotal), Str(Arg(c.paymentTotalStart))), k);
    OnSkip(byTotalStart, Given(c.paymentTotalEnd), Le(Col(O, PaymentTotal), Str(Arg(c.paymentTotalEnd))), k);
    OnSkip(byTotalEnd, Given(c.buyProductName), Like(Col(SI, ProductName), LikeContains(Arg(c.buyProductName))), k);
  }

  /** Past the identity section, nothing is added on an identity key. */
  lemma FromAddresseeFrame(c: Criteria, k: Key)
    requires k !in {Column(NAME), Column(KANA), Column(ORDER_NAME), Column(ORDER_KANA), Column(Col(O, Email)),
                    Column(PHONE), Column(Col(P, Id))}
    requires k !in {Column(Col(O, OrderDate)), Column(Col(S, ShippingDeliveryDate)), Column(Col(S, ShippingDate)),
                    Column(Col(S, UpdateDate)), Column(Col(O, PaymentTotal)), Column(Col(SI, ProductName))}
    ensures On(Where(c), k) == On(IdentityPredicates([], c), k)
  {
    DatesFrame(AddresseePredicates(IdentityPredicates([], c), c), c, k);
    AddresseeFrame(IdentityPredicates([], c), c, k);
  }

  /** No conjunct before the date section is about a date column. */
  lemma UpToDatesFrame(c: Criteria, k: Key)
    requires k !in {Column(Col(S, Id)), Disjunction, Column(Col(O, Id)), Column(Col(O, OrderNo)), Column(Col(O, OrderStatus))}
    requires k !in {Column(NAME), Column(KANA), Column(ORDER_NAME), Column(ORDER_KANA), Column(Col(O, Email)),
                    Column(PHONE), Column(Col(P, Id))}
    ensures On(AddresseePredicates(IdentityPredicates([], c), c), k) == []
  {
    AddresseeFrame(IdentityPredicates([], c), c, k);
    IdentityFrame([], c, k);
  }

  // ---------------------------------------------------------------------
  // Properties of the shipment search

  /**
   * No overflow guard: every term of at most ten ASCII digits is bound as the
   * id as typed, whatever its value, on every database.
   */
  lemma MultiIdUnguarded(raw: string)
    ensures |MultiPredicate(raw).disjuncts| == 6
    ensures AllDigits(raw) && |raw| <= 10 ==> MultiPredicate(raw).disjuncts[0] == Eq(Col(S, Id), Str(raw))
  {
  }

  /**
   * No cleaning before the pattern test: a whitespace character anywhere in
   * the term, other than one final "\n", makes the id branch bind null.
   */
  lemma {:induction false} MultiIdNotCleaned(raw: string, i: int)
    requires 0 <= i < |raw| && IsSpace(raw[i]) && !(i == |raw| - 1 && raw[i] == '\n')
    ensures MultiPredicate(raw).disjuncts[0] == Eq(Col(S, Id), Null)
  {
    assert !IsDigit(raw[i]);
    assert !AllDigits(raw);
    if i < |raw| - 1 {
      assert raw[..|raw| - 1][i] == raw[i];
      assert !AllDigits(raw[..|raw| - 1]);
    }
    assert !MatchesIdPattern(raw);
  }

  /**
   * No cleaning before the LIKE branches either: every one of the five LIKE
   * branches matches the term as typed, so a term with whitespace is never
   * searched in its cleaned form.
   */
  lemma MultiLikesUncleaned(raw: string)
    ensures var d := MultiPredicate(raw).disjuncts;
      forall j :: 1 <= j < |d| ==> d[j].Like? && d[j].pattern == LikeContains(raw)
    ensures var d := MultiPredicate(raw).disjuncts;
      StripSpaces(raw) != raw ==> forall j :: 1 <= j < |d| ==> d[j].pattern != LikeContains(StripSpaces(raw))
  {
    LikeContainsInjective(raw, StripSpaces(raw));
  }

  /**
   * What the unguarded id branch admits: a term with a final newline, a
   * ten-digit value above the PostgreSQL `integer` limit, and nothing with
   * an inner space.
   */
  lemma {:induction false} MultiIdExamples()
    ensures MultiPredicate("12\n").disjuncts[0] == Eq(Col(S, Id), Str("12\n"))
    ensures MultiPredicate("9999999999").disjuncts[0] == Eq(Col(S, Id), Str("9999999999"))
    ensures MultiPredicate("1 2").disjuncts[0] == Eq(Col(S, Id), Null)
  {
    assert "12\n"[..2] == "12";
    assert AllDigits("12");
    assert AllDigits("9999999999");
    assert !IsDigit("1 2"[1]);
    assert "1 2"[..2] == "1 ";
    assert !IsDigit("1 "[1]);
  }

  /** The identity section adds exactly the `multi` disjunction as its only disjunction. */
  lemma IdentityOnDisjunction(acc: seq<Predicate>, c: Criteria)
    ensures On(IdentityPredicates(acc, c), Disjunction)
         == On(acc, Disjunction) + When(Given(c.multi), MultiPredicate(Arg(c.multi)))
  {
    var k := Disjunction;
    var byStart := acc + When(Given(c.shippingIdStart), Ge(Col(S, Id), Str(Arg(c.shippingIdStart))));
    var byMulti := byStart + When(Given(c.multi), MultiPredicate(Arg(c.multi)));
    var byEnd := byMulti + When(Given(c.shippingIdEnd), Le(Col(S, Id), Str(Arg(c.shippingIdEnd))));
    var byOrderId := byEnd + When(Given(c.orderId), Eq(Col(O, Id), Str(Arg(c.orderId))));
    var byOrderNo := byOrderId + When(Given(c.orderNo), Like(Col(O, OrderNo), LikeContains(Arg(c.orderNo))));
    OnSkip(byOrderNo, |c.orderStatus| > 0, In(Col(O, OrderStatus), IdValues(c.orderStatus)), k);
    OnSkip(byOrderId, Given(c.orderNo), Like(Col(O, OrderNo), LikeContains(Arg(c.orderNo))), k);
    OnSkip(byEnd, Given(c.orderId), Eq(Col(O, Id), Str(Arg(c.orderId))), k);
    OnSkip(byMulti, Given(c.shippingIdEnd), Le(Col(S, Id), Str(Arg(c.shippingIdEnd))), k);
    OnTake(byStart, Given(c.multi), MultiPredicate(Arg(c.multi)));
    OnSkip(acc, Given(c.shippingIdStart), Ge(Col(S, Id), Str(Arg(c.shippingIdStart))), k);
  }

  /** A given `multi` term is the search's only disjunction; without one there is none. */
  lemma MultiIsTheOnlyDisjunction(c: Criteria)
    ensures Given(c.multi) ==> On(Where(c), Disjunction) == [MultiPredicate(c.multi.value)]
    ensures !Given(c.multi) ==> On(Where(c), Disjunction) == []
  {
    var multi := When(Given(c.multi), MultiPredicate(Arg(c.multi)));
    FromAddresseeFrame(c, Disjunction);
    IdentityOnDisjunction([], c);
    assert [] + multi == multi;
  }

  /** The identity section adds on the shipping id exactly its two bounds, in order; the `multi` id branch is inside the disjunction. */
  lemma IdentityOnShippingId(acc: seq<Predicate>, c: Criteria)
    ensures On(IdentityPredicates(acc, c), Column(Col(S, Id)))
         == On(acc, Column(Col(S, Id)))
          + When(Given(c.shippingIdStart), Ge(Col(S, Id), Str(Arg(c.shippingIdStart))))
          + When(Given(c.shippingIdEnd), Le(Col(S, Id), Str(Arg(c.shippingIdEnd))))
  {
    var k := Column(Col(S, Id));
    var byStart := acc + When(Given(c.shippingIdStart), Ge(Col(S, Id), Str(Arg(c.shippingIdStart))));
    var byMulti := byStart + When(Given(c.multi), MultiPredicate(Arg(c.multi)));
    var byEnd := byMulti + When(Given(c.shippingIdEnd), Le(Col(S, Id), Str(Arg(c.shippingIdEnd))));
    var byOrderId := byEnd + When(Given(c.orderId), Eq(Col(O, Id), Str(Arg(c.orderId))));
    var byOrderNo := byOrderId + When(Given(c.orderNo), Like(Col(O, OrderNo), LikeContains(Arg(c.orderNo))));
    OnSkip(byOrderNo, |c.orderStatus| > 0, In(Col(O, OrderStatus), IdValues(c.orderStatus)), k);
    OnSkip(byOrderId, Given(c.orderNo), Like(Col(O, OrderNo), LikeContains(Arg(c.orderNo))), k);
    OnSkip(byEnd, Given(c.orderId), Eq(Col(O, Id), Str(Arg(c.orderId))), k);
    OnTake(byMulti, Given(c.shippingIdEnd), Le(Col(S, Id), Str(Arg(c.shippingIdEnd))));
    OnSkip(byStart, Given(c.multi), MultiPredicate(Arg(c.multi)), k);
    OnTake(acc, Given(c.shippingIdStart), Ge(Col(S, Id), Str(Arg(c.shippingIdStart))));
  }

  /** The shipping id is bounded inclusively on both sides, and by nothing else outside the disjunction. */
  lemma ShippingIdBounds(c: Criteria)
    ensures On(Where(c), Column(Col(S, Id)))
         == When(Given(c.shippingIdStart), Ge(Col(S, Id), Str(Arg(c.shippingIdStart))))
          + When(Given(c.shippingIdEnd), Le(Col(S, Id), Str(Arg(c.shippingIdEnd))))
  {
    FromAddresseeFrame(c, Column(Col(S, Id)));
    IdentityOnShippingId([], c);
    assert [] + When(Given(c.shippingIdStart), Ge(Col(S, Id), Str(Arg(c.shippingIdStart))))
        == When(Given(c.shippingIdStart), Ge(Col(S, Id), Str(Arg(c.shippingIdStart))));
  }

  /** The identity section adds on the order number exactly its substring LIKE. */
  lemma IdentityOnOrderNo(acc: seq<Predicate>, c: Criteria)
    ensures On(IdentityPredicates(acc, c), Column(Col(O, OrderNo)))
         == On(acc, Column(Col(O, OrderNo))) + When(Given(c.orderNo), Like(Col(O, OrderNo), LikeContains(Arg(c.orderNo))))
  {
    var k := Column(Col(O, OrderNo));
    var byStart := acc + When(Given(c.shippingIdStart), Ge(Col(S, Id), Str(Arg(c.shippingIdStart))));
    var byMulti := byStart + When(Given(c.multi), MultiPredicate(Arg(c.multi)));
    var byEnd := byMulti + When(Given(c.shippingIdEnd), Le(Col(S, Id), Str(Arg(c.shippingIdEnd))));
    var byOrderId := byEnd + When(Given(c.orderId), Eq(Col(O, Id), Str(Arg(c.orderId))));
    var byOrderNo := byOrderId + When(Given(c.orderNo), Like(Col(O, OrderNo), LikeContains(Arg(c.orderNo))));
    OnSkip(byOrderNo, |c.orderStatus| > 0, In(Col(O, OrderStatus), IdValues(c.orderStatus)), k);
    OnTake(byOrderId, Given(c.orderNo), Like(Col(O, OrderNo), LikeContains(Arg(c.orderNo))));
    OnSkip(byEnd, Given(c.orderId), Eq(Col(O, Id), Str(Arg(c.orderId))), k);
    OnSkip(byMulti, Given(c.shippingIdEnd), Le(Col(S, Id), Str(Arg(c.shippingIdEnd))), k);
    OnSkip(byStart, Given(c.multi), MultiPredicate(Arg(c.multi)), k);
    OnSkip(acc, Given(c.shippingIdStart), Ge(Col(S, Id), Str(Arg(c.shippingIdStart))), k);
  }

  /** Unlike the order search, the order number is matched as a substring, never by equality. */
  lemma OrderNoIsSubstring(c: Criteria)
    ensures Given(c.orderNo) ==> On(Where(c), Column(Col(O, OrderNo))) == [Like(Col(O, OrderNo), "%" + c.orderNo.value + "%")]
    ensures !Given(c.orderNo) ==> On(Where(c), Column(Col(O, OrderNo))) == []
  {
    FromAddresseeFrame(c, Column(Col(O, OrderNo)));
    IdentityOnOrderNo([], c);
    assert [] + When(Given(c.orderNo), Like(Col(O, OrderNo), LikeContains(Arg(c.orderNo))))
        == When(Given(c.orderNo), Like(Col(O, OrderNo), LikeContains(Arg(c.orderNo))));
  }

  /** The identity section adds on the order status exactly the chosen statuses, if any. */
  lemma IdentityOnOrderStatus(acc: seq<Predicate>, c: Criteria)
    ensures On(IdentityPredicates(acc, c), Column(Col(O, OrderStatus)))
         == On(acc, Column(Col(O, OrderStatus))) + When(|c.orderStatus| > 0, In(Col(O, OrderStatus), IdValues(c.orderStatus)))
  {
    var k := Column(Col(O, OrderStatus));
    var byStart := acc + When(Given(c.shippingIdStart), Ge(Col(S, Id), Str(Arg(c.shippingIdStart))));
    var byMulti := byStart + When(Given(c.multi), MultiPredicate(Arg(c.multi)));
    var byEnd := byMulti + When(Given(c.shippingIdEnd), Le(Col(S, Id), Str(Arg(c.shippingIdEnd))));
    var byOrderId := byEnd + When(Given(c.orderId), Eq(Col(O, Id), Str(Arg(c.orderId))));
    var byOrderNo := byOrderId + When(Given(c.orderNo), Like(Col(O, OrderNo), LikeContains(Arg(c.orderNo))));
    OnTake(byOrderNo, |c.orderStatus| > 0, In(Col(O, OrderStatus), IdValues(c.orderStatus)));
    OnSkip(byOrderId, Given(c.orderNo), Like(Col(O, OrderNo), LikeContains(Arg(c.orderNo))), k);
    OnSkip(byEnd, Given(c.orderId), Eq(Col(O, Id), Str(Arg(c.orderId))), k);
    OnSkip(byMulti, Given(c.shippingIdEnd), Le(Col(S, Id), Str(Arg(c.shippingIdEnd))), k);
    OnSkip(byStart, Given(c.multi), MultiPredicate(Arg(c.multi)), k);
    OnSkip(acc, Given(c.shippingIdStart), Ge(Col(S, Id), Str(Arg(c.shippingIdStart))), k);
  }

  /** Unlike the order search, no status is excluded by default: the status is filtered only when some are chosen. */
  lemma OrderStatusFilter(c: Criteria)
    ensures |c.orderStatus| > 0 ==> On(Where(c), Column(Col(O, OrderStatus))) == [In(Col(O, OrderStatus), IdValues(c.orderStatus))]
    ensures |c.orderStatus| == 0 ==> On(Where(c), Column(Col(O, OrderStatus))) == []
  {
    FromAddresseeFrame(c, Column(Col(O, OrderStatus)));
    IdentityOnOrderStatus([], c);
    assert [] + When(|c.orderStatus| > 0, In(Col(O, OrderStatus), IdValues(c.orderStatus)))
        == When(|c.orderStatus| > 0, In(Col(O, OrderStatus), IdValues(c.orderStatus)));
  }

  /** The addressee section adds on the phone expression exactly the digits-only LIKE. */
  lemma AddresseeOnPhone(acc: seq<Predicate>, c: Criteria)
    ensures On(AddresseePredicates(acc, c), Column(PHONE))
         == On(acc, Column(PHONE)) + When(Given(c.phoneNumber), Like(PHONE, LikeContains(DigitsOnly(Arg(c.phoneNumber)))))
  {
    var k := Column(PHONE);
    var byName := acc + When(Given(c.name), Like(NAME, LikeContains(Arg(c.name))));
    var byKana := byName + When(Given(c.kana), Like(KANA, LikeContains(Arg(c.kana))));
    var byOrderName := byKana + When(Given(c.orderName), Like(ORDER_NAME, LikeContains(Arg(c.orderName))));
    var byOrderKana := byOrderName + When(Given(c.orderKana), Like(ORDER_KANA, LikeContains(Arg(c.orderKana))));
    var byEmail := byOrderKana + When(Given(c.email), Like(Col(O, Email), LikeContains(Arg(c.email))));
    var byPhone := byEmail + When(Given(c.phoneNumber), Like(PHONE, LikeContains(DigitsOnly(Arg(c.phoneNumber)))));
    OnSkip(byPhone, |c.payment| > 0, In(Col(P, Id), IdValues(c.payment)), k);
    OnTake(byEmail, Given(c.phoneNumber), Like(PHONE, LikeContains(DigitsOnly(Arg(c.phoneNumber)))));
    OnSkip(byOrderKana, Given(c.email), Like(Col(O, Email), LikeContains(Arg(c.email))), k);
    OnSkip(byOrderName, Given(c.orderKana), Like(ORDER_KANA, LikeContains(Arg(c.orderKana))), k);
    OnSkip(byKana, Given(c.orderName), Like(ORDER_NAME, LikeContains(Arg(c.orderName))), k);
    OnSkip(byName, Given(c.kana), Like(KANA, LikeContains(Arg(c.kana))), k);
    OnSkip(acc, Given(c.name), Like(NAME, LikeContains(Arg(c.name))), k);
  }

  /** The phone is searched by its digits only: one LIKE on the digits of the input, whose pattern `DigitsPattern` describes. */
  lemma PhoneDigitsOnly(c: Criteria)
    ensures Given(c.phoneNumber) ==> On(Where(c), Column(PHONE)) == [Like(PHONE, LikeContains(DigitsOnly(c.phoneNumber.value)))]
    ensures !Given(c.phoneNumber) ==> On(Where(c), Column(PHONE)) == []
  {
    var k := Column(PHONE);
    DatesFrame(AddresseePredicates(IdentityPredicates([], c), c), c, k);
    AddresseeOnPhone(IdentityPredicates([], c), c);
    IdentityFrame([], c, k);
    assert [] + When(Given(c.phoneNumber), Like(PHONE, LikeContains(DigitsOnly(Arg(c.phoneNumber)))))
        == When(Given(c.phoneNumber), Like(PHONE, LikeContains(DigitsOnly(Arg(c.phoneNumber)))));
  }

  /** The date section adds on the order date exactly its date-only range. */
  lemma DatesOnOrderDate(acc: seq<Predicate>, c: Criteria)
    ensures On(DatePredicates(acc, c), Column(Col(O, OrderDate)))
         == On(acc, Column(Col(O, OrderDate))) + RangePredicates(Col(O, OrderDate), DateOnly(c.orderDateStart, c.orderDateEnd))
  {
    var k := Column(Col(O, OrderDate));
    var byOrdered := acc + RangePredicates(Col(O, OrderDate), DateOnly(c.orderDateStart, c.orderDateEnd));
    var byDelivery := byOrdered + RangePredicates(Col(S, ShippingDeliveryDate), DateOnly(c.shippingDeliveryDateStart, c.shippingDeliveryDateEnd));
    var byShipped := byDelivery + RangePredicates(Col(S, ShippingDate), DateOnly(c.shippingDateStart, c.shippingDateEnd));
    var byUpdated := byShipped + RangePredicates(Col(S, UpdateDate), DateOnly(c.updateDateStart, c.updateDateEnd));
    var byTotalStart := byUpdated + When(Given(c.paymentTotalStart), Ge(Col(O, PaymentTotal), Str(Arg(c.paymentTotalStart))));
    var byTotalEnd := byTotalStart + When(Given(c.paymentTotalEnd), Le(Col(O, PaymentTotal), Str(Arg(c.paymentTotalEnd))));
    OnSkip(byTotalEnd, Given(c.buyProductName), Like(Col(SI, ProductName), LikeContains(Arg(c.buyProductName))), k);
    OnSkip(byTotalStart, Given(c.paymentTotalEnd), Le(Col(O, PaymentTotal), Str(Arg(c.paymentTotalEnd))), k);
    OnSkip(byUpdated, Given(c.paymentTotalStart), Ge(Col(O, PaymentTotal), Str(Arg(c.paymentTotalStart))), k);
    OnSkipRange(byShipped, Col(S, UpdateDate), DateOnly(c.updateDateStart, c.updateDateEnd), k);
    OnSkipRange(byDelivery, Col(S, ShippingDate), DateOnly(c.shippingDateStart, c.shippingDateEnd), k);
    OnSkipRange(byOrdered, Col(S, ShippingDeliveryDate), DateOnly(c.shippingDeliveryDateStart, c.shippingDeliveryDateEnd), k);
    OnTakeRange(acc, Col(O, OrderDate), DateOnly(c.orderDateStart, c.orderDateEnd));
  }

  /** The date section adds on the delivery date exactly its date-only range. */
  lemma DatesOnDeliveryDate(acc: seq<Predicate>, c: Criteria)
    ensures On(DatePredicates(acc, c), Column(Col(S, ShippingDeliveryDate)))
         == On(acc, Column(Col(S, ShippingDeliveryDate)))
          + RangePredicates(Col(S, ShippingDeliveryDate), DateOnly(c.shippingDeliveryDateStart, c.shippingDeliveryDateEnd))
  {
    var k := Column(Col(S, ShippingDeliveryDate));
    var byOrdered := acc + RangePredicates(Col(O, OrderDate), DateOnly(c.orderDateStart, c.orderDateEnd));
    var byDelivery := byOrdered + RangePredicates(Col(S, ShippingDeliveryDate), DateOnly(c.shippingDeliveryDateStart, c.shippingDeliveryDateEnd));
    var byShipped := byDelivery + RangePredicates(Col(S, ShippingDate), DateOnly(c.shippingDateStart, c.shippingDateEnd));
    var byUpdated := byShipped + RangePredicates(Col(S, UpdateDate), DateOnly(c.updateDateStart, c.updateDateEnd));
    var byTotalStart := byUpdated + When(Given(c.paymentTotalStart), Ge(Col(O, PaymentTotal), Str(Arg(c.paymentTotalStart))));
    var byTotalEnd := byTotalStart + When(Given(c.paymentTotalEnd), Le(Col(O, PaymentTotal), Str(Arg(c.paymentTotalEnd))));
    OnSkip(byTotalEnd, Given(c.buyProductName), Like(Col(SI, ProductName), LikeContains(Arg(c.buyProductName))), k);
    OnSkip(byTotalStart, Given(c.paymentTotalEnd), Le(Col(O, PaymentTotal), Str(Arg(c.paymentTotalEnd))), k);
    OnSkip(byUpdated, Given(c.paymentTotalStart), Ge(Col(O, PaymentTotal), Str(Arg(c.paymentTotalStart))), k);
    OnSkipRange(byShipped, Col(S, UpdateDate), DateOnly(c.updateDateStart, c.updateDateEnd), k);
    OnSkipRange(byDelivery, Col(S, ShippingDate), DateOnly(c.shippingDateStart, c.shippingDateEnd), k);
    OnTakeRange(byOrdered, Col(S, ShippingDeliveryDate), DateOnly(c.shippingDeliveryDateStart, c.shippingDeliveryDateEnd));
    OnSkipRange(acc, Col(O, OrderDate), DateOnly(c.orderDateStart, c.orderDateEnd), k);
  }

  /** The date section adds on the shipping date exactly its date-only range. */
  lemma DatesOnShippingDate(acc: seq<Predicate>, c: Criteria)
    ensures On(DatePredicates(acc, c), Column(Col(S, ShippingDate)))
         == On(acc, Column(Col(S, ShippingDate))) + RangePredicates(Col(S, ShippingDate), DateOnly(c.shippingDateStart, c.shippingDateEnd))
  {
    var k := Column(Col(S, ShippingDate));
    var byOrdered := acc + RangePredicates(Col(O, OrderDate), DateOnly(c.orderDateStart, c.orderDateEnd));
    var byDelivery := byOrdered + RangePredicates(Col(S, ShippingDeliveryDate), DateOnly(c.shippingDeliveryDateStart, c.shippingDeliveryDateEnd));
    var byShipped := byDelivery + RangePredicates(Col(S, ShippingDate), DateOnly(c.shippingDateStart, c.shippingDateEnd));
    var byUpdated := byShipped + RangePredicates(Col(S, UpdateDate), DateOnly(c.updateDateStart, c.updateDateEnd));
    var byTotalStart := byUpdated + When(Given(c.paymentTotalStart), Ge(Col(O, PaymentTotal), Str(Arg(c.paymentTotalStart))));
    var byTotalEnd := byTotalStart + When(Given(c.paymentTotalEnd), Le(Col(O, PaymentTotal), Str(Arg(c.paymentTotalEnd))));
    OnSkip(byTotalEnd, Given(c.buyProductName), Like(Col(SI, ProductName), LikeContains(Arg(c.buyProductName))), k);
    OnSkip(byTotalStart, Given(c.paymentTotalEnd), Le(Col(O, PaymentTotal), Str(Arg(c.paymentTotalEnd))), k);
    OnSkip(byUpdated, Given(c.paymentTotalStart), Ge(Col(O, PaymentTotal), Str(Arg(c.paymentTotalStart))), k);
    OnSkipRange(byShipped, Col(S, UpdateDate), DateOnly(c.updateDateStart, c.updateDateEnd), k);
    OnTakeRange(byDelivery, Col(S, ShippingDate), DateOnly(c.shippingDateStart, c.shippingDateEnd));
    OnSkipRange(byOrdered, Col(S, ShippingDeliveryDate), DateOnly(c.shippingDeliveryDateStart, c.shippingDeliveryDateEnd), k);
    OnSkipRange(acc, Col(O, OrderDate), DateOnly(c.orderDateStart, c.orderDateEnd), k);
  }

  /** The date section adds on the shipping's update date exactly its date-only range. */
  lemma DatesOnUpdateDate(acc: seq<Predicate>, c: Criteria)
    ensures On(DatePredicates(acc, c), Column(Col(S, UpdateDate)))
         == On(acc, Column(Col(S, UpdateDate))) + RangePredicates(Col(S, UpdateDate), DateOnly(c.updateDateStart, c.updateDateEnd))
  {
    var k := Column(Col(S, UpdateDate));
    var byOrdered := acc + RangePredicates(Col(O, OrderDate), DateOnly(c.orderDateStart, c.orderDateEnd));
    var byDelivery := byOrdered + RangePredicates(Col(S, ShippingDeliveryDate), DateOnly(c.shippingDeliveryDateStart, c.shippingDeliveryDateEnd));
    var byShipped := byDelivery + RangePredicates(Col(S, ShippingDate), DateOnly(c.shippingDateStart, c.shippingDateEnd));
    var byUpdated := byShipped + RangePredicates(Col(S, UpdateDate), DateOnly(c.updateDateStart, c.updateDateEnd));
    var byTotalStart := byUpdated + When(Given(c.paymentTotalStart), Ge(Col(O, PaymentTotal), Str(Arg(c.paymentTotalStart))));
    var byTotalEnd := byTotalStart + When(Given(c.paymentTotalEnd), Le(Col(O, PaymentTotal), Str(Arg(c.paymentTotalEnd))));
    OnSkip(byTotalEnd, Given(c.buyProductName), Like(Col(SI, ProductName), LikeContains(Arg(c.buyProductName))), k);
    OnSkip(byTotalStart, Given(c.paymentTotalEnd), Le(Col(O, PaymentTotal), Str(Arg(c.paymentTotalEnd))), k);
    OnSkip(byUpdated, Given(c.paymentTotalStart), Ge(Col(O, PaymentTotal), Str(Arg(c.paymentTotalStart))), k);
    OnTakeRange(byShipped, Col(S, UpdateDate), DateOnly(c.updateDateStart, c.updateDateEnd));
    OnSkipRange(byDelivery, Col(S, ShippingDate), DateOnly(c.shippingDateStart, c.shippingDateEnd), k);
    OnSkipRange(byOrdered, Col(S, ShippingDeliveryDate), DateOnly(c.shippingDeliveryDateStart, c.shippingDeliveryDateEnd), k);
    OnSkipRange(acc, Col(O, OrderDate), DateOnly(c.orderDateStart, c.orderDateEnd), k);
  }

  /**
   * Each of the four date columns is constrained by its date-only range
   * alone: the start day unchanged as `>=`, the end day advanced by one as `<`.
   */
  lemma DateColumnsResolved(c: Criteria)
    ensures On(Where(c), Column(Col(O, OrderDate))) == RangePredicates(Col(O, OrderDate), DateOnly(c.orderDateStart, c.orderDateEnd))
    ensures On(Where(c), Column(Col(S, ShippingDeliveryDate)))
         == RangePredicates(Col(S, ShippingDeliveryDate), DateOnly(c.shippingDeliveryDateStart, c.shippingDeliveryDateEnd))
    ensures On(Where(c), Column(Col(S, ShippingDate))) == RangePredicates(Col(S, ShippingDate), DateOnly(c.shippingDateStart, c.shippingDateEnd))
    ensures On(Where(c), Column(Col(S, UpdateDate))) == RangePredicates(Col(S, UpdateDate), DateOnly(c.updateDateStart, c.updateDateEnd))
  {
    OrderDateResolved(c);
    DeliveryDateResolved(c);
    ShippingDateResolved(c);
    UpdateDateResolved(c);
  }

  lemma OrderDateResolved(c: Criteria)
    ensures On(Where(c), Column(Col(O, OrderDate))) == RangePredicates(Col(O, OrderDate), DateOnly(c.orderDateStart, c.orderDateEnd))
  {
    var r := RangePredicates(Col(O, OrderDate), DateOnly(c.orderDateStart, c.orderDateEnd));
    DatesOnOrderDate(AddresseePredicates(IdentityPredicates([], c), c), c);
    UpToDatesFrame(c, Column(Col(O, OrderDate)));
    assert [] + r == r;
  }

  lemma DeliveryDateResolved(c: Criteria)
    ensures On(Where(c), Column(Col(S, ShippingDeliveryDate)))
         == RangePredicates(Col(S, ShippingDeliveryDate), DateOnly(c.shippingDeliveryDateStart, c.shippingDeliveryDateEnd))
  {
    var r := RangePredicates(Col(S, ShippingDeliveryDate), DateOnly(c.shippingDeliveryDateStart, c.shippingDeliveryDateEnd));
    DatesOnDeliveryDate(AddresseePredicates(IdentityPredicates([], c), c), c);
    UpToDatesFrame(c, Column(Col(S, ShippingDeliveryDate)));
    assert [] + r == r;
  }

  lemma ShippingDateResolved(c: Criteria)
    ensures On(Where(c), Column(Col(S, ShippingDate))) == RangePredicates(Col(S, ShippingDate), DateOnly(c.shippingDateStart, c.shippingDateEnd))
  {
    var r := RangePredicates(Col(S, ShippingDate), DateOnly(c.shippingDateStart, c.shippingDateEnd));
    DatesOnShippingDate(AddresseePredicates(IdentityPredicates([], c), c), c);
    UpToDatesFrame(c, Column(Col(S, ShippingDate)));
    assert [] + r == r;
  }

  lemma UpdateDateResolved(c: Criteria)
    ensures On(Where(c), Column(Col(S, UpdateDate))) == RangePredicates(Col(S, UpdateDate), DateOnly(c.updateDateStart, c.updateDateEnd))
  {
    var r := RangePredicates(Col(S, UpdateDate), DateOnly(c.updateDateStart, c.updateDateEnd));
    DatesOnUpdateDate(AddresseePredicates(IdentityPredicates([], c), c), c);
    UpToDatesFrame(c, Column(Col(S, UpdateDate)));
    assert [] + r == r;
  }

  /** The addressee section adds on the orderer-kana expression exactly its LIKE. */
  lemma AddresseeOnOrderKana(acc: seq<Predicate>, c: Criteria)
    ensures On(AddresseePredicates(acc, c), Column(ORDER_KANA))
         == On(acc, Column(ORDER_KANA)) + When(Given(c.orderKana), Like(ORDER_KANA, LikeContains(Arg(c.orderKana))))
  {
    var k := Column(ORDER_KANA);
    var byName := acc + When(Given(c.name), Like(NAME, LikeContains(Arg(c.name))));
    var byKana := byName + When(Given(c.kana), Like(KANA, LikeContains(Arg(c.kana))));
    var byOrderName := byKana + When(Given(c.orderName), Like(ORDER_NAME, LikeContains(Arg(c.orderName))));
    var byOrderKana := byOrderName + When(Given(c.orderKana), Like(ORDER_KANA, LikeContains(Arg(c.orderKana))));
    var byEmail := byOrderKana + When(Given(c.email), Like(Col(O, Email), LikeContains(Arg(c.email))));
    var byPhone := byEmail + When(Given(c.phoneNumber), Like(PHONE, LikeContains(DigitsOnly(Arg(c.phoneNumber)))));
    OnSkip(byPhone, |c.payment| > 0, In(Col(P, Id), IdValues(c.payment)), k);
    OnSkip(byEmail, Given(c.phoneNumber), Like(PHONE, LikeContains(DigitsOnly(Arg(c.phoneNumber)))), k);
    OnSkip(byOrderKana, Given(c.email), Like(Col(O, Email), LikeContains(Arg(c.email))), k);
    OnTake(byOrderName, Given(c.orderKana), Like(ORDER_KANA, LikeContains(Arg(c.orderKana))));
    OnSkip(byKana, Given(c.orderName), Like(ORDER_NAME, LikeContains(Arg(c.orderName))), k);
    OnSkip(byName, Given(c.kana), Like(KANA, LikeContains(Arg(c.kana))), k);
    OnSkip(acc, Given(c.name), Like(NAME, LikeContains(Arg(c.name))), k);
  }

  /**
   * The orderer kana is searched on `CONCAT(o.kana01, s.kana02)`, the order's
   * first kana with the shipping's second, and only when it is given.
   */
  lemma OrderKanaMixesAliases(c: Criteria)
    ensures On(Where(c), Column(Concat([Col(O, Kana01), Col(S, Kana02)])))
         == When(Given(c.orderKana), Like(Concat([Col(O, Kana01), Col(S, Kana02)]), LikeContains(Arg(c.orderKana))))
  {
    var k := Column(ORDER_KANA);
    var like := When(Given(c.orderKana), Like(ORDER_KANA, LikeContains(Arg(c.orderKana))));
    DatesFrame(AddresseePredicates(IdentityPredicates([], c), c), c, k);
    AddresseeOnOrderKana(IdentityPredicates([], c), c);
    IdentityFrame([], c, k);
    assert [] + like == like;
  }

  /** With no criterion at all, the shipment search has no conjunct, only the two base joins, and the fixed order. */
  lemma NoCriteriaSearch()
    ensures Where(NO_CRITERIA) == []
    ensures SearchQuery(NO_CRITERIA) == Query(S, BASE_JOINS, [], [(Col(S, UpdateDate), Desc), (Col(S, Id), Desc)])
  {
    var c := NO_CRITERIA;
    assert IdentityPredicates([], c) == [];
    assert AddresseePredicates([], c) == [];
    assert DatePredicates([], c) == [];
  }

  /** Whatever the criteria, the ordering is newest update first, then highest id, and the base joins come first. */
  lemma FixedOrdering(c: Criteria)
    ensures SearchQuery(c).orderBy == [(Col(S, UpdateDate), Desc), (Col(S, Id), Desc)]
    ensures SearchQuery(c).joins[..2] == [LeftJoin(S, "OrderItems", SI), LeftJoin(SI, "Order", O)]
  {
  }
}
