/**
 * The query a search composer builds, as an explicit value: the joins, the
 * conjunction of `andWhere` fragments in the order they were added, and the
 * `orderBy` list. Columns and operators stay symbolic; nothing here evaluates
 * SQL except the date bounds, whose meaning the range lemmas state.
 */
module QueryModel {
  import opened Values
  import opened Text

  /** The DQL aliases: o (Order), s (Shipping), c (Customer), oi / si (OrderItem), p (Payment), pref (Pref). */
  datatype Alias = O | S | C | OI | SI | P | PREF

  /** The entity fields the composers filter and sort on. */
  datatype Field =
    | Id | OrderNo | Name01 | Name02 | Kana01 | Kana02 | CompanyName | Email
    | PhoneNumber01 | PhoneNumber02 | PhoneNumber03
    | OrderStatus | Sex | Pref | Status
    | ProductName | MailSendDate | TrackingNumber
    | OrderDate | PaymentDate | UpdateDate | CreateDate | LastBuyDate
    | ShippingDeliveryDate | ShippingDate | Birth
    | PaymentTotal | BuyTotal | BuyTimes

  /** The left-hand side of a comparison. */
  datatype Expr =
    | Col(alias: Alias, field: Field)
    | Concat(parts: seq<Expr>)        // CONCAT(a, b, ...)
    | CoalesceEmpty(arg: Expr)        // COALESCE(x, '')
    | MonthOf(arg: Expr)              // EXTRACT(MONTH FROM x)

  /** A bound parameter. `Null` is what PHP's null binds to; `x = NULL` holds for no row. */
  datatype Value = Null | Str(s: string) | Int(i: int) | At(t: DateTime)

  datatype Predicate =
    | Eq(lhs: Expr, v: Value)
    | Ge(lhs: Expr, v: Value)
    | Le(lhs: Expr, v: Value)
    | Lt(lhs: Expr, v: Value)
    | Like(lhs: Expr, pattern: string)
    | In(lhs: Expr, vs: seq<Value>)
    | NotIn(lhs: Expr, vs: seq<Value>)
    | IsNull(lhs: Expr)
    | IsNotNull(lhs: Expr)
    | Or(disjuncts: seq<Predicate>)

  datatype Dir = Asc | Desc

  datatype Join =
    | LeftJoin(from: Alias, association: string, alias: Alias)
    | InnerJoin(from: Alias, association: string, alias: Alias)

  /** A query builder's state: root alias, joins, `andWhere` conjuncts and `orderBy` keys, each in call order. */
  datatype Query = Query(root: Alias, joins: seq<Join>, where: seq<Predicate>, orderBy: seq<(Expr, Dir)>)
  {
    /** `$qb->andWhere(p)`. */
    function AndWhere(p: Predicate): Query
    {
      this.(where := where + [p])
    }

    /** `$qb->leftJoin(...)`. */
    function AddJoin(j: Join): Query
    {
      this.(joins := joins + [j])
    }

    /** `$qb->orderBy(e, d)`: replaces every earlier ordering. */
    function OrderBy(e: Expr, d: Dir): Query
    {
      this.(orderBy := [(e, d)])
    }

    /** `$qb->addOrderBy(e, d)`. */
    function AddOrderBy(e: Expr, d: Dir): Query
    {
      this.(orderBy := orderBy + [(e, d)])
    }
  }

  /** `'%'.$x.'%'`: the LIKE parameter for "contains x". The term's own `%` and `_` are not escaped. */
  function LikeContains(x: string): string
  {
    "%" + x + "%"
  }

  /** Two contains-patterns are equal only for equal terms: the pattern carries its term unchanged. */
  lemma LikeContainsInjective(x: string, y: string)
    ensures LikeContains(x) == LikeContains(y) ==> x == y
  {
    if LikeContains(x) == LikeContains(y) {
      assert x == LikeContains(x)[1..|x| + 1];
      assert y == LikeContains(y)[1..|y| + 1];
    }
  }

  /** A contains-pattern built from digits holds nothing but digits between its two wildcards. */
  lemma DigitsPattern(s: string)
    ensures var d := DigitsOnly(s);
      forall i :: 0 < i < |d| + 1 ==> IsDigit(LikeContains(d)[i])
  {
    DigitsOnlySpec(s);
  }

  /** A fragment of at most one conjunct: `p` when its criterion is present. */
  function When(present: bool, p: Predicate): seq<Predicate>
  {
    if present then [p] else []
  }

  /** The text of an optional string criterion ("" when absent; only read when present). */
  function Arg(o: Option<string>): string
  {
    if o.Some? then o.value else ""
  }

  /** The parameter an optional identifier binds: its text, or null. */
  function IdParam(id: Option<string>): Value
  {
    if id.Some? then Str(id.value) else Null
  }

  /** The ids Doctrine binds for a collection of entities. */
  function IdValues(refs: seq<Ref>): seq<Value>
  {
    seq(|refs|, i requires 0 <= i < |refs| => Int(refs[i].id))
  }

  /** The `foreach ($xs as $x) { $ids[] = $x->getId(); }` loops. */
  method CollectIds(refs: seq<Ref>) returns (ids: seq<Value>)
    ensures |ids| == |refs|
    ensures forall i :: 0 <= i < |refs| ==> ids[i] == Int(refs[i].id)
    ensures ids == IdValues(refs)
  {
    ids := [];
    for i := 0 to |refs|
      invariant |ids| == i
      invariant forall j :: 0 <= j < i ==> ids[j] == Int(refs[j].id)
    {
      ids := ids + [Int(refs[i].id)];
    }
  }

  /** The payment-method step of the order and shipment searches: the chosen methods, their ids collected by a loop, through a join on the order's payment. */
  method AndWherePayment(qb: Query, payment: seq<Ref>) returns (qb': Query)
    ensures qb'.root == qb.root && qb'.orderBy == qb.orderBy
    ensures qb'.joins == qb.joins + (if |payment| > 0 then [LeftJoin(O, "Payment", P)] else [])
    ensures qb'.where == qb.where + When(|payment| > 0, In(Col(P, Id), IdValues(payment)))
  {
    qb' := qb;
    if |payment| > 0 {
      var payments := CollectIds(payment);
      qb' := qb'.AddJoin(LeftJoin(O, "Payment", P));
      qb' := qb'.AndWhere(In(Col(P, Id), payments));
    }
  }

  /** The master ids of `OrderStatus::PROCESSING` (checkout in progress) and `OrderStatus::PENDING` (payment in progress). */
  const PROCESSING: int := 8
  const PENDING: int := 7

  /** `[OrderStatus::PROCESSING, OrderStatus::PENDING]`, the statuses admin searches hide by default. */
  const TRANSIENT: seq<Value> := [Int(PROCESSING), Int(PENDING)]

  // ---------------------------------------------------------------------
  // Projection of a conjunction onto one column

  /** What a conjunct constrains: one column expression, or (for an OR) several at once. */
  datatype Key = Column(e: Expr) | Disjunction

  function KeyOf(p: Predicate): Key
  {
    if p.Or? then Disjunction else Column(p.lhs)
  }

  /** The conjuncts about `k`, in order and with their multiplicity. */
  function On(ps: seq<Predicate>, k: Key): seq<Predicate>
  {
    if ps == [] then [] else (if KeyOf(ps[0]) == k then [ps[0]] else []) + On(ps[1..], k)
  }

  /** The projection keeps exactly the conjuncts about `k`, and no more of them than there were. */
  lemma {:induction false} OnMembers(ps: seq<Predicate>, k: Key)
    ensures |On(ps, k)| <= |ps|
    ensures forall p :: p in On(ps, k) <==> p in ps && KeyOf(p) == k
  {
    if ps != [] {
      OnMembers(ps[1..], k);
      assert forall p :: p in ps <==> p == ps[0] || p in ps[1..];
    }
  }

  lemma {:induction false} OnConcat(a: seq<Predicate>, b: seq<Predicate>, k: Key)
    ensures On(a + b, k) == On(a, k) + On(b, k)
  {
    if a == [] {
      assert a + b == b;
    } else {
      var head := if KeyOf(a[0]) == k then [a[0]] else [];
      assert (a + b)[0] == a[0];
      assert (a + b)[1..] == a[1..] + b;
      assert On(a + b, k) == head + On(a[1..] + b, k);
      OnConcat(a[1..], b, k);
      assert On(a, k) == head + On(a[1..], k);
    }
  }

  /** A fragment with no conjunct on `k` projects to nothing. */
  lemma {:induction false} OnNone(ys: seq<Predicate>, k: Key)
    requires forall p :: p in ys ==> KeyOf(p) != k
    ensures On(ys, k) == []
  {
    if ys != [] {
      assert ys[0] in ys;
      assert forall p :: p in ys[1..] ==> p in ys;
      OnNone(ys[1..], k);
    }
  }

  /** A fragment whose conjuncts are all on `k` is its own projection. */
  lemma {:induction false} OnAll(ys: seq<Predicate>, k: Key)
    requires forall p :: p in ys ==> KeyOf(p) == k
    ensures On(ys, k) == ys
  {
    if ys != [] {
      assert ys[0] in ys;
      assert forall p :: p in ys[1..] ==> p in ys;
      OnAll(ys[1..], k);
      assert ys == [ys[0]] + ys[1..];
    }
  }

  /** Appending an optional conjunct about another key leaves a projection alone. */
  lemma OnSkip(xs: seq<Predicate>, b: bool, p: Predicate, k: Key)
    requires KeyOf(p) != k
    ensures On(xs + When(b, p), k) == On(xs, k)
  {
    OnConcat(xs, When(b, p), k);
    OnNone(When(b, p), k);
    assert On(xs, k) + [] == On(xs, k);
  }

  /** Appending an optional conjunct extends the projection on its own key by it. */
  lemma OnTake(xs: seq<Predicate>, b: bool, p: Predicate)
    ensures On(xs + When(b, p), KeyOf(p)) == On(xs, KeyOf(p)) + When(b, p)
  {
    OnConcat(xs, When(b, p), KeyOf(p));
    OnAll(When(b, p), KeyOf(p));
  }

  // ---------------------------------------------------------------------
  // Range resolution

  /** The four criterion fields of one logical date range (`x_datetime_start`, `x_datetime_end`, `x_date_start`, `x_date_end`). */
  datatype DateRange = DateRange(
    datetimeStart: Option<DateTime>,
    datetimeEnd: Option<DateTime>,
    dateStart: Option<DateTime>,
    dateEnd: Option<DateTime>)

  /** A range whose criterion set has only the two date-only fields. */
  function DateOnly(start: Option<DateTime>, end: Option<DateTime>): DateRange
  {
    DateRange(None, None, start, end)
  }

  /** The `>=` bound: the precise start if given, else the date start, unchanged. */
  function LowerBound(r: DateRange): Option<DateTime>
  {
    if r.datetimeStart.Some? then r.datetimeStart else r.dateStart
  }

  /** The `<` bound: the precise end unchanged if given, else the date end advanced one day. */
  function UpperBound(r: DateRange): Option<DateTime>
  {
    if r.datetimeEnd.Some? then r.datetimeEnd
    else if r.dateEnd.Some? then Some(AddDay(r.dateEnd.value))
    else None
  }

  /** The conjuncts one date range contributes on column `e`. */
  function RangePredicates(e: Expr, r: DateRange): (ps: seq<Predicate>)
    ensures |ps| <= 2
    ensures forall p :: p in ps ==> KeyOf(p) == Column(e) && (p.Ge? || p.Lt?) && p.v.At?
    ensures forall i, j :: 0 <= i < j < |ps| ==> ps[i].Ge? && ps[j].Lt?
    ensures (exists p :: p in ps && p.Ge?) <==> r.datetimeStart.Some? || r.dateStart.Some?
    ensures (exists p :: p in ps && p.Lt?) <==> r.datetimeEnd.Some? || r.dateEnd.Some?
  {
    (if LowerBound(r).Some? then [Ge(e, At(LowerBound(r).value))] else []) +
    (if UpperBound(r).Some? then [Lt(e, At(UpperBound(r).value))] else [])
  }

  /** One guarded step of a composer: `if (present) { $qb->andWhere(p) }`. */
  method AndWhereWhen(qb: Query, present: bool, p: Predicate) returns (qb': Query)
    ensures qb' == qb.(where := qb.where + When(present, p))
  {
    qb' := qb;
    if present {
      qb' := qb'.AndWhere(p);
    }
  }

  /** Appending a range on another column leaves a projection alone. */
  lemma OnSkipRange(xs: seq<Predicate>, e: Expr, r: DateRange, k: Key)
    requires Column(e) != k
    ensures On(xs + RangePredicates(e, r), k) == On(xs, k)
  {
    OnConcat(xs, RangePredicates(e, r), k);
    OnNone(RangePredicates(e, r), k);
    assert On(xs, k) + [] == On(xs, k);
  }

  /** Appending a range extends the projection on its column by the whole range. */
  lemma OnTakeRange(xs: seq<Predicate>, e: Expr, r: DateRange)
    ensures On(xs + RangePredicates(e, r), Column(e)) == On(xs, Column(e)) + RangePredicates(e, r)
  {
    OnConcat(xs, RangePredicates(e, r), Column(e));
    OnAll(RangePredicates(e, r), Column(e));
  }

  /** One `if / elseif` pair per side of a date range, as the composers write it for each date column. */
  method AndWhereRange(qb: Query, e: Expr, r: DateRange) returns (qb': Query)
    ensures qb' == qb.(where := qb.where + RangePredicates(e, r))
  {
    qb' := qb;
    if r.datetimeStart.Some? {
      qb' := qb'.AndWhere(Ge(e, At(r.datetimeStart.value)));
    } else if r.dateStart.Some? {
      qb' := qb'.AndWhere(Ge(e, At(r.dateStart.value)));
    }
    if r.datetimeEnd.Some? {
      qb' := qb'.AndWhere(Lt(e, At(r.datetimeEnd.value)));
    } else if r.dateEnd.Some? {
      var date := AddDay(r.dateEnd.value);
      qb' := qb'.AndWhere(Lt(e, At(date)));
    }
  }

  /** Whether a column value `t` satisfies one bound conjunct. */
  predicate BoundHolds(p: Predicate, t: DateTime)
  {
    match p
    case Ge(_, At(b)) => !Before(t, b)
    case Lt(_, At(b)) => Before(t, b)
    case _ => true
  }

  /** Whether a row whose column holds `t` passes every conjunct of the range. */
  predicate WithinRange(e: Expr, r: DateRange, t: DateTime)
  {
    forall p :: p in RangePredicates(e, r) ==> BoundHolds(p, t)
  }

  /** A precise end bound hides the date end bound, and a precise start bound the date start bound. */
  lemma DatetimeTakesPrecedence(e: Expr, r: DateRange, other: Option<DateTime>)
    ensures r.datetimeStart.Some? ==> RangePredicates(e, r) == RangePredicates(e, r.(dateStart := other))
    ensures r.datetimeEnd.Some? ==> RangePredicates(e, r) == RangePredicates(e, r.(dateEnd := other))
  {
  }

  /**
   * The value of each bound, for every range: the `>=` bound is the precise
   * start if given and else the date start, both unchanged; the `<` bound is
   * the precise end unchanged if given and else the date end advanced one day.
   */
  lemma RangeBoundValues(e: Expr, r: DateRange)
    ensures forall p :: p in RangePredicates(e, r) && p.Ge? ==>
      (r.datetimeStart.Some? && p.v == At(r.datetimeStart.value))
      || (r.datetimeStart.None? && r.dateStart.Some? && p.v == At(r.dateStart.value))
    ensures forall p :: p in RangePredicates(e, r) && p.Lt? ==>
      (r.datetimeEnd.Some? && p.v == At(r.datetimeEnd.value))
      || (r.datetimeEnd.None? && r.dateEnd.Some? && p.v == At(AddDay(r.dateEnd.value)))
  {
  }

  /**
   * The rows a range admits, for every combination of given bounds: each side
   * is tested separately, by its precise bound if given and else by its date
   * bound, with only a date end moved one day on.
   */
  lemma {:induction false} RangeAdmits(e: Expr, r: DateRange, t: DateTime)
    ensures WithinRange(e, r, t) <==>
      && (r.datetimeStart.Some? ==> !Before(t, r.datetimeStart.value))
      && (r.datetimeStart.None? && r.dateStart.Some? ==> !Before(t, r.dateStart.value))
      && (r.datetimeEnd.Some? ==> Before(t, r.datetimeEnd.value))
      && (r.datetimeEnd.None? && r.dateEnd.Some? ==> Before(t, AddDay(r.dateEnd.value)))
  {
    var lo := if LowerBound(r).Some? then [Ge(e, At(LowerBound(r).value))] else [];
    var hi := if UpperBound(r).Some? then [Lt(e, At(UpperBound(r).value))] else [];
    assert RangePredicates(e, r) == lo + hi;
    assert forall p :: p in lo + hi <==> p in lo || p in hi;
  }

  /** Precise bounds are used as given: `start <= t < end`, with no day added. */
  lemma {:induction false} DatetimeBoundsAsGiven(e: Expr, r: DateRange, t: DateTime)
    requires r.datetimeStart.Some? && r.datetimeEnd.Some?
    ensures WithinRange(e, r, t) <==> !Before(t, r.datetimeStart.value) && Before(t, r.datetimeEnd.value)
  {
    var ps := RangePredicates(e, r);
    assert ps == [Ge(e, At(r.datetimeStart.value)), Lt(e, At(r.datetimeEnd.value))];
    assert ps[0] in ps && ps[1] in ps;
  }

  /**
   * Date-only bounds at midnight (what a date field yields) take in every
   * instant of the first and of the last day: the end is inclusive.
   */
  lemma {:induction false} DateBoundsCoverWholeDays(e: Expr, r: DateRange, t: DateTime)
    requires r.datetimeStart.None? && r.datetimeEnd.None?
    requires r.dateStart.Some? && r.dateEnd.Some?
    requires r.dateStart.value.second == 0 && r.dateEnd.value.second == 0
    ensures WithinRange(e, r, t) <==> r.dateStart.value.day <= t.day <= r.dateEnd.value.day
  {
    var ps := RangePredicates(e, r);
    assert ps == [Ge(e, At(r.dateStart.value)), Lt(e, At(AddDay(r.dateEnd.value)))];
    assert ps[0] in ps && ps[1] in ps;
  }

  /** Only an end date at midnight: everything up to and including that whole day. */
  lemma {:induction false} DateEndCoversItsDay(e: Expr, r: DateRange, t: DateTime)
    requires r.datetimeStart.None? && r.dateStart.None? && r.datetimeEnd.None?
    requires r.dateEnd.Some? && r.dateEnd.value.second == 0
    ensures WithinRange(e, r, t) <==> t.day <= r.dateEnd.value.day
  {
    var ps := RangePredicates(e, r);
    assert ps == [Lt(e, At(AddDay(r.dateEnd.value)))];
    assert ps[0] in ps;
  }

  // ---------------------------------------------------------------------
  // Sort resolution

  /** `sorttype == 'a'` gives ascending order, anything else (or nothing) descending. */
  function Direction(sorttype: Option<string>): (d: Dir)
    ensures d == Asc <==> sorttype == Some("a")
  {
    if sorttype.Some? && sorttype.value == "a" then Asc else Desc
  }

  /** A supplied sort key names a column of the map (the source indexes the map without checking). */
  predicate SortKeyKnown(columns: map<string, Expr>, sortkey: Option<string>)
  {
    Filled(sortkey) ==> sortkey.value in columns
  }

  /** The ordering: the user's key first when given, then last update and id, both descending. */
  function SortOrder(columns: map<string, Expr>, sortkey: Option<string>, sorttype: Option<string>, a: Alias): (r: seq<(Expr, Dir)>)
    requires SortKeyKnown(columns, sortkey)
    ensures |r| >= 2 && r[|r| - 2..] == [(Col(a, UpdateDate), Desc), (Col(a, Id), Desc)]
    ensures Filled(sortkey) ==> |r| == 3 && r[0] == (columns[sortkey.value], Direction(sorttype))
    ensures !Filled(sortkey) ==> |r| == 2
  {
    var tieBreaks := [(Col(a, UpdateDate), Desc), (Col(a, Id), Desc)];
    if Filled(sortkey) then [(columns[sortkey.value], Direction(sorttype))] + tieBreaks else tieBreaks
  }

  /** The sort step both sortable composers end with: the user's key, then the tie-breaks on alias `a`. */
  method OrderBySort(qb: Query, columns: map<string, Expr>, sortkey: Option<string>, sorttype: Option<string>, a: Alias)
    returns (qb': Query)
    requires SortKeyKnown(columns, sortkey)
    ensures qb' == qb.(orderBy := SortOrder(columns, sortkey, sorttype, a))
  {
    if Filled(sortkey) {
      var sortOrder := if sorttype.Some? && sorttype.value == "a" then Asc else Desc;
      qb' := qb.OrderBy(columns[sortkey.value], sortOrder);
      qb' := qb'.AddOrderBy(Col(a, UpdateDate), Desc);
      qb' := qb'.AddOrderBy(Col(a, Id), Desc);
    } else {
      qb' := qb.OrderBy(Col(a, UpdateDate), Desc);
      qb' := qb'.AddOrderBy(Col(a, Id), Desc);
    }
  }
}
