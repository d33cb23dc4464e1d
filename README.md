# Admin search-query composers

This project models three repository methods of an EC-CUBE based shop:

- the order list search, `OrderRepositoryExtension::getQueryBuilderBySearchDataForAdmin`;
- the customer list search, `CustomerRepositoryExtension::getQueryBuilderBySearchData`, with its `COLUMNS` sort map;
- the shipment search, `ShippingRepositoryExtension::getQueryBuilderBySearchDataForAdmin`. The source marks it deprecated, but it is fully implemented.

Each method takes a sparse map of optional criteria. It returns a Doctrine query builder with joins, a conjunction of `andWhere` fragments and an ordering. Then it proves what that query means.

## How the model is built

- **The query builder is a value.** `QueryModel.Query` holds a root alias, joins, `andWhere` conjuncts and `orderBy` keys, each kept in call order. Columns, SQL expressions (`CONCAT`, `COALESCE`, `EXTRACT(MONTH …)`) and comparison operators are datatype constructors. A bound parameter is a `Value`: PHP `null`, a string, an integer or a date-time.
- **Each composer is an imperative `method`.** It reassigns the query step by step, as the PHP code calls `$qb->andWhere(...)`. The `foreach` loops that collect entity ids are `for` loops with invariants (`QueryModel.CollectIds`). Each method is proved equal to a specification function on the criteria: `OrderSearch.SearchQuery`, `CustomerSearch.SearchQuery`, `ShippingSearch.SearchQuery`.
- **Each composer is split by source section.** The section functions (`IdentityPredicates`, `DatePredicates`, …) take "the conjunction so far" and extend it, block by block, in source order. One method per section implements each of them.
- **Properties are stated per column.** `QueryModel.On(ps, k)` projects a conjunction onto the conjuncts about one column (or onto the `OR` disjunctions). The lemmas state which conjuncts the finished search holds on each column.
- **Shared rules live in `Text` and `QueryModel`:**
  - whitespace removal (`\s` plus U+3000) and phone digit extraction;
  - PHP's `empty()` and `StringUtil::isNotBlank`;
  - the `^\d{0,10}$` identifier pattern, including PCRE's acceptance of one final newline;
  - the PostgreSQL `integer` guard;
  - date-range resolution, where a precise date-time bound wins over a date bound and a date-only end bound is advanced one day and compared with `<`;
  - the sort order.
- **Dates are abstract.** A `DateTime` is a day number and a second within the day, and `AddDay` advances the day. `QueryModel.WithinRange` evaluates a resolved range on a column value, so the date lemmas state which rows a range admits.

The model follows the code wherever the code and the intended design differ:

- An unknown sort key is indexed into the map without a check. It is a precondition here, not a silent fallback.
- The order criteria docblock names `payment_product_name`, but the code reads `buy_product_name`. The model reads `buy_product_name`.
- The shipment `order_kana` criterion concatenates `o.kana01` with `s.kana02`. The model keeps that mix of aliases.
- When the identifier guard rejects a term, the `multi` disjunction still holds an `id = :multi` branch bound to `null`. The model keeps that branch.

## Model

| member | source | states |
|---|---|---|
| Values.AddDaySpec | app/Customize/Repository/Extension/OrderRepositoryExtension.php:210-212 | `modify('+1 days')` moves a date-time strictly later, to the same time on the next day |
| Text.StripSpacesSpec | app/Customize/Repository/Extension/OrderRepositoryExtension.php:96 | the cleaned term holds no whitespace, is no longer than the input, and is the input itself when that held no whitespace |
| Text.StripSpacesConcat | app/Customize/Repository/Extension/OrderRepositoryExtension.php:142 | whitespace removal distributes over concatenation |
| Text.StripSpacesIdempotent | app/Customize/Repository/Extension/OrderRepositoryExtension.php:150 | cleaning a cleaned term changes nothing |
| Text.DigitsOnlySpec | app/Customize/Repository/Extension/OrderRepositoryExtension.php:166 | the extracted phone fragment holds only digits and is no longer than the input; an all-digit input is kept whole and an input without digits gives "", so together with `DigitsOnlyConcat` every digit is kept in order and every non-digit removed |
| Text.DigitsOnlyConcat | app/Customize/Repository/Extension/CustomerRepositoryExtension.php:121 | digit extraction distributes over concatenation, so digits keep their order |
| Text.BlankIffCleansToEmpty | app/Customize/Repository/Extension/OrderRepositoryExtension.php:94-96 | a criterion is blank exactly when whitespace removal leaves nothing, so a given `multi` never cleans to "" |
| Text.IdDigits | app/Customize/Repository/Extension/ShippingRepositoryExtension.php:40 | a term that matches `^\d{0,10}$` is at most ten digits, possibly followed by one final newline |
| Text.GuardedIdSpec | app/Customize/Repository/Extension/OrderRepositoryExtension.php:96-100 | the guard keeps the cleaned term or drops it, and keeps it exactly when it matches the pattern and is not above 2147483647 on PostgreSQL |
| Text.CleanedIdPattern | app/Customize/Repository/Extension/CustomerRepositoryExtension.php:66-67 | for a cleaned term the pattern means exactly "zero to ten digits" |
| Text.ValuesAtTheLimit | app/Customize/Repository/Extension/OrderRepositoryExtension.php:98 | the decimal values of "2147483647" and "2147483648" are the `integer` limit and one above it |
| Text.IdGuardAtTheLimit | app/Customize/Repository/Extension/CustomerRepositoryExtension.php:66-70 | 2147483647 is kept on PostgreSQL, 2147483648 is dropped there and kept elsewhere, and eleven digits never pass |
| QueryModel.LikeContainsInjective | app/Customize/Repository/Extension/OrderRepositoryExtension.php:107-108 | a contains-pattern carries its term unchanged: equal patterns come only from equal terms |
| QueryModel.DigitsPattern | app/Customize/Repository/Extension/OrderRepositoryExtension.php:165-170 | the phone LIKE parameter is `%`, then only digits, then `%` |
| QueryModel.CollectIds | app/Customize/Repository/Extension/OrderRepositoryExtension.php:180-183 | the loop collects one id per chosen entity, in order |
| QueryModel.AndWherePayment | app/Customize/Repository/Extension/OrderRepositoryExtension.php:180-189 | a non-empty payment choice adds the payment join and one `p.id IN ids` conjunct; an empty one adds nothing |
| QueryModel.OnMembers | app/Customize/Repository/Extension/OrderRepositoryExtension.php:64-355 | the projection of a conjunction on one column keeps exactly the conjuncts about that column |
| QueryModel.RangePredicates | app/Customize/Repository/Extension/OrderRepositoryExtension.php:192-216 | one date range gives at most one `>=` and at most one `<` conjunct; the `>=` comes first and exists exactly when a start bound is given; the `<` exists exactly when an end bound is given |
| QueryModel.AndWhereRange | app/Customize/Repository/Extension/OrderRepositoryExtension.php:192-216 | the `if / elseif` pair per side appends exactly the resolved range |
| QueryModel.DatetimeTakesPrecedence | app/Customize/Repository/Extension/OrderRepositoryExtension.php:192-216 | a precise date-time bound hides the date bound on the same side |
| QueryModel.DatetimeBoundsAsGiven | app/Customize/Repository/Extension/OrderRepositoryExtension.php:204-208 | precise bounds admit exactly `start <= t < end`, with no day added |
| QueryModel.DateBoundsCoverWholeDays | app/Customize/Repository/Extension/OrderRepositoryExtension.php:209-216 | date-only bounds at midnight admit exactly the days from the start day to the end day, both included |
| QueryModel.RangeBoundValues | app/Customize/Repository/Extension/OrderRepositoryExtension.php:192-216 | for every range, the `>=` bound is the precise start if given, else the date start, unchanged; the `<` bound is the precise end if given, unchanged, else the date end advanced one day |
| QueryModel.RangeAdmits | app/Customize/Repository/Extension/OrderRepositoryExtension.php:192-216 | for every combination of given bounds, a value passes the range exactly when it passes each given side, tested by the precise bound if given and else by the date bound, with only a date end moved one day on |
| QueryModel.DateEndCoversItsDay | app/Customize/Repository/Extension/OrderRepositoryExtension.php:258-270 | a date-only end bound alone admits everything up to and including that whole day |
| QueryModel.Direction | app/Customize/Repository/Extension/OrderRepositoryExtension.php:344 | the direction is ascending if and only if `sorttype` is "a" |
| QueryModel.SortOrder | app/Customize/Repository/Extension/OrderRepositoryExtension.php:343-352 | the ordering always ends with update date and id, both descending; a given key puts its mapped column first, with the chosen direction |
| QueryModel.OrderBySort | app/Customize/Repository/Extension/OrderRepositoryExtension.php:343-352 | the sort step replaces the ordering with `SortOrder` and changes nothing else |
| OrderSearch.QueryBySearchDataForAdmin | app/Customize/Repository/Extension/OrderRepositoryExtension.php:64-355 | the composer builds exactly `SearchQuery`: base joins plus the payment join, the conjunction `Where`, the sort order |
| OrderSearch.AndWhereIdentity | app/Customize/Repository/Extension/OrderRepositoryExtension.php:73-116 | the order id, order number, id range and `multi` steps append exactly `IdentityPredicates` |
| OrderSearch.AndWhereStatus | app/Customize/Repository/Extension/OrderRepositoryExtension.php:118-131 | the status step appends exactly one status conjunct |
| OrderSearch.AndWhereOrderer | app/Customize/Repository/Extension/OrderRepositoryExtension.php:133-189 | the orderer steps append exactly `OrdererPredicates`, plus the payment join when a payment method is chosen |
| OrderSearch.AndWhereDates | app/Customize/Repository/Extension/OrderRepositoryExtension.php:191-289 | the three date ranges, the payment total bounds and the product steps append exactly `DatePredicates` |
| OrderSearch.AndWhereMail | app/Customize/Repository/Extension/OrderRepositoryExtension.php:292-306 | the mail step appends exactly `MailPredicates` |
| OrderSearch.AndWhereShipping | app/Customize/Repository/Extension/OrderRepositoryExtension.php:291-340 | the mail, tracking number and delivery date steps append exactly `ShippingPredicates` |
| OrderSearch.IdentityFrame | app/Customize/Repository/Extension/OrderRepositoryExtension.php:73-116 | the identity steps add nothing on any column besides the order id, the order number and the disjunction |
| OrderSearch.OrdererFrame | app/Customize/Repository/Extension/OrderRepositoryExtension.php:133-189 | the orderer steps add nothing outside their own columns |
| OrderSearch.DatesFrame | app/Customize/Repository/Extension/OrderRepositoryExtension.php:191-289 | the date steps add nothing outside their own columns |
| OrderSearch.MailKeys | app/Customize/Repository/Extension/OrderRepositoryExtension.php:292-306 | every mail conjunct is about `s.mail_send_date` |
| OrderSearch.ShippingFrame | app/Customize/Repository/Extension/OrderRepositoryExtension.php:291-340 | the shipping steps add nothing outside their own columns |
| OrderSearch.StatusPolicy | app/Customize/Repository/Extension/OrderRepositoryExtension.php:118-131 | with chosen statuses the only status conjunct is `IN` them; with none it is exactly `NOT IN (PROCESSING, PENDING)`; the two never appear together |
| OrderSearch.StatusOn | app/Customize/Repository/Extension/OrderRepositoryExtension.php:118-131 | the whole search holds exactly one conjunct on the order status |
| OrderSearch.StatusTake | app/Customize/Repository/Extension/OrderRepositoryExtension.php:118-131 | the status step adds exactly its conjunct on the status column |
| OrderSearch.StatusFrame | app/Customize/Repository/Extension/OrderRepositoryExtension.php:118-131 | the status step adds nothing on any other column |
| OrderSearch.UpToDatesFrame | app/Customize/Repository/Extension/OrderRepositoryExtension.php:73-189 | nothing before the date section is about a date or shipping column |
| OrderSearch.DatesOnOrderDate | app/Customize/Repository/Extension/OrderRepositoryExtension.php:192-216 | the date section adds exactly the resolved order-date range |
| OrderSearch.DatesOnPaymentDate | app/Customize/Repository/Extension/OrderRepositoryExtension.php:219-243 | the date section adds exactly the resolved payment-date range |
| OrderSearch.DatesOnUpdateDate | app/Customize/Repository/Extension/OrderRepositoryExtension.php:246-270 | the date section adds exactly the resolved update-date range |
| OrderSearch.OrderDateResolved | app/Customize/Repository/Extension/OrderRepositoryExtension.php:192-216 | the search holds on `o.order_date` exactly the resolved range |
| OrderSearch.PaymentDateResolved | app/Customize/Repository/Extension/OrderRepositoryExtension.php:219-243 | the search holds on `o.payment_date` exactly the resolved range |
| OrderSearch.UpdateDateResolved | app/Customize/Repository/Extension/OrderRepositoryExtension.php:246-270 | the search holds on `o.update_date` exactly the resolved range |
| OrderSearch.DeliveryDateResolved | app/Customize/Repository/Extension/OrderRepositoryExtension.php:316-340 | the search holds on `s.shipping_delivery_date` exactly the resolved range |
| OrderSearch.DateColumnsResolved | app/Customize/Repository/Extension/OrderRepositoryExtension.php:192-270 | each of the four date columns carries exactly its resolved range, so at most one `>=` and at most one `<` |
| OrderSearch.FromDatesFrame | app/Customize/Repository/Extension/OrderRepositoryExtension.php:191-340 | the date and shipping sections add nothing on the earlier columns |
| OrderSearch.IdentityOnDisjunction | app/Customize/Repository/Extension/OrderRepositoryExtension.php:94-109 | the only disjunction of the identity section is the `multi` term when it is given |
| OrderSearch.IdentityOnId | app/Customize/Repository/Extension/OrderRepositoryExtension.php:88-116 | on `o.id` the identity section holds, in this order, the exact `order_id` equality, the `>=` start bound and the `<=` end bound, each when given, and nothing else outside the disjunction |
| OrderSearch.FromStatusFrame | app/Customize/Repository/Extension/OrderRepositoryExtension.php:118-340 | the sections after the identity section add nothing on the identity columns |
| OrderSearch.MultiIsTheOnlyDisjunction | app/Customize/Repository/Extension/OrderRepositoryExtension.php:94-109 | a given `multi` term is the search's only disjunction; without one there is none |
| OrderSearch.IdBoundsInclusive | app/Customize/Repository/Extension/OrderRepositoryExtension.php:88-116 | the order id is bounded inclusively on both sides |
| OrderSearch.MultiBranches | app/Customize/Repository/Extension/OrderRepositoryExtension.php:102-108 | the `multi` disjunction has seven branches: the guarded id, then LIKE branches on the cleaned term, except `company_name`, which uses the raw term with its spaces |
| OrderSearch.MultiExample | app/Customize/Repository/Extension/OrderRepositoryExtension.php:96-108 | "12 34" searches id 1234 on PostgreSQL, but the company name by "%12 34%" |
| OrderSearch.CleanedExample | app/Customize/Repository/Extension/OrderRepositoryExtension.php:96 | "12 34" cleans to "1234" |
| OrderSearch.GuardExample | app/Customize/Repository/Extension/OrderRepositoryExtension.php:97-100 | "1234" passes the guard on PostgreSQL |
| OrderSearch.OrdererOnPhone | app/Customize/Repository/Extension/OrderRepositoryExtension.php:165-170 | the orderer section adds on the phone expression exactly the digits-only LIKE |
| OrderSearch.PhoneDigitsOnly | app/Customize/Repository/Extension/OrderRepositoryExtension.php:165-170 | a given phone number gives exactly one LIKE on the input's digits; otherwise nothing is added on the phone |
| OrderSearch.ShippingOnMail | app/Customize/Repository/Extension/OrderRepositoryExtension.php:292-306 | the shipping section adds exactly the mail conjuncts on `s.mail_send_date` |
| OrderSearch.MailOn | app/Customize/Repository/Extension/OrderRepositoryExtension.php:292-306 | the search holds exactly the mail conjuncts on `s.mail_send_date` |
| OrderSearch.MailFlag | app/Customize/Repository/Extension/OrderRepositoryExtension.php:292-306 | a single UNSENT gives `IS NULL` and a single SENT gives `IS NOT NULL`; zero, two or an unknown value add nothing |
| OrderSearch.ShippingOnTracking | app/Customize/Repository/Extension/OrderRepositoryExtension.php:309-313 | the shipping section adds exactly the tracking-number conjunct, when it is filled |
| OrderSearch.TrackingOn | app/Customize/Repository/Extension/OrderRepositoryExtension.php:309-313 | the search holds on the tracking number exactly that conjunct |
| OrderSearch.TrackingWhen | app/Customize/Repository/Extension/OrderRepositoryExtension.php:309 | the tracking number "0" counts as empty, while any other non-empty number is used |
| OrderSearch.TrackingNumberFilter | app/Customize/Repository/Extension/OrderRepositoryExtension.php:309-313 | tracking number "0" adds no filter, and any other non-empty number adds exactly one equality |
| OrderSearch.NoCriteriaSearch | app/Customize/Repository/Extension/OrderRepositoryExtension.php:64-355 | without criteria the order search holds only the default status exclusion, the base joins and the default order |
| CustomerSearch.QueryBySearchData | app/Customize/Repository/Extension/CustomerRepositoryExtension.php:59-256 | the composer builds exactly `SearchQuery`: the product joins when needed, the conjunction `Where`, the sort order by `COLUMNS` |
| CustomerSearch.AndWhereSex | app/Customize/Repository/Extension/CustomerRepositoryExtension.php:87-96 | a non-empty sex choice adds one `IN ids` conjunct; an empty one adds nothing |
| CustomerSearch.AndWhereProfile | app/Customize/Repository/Extension/CustomerRepositoryExtension.php:64-116 | the `multi`, prefecture, sex, birth month and birthday steps append exactly `ProfilePredicates` |
| CustomerSearch.AndWhereMetrics | app/Customize/Repository/Extension/CustomerRepositoryExtension.php:118-149 | the phone and purchase total and count steps append exactly `MetricPredicates` |
| CustomerSearch.AndWhereDates | app/Customize/Repository/Extension/CustomerRepositoryExtension.php:151-224 | the three date-range steps append exactly `DatePredicates` |
| CustomerSearch.AndWhereProduct | app/Customize/Repository/Extension/CustomerRepositoryExtension.php:234-242 | a given product name adds the two joins and both product conjuncts |
| CustomerSearch.AndWhereStatus | app/Customize/Repository/Extension/CustomerRepositoryExtension.php:226-242 | the status and product steps append exactly `StatusPredicates` and the product joins |
| CustomerSearch.ProfileFrame | app/Customize/Repository/Extension/CustomerRepositoryExtension.php:64-116 | the profile steps add nothing outside their own columns |
| CustomerSearch.MetricsFrame | app/Customize/Repository/Extension/CustomerRepositoryExtension.php:118-149 | the metrics steps add nothing outside their own columns |
| CustomerSearch.DatesFrame | app/Customize/Repository/Extension/CustomerRepositoryExtension.php:151-224 | the date steps add nothing outside the three date columns |
| CustomerSearch.ProductKeys | app/Customize/Repository/Extension/CustomerRepositoryExtension.php:234-242 | the product conjuncts are about the product name and the order status only |
| CustomerSearch.StatusFrame | app/Customize/Repository/Extension/CustomerRepositoryExtension.php:226-242 | the status steps add nothing outside their own columns |
| CustomerSearch.UpToDatesFrame | app/Customize/Repository/Extension/CustomerRepositoryExtension.php:64-149 | nothing before the date section is about a date, status or product column |
| CustomerSearch.FromDatesFrame | app/Customize/Repository/Extension/CustomerRepositoryExtension.php:151-242 | the later sections add nothing on a profile or metrics column |
| CustomerSearch.FromMetricsFrame | app/Customize/Repository/Extension/CustomerRepositoryExtension.php:118-242 | the sections after the profile add nothing on a profile column |
| CustomerSearch.ProfileOnDisjunction | app/Customize/Repository/Extension/CustomerRepositoryExtension.php:64-77 | the profile section's only disjunction is the `multi` term when it is given |
| CustomerSearch.MultiIsTheOnlyDisjunction | app/Customize/Repository/Extension/CustomerRepositoryExtension.php:64-77 | a given `multi` term is the search's only disjunction |
| CustomerSearch.MultiBranches | app/Customize/Repository/Extension/CustomerRepositoryExtension.php:64-77 | the disjunction is guarded id, name, kana and e-mail, all on the cleaned term, with no company or phone branch |
| CustomerSearch.ProfileOnBirthMonth | app/Customize/Repository/Extension/CustomerRepositoryExtension.php:98-102 | the profile section adds on the birth month exactly its guarded equality |
| CustomerSearch.BirthMonthFilter | app/Customize/Repository/Extension/CustomerRepositoryExtension.php:98-102 | a truthy birth month gives exactly one equality on `EXTRACT(MONTH FROM c.birth)`; null, 0, "" and "0" add nothing |
| CustomerSearch.ProfileOnBirth | app/Customize/Repository/Extension/CustomerRepositoryExtension.php:105-116 | the profile section adds on the birthday exactly its date-only range |
| CustomerSearch.BirthResolved | app/Customize/Repository/Extension/CustomerRepositoryExtension.php:105-116 | the birthday has only date bounds: start `>=` as given, end `<` one day later |
| CustomerSearch.MetricsOnPhone | app/Customize/Repository/Extension/CustomerRepositoryExtension.php:120-125 | the metrics section adds on the phone expression exactly the digits-only LIKE |
| CustomerSearch.PhoneDigitsOnly | app/Customize/Repository/Extension/CustomerRepositoryExtension.php:120-125 | a given phone number gives exactly one LIKE on the input's digits; otherwise nothing is added |
| CustomerSearch.MetricsOnBuyTotal | app/Customize/Repository/Extension/CustomerRepositoryExtension.php:128-137 | the metrics section adds on the purchase total exactly its two bounds, start first |
| CustomerSearch.MetricsOnBuyTimes | app/Customize/Repository/Extension/CustomerRepositoryExtension.php:140-149 | the metrics section adds on the purchase count exactly its two bounds, start first |
| CustomerSearch.BuyTotalInclusive | app/Customize/Repository/Extension/CustomerRepositoryExtension.php:128-137 | the purchase total is bounded by `>=` start and `<=` end, each only when given and not blank |
| CustomerSearch.BuyTimesInclusive | app/Customize/Repository/Extension/CustomerRepositoryExtension.php:140-149 | the purchase count is bounded by `>=` start and `<=` end, each only when given and not blank |
| CustomerSearch.DatesOnCreateDate | app/Customize/Repository/Extension/CustomerRepositoryExtension.php:152-174 | the date section adds exactly the resolved registration-date range |
| CustomerSearch.DatesOnUpdateDate | app/Customize/Repository/Extension/CustomerRepositoryExtension.php:177-199 | the date section adds exactly the resolved update-date range |
| CustomerSearch.DatesOnLastBuyDate | app/Customize/Repository/Extension/CustomerRepositoryExtension.php:202-224 | the date section adds exactly the resolved last-purchase range |
| CustomerSearch.CreateDateResolved | app/Customize/Repository/Extension/CustomerRepositoryExtension.php:152-174 | the search holds on `c.create_date` exactly the resolved range |
| CustomerSearch.UpdateDateResolved | app/Customize/Repository/Extension/CustomerRepositoryExtension.php:177-199 | the search holds on `c.update_date` exactly the resolved range |
| CustomerSearch.LastBuyDateResolved | app/Customize/Repository/Extension/CustomerRepositoryExtension.php:202-224 | the search holds on `c.last_buy_date` exactly the resolved range |
| CustomerSearch.DateColumnsResolved | app/Customize/Repository/Extension/CustomerRepositoryExtension.php:152-224 | each of the three date columns carries exactly its resolved range, where a date-time bound wins and only a date end is advanced |
| CustomerSearch.StatusOnStatus | app/Customize/Repository/Extension/CustomerRepositoryExtension.php:227-231 | the status section adds on `c.Status` exactly the chosen statuses |
| CustomerSearch.CustomerStatusFilter | app/Customize/Repository/Extension/CustomerRepositoryExtension.php:227-231 | chosen statuses give exactly one `IN`; with none there is no status conjunct and no default exclusion |
| CustomerSearch.StatusOnOrderStatus | app/Customize/Repository/Extension/CustomerRepositoryExtension.php:234-242 | the status section adds on the order status exactly the transient exclusion of a product search |
| CustomerSearch.ProductSearch | app/Customize/Repository/Extension/CustomerRepositoryExtension.php:234-242 | a product search adds the order and item joins and `NOT IN (PROCESSING, PENDING)`; without one there is neither |
| CustomerSearch.SortKeys | app/Customize/Repository/Extension/CustomerRepositoryExtension.php:23-25 | the accepted sort keys are "customer_id" for `c.id` and "name" for `c.name01`, or no key at all |
| CustomerSearch.NoCriteriaSearch | app/Customize/Repository/Extension/CustomerRepositoryExtension.php:59-256 | without criteria the customer search has no conjunct, no join, and orders by update date and id, descending |
| ShippingSearch.QueryBySearchDataForAdmin | app/Customize/Repository/Extension/ShippingRepositoryExtension.php:26-219 | the composer builds exactly `SearchQuery`: the base joins plus the payment join, the conjunction `Where`, the fixed ordering |
| ShippingSearch.AndWhereIdentity | app/Customize/Repository/Extension/ShippingRepositoryExtension.php:32-74 | the shipping id, `multi`, order id, order number and status steps append exactly `IdentityPredicates` |
| ShippingSearch.AndWhereAddressee | app/Customize/Repository/Extension/ShippingRepositoryExtension.php:75-129 | the name, kana, e-mail, phone and payment steps append exactly `AddresseePredicates` and the payment join |
| ShippingSearch.AndWhereDates | app/Customize/Repository/Extension/ShippingRepositoryExtension.php:131-212 | the date, payment total and product steps append exactly `DatePredicates` |
| ShippingSearch.OrderByFixed | app/Customize/Repository/Extension/ShippingRepositoryExtension.php:214-216 | the ordering becomes update date then id, both descending, replacing any earlier one |
| ShippingSearch.IdentityFrame | app/Customize/Repository/Extension/ShippingRepositoryExtension.php:32-74 | the identity steps add nothing outside their own columns |
| ShippingSearch.AddresseeFrame | app/Customize/Repository/Extension/ShippingRepositoryExtension.php:75-129 | the addressee steps add nothing outside their own columns |
| ShippingSearch.DatesFrame | app/Customize/Repository/Extension/ShippingRepositoryExtension.php:131-212 | the date steps add nothing outside their own columns |
| ShippingSearch.FromAddresseeFrame | app/Customize/Repository/Extension/ShippingRepositoryExtension.php:75-212 | the later sections add nothing on an identity column |
| ShippingSearch.UpToDatesFrame | app/Customize/Repository/Extension/ShippingRepositoryExtension.php:32-129 | nothing before the date section is about a date column |
| ShippingSearch.IdentityOnDisjunction | app/Customize/Repository/Extension/ShippingRepositoryExtension.php:39-46 | the identity section's only disjunction is the `multi` term when it is given |
| ShippingSearch.MultiIsTheOnlyDisjunction | app/Customize/Repository/Extension/ShippingRepositoryExtension.php:39-46 | a given `multi` term is the search's only disjunction; without one there is none |
| ShippingSearch.MultiIdUnguarded | app/Customize/Repository/Extension/ShippingRepositoryExtension.php:40-45 | the disjunction has six branches, and any term of at most ten digits is bound as the id as typed, whatever its value: there is no overflow guard |
| ShippingSearch.MultiIdNotCleaned | app/Customize/Repository/Extension/ShippingRepositoryExtension.php:40 | a whitespace character anywhere in the term, other than one final newline, makes the id branch bind null: the term is not cleaned |
| ShippingSearch.MultiLikesUncleaned | app/Customize/Repository/Extension/ShippingRepositoryExtension.php:41-45 | all five LIKE branches match the term as typed, so a term that holds whitespace is never searched in its cleaned form |
| ShippingSearch.MultiIdExamples | app/Customize/Repository/Extension/ShippingRepositoryExtension.php:40 | "12\n" passes the id pattern, "9999999999" passes with no overflow guard, and "1 2" binds null |
| ShippingSearch.IdentityOnShippingId | app/Customize/Repository/Extension/ShippingRepositoryExtension.php:33-53 | the identity section adds on `s.id` exactly its two bounds, start first |
| ShippingSearch.ShippingIdBounds | app/Customize/Repository/Extension/ShippingRepositoryExtension.php:33-53 | the shipping id is bounded inclusively on both sides, and by nothing else outside the disjunction |
| ShippingSearch.IdentityOnOrderNo | app/Customize/Repository/Extension/ShippingRepositoryExtension.php:63-67 | the identity section adds on the order number exactly its LIKE |
| ShippingSearch.OrderNoIsSubstring | app/Customize/Repository/Extension/ShippingRepositoryExtension.php:63-67 | the order number is matched as a substring, never by equality |
| ShippingSearch.IdentityOnOrderStatus | app/Customize/Repository/Extension/ShippingRepositoryExtension.php:70-74 | the identity section adds on the order status exactly the chosen statuses |
| ShippingSearch.OrderStatusFilter | app/Customize/Repository/Extension/ShippingRepositoryExtension.php:70-74 | chosen statuses give exactly one `IN`; with none there is no status conjunct and no default exclusion |
| ShippingSearch.AddresseeOnPhone | app/Customize/Repository/Extension/ShippingRepositoryExtension.php:112-117 | the addressee section adds on the phone expression exactly the digits-only LIKE |
| ShippingSearch.PhoneDigitsOnly | app/Customize/Repository/Extension/ShippingRepositoryExtension.php:112-117 | a given phone number gives exactly one LIKE on the input's digits; otherwise nothing is added |
| ShippingSearch.DatesOnOrderDate | app/Customize/Repository/Extension/ShippingRepositoryExtension.php:132-145 | the date section adds exactly the date-only order-date range |
| ShippingSearch.DatesOnDeliveryDate | app/Customize/Repository/Extension/ShippingRepositoryExtension.php:148-161 | the date section adds exactly the date-only delivery-date range |
| ShippingSearch.DatesOnShippingDate | app/Customize/Repository/Extension/ShippingRepositoryExtension.php:164-177 | the date section adds exactly the date-only shipping-date range |
| ShippingSearch.DatesOnUpdateDate | app/Customize/Repository/Extension/ShippingRepositoryExtension.php:180-193 | the date section adds exactly the date-only update-date range |
| ShippingSearch.OrderDateResolved | app/Customize/Repository/Extension/ShippingRepositoryExtension.php:132-145 | `o.order_date` has only date bounds: start `>=` as given, end `<` one day later |
| ShippingSearch.DeliveryDateResolved | app/Customize/Repository/Extension/ShippingRepositoryExtension.php:148-161 | `s.shipping_delivery_date` has only date bounds, resolved the same way |
| ShippingSearch.ShippingDateResolved | app/Customize/Repository/Extension/ShippingRepositoryExtension.php:164-177 | `s.shipping_date` has only date bounds, resolved the same way |
| ShippingSearch.UpdateDateResolved | app/Customize/Repository/Extension/ShippingRepositoryExtension.php:180-193 | `s.update_date` has only date bounds, resolved the same way |
| ShippingSearch.DateColumnsResolved | app/Customize/Repository/Extension/ShippingRepositoryExtension.php:132-193 | all four date columns use only the date variants, with the end advanced one day |
| ShippingSearch.AddresseeOnOrderKana | app/Customize/Repository/Extension/ShippingRepositoryExtension.php:97-101 | the addressee section adds on the orderer-kana expression exactly its LIKE |
| ShippingSearch.OrderKanaMixesAliases | app/Customize/Repository/Extension/ShippingRepositoryExtension.php:97-101 | the search filters on `CONCAT(o.kana01, s.kana02)`, the order's first kana with the shipping's second, by exactly one LIKE when the orderer kana is given and by nothing otherwise |
| ShippingSearch.NoCriteriaSearch | app/Customize/Repository/Extension/ShippingRepositoryExtension.php:26-219 | without criteria the shipment search has no conjunct, only the two base joins, and the fixed ordering |
| ShippingSearch.FixedOrdering | app/Customize/Repository/Extension/ShippingRepositoryExtension.php:214-216 | whatever the criteria, the ordering is exactly update date then id, descending, with no user key, and the base joins come first |

## Left out

- Query execution is not modelled. The composers end by calling `$this->queries->customize(...)` (app/Customize/Repository/Extension/OrderRepositoryExtension.php:354, app/Customize/Repository/Extension/CustomerRepositoryExtension.php:255), a framework extension hook that can rewrite the query. The model stops at the composed query value.
- The `select` / `addSelect` lists are not modelled. These are the fetched aliases, not filters (app/Customize/Repository/Extension/OrderRepositoryExtension.php:67-68).
- The names of `setParameter` placeholders are not modelled. Each parameter is inlined in its conjunct.
- Evaluation of SQL `LIKE`, `CONCAT`, `COALESCE`, `EXTRACT` and joins is not modelled. They stay symbolic. Only date-range bounds are evaluated, by `QueryModel.WithinRange`.
- `isPostgreSQL()` queries the database platform. It is a boolean parameter here.
- Date arithmetic is abstract. `DateTime::modify('+1 days')` is `AddDay` on a day number and a second of the day. Time zones and daylight-saving changes are not modelled.
- The order `COLUMNS` sort map is inherited from the framework's `OrderRepository` and is not part of this model. It is a parameter of the order composer.
- Both sortable composers index their map without a check and would fail on an unknown key. Both require that a given key is known (`QueryModel.SortKeyKnown`), rather than inventing a fallback.
- `StringUtil::isNotBlank` belongs to the framework and is not part of this model. It is approximated as "some character outside ASCII whitespace, vertical tab and U+3000". Other Unicode spaces are not treated as whitespace, and the same set stands in for PCRE's `\s` with the `u` modifier.
- PHP's loose numeric-string comparison `$multi > '2147483647'` appears as a comparison of the decimal values of the digits.
- String-typed amount bounds (payment total, purchase total and count) are bound as given, as strings. No numeric conversion is modelled.
- PHP truthiness of the customer `birth_month` is modelled for null, strings, integers and objects. Floats and arrays are not modelled.
- `Text.StripSpaces` does not model the failure of the `u`-mode cleaning regex. A Dafny string is a sequence of Unicode scalar values, so it cannot hold invalid UTF-8. On such input `preg_replace` returns null, and every LIKE parameter built from the cleaned `multi`, `name` or `kana` becomes `%%` (app/Customize/Repository/Extension/OrderRepositoryExtension.php:96, app/Customize/Repository/Extension/OrderRepositoryExtension.php:142, app/Customize/Repository/Extension/OrderRepositoryExtension.php:150, app/Customize/Repository/Extension/CustomerRepositoryExtension.php:66). The model always cleans successfully.
- The `%` and `_` characters of a user's term are not escaped in LIKE parameters. The model keeps them unescaped, as the source does.
- `QueryModel.RangePredicates`: its own ensures describe only the shape of a range. The bound values and the admitted rows, for every range, are stated by the lemmas `RangeBoundValues` and `RangeAdmits` beside it.
- The controllers, order helpers and form type extensions of the repository are not part of this model. They are HTTP, session, mail and form configuration code.
