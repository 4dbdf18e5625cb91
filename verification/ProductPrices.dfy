/** `2025-02-12-1445_migrate_product_prices.py`: the type and interval of prices move to their
    product, and the downgrade moves them back. */
module ProductPrices {
  import opened Sql

  datatype Price = Price(productId: Uuid, kind: Option<string>, recurringInterval: Option<string>, isArchived: bool)

  const ONE_TIME := "one_time"
  const RECURRING := "recurring"

  type Prices = map<Uuid, Price>
  /** recurring_interval of every product. */
  type Products = map<Uuid, Option<string>>

  /** Which of the joined prices the update of a product takes its interval from. */
  type Choice = Sql.Choice

  /** What the schema guarantees before the upgrade: prices have a product and a type. */
  predicate BeforeUpgrade(prices: Prices, products: set<Uuid>) {
    forall p :: p in prices ==> prices[p].productId in products && prices[p].kind.Some?
  }

  // ---------------------------------------------------------------- the statements

  /** UPDATE product_prices SET type = NULL WHERE type = 'one_time'. */
  function WithoutOneTime(prices: Prices): Prices {
    map p | p in prices :: if prices[p].kind == Some(ONE_TIME) then prices[p].(kind := None) else prices[p]
  }

  function ActiveRecurring(prices: Prices, product: Uuid): set<Uuid> {
    set p | p in prices && prices[p].productId == product && prices[p].kind == Some(RECURRING) && !prices[p].isArchived
  }

  /** single_recurring_price_product: GROUP BY product_id HAVING COUNT(*) = 1. */
  predicate SingleRecurring(prices: Prices, product: Uuid) {
    |ActiveRecurring(prices, product)| == 1
  }

  /** srp_product_price of one product: all of its prices, archived ones included. */
  function PricesOf(prices: Prices, product: Uuid): set<Uuid> {
    set p | p in prices && prices[p].productId == product
  }

  function MovedProducts(prices: Prices, products: Products, pick: Choice): (moved: Products)
    requires PicksAMatch(pick)
    ensures moved.Keys == products.Keys
  {
    map q | q in products ::
      var joined := PricesOf(prices, q);
      if SingleRecurring(prices, q) && joined != {} then
        assert pick(q, joined) in joined;
        prices[pick(q, joined)].recurringInterval
      else products[q]
  }

  function MovedPrices(prices: Prices): Prices {
    map p | p in prices ::
      if SingleRecurring(prices, prices[p].productId) then prices[p].(kind := None, recurringInterval := None)
      else prices[p]
  }

  /** UPDATE product_prices SET type = 'one_time' for products without an interval. */
  function BackToOneTime(prices: Prices, products: Products): Prices {
    map p | p in prices ::
      var q := prices[p].productId;
      if q in products && products[q].None? then prices[p].(kind := Some(ONE_TIME)) else prices[p]
  }

  /** UPDATE product_prices SET type = 'recurring', recurring_interval = ... for the others. */
  function BackToRecurring(prices: Prices, products: Products): Prices {
    map p | p in prices ::
      var q := prices[p].productId;
      if q in products && products[q].Some? then prices[p].(kind := Some(RECURRING), recurringInterval := products[q])
      else prices[p]
  }

  /** What the upgrade means: a price loses its type if it was one-time or its product has exactly one
      active recurring price; in the latter case the interval is the product's, taken from one of its
      prices, and no price's any more. Other products carry no interval, and their prices keep theirs. */
  ghost predicate IntervalsMoved(before: Prices, prices: Prices, products: Products) {
    && prices.Keys == before.Keys
    && (forall p :: p in prices ==> PriceMoved(before, p, prices[p]))
    && forall q :: q in products ==> ProductMoved(before, q, products[q])
  }

  predicate PriceMoved(before: Prices, p: Uuid, price: Price)
    requires p in before
  {
    var moved := SingleRecurring(before, before[p].productId);
    && price.productId == before[p].productId && price.isArchived == before[p].isArchived
    && price.kind == (if moved || before[p].kind == Some(ONE_TIME) then None else before[p].kind)
    && price.recurringInterval == if moved then None else before[p].recurringInterval
  }

  predicate ProductMoved(before: Prices, q: Uuid, interval: Option<string>) {
    if SingleRecurring(before, q) then exists p :: p in PricesOf(before, q) && interval == before[p].recurringInterval
    else interval == None
  }

  lemma UpgradeMoves(before: Prices, products: Products, pick: Choice)
    requires PicksAMatch(pick) && forall q :: q in products ==> products[q].None?
    ensures var middle := WithoutOneTime(before);
      IntervalsMoved(before, MovedPrices(middle), MovedProducts(middle, products, pick))
  {
    hide PicksAMatch, PricesOf, SingleRecurring, MovedProducts, PriceMoved, ProductMoved;
    var middle := WithoutOneTime(before);
    forall p | p in before ensures PriceMoved(before, p, MovedPrices(middle)[p]) {
      PriceIsMoved(before, p);
    }
    forall q | q in products ensures ProductMoved(before, q, MovedProducts(middle, products, pick)[q]) {
      ProductIsMoved(before, products, pick, q);
    }
  }

  lemma PriceIsMoved(before: Prices, p: Uuid)
    requires p in before
    ensures PriceMoved(before, p, MovedPrices(WithoutOneTime(before))[p])
  {
    hide ActiveRecurring;
    ActiveRecurringUnaffected(before, before[p].productId);
  }

  lemma ProductIsMoved(before: Prices, products: Products, pick: Choice, q: Uuid)
    requires PicksAMatch(pick) && q in products && products[q].None?
    ensures ProductMoved(before, q, MovedProducts(WithoutOneTime(before), products, pick)[q])
  {
    hide ActiveRecurring, PicksAMatch;
    ActiveRecurringUnaffected(before, q);
    if SingleRecurring(before, q) {
      PickedPrice(before, q, pick);
    }
  }

  /** No interval is recorded twice. */
  lemma IntervalsAreInOnePlace(before: Prices, prices: Prices, products: Products)
    requires IntervalsMoved(before, prices, products)
    ensures forall p | p in prices && prices[p].productId in products ::
      !(prices[p].recurringInterval.Some? && products[prices[p].productId].Some?)
  {
    hide SingleRecurring;
    forall p | p in prices && prices[p].productId in products
      ensures !(prices[p].recurringInterval.Some? && products[prices[p].productId].Some?)
    {
      assert PriceMoved(before, p, prices[p]) &&
        ProductMoved(before, prices[p].productId, products[prices[p].productId]);
    }
  }

  // ---------------------------------------------------------------- in columns

  ghost predicate IsActive(prices: Prices, p: Uuid, q: Uuid) {
    p in prices && prices[p].productId == q && prices[p].kind == Some("recurring") && !prices[p].isArchived
  }

  /** Exactly one recurring price of the product is not archived. */
  ghost predicate HasOneActive(prices: Prices, q: Uuid) {
    exists p :: IsActive(prices, p, q) && forall r :: IsActive(prices, r, q) ==> r == p
  }

  lemma OneActiveIff(prices: Prices, q: Uuid)
    ensures SingleRecurring(prices, q) <==> HasOneActive(prices, q)
  {
    var active := ActiveRecurring(prices, q);
    assert forall p :: p in active <==> IsActive(prices, p, q);
    hide IsActive, ActiveRecurring;
    if |active| == 1 {
      var p :| p in active;
      assert |active - {p}| == 0;
      assert forall r :: r in active && r != p ==> r in active - {p};
    }
    if p :| p in active && forall r :: r in active ==> r == p {
      assert active == {p};
    }
  }

  /** The upgrade takes the type from one-time prices, and type and interval from all prices of a product
      with exactly one active recurring price. Such a product takes the interval of one of its prices. */
  ghost predicate UpgradedColumns(before: Prices, prices: Prices, products: Products) {
    && prices.Keys == before.Keys
    && (forall p :: p in prices ==> IsUpgraded(before[p], prices[p], HasOneActive(before, before[p].productId)))
    && forall q :: q in products ==>
         if HasOneActive(before, q)
         then exists p :: p in before && before[p].productId == q && products[q] == before[p].recurringInterval
         else products[q] == None
  }

  ghost predicate IsUpgraded(before: Price, after: Price, single: bool) {
    && after.productId == before.productId && after.isArchived == before.isArchived
    && after.kind == (if single || before.kind == Some("one_time") then None else before.kind)
    && after.recurringInterval == if single then None else before.recurringInterval
  }

  /** The downgrade makes the prices of a product without an interval one-time, and those of a product
      with one recurring on it. */
  ghost predicate DowngradedColumns(before: Prices, prices: Prices, products: Products) {
    && prices.Keys == before.Keys
    && forall p | p in before && before[p].productId in products ::
         IsDowngraded(before[p], prices[p], products[before[p].productId])
  }

  ghost predicate IsDowngraded(before: Price, after: Price, interval: Option<string>) {
    && after.productId == before.productId && after.isArchived == before.isArchived
    && after.kind == (if interval.None? then Some("one_time") else Some("recurring"))
    && after.recurringInterval == if interval.None? then before.recurringInterval else interval
  }

  /** All prices of the product are as they were. */
  ghost predicate IsBack(before: Prices, after: Prices, q: Uuid) {
    forall p :: p in before && before[p].productId == q ==> p in after && after[p] == before[p]
  }

  /** All prices are one-time, or exactly one recurring one is active and all are recurring on one interval. */
  ghost predicate ComesBack(prices: Prices, q: Uuid) {
    || (forall p :: p in prices && prices[p].productId == q ==> prices[p].kind == Some("one_time"))
    || (HasOneActive(prices, q) && exists interval :: AllAre(prices, q, interval))
  }

  ghost predicate AllAre(prices: Prices, q: Uuid, interval: string) {
    forall p :: p in prices && prices[p].productId == q ==>
      prices[p].kind == Some("recurring") && prices[p].recurringInterval == Some(interval)
  }

  lemma UpgradeInColumns(before: Prices, prices: Prices, products: Products)
    requires IntervalsMoved(before, prices, products)
    ensures UpgradedColumns(before, prices, products)
  {
    hide HasOneActive, SingleRecurring;
    forall q | q in products || exists p :: p in before && before[p].productId == q
      ensures SingleRecurring(before, q) <==> HasOneActive(before, q)
    {
      OneActiveIff(before, q);
    }
    forall p | p in prices ensures IsUpgraded(before[p], prices[p], HasOneActive(before, before[p].productId)) {
      OneActiveIff(before, before[p].productId);
      assert PriceMoved(before, p, prices[p]);
    }
    forall q | q in products
      ensures if HasOneActive(before, q)
        then exists p :: p in before && before[p].productId == q && products[q] == before[p].recurringInterval
        else products[q] == None
    {
      OneActiveIff(before, q);
      assert ProductMoved(before, q, products[q]);
    }
  }

  lemma DowngradeInColumns(prices: Prices, products: Products)
    ensures DowngradedColumns(prices, BackToRecurring(BackToOneTime(prices, products), products), products)
  {
  }

  lemma RestoredInColumns(before: Prices, after: Prices, q: Uuid)
    requires forall p :: p in before ==> before[p].kind.Some?
    ensures Restored(before, after, q) <==> IsBack(before, after, q)
    ensures AllOneTime(before, q) || (SingleRecurring(before, q) && AllRecurringAlike(before, q)) <==>
      ComesBack(before, q)
  {
    hide HasOneActive, SingleRecurring;
    OneActiveIff(before, q);
    if HasOneActive(before, q) {
      ActiveIsPrice(before, q);
      AlikeIff(before, q);
    }
  }

  lemma ActiveIsPrice(prices: Prices, q: Uuid)
    requires HasOneActive(prices, q)
    ensures PricesOf(prices, q) != {}
  {
    var p :| IsActive(prices, p, q);
    assert p in PricesOf(prices, q);
  }

  lemma AlikeIff(prices: Prices, q: Uuid)
    requires PricesOf(prices, q) != {}
    ensures AllRecurringAlike(prices, q) <==> exists interval :: AllAre(prices, q, interval)
  {
    var p :| p in PricesOf(prices, q);
    if AllRecurringAlike(prices, q) {
      assert AllAre(prices, q, prices[p].recurringInterval.value);
    }
  }

  class Database {
    var products: Products
    var prices: Prices

    constructor (productIds: set<Uuid>, prices: Prices)
      ensures products == map q | q in productIds :: None
      ensures this.prices == prices
    {
      products := map q | q in productIds :: None;
      this.prices := prices;
    }

    /** The upgrade, on products whose new recurring_interval column is still NULL. Both updates of
        the second statement see the prices as the first statement left them. */
    method Upgrade(pick: Choice)
      requires PicksAMatch(pick) && forall q :: q in products ==> products[q].None?
      modifies this
      ensures prices == MovedPrices(WithoutOneTime(old(prices)))
      ensures products == MovedProducts(WithoutOneTime(old(prices)), old(products), pick)
      ensures IntervalsMoved(old(prices), prices, products)
      ensures UpgradedColumns(old(prices), prices, products)
    {
      hide MovedProducts, MovedPrices, WithoutOneTime, IntervalsMoved, PicksAMatch, UpgradedColumns;
      UpgradeMoves(prices, products, pick);
      UpgradeInColumns(prices, MovedPrices(WithoutOneTime(prices)),
        MovedProducts(WithoutOneTime(prices), products, pick));
      prices := WithoutOneTime(prices);
      products, prices := MovedProducts(prices, products, pick), MovedPrices(prices);
    }

    /** The downgrade. `ok` is the final SET NOT NULL on the type. */
    method Downgrade() returns (ok: bool)
      requires forall p :: p in prices ==> prices[p].productId in products
      modifies this`prices
      ensures ok
      ensures prices == BackToRecurring(BackToOneTime(old(prices), products), products)
      ensures DowngradedColumns(old(prices), prices, products)
    {
      DowngradeInColumns(prices, products);
      prices := BackToOneTime(prices, products);
      prices := BackToRecurring(prices, products);
      ok := forall p :: p in prices ==> prices[p].kind.Some?;
    }
  }

  // ---------------------------------------------------------------- the round trip

  /** The prices after upgrade and downgrade. */
  function RoundTrip(prices: Prices, products: set<Uuid>, pick: Choice): Prices
    requires PicksAMatch(pick)
  {
    var middle := WithoutOneTime(prices);
    var moved := MovedProducts(middle, map q | q in products :: None, pick);
    BackToRecurring(BackToOneTime(MovedPrices(middle), moved), moved)
  }

  predicate AllOneTime(prices: Prices, product: Uuid) {
    forall p :: p in PricesOf(prices, product) ==> prices[p].kind == Some(ONE_TIME)
  }

  predicate AllRecurringAlike(prices: Prices, product: Uuid) {
    && (forall p :: p in PricesOf(prices, product) ==>
      prices[p].kind == Some(RECURRING) && prices[p].recurringInterval.Some?)
    && (forall p, r :: p in PricesOf(prices, product) && r in PricesOf(prices, product) ==>
          prices[p].recurringInterval == prices[r].recurringInterval)
  }

  predicate Restored(prices: Prices, after: Prices, product: Uuid) {
    forall p :: p in PricesOf(prices, product) ==> p in after && after[p] == prices[p]
  }

  /** The first statement does not change which recurring prices are counted. */
  lemma ActiveRecurringUnaffected(prices: Prices, product: Uuid)
    ensures ActiveRecurring(WithoutOneTime(prices), product) == ActiveRecurring(prices, product)
    ensures PricesOf(WithoutOneTime(prices), product) == PricesOf(prices, product)
  {
  }

  /** The price whose interval a product with a single active recurring price takes. */
  lemma PickedPrice(prices: Prices, product: Uuid, pick: Choice)
    requires PicksAMatch(pick) && SingleRecurring(prices, product)
    ensures pick(product, PricesOf(prices, product)) in PricesOf(prices, product)
  {
    var p :| p in ActiveRecurring(prices, product);
    assert p in PricesOf(prices, product);
  }

  /** What a price has become after upgrade and downgrade. */
  function Returned(prices: Prices, p: Uuid, pick: Choice): Price
    requires PicksAMatch(pick) && p in prices
  {
    var product := prices[p].productId;
    if SingleRecurring(prices, product) then
      PickedPrice(prices, product, pick);
      var interval := prices[pick(product, PricesOf(prices, product))].recurringInterval;
      prices[p].(kind := Some(if interval.Some? then RECURRING else ONE_TIME), recurringInterval := interval)
    else
      prices[p].(kind := Some(ONE_TIME))
  }

  lemma RoundTripOfPrice(prices: Prices, products: set<Uuid>, pick: Choice, p: Uuid)
    requires PicksAMatch(pick) && BeforeUpgrade(prices, products) && p in prices
    ensures p in RoundTrip(prices, products, pick)
    ensures RoundTrip(prices, products, pick)[p] == Returned(prices, p, pick)
  {
    var product := prices[p].productId;
    ActiveRecurringUnaffected(prices, product);
    if SingleRecurring(prices, product) {
      PickedPrice(prices, product, pick);
    }
    hide ActiveRecurring, PricesOf, PicksAMatch;
  }

  lemma ReturnedSameIff(prices: Prices, pick: Choice, product: Uuid)
    requires PicksAMatch(pick) && forall p :: p in prices ==> prices[p].kind.Some?
    ensures (forall p :: p in PricesOf(prices, product) ==> Returned(prices, p, pick) == prices[p])
       <==> AllOneTime(prices, product) || (SingleRecurring(prices, product) && AllRecurringAlike(prices, product))
  {
    if SingleRecurring(prices, product) {
      PickedPrice(prices, product, pick);
      var active :| active in ActiveRecurring(prices, product);
      assert active in PricesOf(prices, product) && prices[active].kind == Some(RECURRING);
    }
    hide PicksAMatch, ActiveRecurring, SingleRecurring;
  }

  /** Exactly the products with one-time prices only, and those with one active recurring price
      whose prices are all recurring on one interval, get their prices back, whatever price the
      database takes the interval from. */
  lemma RestoredIff(prices: Prices, products: set<Uuid>, pick: Choice, product: Uuid)
    requires PicksAMatch(pick) && BeforeUpgrade(prices, products) && product in products
    ensures Restored(prices, RoundTrip(prices, products, pick), product)
       <==> AllOneTime(prices, product) || (SingleRecurring(prices, product) && AllRecurringAlike(prices, product))
  {
    hide RoundTrip, Returned, PicksAMatch, SingleRecurring, AllOneTime, AllRecurringAlike;
    ReturnedSameIff(prices, pick, product);
    forall p | p in PricesOf(prices, product)
      ensures p in RoundTrip(prices, products, pick) &&
        RoundTrip(prices, products, pick)[p] == Returned(prices, p, pick)
    {
      RoundTripOfPrice(prices, products, pick, p);
    }
  }

  /** A recurring price of a product with no or several active recurring prices comes back as
      one_time, with its interval still set. */
  lemma OthersComeBackOneTime(prices: Prices, products: set<Uuid>, pick: Choice, p: Uuid)
    requires PicksAMatch(pick) && BeforeUpgrade(prices, products)
    requires p in prices && !SingleRecurring(prices, prices[p].productId)
    ensures p in RoundTrip(prices, products, pick)
    ensures RoundTrip(prices, products, pick)[p] == prices[p].(kind := Some(ONE_TIME))
  {
    RoundTripOfPrice(prices, products, pick, p);
  }

  /** An archived price does not count as active, but its interval does: such a product with another
      interval on its archived price does not get it back. */
  lemma ArchivedIntervalIsLost()
    ensures var monthly := Price(1, Some("recurring"), Some("month"), false);
      var archived := Price(1, Some("recurring"), Some("year"), true);
      var prices := map[7 := monthly, 8 := archived];
      HasOneActive(prices, 1) && !ComesBack(prices, 1) && ComesBack(map[7 := monthly], 1)
  {
    var monthly := Price(1, Some("recurring"), Some("month"), false);
    var archived := Price(1, Some("recurring"), Some("year"), true);
    var prices := map[7 := monthly, 8 := archived];
    assert 7 in prices && 8 in prices && IsActive(prices, 7, 1);
    assert forall r :: IsActive(prices, r, 1) ==> r == 7;
    var one := map[7 := monthly];
    assert 7 in one && IsActive(one, 7, 1);
    assert AllAre(one, 1, "month");
  }

  /** A product with two active recurring prices does not get them back. */
  lemma TwoActivePricesAreLost(pick: Choice)
    requires PicksAMatch(pick)
    ensures var monthly := Price(1, Some(RECURRING), Some("month"), false);
      var prices := map[7 := monthly, 8 := monthly.(recurringInterval := Some("year"))];
      BeforeUpgrade(prices, {1}) && !Restored(prices, RoundTrip(prices, {1}, pick), 1)
  {
    hide RoundTrip, PicksAMatch;
    var monthly := Price(1, Some(RECURRING), Some("month"), false);
    var prices := map[7 := monthly, 8 := monthly.(recurringInterval := Some("year"))];
    assert 7 in prices && 8 in prices && ActiveRecurring(prices, 1) == {7, 8};
    OthersComeBackOneTime(prices, {1}, pick, 7);
    assert 7 in PricesOf(prices, 1);
  }

  /** Both directions run one after the other on a database. */
  method UpgradeThenDowngrade(db: Database, pick: Choice) returns (ok: bool)
    requires PicksAMatch(pick) && BeforeUpgrade(db.prices, db.products.Keys)
    requires forall q :: q in db.products ==> db.products[q].None?
    modifies db
    ensures ok && db.prices.Keys == old(db.prices).Keys
    ensures forall q :: q in db.products ==> (IsBack(old(db.prices), db.prices, q) <==> ComesBack(old(db.prices), q))
  {
    hide IsBack, ComesBack, PicksAMatch, IntervalsMoved, UpgradedColumns, DowngradedColumns, RoundTrip;
    ghost var prices := db.prices;
    ghost var products := db.products.Keys;
    ghost var none := map q | q in products :: None;
    assert db.products == none;
    RoundTripIs(prices, products, pick);
    db.Upgrade(pick);
    ok := db.Downgrade();
    forall q | q in products ensures IsBack(prices, db.prices, q) <==> ComesBack(prices, q) {
      RestoredIff(prices, products, pick, q);
      RestoredInColumns(prices, db.prices, q);
    }
    RestoredForAll(prices, products, pick);
  }

  lemma RoundTripIs(prices: Prices, products: set<Uuid>, pick: Choice)
    requires PicksAMatch(pick)
    ensures var none := map q | q in products :: None;
      var middle := WithoutOneTime(prices);
      var moved := MovedProducts(middle, none, pick);
      RoundTrip(prices, products, pick) == BackToRecurring(BackToOneTime(MovedPrices(middle), moved), moved)
  {
  }

  lemma RestoredForAll(prices: Prices, products: set<Uuid>, pick: Choice)
    requires PicksAMatch(pick) && BeforeUpgrade(prices, products)
    ensures RoundTrip(prices, products, pick).Keys == prices.Keys
    ensures forall q :: q in products ==>
      (Restored(prices, RoundTrip(prices, products, pick), q) <==>
        || AllOneTime(prices, q)
        || (SingleRecurring(prices, q) && AllRecurringAlike(prices, q)))
  {
    hide Restored, AllOneTime, AllRecurringAlike, SingleRecurring, PicksAMatch;
    forall q | q in products
      ensures Restored(prices, RoundTrip(prices, products, pick), q) <==>
        AllOneTime(prices, q) || (SingleRecurring(prices, q) && AllRecurringAlike(prices, q))
    {
      RestoredIff(prices, products, pick, q);
    }
  }
}
