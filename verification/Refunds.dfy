/** `2025-01-08-0000_add_refunds.py`: refunds are recorded for the refund transactions, linked both
    ways, and added up per order. */
module Refunds {
  import opened Sql
  import opened Totals

  datatype Transaction = Transaction(kind: string, refundId: Option<string>, deletedAt: Option<int>, amount: int,
                                     taxAmount: int, orderId: Option<Uuid>, polarRefundId: Option<Uuid>)

  /** A refund, with the temporary column refund_transaction_id. */
  datatype Refund = Refund(status: string, amount: int, taxAmount: int, processorId: string, orderId: Option<Uuid>,
                           subscriptionId: Option<Uuid>, organizationId: Option<Uuid>, customerId: Option<Uuid>,
                           transactionId: Uuid)

  datatype Order = Order(amount: int, taxAmount: int, productId: Uuid, subscriptionId: Option<Uuid>, customerId: Uuid,
                         status: Option<string>, refundedAmount: Option<int>, refundedTaxAmount: Option<int>)

  type Transactions = map<Uuid, Transaction>
  type RefundRows = map<Uuid, Refund>
  type Orders = map<Uuid, Order>

  const REFUND := "refund"
  const SUCCEEDED := "succeeded"
  const REFUNDED := "refunded"
  const PARTIALLY_REFUNDED := "partially_refunded"
  const PAID := "paid"

  function Abs(x: int): int {
    if x < 0 then -x else x
  }

  /** The transactions that become refunds. */
  predicate Live(t: Transaction) {
    t.kind == REFUND && t.refundId.Some? && t.deletedAt.None?
  }

  /** UNIQUE (processor_id) on refunds asks this of the transactions' refund ids. */
  predicate DistinctRefundIds(transactions: Transactions) {
    forall t, u | t in transactions && u in transactions && Live(transactions[t]) && Live(transactions[u])
      && transactions[t].refundId == transactions[u].refundId :: t == u
  }

  /** refunds.amount and refunds.tax_amount are INTEGERs, and ABS of the least INTEGER is none. */
  predicate AmountsFit(transactions: Transactions) {
    forall t :: t in transactions && Live(transactions[t]) ==>
      FitsInteger(Abs(transactions[t].amount)) && FitsInteger(Abs(transactions[t].taxAmount))
  }

  // ---------------------------------------------------------------- closed forms

  function RefundOf(t: Transaction, id: Uuid): Refund
    requires Live(t)
  {
    Refund(SUCCEEDED, Abs(t.amount), Abs(t.taxAmount), t.refundId.value, t.orderId, None, None, None, id)
  }

  /** One refund for every live refund transaction. */
  function RefundsFor(transactions: Transactions, newId: Uuid -> Uuid): RefundRows
    requires Injective(newId)
  {
    map t | t in transactions && Live(transactions[t]) :: newId(t) := RefundOf(transactions[t], t)
  }

  function Linked(transactions: Transactions, newId: Uuid -> Uuid): Transactions {
    map t | t in transactions ::
      if Live(transactions[t]) then transactions[t].(polarRefundId := Some(newId(t))) else transactions[t]
  }

  function WithOrderColumns(r: Refund, orders: Orders, products: map<Uuid, Uuid>): Refund {
    if r.orderId.Some? && r.orderId.value in orders && orders[r.orderId.value].productId in products then
      var o := orders[r.orderId.value];
      r.(subscriptionId := o.subscriptionId, organizationId := Some(products[o.productId]),
        customerId := Some(o.customerId))
    else r
  }

  // ---------------------------------------------------------------- adding up

  /** amount or tax_amount. */
  datatype Column = Amount | Tax

  function RefundColumn(r: Refund, c: Column): int {
    if c == Amount then r.amount else r.taxAmount
  }

  predicate Counted(r: Refund) {
    r.status == SUCCEEDED && r.orderId.Some?
  }

  function Amounts(refunds: RefundRows, c: Column): map<Uuid, int> {
    map r | r in refunds && Counted(refunds[r]) :: RefundColumn(refunds[r], c)
  }

  function OrderOf(refunds: RefundRows): map<Uuid, Uuid> {
    map r | r in refunds && Counted(refunds[r]) :: refunds[r].orderId.value
  }

  predicate HasRefund(refunds: RefundRows, order: Uuid) {
    exists r :: r in refunds && Counted(refunds[r]) && refunds[r].orderId == Some(order)
  }

  /** SUM(column) of the refunds of one order. */
  function Refunded(refunds: RefundRows, c: Column, order: Uuid): int {
    Total(Group(Amounts(refunds, c), OrderOf(refunds), order))
  }

  /** order_refunds.status, or 'paid' where the LEFT JOIN or the CASE gives NULL. */
  function Status(o: Order, hasRefund: bool, amount: int, tax: int): string {
    if !hasRefund then PAID
    else if amount == o.amount && tax == o.taxAmount then REFUNDED
    else if amount < o.amount || tax < o.taxAmount then PARTIALLY_REFUNDED
    else PAID
  }

  function Settled(o: Order, id: Uuid, refunds: RefundRows): Order {
    var amount, tax := Refunded(refunds, Amount, id), Refunded(refunds, Tax, id);
    if HasRefund(refunds, id)
    then
      o.(status := Some(Status(o, true, amount, tax)), refundedAmount := Some(amount), refundedTaxAmount := Some(tax))
    else o.(status := Some(Status(o, false, 0, 0)), refundedAmount := Some(0), refundedTaxAmount := Some(0))
  }

  function SettledOrders(orders: Orders, refunds: RefundRows): Orders {
    map o | o in orders :: Settled(orders[o], o, refunds)
  }

  function SettledColumn(o: Order, c: Column): int {
    match (if c == Amount then o.refundedAmount else o.refundedTaxAmount)
    case Some(x) => x
    case None => 0
  }

  /** orders.refunded_amount or orders.refunded_tax_amount of every order. */
  function RefundedColumn(orders: Orders, c: Column): map<Uuid, int> {
    map o | o in orders :: SettledColumn(orders[o], c)
  }

  // ---------------------------------------------------------------- lemmas

  /** Refunds and live refund transactions correspond one to one, each pointing at the other. */
  lemma OneRefundPerTransaction(transactions: Transactions, newId: Uuid -> Uuid)
    requires Injective(newId) && forall t :: t in transactions ==> transactions[t].polarRefundId.None?
    ensures var refunds, linked := RefundsFor(transactions, newId), Linked(transactions, newId);
      && (forall t :: t in transactions && Live(transactions[t]) ==>
            && linked[t].polarRefundId.Some? && linked[t].polarRefundId.value in refunds
            && refunds[linked[t].polarRefundId.value] == RefundOf(transactions[t], t))
      && (forall t :: t in transactions && !Live(transactions[t]) ==> linked[t] == transactions[t])
      && (forall r :: r in refunds ==>
            && refunds[r].transactionId in transactions && Live(transactions[refunds[r].transactionId])
            && linked[refunds[r].transactionId].polarRefundId == Some(r))
  {
  }

  /** The unique index on processor_id accepts the refunds exactly when no two live refund
      transactions carry the same refund id. */
  lemma InsertSucceedsIff(transactions: Transactions, newId: Uuid -> Uuid)
    requires Injective(newId)
    ensures UniqueProcessorIds(RefundsFor(transactions, newId)) <==> DistinctRefundIds(transactions)
  {
    var refunds := RefundsFor(transactions, newId);
    forall t | t in transactions && Live(transactions[t])
      ensures newId(t) in refunds && refunds[newId(t)].processorId == transactions[t].refundId.value
    {
    }
  }

  predicate UniqueProcessorIds(refunds: RefundRows) {
    forall r, s | r in refunds && s in refunds && refunds[r].processorId == refunds[s].processorId :: r == s
  }

  /** What the sums per order add up to: every counted refund of an existing order. */
  lemma OrdersAddUp(orders: Orders, refunds: RefundRows, c: Column)
    requires forall r :: r in refunds && refunds[r].orderId.Some? ==> refunds[r].orderId.value in orders
    ensures Total(RefundedColumn(SettledOrders(orders, refunds), c)) == Total(Amounts(refunds, c))
  {
    var amounts, orderOf := Amounts(refunds, c), OrderOf(refunds);
    TotalOfGroups(amounts, orderOf, orders.Keys);
    assert Grouped(amounts, orderOf, orders.Keys) == amounts;
    hide Amounts, OrderOf, Settled, HasRefund, Total, Group;
    forall o | o in orders
      ensures SettledColumn(Settled(orders[o], o, refunds), c) == Total(Group(amounts, orderOf, o))
    {
      SettledIsTotal(orders[o], o, refunds, c);
    }
    assert GroupTotals(amounts, orderOf, orders.Keys) == RefundedColumn(SettledOrders(orders, refunds), c);
  }

  lemma SettledIsTotal(order: Order, o: Uuid, refunds: RefundRows, c: Column)
    ensures SettledColumn(Settled(order, o, refunds), c) == Total(Group(Amounts(refunds, c), OrderOf(refunds), o))
  {
    if !HasRefund(refunds, o) {
      assert Group(Amounts(refunds, c), OrderOf(refunds), o) == map[];
    }
  }

  function TransactionColumn(t: Transaction, c: Column): int {
    if c == Amount then t.amount else t.taxAmount
  }

  /** The absolute amounts of the live refund transactions that belong to an order. */
  function LiveAmounts(transactions: Transactions, c: Column): map<Uuid, int> {
    map t | t in transactions && Live(transactions[t]) && transactions[t].orderId.Some? ::
      Abs(TransactionColumn(transactions[t], c))
  }

  /** Money is conserved: what the orders say was refunded is what the live refund transactions
      with an order say, in amount and in tax. */
  lemma RefundsConserved(transactions: Transactions, newId: Uuid -> Uuid, orders: Orders, products: map<Uuid, Uuid>,
                         refunds: RefundRows, c: Column)
    requires Injective(newId)
    requires forall t :: t in transactions && transactions[t].orderId.Some? ==> transactions[t].orderId.value in orders
    requires RefundsLinked(refunds, transactions, newId, orders, products)
    ensures Total(RefundedColumn(SettledOrders(orders, refunds), c)) == Total(LiveAmounts(transactions, c))
  {
    LinkedAmounts(transactions, newId, orders, products, refunds, c);
    hide RefundsLinked, Amounts, LiveAmounts, Settled, Renamed, Injective;
    OrdersAddUp(orders, refunds, c);
    TotalRenamed(LiveAmounts(transactions, c), newId);
  }

  lemma LinkedAmounts(transactions: Transactions, newId: Uuid -> Uuid, orders: Orders, products: map<Uuid, Uuid>,
                      refunds: RefundRows, c: Column)
    requires Injective(newId)
    requires forall t :: t in transactions && transactions[t].orderId.Some? ==> transactions[t].orderId.value in orders
    requires RefundsLinked(refunds, transactions, newId, orders, products)
    ensures Amounts(refunds, c) == Renamed(LiveAmounts(transactions, c), newId)
    ensures forall r :: r in refunds && refunds[r].orderId.Some? ==> refunds[r].orderId.value in orders
  {
    var live, amounts := LiveAmounts(transactions, c), Amounts(refunds, c);
    forall t | t in live ensures newId(t) in amounts && amounts[newId(t)] == live[t] {
      LinkedRefund(transactions, newId, orders, products, refunds, t);
    }
    forall r | r in refunds ensures refunds[r].orderId.Some? ==> refunds[r].orderId.value in orders
                            ensures r in amounts ==> exists t :: t in live && r == newId(t) {
      var t :| t in transactions && Live(transactions[t]) && r == newId(t);
      LinkedRefund(transactions, newId, orders, products, refunds, t);
    }
    hide RefundsLinked, RefundsFor, Amounts, LiveAmounts;
    RenamedIs(live, newId, amounts);
  }

  lemma LinkedRefund(transactions: Transactions, newId: Uuid -> Uuid, orders: Orders, products: map<Uuid, Uuid>,
                     refunds: RefundRows, t: Uuid)
    requires Injective(newId) && RefundsLinked(refunds, transactions, newId, orders, products)
    requires t in transactions && Live(transactions[t])
    ensures newId(t) in refunds && refunds[newId(t)] == WithOrderColumns(RefundOf(transactions[t], t), orders, products)
  {
    assert newId(t) in RefundsFor(transactions, newId);
  }

  /** The order of every live refund transaction that has one. */
  function OrderIds(transactions: Transactions): map<Uuid, Uuid> {
    map t | t in transactions && Live(transactions[t]) && transactions[t].orderId.Some? :: transactions[t].orderId.value
  }

  /** What the live refund transactions of one order add up to. */
  function OrderTotal(transactions: Transactions, c: Column, order: Uuid): int {
    Total(Group(LiveAmounts(transactions, c), OrderIds(transactions), order))
  }

  /** Money is conserved order by order, too. */
  lemma RefundedPerOrder(transactions: Transactions, newId: Uuid -> Uuid, orders: Orders, products: map<Uuid, Uuid>,
                         refunds: RefundRows, c: Column, order: Uuid)
    requires Injective(newId) && RefundsLinked(refunds, transactions, newId, orders, products)
    ensures Refunded(refunds, c, order) == OrderTotal(transactions, c, order)
  {
    hide Total, RefundsLinked, Live, WithOrderColumns;
    var live := Group(LiveAmounts(transactions, c), OrderIds(transactions), order);
    var group := Group(Amounts(refunds, c), OrderOf(refunds), order);
    forall t | t in live ensures newId(t) in group && group[newId(t)] == live[t] {
      LinkedColumns(transactions, newId, orders, products, refunds, t);
    }
    forall r | r in group ensures exists t :: t in live && r == newId(t) {
      var t := TransactionOf(transactions, newId, orders, products, refunds, r);
      LinkedColumns(transactions, newId, orders, products, refunds, t);
      assert t in live;
    }
    hide *;
    RenamedIs(live, newId, group);
    TotalRenamed(live, newId);
    RefundedIs(refunds, c, order);
  }

  lemma RefundedIs(refunds: RefundRows, c: Column, order: Uuid)
    ensures Refunded(refunds, c, order) == Total(Group(Amounts(refunds, c), OrderOf(refunds), order))
  {
  }

  lemma TransactionOf(transactions: Transactions, newId: Uuid -> Uuid, orders: Orders, products: map<Uuid, Uuid>,
                      refunds: RefundRows, r: Uuid) returns (t: Uuid)
    requires Injective(newId) && RefundsLinked(refunds, transactions, newId, orders, products) && r in refunds
    ensures t in transactions && Live(transactions[t]) && r == newId(t)
  {
    hide Live, WithOrderColumns;
    t :| t in transactions && Live(transactions[t]) && r == newId(t);
  }

  lemma LinkedColumns(transactions: Transactions, newId: Uuid -> Uuid, orders: Orders, products: map<Uuid, Uuid>,
                      refunds: RefundRows, t: Uuid)
    requires Injective(newId) && RefundsLinked(refunds, transactions, newId, orders, products)
    requires t in transactions && Live(transactions[t])
    ensures newId(t) in refunds && refunds[newId(t)].orderId == transactions[t].orderId
    ensures refunds[newId(t)].status == SUCCEEDED
    ensures forall c :: RefundColumn(refunds[newId(t)], c) == Abs(TransactionColumn(transactions[t], c))
  {
    hide RefundsLinked, Injective;
    LinkedRefund(transactions, newId, orders, products, refunds, t);
  }

  /** orders.refunded_amount and orders.refunded_tax_amount are INTEGERs. */
  predicate TotalsFit(transactions: Transactions, orders: set<Uuid>) {
    forall o :: o in orders ==>
      FitsInteger(OrderTotal(transactions, Amount, o)) && FitsInteger(OrderTotal(transactions, Tax, o))
  }

  /** What the migration needs of the data. */
  predicate CanBackfill(transactions: Transactions, orders: set<Uuid>) {
    DistinctRefundIds(transactions) && AmountsFit(transactions) && TotalsFit(transactions, orders)
  }

  predicate SettledFit(orders: Orders) {
    forall o :: o in orders ==>
      FitsInteger(SettledColumn(orders[o], Amount)) && FitsInteger(SettledColumn(orders[o], Tax))
  }

  lemma SettledFitIff(transactions: Transactions, newId: Uuid -> Uuid, orders: Orders, products: map<Uuid, Uuid>,
                      refunds: RefundRows)
    requires Injective(newId) && RefundsLinked(refunds, transactions, newId, orders, products)
    ensures SettledFit(SettledOrders(orders, refunds)) <==> TotalsFit(transactions, orders.Keys)
  {
    hide Settled, SettledColumn, OrderTotal, Refunded, FitsInteger, RefundsLinked, Injective;
    var settled := SettledOrders(orders, refunds);
    forall o, c: Column | o in orders ensures SettledColumn(settled[o], c) == OrderTotal(transactions, c, o) {
      SettledIsTotal(orders[o], o, refunds, c);
      RefundedIs(refunds, c, o);
      RefundedPerOrder(transactions, newId, orders, products, refunds, c, o);
    }
  }

  function RefundOfOrder(refundId: string, amount: int): Transaction {
    Transaction(REFUND, Some(refundId), None, amount, 0, Some(5), None)
  }

  /** Two refunds with one refund id. */
  lemma DuplicateRefundIdStops()
    ensures !CanBackfill(map[1 := RefundOfOrder("a", -1), 2 := RefundOfOrder("a", -1)], {5})
  {
    hide AmountsFit, TotalsFit;
    var two := map[1 := RefundOfOrder("a", -1), 2 := RefundOfOrder("a", -1)];
    assert 1 in two && 2 in two && Live(two[1]) && Live(two[2]);
  }

  /** An amount whose absolute value is no INTEGER. */
  lemma LeastAmountStops()
    ensures !CanBackfill(map[1 := RefundOfOrder("a", -0x8000_0000)], {5})
  {
    hide DistinctRefundIds, TotalsFit;
    var one := map[1 := RefundOfOrder("a", -0x8000_0000)];
    assert 1 in one && Live(one[1]);
  }

  function TwoRefunds(): Transactions {
    map[1 := RefundOfOrder("a", -0x4000_0000), 2 := RefundOfOrder("b", -0x4000_0000)]
  }

  /** Two refunds of one order whose sum is none. */
  lemma LargeSumStops()
    ensures DistinctRefundIds(TwoRefunds()) && AmountsFit(TwoRefunds()) && !CanBackfill(TwoRefunds(), {5})
  {
    hide Group, LiveAmounts, OrderIds, Total;
    GroupOfTwo();
    TotalOfTwo(0x4000_0000, 0x4000_0000);
  }

  lemma GroupOfTwo()
    ensures Group(LiveAmounts(TwoRefunds(), Amount), OrderIds(TwoRefunds()), 5)
      == map[1 := 0x4000_0000, 2 := 0x4000_0000]
  {
  }

  lemma TotalOfTwo(x: int, y: int)
    ensures Total(map[1 := x, 2 := y]) == x + y
  {
    hide Total;
    var m := map[1 := x, 2 := y];
    TotalRemove(m, 1);
    TotalRemove(m - {1}, 2);
    assert m - {1} - {2} == map[];
    TotalOfNone();
  }

  lemma TotalOfNone()
    ensures Total(map[]) == 0
  {
  }

  /** The refunds after the insert and the update that copies columns of their order. */
  ghost predicate RefundsLinked(refunds: RefundRows, transactions: Transactions, newId: Uuid -> Uuid, orders: Orders,
                                products: map<Uuid, Uuid>)
    requires Injective(newId)
  {
    && refunds.Keys == RefundsFor(transactions, newId).Keys
    && forall r :: r in refunds ==> refunds[r] == WithOrderColumns(RefundsFor(transactions, newId)[r], orders, products)
  }

  /** An order with refunds is left 'paid' exactly when neither component is under-refunded and at
      least one is over-refunded; the three statuses exclude each other. */
  lemma StatusMeaning(o: Order, id: Uuid, refunds: RefundRows)
    requires HasRefund(refunds, id)
    ensures var s := Settled(o, id, refunds);
      var amount, tax := Refunded(refunds, Amount, id), Refunded(refunds, Tax, id);
      && (s.status == Some(REFUNDED) <==> amount == o.amount && tax == o.taxAmount)
      && (s.status == Some(PARTIALLY_REFUNDED) <==> amount < o.amount || tax < o.taxAmount)
      && (s.status == Some(PAID) <==>
            amount >= o.amount && tax >= o.taxAmount && (amount > o.amount || tax > o.taxAmount))
  {
  }

  // ---------------------------------------------------------------- in columns

  /** A refund transaction that has a refund id and is not deleted. */
  ghost predicate IsLive(t: Transaction) {
    t.kind == "refund" && t.refundId.Some? && t.deletedAt.None?
  }

  /** Every such transaction has a refund with its columns and those of its order, and is linked to it.
      There are no other refunds, and the other transactions are as before. */
  ghost predicate RefundsAdded(before: Transactions, after: Transactions, refunds: RefundRows, orders: Orders,
                               products: map<Uuid, Uuid>) {
    && after.Keys == before.Keys
    && (forall t :: t in before && !IsLive(before[t]) ==> after[t] == before[t])
    && (forall t :: t in before && IsLive(before[t]) ==>
         && after[t].polarRefundId.Some? && after[t] == before[t].(polarRefundId := after[t].polarRefundId)
         && after[t].polarRefundId.value in refunds
         && IsRefundOf(refunds[after[t].polarRefundId.value], t, before[t], orders, products))
    && forall r :: r in refunds ==>
         refunds[r].transactionId in before && IsLive(before[refunds[r].transactionId])
         && after[refunds[r].transactionId].polarRefundId == Some(r)
  }

  ghost predicate IsRefundOf(r: Refund, id: Uuid, t: Transaction, orders: Orders, products: map<Uuid, Uuid>) {
    && r.transactionId == id && r.status == "succeeded" && t.refundId == Some(r.processorId) && r.orderId == t.orderId
    && (r.amount == t.amount || r.amount == -t.amount) && r.amount >= 0
    && (r.taxAmount == t.taxAmount || r.taxAmount == -t.taxAmount) && r.taxAmount >= 0
    && (t.orderId.None? ==> r.subscriptionId == None && r.organizationId == None && r.customerId == None)
    && (t.orderId.Some? && t.orderId.value in orders && orders[t.orderId.value].productId in products ==>
         && r.subscriptionId == orders[t.orderId.value].subscriptionId
         && r.organizationId == Some(products[orders[t.orderId.value].productId])
         && r.customerId == Some(orders[t.orderId.value].customerId))
  }

  /** What was refunded of an order, in amount or in tax. */
  ghost function AmountBack(transactions: Transactions, order: Uuid): int {
    Total(AmountsBack(transactions, order))
  }

  ghost function TaxBack(transactions: Transactions, order: Uuid): int {
    Total(TaxesBack(transactions, order))
  }

  ghost function AmountsBack(transactions: Transactions, order: Uuid): map<Uuid, int> {
    map t | t in transactions && IsLive(transactions[t]) && transactions[t].orderId == Some(order)
      :: if transactions[t].amount < 0 then -transactions[t].amount else transactions[t].amount
  }

  ghost function TaxesBack(transactions: Transactions, order: Uuid): map<Uuid, int> {
    map t | t in transactions && IsLive(transactions[t]) && transactions[t].orderId == Some(order)
      :: if transactions[t].taxAmount < 0 then -transactions[t].taxAmount else transactions[t].taxAmount
  }

  ghost predicate IsRefunded(transactions: Transactions, order: Uuid) {
    exists t :: t in transactions && IsLive(transactions[t]) && transactions[t].orderId == Some(order)
  }

  /** Every order keeps its columns and gets what was refunded of it. Without a refund it is paid; with
      refunds it is refunded when both parts are met, partially refunded when one falls short, and paid
      when neither does and one is exceeded. */
  ghost predicate OrdersSettled(transactions: Transactions, before: Orders, after: Orders) {
    && after.Keys == before.Keys
    && forall o | o in before :: IsSettled(before[o], after[o], IsRefunded(transactions, o),
         AmountBack(transactions, o), TaxBack(transactions, o))
  }

  ghost predicate IsSettled(before: Order, after: Order, refunded: bool, amount: int, tax: int) {
    && after.amount == before.amount && after.taxAmount == before.taxAmount && after.productId == before.productId
    && after.subscriptionId == before.subscriptionId && after.customerId == before.customerId
    && after.refundedAmount == Some(amount) && after.refundedTaxAmount == Some(tax)
    && (!refunded ==> amount == 0 && tax == 0 && after.status == Some("paid"))
    && (refunded && amount == before.amount && tax == before.taxAmount ==> after.status == Some("refunded"))
    && (refunded && (amount < before.amount || tax < before.taxAmount) ==> after.status == Some("partially_refunded"))
    && (refunded && !(amount == before.amount && tax == before.taxAmount)
        && amount >= before.amount && tax >= before.taxAmount ==>
          after.status == Some("paid"))
  }

  ghost predicate MayBackfill(transactions: Transactions, orders: set<Uuid>) {
    && (forall t, u | t in transactions && u in transactions && IsLive(transactions[t]) && IsLive(transactions[u])
         && transactions[t].refundId == transactions[u].refundId :: t == u)
    && (forall t :: t in transactions && IsLive(transactions[t]) ==>
         -0x7fff_ffff <= transactions[t].amount <= 0x7fff_ffff &&
           -0x7fff_ffff <= transactions[t].taxAmount <= 0x7fff_ffff)
    && forall o :: o in orders ==>
         -0x8000_0000 <= AmountBack(transactions, o) <= 0x7fff_ffff &&
           -0x8000_0000 <= TaxBack(transactions, o) <= 0x7fff_ffff
  }

  lemma LiveIs(t: Transaction)
    ensures Live(t) <==> IsLive(t)
  {
  }

  lemma TotalsInColumns(transactions: Transactions, order: Uuid)
    ensures OrderTotal(transactions, Amount, order) == AmountBack(transactions, order)
    ensures OrderTotal(transactions, Tax, order) == TaxBack(transactions, order)
  {
    hide Live, IsLive, Total;
    forall t | t in transactions ensures Live(transactions[t]) <==> IsLive(transactions[t]) {
      LiveIs(transactions[t]);
    }
    assert Group(LiveAmounts(transactions, Amount), OrderIds(transactions), order) == AmountsBack(transactions, order);
    assert Group(LiveAmounts(transactions, Tax), OrderIds(transactions), order) == TaxesBack(transactions, order);
  }

  lemma ConditionsInColumns(transactions: Transactions, orders: set<Uuid>)
    ensures CanBackfill(transactions, orders) <==> MayBackfill(transactions, orders)
  {
    hide Live, IsLive, OrderTotal, AmountBack, TaxBack;
    forall t | t in transactions ensures Live(transactions[t]) <==> IsLive(transactions[t]) {
      LiveIs(transactions[t]);
    }
    forall o | o in orders
      ensures OrderTotal(transactions, Amount, o) == AmountBack(transactions, o)
      ensures OrderTotal(transactions, Tax, o) == TaxBack(transactions, o)
    {
      TotalsInColumns(transactions, o);
    }
  }

  lemma RefundsInColumns(before: Transactions, newId: Uuid -> Uuid, orders: Orders, products: map<Uuid, Uuid>,
                         refunds: RefundRows)
    requires Injective(newId) && RefundsLinked(refunds, before, newId, orders, products)
    requires forall t :: t in before ==> before[t].polarRefundId.None?
    ensures RefundsAdded(before, Linked(before, newId), refunds, orders, products)
  {
    hide Live, IsLive, RefundsLinked, WithOrderColumns, RefundOf, IsRefundOf, Injective;
    forall t | t in before ensures Live(before[t]) <==> IsLive(before[t]) {
      LiveIs(before[t]);
    }
    forall t | t in before && IsLive(before[t])
      ensures newId(t) in refunds && IsRefundOf(refunds[newId(t)], t, before[t], orders, products)
    {
      LinkedRefund(before, newId, orders, products, refunds, t);
      RefundInColumns(before[t], t, orders, products);
    }
    forall r | r in refunds
      ensures refunds[r].transactionId in before && IsLive(before[refunds[r].transactionId])
      ensures newId(refunds[r].transactionId) == r
    {
      var t := TransactionOf(before, newId, orders, products, refunds, r);
      LinkedRefund(before, newId, orders, products, refunds, t);
      RefundInColumns(before[t], t, orders, products);
    }
  }

  lemma RefundInColumns(t: Transaction, id: Uuid, orders: Orders, products: map<Uuid, Uuid>)
    requires Live(t)
    ensures var r := WithOrderColumns(RefundOf(t, id), orders, products);
      r.transactionId == id && IsRefundOf(r, id, t, orders, products)
  {
  }

  lemma OrdersInColumns(transactions: Transactions, newId: Uuid -> Uuid, orders: Orders, products: map<Uuid, Uuid>,
                        refunds: RefundRows)
    requires Injective(newId) && RefundsLinked(refunds, transactions, newId, orders, products)
    ensures OrdersSettled(transactions, orders, SettledOrders(orders, refunds))
  {
    hide IsSettled, Settled, IsRefunded, AmountBack, TaxBack, RefundsLinked, Injective;
    forall o | o in orders
      ensures IsSettled(orders[o], Settled(orders[o], o, refunds), IsRefunded(transactions, o),
        AmountBack(transactions, o), TaxBack(transactions, o))
    {
      RefundedPerOrder(transactions, newId, orders, products, refunds, Amount, o);
      RefundedPerOrder(transactions, newId, orders, products, refunds, Tax, o);
      TotalsInColumns(transactions, o);
      RefundedIff(transactions, newId, orders, products, refunds, o);
      OrderInColumns(orders[o], o, refunds);
    }
  }

  lemma RefundedIff(transactions: Transactions, newId: Uuid -> Uuid, orders: Orders, products: map<Uuid, Uuid>,
                    refunds: RefundRows, o: Uuid)
    requires Injective(newId) && RefundsLinked(refunds, transactions, newId, orders, products)
    ensures HasRefund(refunds, o) <==> IsRefunded(transactions, o)
  {
    hide RefundsLinked, Injective, Live, IsLive;
    if HasRefund(refunds, o) {
      var r :| r in refunds && Counted(refunds[r]) && refunds[r].orderId == Some(o);
      var t := TransactionOf(transactions, newId, orders, products, refunds, r);
      LinkedColumns(transactions, newId, orders, products, refunds, t);
      LiveIs(transactions[t]);
      assert transactions[t].orderId == Some(o);
    }
    if IsRefunded(transactions, o) {
      var t :| t in transactions && IsLive(transactions[t]) && transactions[t].orderId == Some(o);
      LiveIs(transactions[t]);
      LinkedColumns(transactions, newId, orders, products, refunds, t);
      assert Counted(refunds[newId(t)]);
    }
  }

  lemma OrderInColumns(order: Order, o: Uuid, refunds: RefundRows)
    ensures IsSettled(order, Settled(order, o, refunds), HasRefund(refunds, o),
      Refunded(refunds, Amount, o), Refunded(refunds, Tax, o))
  {
    hide Total, HasRefund, Refunded;
    if !HasRefund(refunds, o) {
      NothingRefunded(refunds, Amount, o);
      NothingRefunded(refunds, Tax, o);
    }
  }

  lemma NothingRefunded(refunds: RefundRows, c: Column, o: Uuid)
    requires !HasRefund(refunds, o)
    ensures Refunded(refunds, c, o) == 0
  {
    hide Total;
    assert Group(Amounts(refunds, c), OrderOf(refunds), o) == map[];
    TotalOfNone();
  }

  // ---------------------------------------------------------------- the migration

  class Database {
    const products: map<Uuid, Uuid>
    var transactions: Transactions
    var refunds: RefundRows
    var orders: Orders

    constructor (products: map<Uuid, Uuid>, transactions: Transactions, orders: Orders)
      ensures this.products == products && this.transactions == transactions && this.orders == orders &&
        refunds == map[]
    {
      this.products, this.transactions, this.orders, refunds := products, transactions, orders, map[];
    }

    /** Foreign keys, and columns that were only just added. */
    ghost predicate Valid()
      reads this
    {
      && refunds == map[]
      && (forall t :: t in transactions ==> transactions[t].polarRefundId.None?)
      && (forall t :: t in transactions && transactions[t].orderId.Some? ==> transactions[t].orderId.value in orders)
      && forall o :: o in orders ==> orders[o].productId in products
    }

    /** The insert, the update of the transactions and the update of the refunds. */
    method BackfillRefunds(newId: Uuid -> Uuid, pick: Choice) returns (ok: bool)
      requires Valid() && Injective(newId) && PicksAMatch(pick)
      modifies this`transactions, this`refunds
      ensures ok <==> DistinctRefundIds(old(transactions)) && AmountsFit(old(transactions))
      ensures !ok ==> transactions == old(transactions) && refunds == map[]
      ensures ok ==> transactions == Linked(old(transactions), newId)
      ensures ok ==> RefundsLinked(refunds, old(transactions), newId, orders, products)
    {
      hide RefundsFor, Linked, WithOrderColumns, UniqueProcessorIds, DistinctRefundIds, PicksAMatch, Injective,
        AmountsFit;
      var inserted := RefundsFor(transactions, newId);
      ok := AmountsFit(transactions) && UniqueProcessorIds(inserted);
      InsertSucceedsIff(transactions, newId);
      if ok {
        refunds := inserted;
        LinkTransactions(newId, pick);
        refunds := map r | r in refunds :: WithOrderColumns(refunds[r], orders, products);
      }
    }

    /** UPDATE transactions SET polar_refund_id = refunds.id ... WHERE id = refund_transaction_id. */
    method LinkTransactions(newId: Uuid -> Uuid, pick: Choice)
      requires Injective(newId) && PicksAMatch(pick) && refunds == RefundsFor(transactions, newId)
      modifies this`transactions
      ensures transactions == Linked(old(transactions), newId)
    {
      ghost var before := transactions;
      transactions := map t | t in transactions ::
        var matches := set r | r in refunds && refunds[r].transactionId == t;
        if transactions[t].kind == REFUND && matches != {}
          then transactions[t].(polarRefundId := Some(pick(t, matches)))
        else transactions[t];
      forall t | t in before ensures transactions[t] == Linked(before, newId)[t] {
        var matches := set r | r in refunds && refunds[r].transactionId == t;
        assert Live(before[t]) ==> newId(t) in matches;
        assert matches != {} ==> pick(t, matches) in matches;
      }
    }

    /** The last statement, and the three SET NOT NULL that follow it and cannot fail. */
    method BackfillOrders() returns (ok: bool)
      modifies this`orders
      ensures ok <==> SettledFit(SettledOrders(old(orders), refunds))
      ensures orders == if ok then SettledOrders(old(orders), refunds) else old(orders)
    {
      hide SettledFit;
      var settled := SettledOrders(orders, refunds);
      if !SettledFit(settled) {
        return false;
      }
      orders := settled;
      ok := forall o :: o in orders ==>
        orders[o].status.Some? && orders[o].refundedAmount.Some? && orders[o].refundedTaxAmount.Some?;
    }

    /** The migration succeeds exactly when live refund ids are distinct and no refunded amount, alone or
        added up per order, is too large. It then links refunds and transactions one to one and accounts
        for every refunded amount in exactly one order. Otherwise it leaves no trace. */
    method RunOrRollBack(newId: Uuid -> Uuid, pick: Choice) returns (ok: bool)
      requires Valid() && Injective(newId) && PicksAMatch(pick)
      modifies this
      ensures ok <==> CanBackfill(old(transactions), old(orders).Keys)
      ensures !ok ==> transactions == old(transactions) && refunds == map[] && orders == old(orders)
      ensures ok ==> transactions == Linked(old(transactions), newId)
      ensures ok ==> RefundsLinked(refunds, old(transactions), newId, old(orders), products)
      ensures ok ==> orders == SettledOrders(old(orders), refunds)
      ensures ok ==> forall c: Column ::
        Total(RefundedColumn(orders, c)) == Total(LiveAmounts(old(transactions), c))
    {
      hide RefundsLinked, LiveAmounts, Linked, DistinctRefundIds, Injective, Total, PicksAMatch, Settled, SettledColumn,
        SettledOrders, SettledFit, TotalsFit, AmountsFit, RefundedColumn;
      var before := transactions;
      ok := BackfillRefunds(newId, pick);
      if ok {
        forall c: Column
          ensures Total(RefundedColumn(SettledOrders(orders, refunds), c)) == Total(LiveAmounts(before, c))
        {
          RefundsConserved(before, newId, orders, products, refunds, c);
        }
        SettledFitIff(before, newId, orders, products, refunds);
        ok := BackfillOrders();
        if !ok {
          transactions, refunds := before, map[];
        }
      }
    }

    /** The migration, in the columns of the tables. */
    method Upgrade(newId: Uuid -> Uuid, pick: Choice) returns (ok: bool)
      requires Valid() && Injective(newId) && PicksAMatch(pick)
      modifies this
      ensures ok <==> MayBackfill(old(transactions), old(orders).Keys)
      ensures !ok ==> transactions == old(transactions) && refunds == map[] && orders == old(orders)
      ensures ok ==> RefundsAdded(old(transactions), transactions, refunds, old(orders), products)
      ensures ok ==> OrdersSettled(old(transactions), old(orders), orders)
      ensures ok ==> forall c: Column ::
        Total(RefundedColumn(orders, c)) == Total(LiveAmounts(old(transactions), c))
    {
      hide *;
      var before, orders0 := transactions, orders;
      ConditionsInColumns(before, orders.Keys);
      NotYetLinked();
      ok := RunOrRollBack(newId, pick);
      if ok {
        RefundsInColumns(before, newId, orders0, products, refunds);
        OrdersInColumns(before, newId, orders0, products, refunds);
      }
    }

    lemma NotYetLinked()
      requires Valid()
      ensures forall t :: t in transactions ==> transactions[t].polarRefundId.None?
    {
    }
  }
}
