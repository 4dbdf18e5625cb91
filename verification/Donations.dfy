/** `2024-11-06-1405_remove_donation.py`: donations become orders, and the held balances and
    transactions of a donation are linked to its order. */
module Donations {
  import opened Sql
  import opened Text
  import opened Totals
  import opened UuidText

  datatype User = User(email: string)

  datatype Donation = Donation(organizationId: Uuid, email: string, amount: int, byUserId: Option<Uuid>, createdAt: int)

  /** An order; `donationId` is the donation_id in its metadata, which may be any text. */
  datatype Order = Order(userId: Uuid, productId: Uuid, amount: int, donationId: Option<string>, createdAt: int)

  /** A custom field; its slug ignores case. */
  datatype CustomField = CustomField(organizationId: Uuid, slug: string)

  /** The two columns of held_balances and of transactions that the migration uses. */
  datatype Link = Link(donationId: Option<Uuid>, orderId: Option<Uuid>)

  type Users = map<Uuid, User>
  type DonationRows = map<Uuid, Donation>
  type Orders = map<Uuid, Order>
  type Fields = map<Uuid, CustomField>
  type Links = map<Uuid, Link>

  /** A donation and the user it is attributed to: one row of the inserting SELECT. */
  type Sale = (Uuid, Uuid)

  predicate UniqueEmails(users: Users) {
    forall u, v | u in users && v in users && Lower(users[u].email) == Lower(users[v].email) :: u == v
  }

  // ---------------------------------------------------------------- anonymous donors

  /** SELECT email FROM donations WHERE by_user_id IS NULL AND LOWER(email) NOT IN (SELECT
      LOWER(email) FROM users) GROUP BY email. */
  function UnmatchedEmails(donations: DonationRows, users: Users): set<string> {
    var known := set u | u in users :: Some(Lower(users[u].email));
    set d | d in donations && donations[d].byUserId.None? && NotIn(Some(Lower(donations[d].email)), known) == True
      :: donations[d].email
  }

  predicate DistinctUpToCase(emails: set<string>) {
    forall e, f | e in emails && f in emails && Lower(e) == Lower(f) :: e == f
  }

  /** users.email holds 320 characters, donations.email any number. */
  predicate EmailsFit(emails: set<string>) {
    forall e :: e in emails ==> |e| <= 320
  }

  function WithDonors(users: Users, emails: set<string>, newUserId: string -> Uuid): Users
    requires Injective(newUserId)
  {
    users + NewDonors(emails, newUserId)
  }

  function NewDonors(emails: set<string>, newUserId: string -> Uuid): Users
    requires Injective(newUserId)
  {
    map e | e in emails :: newUserId(e) := User(e)
  }

  /** Who an order for the donation belongs to: the donor, or the users with the donation's email. */
  function Buyers(users: Users, d: Donation): set<Uuid> {
    if d.byUserId.Some? then {d.byUserId.value}
    else set u | u in users && Lower(users[u].email) == Lower(d.email)
  }

  predicate HasOneBuyer(users: Users, d: Donation) {
    exists u :: u in users && Buyers(users, d) == {u}
  }

  /** After the anonymous donors were added, every donation belongs to exactly one user. */
  lemma OneBuyerEach(users: Users, donations: DonationRows, newUserId: string -> Uuid)
    requires Injective(newUserId) && UniqueEmails(users) && forall e :: newUserId(e) !in users
    requires forall d :: d in donations && donations[d].byUserId.Some? ==> donations[d].byUserId.value in users
    requires DistinctUpToCase(UnmatchedEmails(donations, users))
    ensures var all := WithDonors(users, UnmatchedEmails(donations, users), newUserId);
            UniqueEmails(all) && forall d :: d in donations ==> HasOneBuyer(all, donations[d])
  {
    hide UnmatchedEmails, WithDonors, UniqueEmails, DistinctUpToCase, Injective, Buyers, HasOneBuyer;
    var emails := UnmatchedEmails(donations, users);
    var all := WithDonors(users, emails, newUserId);
    EmailsDiffer(users, donations, newUserId);
    forall d | d in donations ensures HasOneBuyer(all, donations[d]) {
      HasABuyer(users, donations, newUserId, d);
      OnlyBuyer(all, donations[d]);
    }
  }

  lemma HasABuyer(users: Users, donations: DonationRows, newUserId: string -> Uuid, d: Uuid)
    requires Injective(newUserId) && d in donations && forall e :: newUserId(e) !in users
    requires donations[d].byUserId.Some? ==> donations[d].byUserId.value in users
    ensures var all := WithDonors(users, UnmatchedEmails(donations, users), newUserId);
            exists u :: u in all && u in Buyers(all, donations[d])
  {
    hide Lower;
    var email := donations[d].email;
    var all := WithDonors(users, UnmatchedEmails(donations, users), newUserId);
    var known := set u | u in users :: Some(Lower(users[u].email));
    if donations[d].byUserId.Some? {
      assert donations[d].byUserId.value in all;
    } else if u :| u in users && Lower(users[u].email) == Lower(email) {
      assert all[u] == users[u];
    } else {
      assert email in UnmatchedEmails(donations, users);
      assert newUserId(email) in all && all[newUserId(email)] == User(email);
    }
  }

  lemma OnlyBuyer(users: Users, d: Donation)
    requires UniqueEmails(users) && exists u :: u in users && u in Buyers(users, d)
    ensures HasOneBuyer(users, d)
  {
    hide Lower;
    var u :| u in users && u in Buyers(users, d);
    assert Buyers(users, d) == {u};
  }

  lemma EmailsDiffer(users: Users, donations: DonationRows, newUserId: string -> Uuid)
    requires Injective(newUserId) && UniqueEmails(users) && forall e :: newUserId(e) !in users
    requires DistinctUpToCase(UnmatchedEmails(donations, users))
    ensures UniqueEmails(WithDonors(users, UnmatchedEmails(donations, users), newUserId))
  {
    hide Lower, UnmatchedEmails, Injective;
    UnmatchedAreUnknown(donations, users);
    var emails := UnmatchedEmails(donations, users);
    var all := WithDonors(users, emails, newUserId);
    assert forall u :: u in all && u !in users ==> all[u].email in emails && u == newUserId(all[u].email);
    assert forall u :: u in users ==> all[u] == users[u];
  }

  lemma UnmatchedAreUnknown(donations: DonationRows, users: Users)
    ensures forall e, u :: e in UnmatchedEmails(donations, users) && u in users ==> Lower(users[u].email) != Lower(e)
  {
    hide Lower;
    var known := set u | u in users :: Some(Lower(users[u].email));
    assert forall u :: u in users ==> Some(Lower(users[u].email)) in known;
  }

  /** A new donor collides with a user of its email exactly when it collides with a donor that was
      added before it. */
  lemma NewDonorFitsIff(users: Users, donations: DonationRows, done: set<string>, email: string,
                        newUserId: string -> Uuid)
    requires Injective(newUserId) && forall e :: newUserId(e) !in users
    requires done <= UnmatchedEmails(donations, users) && email in UnmatchedEmails(donations, users)
    ensures var all := WithDonors(users, done, newUserId);
      (exists u :: u in all && Lower(all[u].email) == Lower(email)) <==>
        (exists e :: e in done && Lower(e) == Lower(email))
  {
    var known := set u | u in users :: Some(Lower(users[u].email));
    var all := WithDonors(users, done, newUserId);
    hide Lower;
    assert forall u :: u in users ==> Some(Lower(users[u].email)) in known;
    hide UnmatchedEmails;
    forall e | e in done && Lower(e) == Lower(email)
      ensures exists u :: u in all && Lower(all[u].email) == Lower(email)
    {
      assert newUserId(e) in all && all[newUserId(e)] == User(e);
    }
  }

  lemma DistinctAddIff(done: set<string>, email: string)
    requires DistinctUpToCase(done) && email !in done
    ensures DistinctUpToCase(done + {email}) <==> !exists e :: e in done && Lower(e) == Lower(email)
  {
    hide Lower;
  }

  lemma DistinctSubset(a: set<string>, b: set<string>)
    requires a <= b
    ensures DistinctUpToCase(b) ==> DistinctUpToCase(a)
  {
  }

  lemma NewDonorsUnion(a: set<string>, b: set<string>, newUserId: string -> Uuid)
    requires Injective(newUserId)
    ensures NewDonors(a, newUserId) + NewDonors(b, newUserId) == NewDonors(a + b, newUserId)
  {
  }

  lemma WithDonorsAdd(users: Users, done: set<string>, email: string, newUserId: string -> Uuid)
    requires Injective(newUserId)
    ensures WithDonors(WithDonors(users, done, newUserId), {email}, newUserId)
      == WithDonors(users, done + {email}, newUserId)
  {
    hide NewDonors, Injective;
    NewDonorsUnion(done, {email}, newUserId);
  }

  // ---------------------------------------------------------------- orders

  /** The rows selected for the organizations: donors' own donations and, through the join on
      lower-cased emails, anonymous ones. */
  function Sales(donations: DonationRows, users: Users, organizations: set<Uuid>): set<Sale> {
    set d, u | d in donations && donations[d].organizationId in organizations && u in Buyers(users, donations[d]) ::
      (d, u)
  }

  function NewOrders(sales: set<Sale>, donations: DonationRows, productOf: Uuid -> Uuid,
                     newOrderId: Sale -> Uuid): Orders
    requires Injective(newOrderId)
  {
    map s: Sale | s in sales && s.0 in donations ::
      newOrderId(s) := var d := donations[s.0];
        Order(s.1, productOf(d.organizationId), d.amount, Some(Print(s.0)), d.createdAt)
  }

  /** The orders once the donations to the organizations have become orders. */
  function Migrated(older: Orders, donations: DonationRows, users: Users, organizations: set<Uuid>,
                    productOf: Uuid -> Uuid, newOrderId: Sale -> Uuid): Orders
    requires Injective(newOrderId)
  {
    older + NewOrders(Sales(donations, users, organizations), donations, productOf, newOrderId)
  }

  /** `(user_metadata->>'donation_id')::uuid = donation`. */
  predicate Carries(o: Order, donation: Uuid) {
    o.donationId.Some? && Parse(o.donationId.value) == Some(donation)
  }

  /** The orders that carry a donation's id. */
  function OrdersOf(orders: Orders, donation: Uuid): set<Uuid> {
    set o | o in orders && Carries(orders[o], donation)
  }

  predicate IdsAreUuids(donations: DonationRows) {
    forall d :: d in donations ==> IsUuid(d)
  }

  ghost predicate Fresh(orders: Orders, newOrderId: Sale -> Uuid) {
    forall s: Sale :: newOrderId(s) !in orders
  }

  /** Every donation to a migrated organization becomes exactly one order, of the same amount, for
      its buyer; other donations become none. Older orders keep out of it unless they carry the
      donation's id. */
  lemma OneOrderPerDonation(older: Orders, donations: DonationRows, users: Users, organizations: set<Uuid>,
                            productOf: Uuid -> Uuid, newOrderId: Sale -> Uuid, d: Uuid, buyer: Uuid)
    requires Injective(newOrderId) && Fresh(older, newOrderId)
    requires IdsAreUuids(donations) && d in donations && buyer in users && Buyers(users, donations[d]) == {buyer}
    ensures OrdersOf(Migrated(older, donations, users, organizations, productOf, newOrderId), d)
         == OrdersOf(older, d) + if donations[d].organizationId in organizations then {newOrderId((d, buyer))} else {}
    ensures donations[d].organizationId in organizations ==>
      var orders := Migrated(older, donations, users, organizations, productOf, newOrderId);
      && newOrderId((d, buyer)) in orders
      && orders[newOrderId((d, buyer))]
           == Order(buyer, productOf(donations[d].organizationId), donations[d].amount, Some(Print(d)),
             donations[d].createdAt)
  {
    hide Print, Parse, IsUuid;
    var sales := Sales(donations, users, organizations);
    var added := NewOrders(sales, donations, productOf, newOrderId);
    var orders := older + added;
    assert (d, buyer) in sales <==> donations[d].organizationId in organizations;
    forall o | o in OrdersOf(orders, d) && o !in older
      ensures o == newOrderId((d, buyer)) && (d, buyer) in sales
    {
      var s: Sale :| s in sales && s.0 in donations && o == newOrderId(s) && added[o].donationId == Some(Print(s.0));
      PrintedReadsBack(s.0);
      assert s.1 in Buyers(users, donations[d]);
    }
    if (d, buyer) in sales {
      assert newOrderId((d, buyer)) in added;
      PrintedReadsBack(d);
    }
  }

  lemma NewOrdersUnion(a: set<Sale>, b: set<Sale>, donations: DonationRows, productOf: Uuid -> Uuid,
                       newOrderId: Sale -> Uuid)
    requires Injective(newOrderId)
    ensures NewOrders(a, donations, productOf, newOrderId) + NewOrders(b, donations, productOf, newOrderId)
         == NewOrders(a + b, donations, productOf, newOrderId)
  {
  }

  /** Migrating one more organization. */
  lemma MigratedAdd(older: Orders, donations: DonationRows, users: Users, done: set<Uuid>, organization: Uuid,
                    productOf: Uuid -> Uuid, newOrderId: Sale -> Uuid)
    requires Injective(newOrderId)
    ensures Migrated(Migrated(older, donations, users, done, productOf, newOrderId), donations, users, {organization},
      productOf, newOrderId)
         == Migrated(older, donations, users, done + {organization}, productOf, newOrderId)
  {
    hide Sales, NewOrders, Injective;
    SalesUnion(donations, users, done, {organization});
    NewOrdersUnion(Sales(donations, users, done), Sales(donations, users, {organization}), donations, productOf,
      newOrderId);
  }

  lemma SalesUnion(donations: DonationRows, users: Users, a: set<Uuid>, b: set<Uuid>)
    ensures Sales(donations, users, a) + Sales(donations, users, b) == Sales(donations, users, a + b)
  {
    hide Buyers;
  }

  /** Donations of known users, and anonymous ones through the join on emails. */
  lemma SalesByKind(donations: DonationRows, users: Users, organization: Uuid)
    ensures OwnSales(donations, organization) + AnonymousSales(donations, users, organization)
         == Sales(donations, users, {organization})
  {
  }

  function OwnSales(donations: DonationRows, organization: Uuid): set<Sale> {
    set d | d in donations && donations[d].organizationId == organization && donations[d].byUserId.Some?
      :: (d, donations[d].byUserId.value)
  }

  function AnonymousSales(donations: DonationRows, users: Users, organization: Uuid): set<Sale> {
    set d, u | d in donations && donations[d].organizationId == organization && donations[d].byUserId.None?
      && u in users && Lower(users[u].email) == Lower(donations[d].email) :: (d, u)
  }

  /** The products once the organizations have their donation product. */
  function WithProducts(products: map<Uuid, Uuid>, organizations: set<Uuid>, productOf: Uuid -> Uuid): map<Uuid, Uuid>
    requires Injective(productOf)
  {
    products + map o | o in organizations :: productOf(o) := o
  }

  lemma WithProductsAdd(products: map<Uuid, Uuid>, done: set<Uuid>, organization: Uuid, productOf: Uuid -> Uuid)
    requires Injective(productOf)
    ensures WithProducts(products, {}, productOf) == products
    ensures WithProducts(products, done, productOf)[productOf(organization) := organization]
         == WithProducts(products, done + {organization}, productOf)
  {
  }

  lemma NothingMigrated(older: Orders, donations: DonationRows, users: Users, productOf: Uuid -> Uuid,
                        newOrderId: Sale -> Uuid)
    requires Injective(newOrderId)
    ensures Migrated(older, donations, users, {}, productOf, newOrderId) == older
  {
  }

  function OrderAmounts(orders: Orders): map<Uuid, int> {
    map o | o in orders :: orders[o].amount
  }

  function DonatedAmounts(donations: DonationRows, organizations: set<Uuid>): map<Uuid, int> {
    map d | d in donations && donations[d].organizationId in organizations :: donations[d].amount
  }

  /** Money is conserved: the new orders add up to the donations to the migrated organizations. */
  lemma AmountsConserved(donations: DonationRows, users: Users, organizations: set<Uuid>,
                         productOf: Uuid -> Uuid, newOrderId: Sale -> Uuid)
    requires Injective(newOrderId) && forall d :: d in donations ==> HasOneBuyer(users, donations[d])
    ensures Total(OrderAmounts(NewOrders(Sales(donations, users, organizations), donations, productOf, newOrderId)))
         == Total(DonatedAmounts(donations, organizations))
  {
    var buyer := map d | d in donations :: Buyer(users, donations[d]);
    hide Sales, HasOneBuyer, NewOrders, OrderAmounts, Buyers, Injective;
    SalesOfBuyers(donations, users, organizations, buyer);
    SoldTotal(donations, Sales(donations, users, organizations), buyer, DonatedAmounts(donations, organizations),
      productOf, newOrderId);
  }

  lemma SoldTotal(donations: DonationRows, sales: set<Sale>, buyer: map<Uuid, Uuid>, donated: map<Uuid, int>,
                  productOf: Uuid -> Uuid, newOrderId: Sale -> Uuid)
    requires Injective(newOrderId)
    requires donated.Keys <= donations.Keys && buyer.Keys == donations.Keys
    requires forall d :: d in donated ==> donated[d] == donations[d].amount
    requires sales == set d | d in donated :: (d, buyer[d])
    ensures Total(OrderAmounts(NewOrders(sales, donations, productOf, newOrderId))) == Total(donated)
  {
    var orderOf := (d: Uuid) => newOrderId((d, if d in buyer then buyer[d] else 0));
    assert Injective(orderOf);
    hide NewOrders, OrderAmounts;
    SoldAmounts(donations, sales, buyer, donated, productOf, newOrderId, orderOf);
    TotalRenamed(donated, orderOf);
  }

  /** Every donation is sold once, to its buyer. */
  lemma SalesOfBuyers(donations: DonationRows, users: Users, organizations: set<Uuid>, buyer: map<Uuid, Uuid>)
    requires buyer.Keys == donations.Keys
    requires forall d :: d in donations ==> buyer[d] in users && Buyers(users, donations[d]) == {buyer[d]}
    ensures Sales(donations, users, organizations)
         == set d | d in DonatedAmounts(donations, organizations) :: (d, buyer[d])
  {
    hide Buyers;
  }

  lemma SoldAmounts(donations: DonationRows, sales: set<Sale>, buyer: map<Uuid, Uuid>, donated: map<Uuid, int>,
                    productOf: Uuid -> Uuid, newOrderId: Sale -> Uuid, orderOf: Uuid -> Uuid)
    requires Injective(newOrderId) && Injective(orderOf)
    requires donated.Keys <= donations.Keys && buyer.Keys == donations.Keys
    requires forall d :: d in donated ==> donated[d] == donations[d].amount && orderOf(d) == newOrderId((d, buyer[d]))
    requires sales == set d | d in donated :: (d, buyer[d])
    ensures OrderAmounts(NewOrders(sales, donations, productOf, newOrderId)) == Renamed(donated, orderOf)
  {
    var orders := NewOrders(sales, donations, productOf, newOrderId);
    forall d | d in donated ensures orderOf(d) in orders && orders[orderOf(d)].amount == donated[d] {
      assert (d, buyer[d]) in sales;
    }
    forall o | o in orders ensures exists d :: d in donated && o == orderOf(d) {
      var s: Sale :| s in sales && o == newOrderId(s);
      assert o == orderOf(s.0);
    }
    hide NewOrders;
    RenamedIs(donated, orderOf, OrderAmounts(orders));
  }

  ghost function Buyer(users: Users, d: Donation): (u: Uuid)
    requires HasOneBuyer(users, d)
    ensures u in users && Buyers(users, d) == {u}
  {
    var u :| u in users && Buyers(users, d) == {u};
    u
  }

  /** All orders together are worth what they were worth before, plus the migrated donations. */
  lemma RevenueGrowsByDonations(older: Orders, donations: DonationRows, users: Users, organizations: set<Uuid>,
                                productOf: Uuid -> Uuid, newOrderId: Sale -> Uuid)
    requires Injective(newOrderId) && Fresh(older, newOrderId)
    requires forall d :: d in donations ==> HasOneBuyer(users, donations[d])
    ensures Total(OrderAmounts(Migrated(older, donations, users, organizations, productOf, newOrderId)))
         == Total(OrderAmounts(older)) + Total(DonatedAmounts(donations, organizations))
  {
    hide Sales, NewOrders, HasOneBuyer, OrderAmounts, Injective, Fresh;
    AmountsConserved(donations, users, organizations, productOf, newOrderId);
    NewOrdersAreNew(older, Sales(donations, users, organizations), donations, productOf, newOrderId);
    TotalOfBoth(older, NewOrders(Sales(donations, users, organizations), donations, productOf, newOrderId));
  }

  lemma NewOrdersAreNew(older: Orders, sales: set<Sale>, donations: DonationRows, productOf: Uuid -> Uuid,
                        newOrderId: Sale -> Uuid)
    requires Injective(newOrderId) && Fresh(older, newOrderId)
    ensures older.Keys !! NewOrders(sales, donations, productOf, newOrderId).Keys
  {
  }

  lemma TotalOfBoth(a: Orders, b: Orders)
    requires a.Keys !! b.Keys
    ensures Total(OrderAmounts(a + b)) == Total(OrderAmounts(a)) + Total(OrderAmounts(b))
  {
    assert OrderAmounts(a + b) == OrderAmounts(a) + OrderAmounts(b);
    TotalUnion(OrderAmounts(a), OrderAmounts(b));
  }

  // ---------------------------------------------------------------- relinking

  /** UPDATE rows SET order_id = orders.id FROM orders WHERE donation_id = metadata's donation_id. */
  function Relinked(rows: Links, orders: Orders, pick: Choice): Links {
    map r | r in rows ::
      var matches := if rows[r].donationId.Some? then OrdersOf(orders, rows[r].donationId.value) else {};
      if matches == {} then rows[r] else rows[r].(orderId := Some(pick(r, matches)))
  }

  /** A row of a donation is linked to the donation's own order, whatever the database picks,
      exactly when no older order carries the donation's id. */
  lemma RelinkedToItsOrderIff(rows: Links, older: Orders, donations: DonationRows, users: Users,
                              organizations: set<Uuid>, productOf: Uuid -> Uuid, newOrderId: Sale -> Uuid, r: Uuid,
                              buyer: Uuid)
    requires Injective(newOrderId) && Fresh(older, newOrderId)
    requires IdsAreUuids(donations) && r in rows && rows[r].donationId.Some? && rows[r].donationId.value in donations
    requires var d := rows[r].donationId.value;
      donations[d].organizationId in organizations && buyer in users && Buyers(users, donations[d]) == {buyer}
    ensures var d := rows[r].donationId.value;
      var orders := Migrated(older, donations, users, organizations, productOf, newOrderId);
      (forall pick: Choice :: PicksAMatch(pick) ==>
        Relinked(rows, orders, pick)[r].orderId == Some(newOrderId((d, buyer))))
        <==> OrdersOf(older, d) == {}
  {
    hide Migrated, Buyers, Carries, OrdersOf, Relinked, Fresh, IdsAreUuids, Injective, PicksAMatch;
    var d := rows[r].donationId.value;
    var orders := Migrated(older, donations, users, organizations, productOf, newOrderId);
    OneOrderPerDonation(older, donations, users, organizations, productOf, newOrderId, d, buyer);
    forall pick: Choice | PicksAMatch(pick) && OrdersOf(older, d) == {}
      ensures r in Relinked(rows, orders, pick) &&
        Relinked(rows, orders, pick)[r].orderId == Some(newOrderId((d, buyer)))
    {
      RelinkedToOnly(rows, orders, pick, r, newOrderId((d, buyer)));
    }
    if OrdersOf(older, d) != {} {
      var wrong :| wrong in OrdersOf(older, d);
      OldIsNotNew(older, d, wrong, (d, buyer), newOrderId);
      var pick := MayBeLinkedTo(rows, orders, r, wrong);
    }
  }

  /** The one order that carries the donation's id, of its amount and date and for its buyer. */
  predicate IsItsOrder(donations: DonationRows, users: Users, orders: Orders, d: Uuid, o: Uuid) {
    && d in donations && o in orders && OrdersOf(orders, d) == {o}
    && Buyers(users, donations[d]) == {orders[o].userId}
    && orders[o].amount == donations[d].amount && orders[o].createdAt == donations[d].createdAt
  }

  /** A donation to one of the organizations, whose id no older order carries. */
  predicate IsClean(donations: DonationRows, organizations: set<Uuid>, older: Orders, d: Uuid) {
    d in donations && donations[d].organizationId in organizations && OrdersOf(older, d) == {}
  }

  /** Every row of such a donation ends at its order. */
  ghost predicate EndAtTheirOrders(donations: DonationRows, organizations: set<Uuid>, users: Users, older: Orders,
                                   orders: Orders, before: Links, rows: Links) {
    rows.Keys == before.Keys && forall r :: r in before ==>
      EndsAtItsOrder(donations, organizations, users, older, orders, before[r], rows[r])
  }

  predicate EndsAtItsOrder(donations: DonationRows, organizations: set<Uuid>, users: Users, older: Orders,
                           orders: Orders, before: Link, row: Link) {
    before.donationId.Some? && IsClean(donations, organizations, older, before.donationId.value) ==>
      row.orderId.Some? && IsItsOrder(donations, users, orders, before.donationId.value, row.orderId.value)
  }

  lemma RelinkedEnd(rows: Links, older: Orders, donations: DonationRows, users: Users, organizations: set<Uuid>,
                    productOf: Uuid -> Uuid, newOrderId: Sale -> Uuid, pick: Choice)
    requires Injective(newOrderId) && Fresh(older, newOrderId) && IdsAreUuids(donations) && PicksAMatch(pick)
    requires forall d :: d in donations ==> HasOneBuyer(users, donations[d])
    ensures var orders := Migrated(older, donations, users, organizations, productOf, newOrderId);
      EndAtTheirOrders(donations, organizations, users, older, orders, rows, Relinked(rows, orders, pick))
  {
    hide Migrated, OrdersOf, Injective, Fresh, IdsAreUuids, PicksAMatch, EndsAtItsOrder;
    var orders := Migrated(older, donations, users, organizations, productOf, newOrderId);
    forall r | r in rows
      ensures EndsAtItsOrder(donations, organizations, users, older, orders, rows[r], Relinked(rows, orders, pick)[r])
    {
      RelinkedEnds(rows, older, donations, users, organizations, productOf, newOrderId, pick, r);
    }
  }

  lemma RelinkedEnds(rows: Links, older: Orders, donations: DonationRows, users: Users, organizations: set<Uuid>,
                     productOf: Uuid -> Uuid, newOrderId: Sale -> Uuid, pick: Choice, r: Uuid)
    requires Injective(newOrderId) && Fresh(older, newOrderId) && IdsAreUuids(donations) && PicksAMatch(pick)
    requires forall d :: d in donations ==> HasOneBuyer(users, donations[d])
    requires r in rows
    ensures var orders := Migrated(older, donations, users, organizations, productOf, newOrderId);
      r in Relinked(rows, orders, pick)
      && EndsAtItsOrder(donations, organizations, users, older, orders, rows[r], Relinked(rows, orders, pick)[r])
  {
    hide Migrated, OrdersOf, Injective, Fresh, IdsAreUuids, PicksAMatch, Buyers;
    var orders := Migrated(older, donations, users, organizations, productOf, newOrderId);
    if rows[r].donationId.Some? && IsClean(donations, organizations, older, rows[r].donationId.value) {
      var d := rows[r].donationId.value;
      var buyer := Buyer(users, donations[d]);
      OneOrderPerDonation(older, donations, users, organizations, productOf, newOrderId, d, buyer);
      RelinkedToOnly(rows, orders, pick, r, newOrderId((d, buyer)));
    }
  }

  lemma RelinkedToOnly(rows: Links, orders: Orders, pick: Choice, r: Uuid, order: Uuid)
    requires PicksAMatch(pick) && r in rows && rows[r].donationId.Some?
    requires OrdersOf(orders, rows[r].donationId.value) == {order}
    ensures r in Relinked(rows, orders, pick) && Relinked(rows, orders, pick)[r].orderId == Some(order)
  {
    hide OrdersOf;
  }

  lemma OldIsNotNew(older: Orders, d: Uuid, wrong: Uuid, sale: Sale, newOrderId: Sale -> Uuid)
    requires Fresh(older, newOrderId) && wrong in OrdersOf(older, d)
    ensures wrong != newOrderId(sale)
  {
    hide Carries;
  }

  lemma MayBeLinkedTo(rows: Links, orders: Orders, r: Uuid, order: Uuid) returns (pick: Choice)
    requires r in rows && rows[r].donationId.Some? && order in OrdersOf(orders, rows[r].donationId.value)
    ensures PicksAMatch(pick)
    ensures r in Relinked(rows, orders, pick) && Relinked(rows, orders, pick)[r].orderId == Some(order)
  {
    hide OrdersOf;
    pick := (row: Uuid, s: set<Uuid>) => if order in s then order else if s != {} then Least(s) else 0;
  }

  /** Two orders carry the id of one donation, and the older one takes its balance. */
  lemma OlderOrderTakesTheBalance() returns (pick: Choice)
    ensures PicksAMatch(pick)
    ensures var older := map[5 := Order(2, 3, 1000, Some(Print(7)), 0)];
      var orders := older[6 := Order(2, 4, 1000, Some(Print(7)), 0)];
      var rows := map[9 := Link(Some(7), None)];
      OrdersOf(older, 7) == {5} && OrdersOf(orders, 7) == {5, 6} && Relinked(rows, orders, pick)[9].orderId == Some(5)
  {
    hide Parse, Print, IsUuid, Relinked;
    var older := map[5 := Order(2, 3, 1000, Some(Print(7)), 0)];
    var orders := older[6 := Order(2, 4, 1000, Some(Print(7)), 0)];
    SevenIsAUuid();
    PrintedReadsBack(7);
    pick := MayBeLinkedTo(map[9 := Link(Some(7), None)], orders, 9, 5);
  }

  lemma SevenIsAUuid()
    ensures IsUuid(7)
  {
    assert Bound(8) >= Bound(1) == 0x1_0000;
  }

  // ---------------------------------------------------------------- what can fail

  /** The unique key on organization and slug refuses the field `message`. */
  predicate HasMessageField(fields: Fields, organization: Uuid) {
    exists f :: f in fields && fields[f].organizationId == organization && Lower(fields[f].slug) == "message"
  }

  function WithFields(fields: Fields, organizations: set<Uuid>, newFieldId: Uuid -> Uuid): Fields
    requires Injective(newFieldId)
  {
    fields + map o | o in organizations :: newFieldId(o) := CustomField(o, "message")
  }

  lemma WithFieldsAdd(fields: Fields, done: set<Uuid>, organization: Uuid, newFieldId: Uuid -> Uuid)
    requires Injective(newFieldId)
    ensures WithFields(fields, {}, newFieldId) == fields
    ensures WithFields(fields, done, newFieldId)[newFieldId(organization) := CustomField(organization, "message")]
         == WithFields(fields, done + {organization}, newFieldId)
  {
  }

  /** The fields of the organizations before do not matter to this one. */
  lemma OtherFieldsDoNotMatter(fields: Fields, done: set<Uuid>, organization: Uuid, newFieldId: Uuid -> Uuid)
    requires Injective(newFieldId) && organization !in done && forall o :: newFieldId(o) !in fields
    ensures HasMessageField(WithFields(fields, done, newFieldId), organization) <==>
      HasMessageField(fields, organization)
  {
    hide Lower;
    var all := WithFields(fields, done, newFieldId);
    assert forall f :: f in fields ==> f in all && all[f] == fields[f];
  }

  /** orders.amount is an INTEGER, donations.amount a BIGINT. */
  predicate SalesFit(donations: DonationRows, users: Users, organization: Uuid) {
    forall s: Sale :: s in Sales(donations, users, {organization}) ==> FitsInteger(donations[s.0].amount)
  }

  predicate AmountsFit(donations: DonationRows, organizations: set<Uuid>) {
    forall d :: d in donations && donations[d].organizationId in organizations ==> FitsInteger(donations[d].amount)
  }

  lemma AmountsFitIff(donations: DonationRows, users: Users, organizations: set<Uuid>)
    requires forall d :: d in donations ==> HasOneBuyer(users, donations[d])
    ensures AmountsFit(donations, organizations) <==> forall o :: o in organizations ==> SalesFit(donations, users, o)
  {
    hide Buyers;
    forall d | d in donations && donations[d].organizationId in organizations
      && (forall o :: o in organizations ==> SalesFit(donations, users, o))
      ensures FitsInteger(donations[d].amount)
    {
      var u :| u in users && Buyers(users, donations[d]) == {u};
      assert (d, u) in Sales(donations, users, {donations[d].organizationId});
    }
  }

  /** The cast of an order's donation_id does not raise an error. */
  predicate Castable(o: Order) {
    o.donationId.Some? ==> Parse(o.donationId.value).Some?
  }

  predicate CastsParse(orders: Orders, scanned: set<Uuid>) {
    forall o :: o in scanned && o in orders ==> Castable(orders[o])
  }

  predicate HasDonation(rows: Links) {
    exists r :: r in rows && rows[r].donationId.Some?
  }

  /** The orders whose donation_id the database casts when it joins the rows with them: all of them when
      some row has a donation, and otherwise any, since the join is empty whatever they are. */
  predicate IsScan(scanned: set<Uuid>, rows: Links, orders: Orders) {
    scanned <= orders.Keys && (HasDonation(rows) ==> scanned == orders.Keys)
  }

  /** The relinking is safe under every plan of the database if and only if every donation_id is an id;
      under some plan if and only if, moreover, no row has a donation. */
  lemma SafeScansIff(rows: Links, orders: Orders)
    ensures (forall scanned :: IsScan(scanned, rows, orders) ==> CastsParse(orders, scanned))
       <==> CastsParse(orders, orders.Keys)
    ensures (exists scanned :: IsScan(scanned, rows, orders) && CastsParse(orders, scanned))
       <==> (forall r :: r in rows ==> rows[r].donationId == None) || CastsParse(orders, orders.Keys)
  {
    hide Castable;
    assert IsScan(orders.Keys, rows, orders);
    if !HasDonation(rows) {
      assert IsScan({}, rows, orders) && CastsParse(orders, {});
    }
  }

  /** The donation_id of a new order is an id. */
  lemma NewCastsParse(older: Orders, scanned: set<Uuid>, donations: DonationRows, users: Users,
                      organizations: set<Uuid>, productOf: Uuid -> Uuid, newOrderId: Sale -> Uuid)
    requires Injective(newOrderId) && Fresh(older, newOrderId) && IdsAreUuids(donations) && scanned <= older.Keys
    ensures var orders := Migrated(older, donations, users, organizations, productOf, newOrderId);
      CastsParse(orders, scanned + (orders.Keys - older.Keys)) <==> CastsParse(older, scanned)
  {
    hide Parse, Print, IsUuid, Sales, Injective, Fresh;
    var sales := Sales(donations, users, organizations);
    var added := NewOrders(sales, donations, productOf, newOrderId);
    NewOrdersAreNew(older, sales, donations, productOf, newOrderId);
    forall o | o in added ensures Castable(added[o]) {
      var s: Sale :| s in sales && s.0 in donations && o == newOrderId(s) && added[o].donationId == Some(Print(s.0));
      PrintedReadsBack(s.0);
    }
  }

  lemma ScanOfAll(scanned: set<Uuid>, rows: Links, older: Orders, orders: Orders)
    requires IsScan(scanned, rows, older) && older.Keys <= orders.Keys
    ensures scanned <= older.Keys && IsScan(scanned + (orders.Keys - older.Keys), rows, orders)
  {
    hide HasDonation;
  }

  /** What the migration needs of the data. */
  predicate CanMigrate(donations: DonationRows, enabled: set<Uuid>, users: Users, fields: Fields, older: Orders,
                       scanned: set<Uuid>) {
    var emails := UnmatchedEmails(donations, users);
    && DistinctUpToCase(emails) && EmailsFit(emails)
    && (forall o :: o in enabled ==> !HasMessageField(fields, o))
    && AmountsFit(donations, enabled)
    && CastsParse(older, scanned)
  }

  // ---------------------------------------------------------------- an input for every failure

  function OneDonation(email: string, amount: int): DonationRows {
    map[7 := Donation(1, email, amount, None, 0)]
  }

  /** One anonymous donation, no users: each condition stands alone. */
  lemma OneDonationMigratesIff(email: string, amount: int, fields: Fields, older: Orders, scanned: set<Uuid>)
    ensures CanMigrate(OneDonation(email, amount), {1}, map[], fields, older, scanned)
       <==> |email| <= 320 && !HasMessageField(fields, 1) && FitsInteger(amount) && CastsParse(older, scanned)
  {
    hide Lower, HasMessageField, CastsParse, FitsInteger;
    var donations := OneDonation(email, amount);
    assert 7 in donations;
    assert UnmatchedEmails(donations, map[]) == {email};
  }

  lemma EachConditionIsNeeded(email: string)
    requires |email| == 321
    ensures CanMigrate(OneDonation("a@x", 1000), {1}, map[], map[], map[], {})
    ensures !CanMigrate(OneDonation(email, 1000), {1}, map[], map[], map[], {})
    ensures !CanMigrate(OneDonation("a@x", 1000), {1}, map[], map[3 := CustomField(1, "Message")], map[], {})
    ensures !CanMigrate(OneDonation("a@x", 0x8000_0000), {1}, map[], map[], map[], {})
    ensures !CanMigrate(OneDonation("a@x", 1000), {1}, map[], map[], map[5 := Order(2, 3, 1000, Some("none"), 0)], {5})
  {
    hide CanMigrate, Parse, OneDonation;
    var fields := map[3 := CustomField(1, "Message")];
    var older := map[5 := Order(2, 3, 1000, Some("none"), 0)];
    OneDonationMigratesIff("a@x", 1000, map[], map[], {});
    OneDonationMigratesIff(email, 1000, map[], map[], {});
    OneDonationMigratesIff("a@x", 1000, fields, map[], {});
    OneDonationMigratesIff("a@x", 0x8000_0000, map[], map[], {});
    OneDonationMigratesIff("a@x", 1000, map[], older, {5});
    assert 3 in fields && Lower(fields[3].slug) == "message";
    NotAnId();
    assert !Castable(older[5]);
  }

  /** Two emails that differ only by case. */
  lemma CaseClashStops(donations: DonationRows)
    requires donations == map[7 := Donation(1, "a@x", 1000, None, 0), 8 := Donation(1, "A@x", 1000, None, 0)]
    ensures !CanMigrate(donations, {1}, map[], map[], map[], {})
  {
    assert 7 in donations && 8 in donations;
    assert UnmatchedEmails(donations, map[]) == {"a@x", "A@x"};
    assert Lower("a@x") == Lower("A@x") && "a@x"[0] != "A@x"[0];
  }

  // ---------------------------------------------------------------- in columns

  /** A donation that names no user, with an email that no user has. */
  ghost predicate NeedsUser(donations: DonationRows, users: Users, d: Uuid)
    ensures NeedsUser(donations, users, d) ==> d in donations
  {
    && d in donations && donations[d].byUserId.None?
    && forall u :: u in users ==> Lower(users[u].email) != Lower(donations[d].email)
  }

  lemma UnmatchedInColumns(donations: DonationRows, users: Users)
    ensures forall e ::
      e in UnmatchedEmails(donations, users) <==> exists d :: NeedsUser(donations, users, d) && donations[d].email == e
  {
    hide Lower;
    var known := set u | u in users :: Some(Lower(users[u].email));
    assert forall u :: u in users ==> Some(Lower(users[u].email)) in known;
    forall e | e in UnmatchedEmails(donations, users)
      ensures exists d :: NeedsUser(donations, users, d) && donations[d].email == e
    {
      var d :| d in donations && donations[d].email == e && donations[d].byUserId.None?
        && NotIn(Some(Lower(donations[d].email)), known) == True;
      assert NeedsUser(donations, users, d);
    }
    forall d | NeedsUser(donations, users, d) ensures donations[d].email in UnmatchedEmails(donations, users) {
      assert Some(Lower(donations[d].email)) !in known;
    }
  }

  /** The users before are kept as they are. Every other user has the email of a donation that needed
      one, and every such donation has exactly one user of its very email. */
  ghost predicate UsersAdded(donations: DonationRows, before: Users, after: Users) {
    && (forall u :: u in before ==> u in after && after[u] == before[u])
    && (forall u :: u in after && u !in before ==>
         exists d :: NeedsUser(donations, before, d) && donations[d].email == after[u].email)
    && (forall d :: NeedsUser(donations, before, d) ==>
         exists u :: u in after && u !in before && after[u].email == donations[d].email)
    && NewEmailsDiffer(before, after)
  }

  ghost predicate NewEmailsDiffer(before: Users, after: Users) {
    forall u, v | u in after && v in after && u !in before && v !in before && after[u].email == after[v].email :: u == v
  }

  lemma DonorsInColumns(donations: DonationRows, users: Users, newUserId: string -> Uuid)
    requires Injective(newUserId) && forall e :: newUserId(e) !in users
    ensures UsersAdded(donations, users, WithDonors(users, UnmatchedEmails(donations, users), newUserId))
  {
    hide NeedsUser, UnmatchedEmails, Injective, WithDonors;
    var emails := UnmatchedEmails(donations, users);
    var all := WithDonors(users, emails, newUserId);
    UnmatchedInColumns(donations, users);
    NewUsersAre(users, emails, newUserId);
    forall d | NeedsUser(donations, users, d)
      ensures exists u :: u in all && u !in users && all[u].email == donations[d].email
    {
      assert donations[d].email in emails;
      var u := newUserId(donations[d].email);
      assert u in all && u !in users && all[u].email == donations[d].email;
    }
    forall u | u in all && u !in users
      ensures exists d :: NeedsUser(donations, users, d) && donations[d].email == all[u].email
    {
      assert all[u].email in emails;
    }
  }

  lemma NewUsersAre(users: Users, emails: set<string>, newUserId: string -> Uuid)
    requires Injective(newUserId) && forall e :: newUserId(e) !in users
    ensures var all := WithDonors(users, emails, newUserId);
      && (forall u :: u in users ==> u in all && all[u] == users[u])
      && (forall u :: u in all && u !in users ==> all[u].email in emails && u == newUserId(all[u].email))
      && forall e :: e in emails ==> newUserId(e) in all && newUserId(e) !in users && all[newUserId(e)].email == e
  {
  }

  /** The order has the columns of the donation and belongs to its user, or to a user with its email. */
  ghost predicate IsOrderOf(o: Order, d: Uuid, donation: Donation, users: Users, products: map<Uuid, Uuid>) {
    && o.donationId.Some? && Parse(o.donationId.value) == Some(d)
    && o.amount == donation.amount && o.createdAt == donation.createdAt
    && o.productId in products && products[o.productId] == donation.organizationId
    && (donation.byUserId.Some? ==> o.userId == donation.byUserId.value)
    && (donation.byUserId.None? ==> o.userId in users && Lower(users[o.userId].email) == Lower(donation.email))
  }

  /** The orders before are kept as they are. Every other order is that of a donation to an organization
      with donations enabled, and every such donation has exactly one. */
  ghost predicate OrdersAdded(donations: DonationRows, enabled: map<Uuid, bool>, users: Users,
                              products: map<Uuid, Uuid>, before: Orders, after: Orders) {
    && (forall o :: o in before ==> o in after && after[o] == before[o])
    && (forall o :: o in after && o !in before ==> IsOfSome(donations, enabled, users, products, after[o]))
    && (forall d :: IsSold(donations, enabled, d) ==>
         HasNewOrder(d, donations[d], users, products, before, after))
    && forall o, p | o in after && p in after && o !in before && p !in before
         && after[o].donationId == after[p].donationId :: o == p
  }

  ghost predicate IsOfSome(donations: DonationRows, enabled: map<Uuid, bool>, users: Users,
                           products: map<Uuid, Uuid>, o: Order) {
    exists d :: IsSold(donations, enabled, d) && IsOrderOf(o, d, donations[d], users, products)
  }

  ghost predicate HasNewOrder(d: Uuid, donation: Donation, users: Users, products: map<Uuid, Uuid>,
                              before: Orders, after: Orders) {
    exists o :: o in after && o !in before && IsOrderOf(after[o], d, donation, users, products)
  }

  ghost predicate IsSold(donations: DonationRows, enabled: map<Uuid, bool>, d: Uuid)
    ensures IsSold(donations, enabled, d) ==> d in donations
  {
    d in donations && donations[d].organizationId in enabled && enabled[donations[d].organizationId]
  }

  lemma OrdersInColumns(donations: DonationRows, enabled: map<Uuid, bool>, organizations: set<Uuid>, users: Users,
                        products: map<Uuid, Uuid>, before: Orders, productOf: Uuid -> Uuid, newOrderId: Sale -> Uuid)
    requires Injective(newOrderId) && Fresh(before, newOrderId) && IdsAreUuids(donations)
    requires forall d :: d in donations ==> HasOneBuyer(users, donations[d])
    requires forall o :: o in organizations <==> o in enabled && enabled[o]
    requires forall o :: o in organizations ==> productOf(o) in products && products[productOf(o)] == o
    ensures OrdersAdded(donations, enabled, users, products, before,
        Migrated(before, donations, users, organizations, productOf, newOrderId))
  {
    hide HasOneBuyer, IsOfSome, HasNewOrder, IsSold, Injective, NewOrders, Fresh;
    var sales := Sales(donations, users, organizations);
    var added := NewOrders(sales, donations, productOf, newOrderId);
    NewOrdersAreNew(before, sales, donations, productOf, newOrderId);
    hide Sales;
    forall o | o in added ensures IsOfSome(donations, enabled, users, products, added[o]) {
      NewOrderIsOfSome(donations, enabled, organizations, users, products, productOf, newOrderId, o);
    }
    forall d | IsSold(donations, enabled, d)
      ensures HasNewOrder(d, donations[d], users, products, before, before + added)
    {
      SoldHasNewOrder(donations, enabled, organizations, users, products, before, productOf, newOrderId, d);
    }
    forall o, p | o in added && p in added && added[o].donationId == added[p].donationId ensures o == p {
      SameDonationSameOrder(donations, organizations, users, productOf, newOrderId, o, p);
    }
  }

  lemma NewOrderIsOfSome(donations: DonationRows, enabled: map<Uuid, bool>, organizations: set<Uuid>, users: Users,
                         products: map<Uuid, Uuid>, productOf: Uuid -> Uuid, newOrderId: Sale -> Uuid, o: Uuid)
    requires Injective(newOrderId) && IdsAreUuids(donations)
    requires forall o :: o in organizations <==> o in enabled && enabled[o]
    requires forall o :: o in organizations ==> productOf(o) in products && products[productOf(o)] == o
    requires o in NewOrders(Sales(donations, users, organizations), donations, productOf, newOrderId)
    ensures IsOfSome(donations, enabled, users, products,
        NewOrders(Sales(donations, users, organizations), donations, productOf, newOrderId)[o])
  {
    hide Injective, NewOrders, Sales, IsOrderOf, Buyers, IsUuid;
    var sales := Sales(donations, users, organizations);
    var s := SaleOf(sales, donations, productOf, newOrderId, o);
    SaleIsSold(donations, users, organizations, s);
    NewOrderInColumns(donations, users, products, productOf, s, NewOrders(sales, donations, productOf, newOrderId)[o]);
    assert IsSold(donations, enabled, s.0);
  }

  lemma SoldHasNewOrder(donations: DonationRows, enabled: map<Uuid, bool>, organizations: set<Uuid>, users: Users,
                        products: map<Uuid, Uuid>, before: Orders, productOf: Uuid -> Uuid, newOrderId: Sale -> Uuid,
                        d: Uuid)
    requires Injective(newOrderId) && Fresh(before, newOrderId) && IdsAreUuids(donations)
    requires forall o :: o in organizations <==> o in enabled && enabled[o]
    requires forall o :: o in organizations ==> productOf(o) in products && products[productOf(o)] == o
    requires IsSold(donations, enabled, d) && HasOneBuyer(users, donations[d])
    ensures HasNewOrder(d, donations[d], users, products, before,
        before + NewOrders(Sales(donations, users, organizations), donations, productOf, newOrderId))
  {
    hide Injective, NewOrders, Sales, IsOrderOf, Buyers, IsUuid, HasOneBuyer;
    var sales := Sales(donations, users, organizations);
    var added := NewOrders(sales, donations, productOf, newOrderId);
    var s := SaleFor(donations, users, organizations, d);
    NewOrderIs(sales, donations, productOf, newOrderId, s);
    var o := newOrderId(s);
    NewOrderInColumns(donations, users, products, productOf, s, added[o]);
    assert o !in before && (before + added)[o] == added[o];
  }

  lemma SameDonationSameOrder(donations: DonationRows, organizations: set<Uuid>, users: Users,
                              productOf: Uuid -> Uuid, newOrderId: Sale -> Uuid, o: Uuid, p: Uuid)
    requires Injective(newOrderId) && IdsAreUuids(donations)
    requires forall d :: d in donations ==> HasOneBuyer(users, donations[d])
    requires var added := NewOrders(Sales(donations, users, organizations), donations, productOf, newOrderId);
      o in added && p in added && added[o].donationId == added[p].donationId
    ensures o == p
  {
    hide Injective, NewOrders, Sales, Buyers, IsUuid, HasOneBuyer, Print, Parse;
    var sales := Sales(donations, users, organizations);
    var s := SaleOf(sales, donations, productOf, newOrderId, o);
    var t := SaleOf(sales, donations, productOf, newOrderId, p);
    SaleIsSold(donations, users, organizations, s);
    SaleIsSold(donations, users, organizations, t);
    PrintedReadsBack(s.0);
    PrintedReadsBack(t.0);
    OneSaleEach(donations, users, s, t);
  }

  ghost predicate IsNewOrder(sales: set<Sale>, donations: DonationRows, productOf: Uuid -> Uuid,
                             newOrderId: Sale -> Uuid, o: Uuid, s: Sale, order: Order) {
    && s in sales && s.0 in donations && o == newOrderId(s)
    && order == Order(s.1, productOf(donations[s.0].organizationId), donations[s.0].amount, Some(Print(s.0)),
                      donations[s.0].createdAt)
  }

  lemma SaleOf(sales: set<Sale>, donations: DonationRows, productOf: Uuid -> Uuid, newOrderId: Sale -> Uuid, o: Uuid)
    returns (s: Sale)
    requires Injective(newOrderId) && o in NewOrders(sales, donations, productOf, newOrderId)
    ensures IsNewOrder(sales, donations, productOf, newOrderId, o, s,
      NewOrders(sales, donations, productOf, newOrderId)[o])
  {
    hide Print;
    s :| s in sales && s.0 in donations && o == newOrderId(s);
  }

  lemma NewOrderIs(sales: set<Sale>, donations: DonationRows, productOf: Uuid -> Uuid, newOrderId: Sale -> Uuid,
                   s: Sale)
    requires Injective(newOrderId) && s in sales && s.0 in donations
    ensures var o := newOrderId(s); var orders := NewOrders(sales, donations, productOf, newOrderId);
      o in orders && IsNewOrder(sales, donations, productOf, newOrderId, o, s, orders[o])
  {
    hide Print;
    assert newOrderId(s) in NewOrders(sales, donations, productOf, newOrderId);
  }

  lemma SaleIsSold(donations: DonationRows, users: Users, organizations: set<Uuid>, s: Sale)
    requires s in Sales(donations, users, organizations)
    ensures s.0 in donations && donations[s.0].organizationId in organizations && s.1 in Buyers(users, donations[s.0])
  {
    hide Buyers;
  }

  lemma SaleFor(donations: DonationRows, users: Users, organizations: set<Uuid>, d: Uuid) returns (s: Sale)
    requires d in donations && donations[d].organizationId in organizations && HasOneBuyer(users, donations[d])
    ensures s in Sales(donations, users, organizations) && s.0 == d && s.1 in Buyers(users, donations[d])
  {
    hide Buyers;
    s := (d, Buyer(users, donations[d]));
  }

  lemma OneSaleEach(donations: DonationRows, users: Users, s: Sale, t: Sale)
    requires s.0 == t.0 && s.0 in donations && HasOneBuyer(users, donations[s.0])
    requires s.1 in Buyers(users, donations[s.0]) && t.1 in Buyers(users, donations[s.0])
    ensures s == t
  {
    hide Buyers;
    var u :| u in users && Buyers(users, donations[s.0]) == {u};
  }

  lemma NewOrderInColumns(donations: DonationRows, users: Users, products: map<Uuid, Uuid>, productOf: Uuid -> Uuid,
                          s: Sale, order: Order)
    requires s.0 in donations && IsUuid(s.0) && s.1 in Buyers(users, donations[s.0])
    requires productOf(donations[s.0].organizationId) in products
    requires products[productOf(donations[s.0].organizationId)] == donations[s.0].organizationId
    requires order == Order(s.1, productOf(donations[s.0].organizationId), donations[s.0].amount, Some(Print(s.0)),
                            donations[s.0].createdAt)
    ensures IsOrderOf(order, s.0, donations[s.0], users, products)
  {
    hide Parse, Print, IsUuid, Lower;
    PrintedReadsBack(s.0);
  }

  /** A row keeps its donation. If orders carry the donation's id it ends at one of them, and otherwise
      it stays as it was. */
  ghost predicate RowsRelinked(before: Links, after: Links, orders: Orders) {
    && after.Keys == before.Keys
    && forall r | r in before :: RowRelinked(before[r], after[r], orders)
  }

  ghost predicate RowRelinked(before: Link, after: Link, orders: Orders) {
    && after.donationId == before.donationId
    && ((exists o :: o in orders && IsTheirs(before, orders[o])) ==>
         after.orderId.Some? && after.orderId.value in orders && IsTheirs(before, orders[after.orderId.value]))
    && (!(exists o :: o in orders && IsTheirs(before, orders[o])) ==> after == before)
  }

  /** The row's donation is the one whose id the order carries. */
  ghost predicate IsTheirs(row: Link, o: Order) {
    row.donationId.Some? && o.donationId.Some? && Parse(o.donationId.value) == Some(row.donationId.value)
  }

  lemma RelinkedInColumns(rows: Links, orders: Orders, pick: Choice)
    requires PicksAMatch(pick)
    ensures RowsRelinked(rows, Relinked(rows, orders, pick), orders)
  {
    hide Parse, RowRelinked;
    forall r | r in rows ensures RowRelinked(rows[r], Relinked(rows, orders, pick)[r], orders) {
      RowInColumns(rows, orders, pick, r);
    }
  }

  lemma RowInColumns(rows: Links, orders: Orders, pick: Choice, r: Uuid)
    requires PicksAMatch(pick) && r in rows
    ensures r in Relinked(rows, orders, pick) && RowRelinked(rows[r], Relinked(rows, orders, pick)[r], orders)
  {
    hide Parse;
    if rows[r].donationId.Some? {
      var matches := OrdersOf(orders, rows[r].donationId.value);
      assert forall o :: o in matches <==> o in orders && IsTheirs(rows[r], orders[o]);
    }
  }

  /** The conditions, in columns. */
  ghost predicate MayMigrate(donations: DonationRows, enabled: map<Uuid, bool>, users: Users, fields: Fields,
                             older: Orders, scanned: set<Uuid>) {
    && (forall d, e | NeedsUser(donations, users, d) && NeedsUser(donations, users, e)
         && Lower(donations[d].email) == Lower(donations[e].email) :: donations[d].email == donations[e].email)
    && (forall d :: NeedsUser(donations, users, d) ==> |donations[d].email| <= 320)
    && (forall f :: f in fields && fields[f].organizationId in enabled && enabled[fields[f].organizationId] ==>
         Lower(fields[f].slug) != "message")
    && (forall d :: IsSold(donations, enabled, d) ==> -0x8000_0000 <= donations[d].amount <= 0x7fff_ffff)
    && forall o :: o in scanned && o in older && older[o].donationId.Some? ==> Parse(older[o].donationId.value).Some?
  }

  lemma ConditionsInColumns(donations: DonationRows, enabled: map<Uuid, bool>, organizations: set<Uuid>, users: Users,
                            fields: Fields, older: Orders, scanned: set<Uuid>)
    requires forall o :: o in organizations <==> o in enabled && enabled[o]
    ensures CanMigrate(donations, organizations, users, fields, older, scanned)
       <==> MayMigrate(donations, enabled, users, fields, older, scanned)
  {
    hide Parse, Lower, NeedsUser, UnmatchedEmails, HasMessageField, Castable, AmountsFit, IsSold, DistinctUpToCase,
      EmailsFit;
    UnmatchedInColumns(donations, users);
    EmailsInColumns(donations, users);
    FieldsTakenInColumns(organizations, fields);
    assert forall o :: Castable(o) <==> (o.donationId.Some? ==> Parse(o.donationId.value).Some?) by {
      CastableIs();
    }
    AmountsInColumns(donations, enabled, organizations);
  }

  lemma AmountsInColumns(donations: DonationRows, enabled: map<Uuid, bool>, organizations: set<Uuid>)
    requires forall o :: o in organizations <==> o in enabled && enabled[o]
    ensures AmountsFit(donations, organizations) <==>
      forall d :: IsSold(donations, enabled, d) ==> -0x8000_0000 <= donations[d].amount <= 0x7fff_ffff
  {
  }

  lemma CastableIs()
    ensures forall o :: Castable(o) <==> (o.donationId.Some? ==> Parse(o.donationId.value).Some?)
  {
    hide Parse;
  }

  lemma FieldsTakenInColumns(organizations: set<Uuid>, fields: Fields)
    ensures (forall o :: o in organizations ==> !HasMessageField(fields, o))
       <==> forall f :: f in fields && fields[f].organizationId in organizations ==> Lower(fields[f].slug) != "message"
  {
    hide Lower;
    forall f | f in fields && fields[f].organizationId in organizations && Lower(fields[f].slug) == "message"
      ensures HasMessageField(fields, fields[f].organizationId)
    {
    }
  }

  lemma EmailsInColumns(donations: DonationRows, users: Users)
    ensures DistinctUpToCase(UnmatchedEmails(donations, users)) <==>
      forall d, e | NeedsUser(donations, users, d) && NeedsUser(donations, users, e)
        && Lower(donations[d].email) == Lower(donations[e].email) :: donations[d].email == donations[e].email
    ensures EmailsFit(UnmatchedEmails(donations, users)) <==>
      forall d :: NeedsUser(donations, users, d) ==> |donations[d].email| <= 320
  {
    hide NeedsUser, UnmatchedEmails, Lower;
    UnmatchedInColumns(donations, users);
    var emails := UnmatchedEmails(donations, users);
    forall d | NeedsUser(donations, users, d) ensures donations[d].email in emails {
    }
  }

  // ---------------------------------------------------------------- the migration

  class Database {
    const donations: DonationRows
    /** donations_enabled of every organization. */
    const organizations: map<Uuid, bool>
    var users: Users
    var orders: Orders
    /** organization of every product. */
    var products: map<Uuid, Uuid>
    var customFields: Fields
    var heldBalances: Links
    var transactions: Links

    constructor (donations: DonationRows, organizations: map<Uuid, bool>, users: Users, orders: Orders,
                 products: map<Uuid, Uuid>, customFields: Fields, heldBalances: Links, transactions: Links)
      ensures this.donations == donations && this.organizations == organizations && this.users == users
      ensures this.orders == orders && this.products == products && this.customFields == customFields
      ensures this.heldBalances == heldBalances && this.transactions == transactions
    {
      this.donations, this.organizations, this.users, this.orders := donations, organizations, users, orders;
      this.products, this.customFields := products, customFields;
      this.heldBalances, this.transactions := heldBalances, transactions;
    }

    ghost predicate Valid()
      reads this
    {
      && UniqueEmails(users) && IdsAreUuids(donations)
      && forall d :: d in donations && donations[d].byUserId.Some? ==> donations[d].byUserId.value in users
    }

    lemma ValidIds()
      requires Valid()
      ensures IdsAreUuids(donations)
    {
    }

    function Enabled(): set<Uuid> {
      set o | o in organizations && organizations[o]
    }

    /** One INSERT per selected email. The unique index on lower(email) stops the loop at the first
        email that differs from an earlier one only by case, and the column's width at the first one
        that is too long. */
    method CreateDonors(newUserId: string -> Uuid) returns (ok: bool)
      requires Injective(newUserId) && forall e :: newUserId(e) !in users
      modifies this`users
      ensures var emails := UnmatchedEmails(donations, old(users));
        ok <==> DistinctUpToCase(emails) && EmailsFit(emails)
      ensures ok ==> users == WithDonors(old(users), UnmatchedEmails(donations, old(users)), newUserId)
    {
      hide UnmatchedEmails, Lower, Injective;
      ghost var before := users;
      assert WithDonors(before, {}, newUserId) == before by {
        assert NewDonors({}, newUserId) == map[];
      }
      hide WithDonors, DistinctUpToCase;
      var todo := UnmatchedEmails(donations, users);
      ghost var emails := todo;
      ghost var done: set<string> := {};
      while todo != {}
        invariant done + todo == emails && done !! todo && DistinctUpToCase(done) && EmailsFit(done)
        invariant users == WithDonors(before, done, newUserId)
        decreases todo
      {
        var email :| email in todo;
        NewDonorFitsIff(before, donations, done, email, newUserId);
        WithDonorsAdd(before, done, email, newUserId);
        assert DistinctUpToCase(done + {email}) <==> !exists e :: e in done && Lower(e) == Lower(email) by {
          DistinctAddIff(done, email);
        }
        if |email| > 320 || exists u :: u in users && Lower(users[u].email) == Lower(email) {
          DistinctSubset(done + {email}, emails);
          return false;
        }
        users := WithDonors(users, {email}, newUserId);
        todo, done := todo - {email}, done + {email};
      }
      assert done == emails;
      return true;
    }

    /** The two inserts for one organization, which fail on an amount that is no INTEGER. */
    method InsertOrders(organization: Uuid, productOf: Uuid -> Uuid, newOrderId: Sale -> Uuid) returns (ok: bool)
      requires Injective(newOrderId)
      modifies this`orders
      ensures ok <==> SalesFit(donations, users, organization)
      ensures ok ==> orders == Migrated(old(orders), donations, users, {organization}, productOf, newOrderId)
    {
      hide OwnSales, AnonymousSales, Sales, NewOrders, Injective, FitsInteger, Migrated, SalesFit;
      var own, anonymous := OwnSales(donations, organization), AnonymousSales(donations, users, organization);
      SalesByKind(donations, users, organization);
      SalesFitByKind(donations, users, organization);
      SalesAreOfDonations(donations, users, organization);
      MigratedInTwoSteps(orders, donations, users, organization, productOf, newOrderId);
      if exists s: Sale :: s in own && !FitsInteger(donations[s.0].amount) {
        return false;
      }
      orders := orders + NewOrders(own, donations, productOf, newOrderId);
      if exists s: Sale :: s in anonymous && !FitsInteger(donations[s.0].amount) {
        return false;
      }
      orders := orders + NewOrders(anonymous, donations, productOf, newOrderId);
      return true;
    }

    /** The loop over the organizations with donations enabled. */
    method MigrateOrganizations(productOf: Uuid -> Uuid, newFieldId: Uuid -> Uuid, newOrderId: Sale -> Uuid)
      returns (ok: bool)
      requires Injective(productOf) && Injective(newFieldId) && Injective(newOrderId)
      requires forall o :: newFieldId(o) !in customFields
      modifies this`orders, this`products, this`customFields
      ensures ok <==> forall o :: o in Enabled() ==>
        !HasMessageField(old(customFields), o) && SalesFit(donations, users, o)
      ensures ok ==> orders == Migrated(old(orders), donations, users, Enabled(), productOf, newOrderId)
      ensures ok ==> products == WithProducts(old(products), Enabled(), productOf)
      ensures ok ==> customFields == WithFields(old(customFields), Enabled(), newFieldId)
    {
      hide Sales, NewOrders, Migrated, Enabled, Injective, WithProducts, WithFields, HasMessageField, SalesFit, Lower;
      ghost var o0, p0, f0 := orders, products, customFields;
      NothingMigrated(o0, donations, users, productOf, newOrderId);
      WithProductsAdd(p0, {}, 0, productOf);
      WithFieldsAdd(f0, {}, 0, newFieldId);
      var todo := Enabled();
      ghost var done: set<Uuid> := {};
      while todo != {}
        invariant done + todo == Enabled() && done !! todo
        invariant forall o :: o in done ==> !HasMessageField(f0, o) && SalesFit(donations, users, o)
        invariant orders == Migrated(o0, donations, users, done, productOf, newOrderId)
        invariant products == WithProducts(p0, done, productOf)
        invariant customFields == WithFields(f0, done, newFieldId)
        decreases todo
      {
        var organization :| organization in todo;
        OtherFieldsDoNotMatter(f0, done, organization, newFieldId);
        if HasMessageField(customFields, organization) {
          return false;
        }
        WithFieldsAdd(f0, done, organization, newFieldId);
        customFields := customFields[newFieldId(organization) := CustomField(organization, "message")];
        WithProductsAdd(p0, done, organization, productOf);
        products := products[productOf(organization) := organization];
        MigratedAdd(o0, donations, users, done, organization, productOf, newOrderId);
        ok := InsertOrders(organization, productOf, newOrderId);
        if !ok {
          return;
        }
        todo, done := todo - {organization}, done + {organization};
      }
      assert done == Enabled();
      return true;
    }

    /** One of the two relinking statements. */
    method Relink(rows: Links, scanned: set<Uuid>, pick: Choice) returns (after: Links, ok: bool)
      requires IsScan(scanned, rows, orders)
      ensures ok <==> CastsParse(orders, scanned)
      ensures ok ==> after == Relinked(rows, orders, pick)
    {
      after := rows;
      ok := forall o :: o in scanned ==> Castable(orders[o]);
      if ok {
        after := Relinked(rows, orders, pick);
      }
    }

    /** The statements in order, without the rollback. `balances` and `links` are the older orders that
        the two relinking statements cast. */
    method RunSteps(newUserId: string -> Uuid, productOf: Uuid -> Uuid, newFieldId: Uuid -> Uuid,
                    newOrderId: Sale -> Uuid, pick: Choice, balances: set<Uuid>, links: set<Uuid>) returns (ok: bool)
      requires Valid() && PicksAMatch(pick)
      requires Injective(newUserId) && (forall e :: newUserId(e) !in users)
      requires Injective(productOf) && Injective(newOrderId) && Fresh(orders, newOrderId)
      requires Injective(newFieldId) && forall o :: newFieldId(o) !in customFields
      requires IsScan(balances, heldBalances, orders) && IsScan(links, transactions, orders)
      modifies this
      ensures ok <==> CanMigrate(donations, Enabled(), old(users), old(customFields), old(orders), balances + links)
      ensures ok ==> users == WithDonors(old(users), UnmatchedEmails(donations, old(users)), newUserId)
      ensures ok ==> UniqueEmails(users)
      ensures ok ==> forall d :: d in donations ==> HasOneBuyer(users, donations[d])
      ensures ok ==> orders == Migrated(old(orders), donations, users, Enabled(), productOf, newOrderId)
      ensures ok ==> products == WithProducts(old(products), Enabled(), productOf)
      ensures ok ==> customFields == WithFields(old(customFields), Enabled(), newFieldId)
      ensures ok ==> heldBalances == Relinked(old(heldBalances), orders, pick)
      ensures ok ==> transactions == Relinked(old(transactions), orders, pick)
    {
      hide Sales, NewOrders, WithDonors, UnmatchedEmails, HasOneBuyer, UniqueEmails, Injective, PicksAMatch, Relinked,
        Fresh, DistinctUpToCase, EmailsFit, Migrated, WithProducts, WithFields, HasMessageField, SalesFit, AmountsFit,
        CastsParse, IsScan, IdsAreUuids, Enabled;
      var users0, older := users, orders;
      ok := CreateDonors(newUserId);
      if !ok {
        return;
      }
      OneBuyerEach(users0, donations, newUserId);
      AmountsFitIff(donations, users, Enabled());
      ok := MigrateOrganizations(productOf, newFieldId, newOrderId);
      if !ok {
        return;
      }
      MigratedKeepsOrders(older, donations, users, Enabled(), productOf, newOrderId);
      ScanOfAll(balances, heldBalances, older, orders);
      ScanOfAll(links, transactions, older, orders);
      NewCastsParse(older, balances, donations, users, Enabled(), productOf, newOrderId);
      NewCastsParse(older, links, donations, users, Enabled(), productOf, newOrderId);
      CastsOfBoth(older, balances, links);
      var newer := orders.Keys - older.Keys;
      heldBalances, ok := Relink(heldBalances, balances + newer, pick);
      if !ok {
        return;
      }
      transactions, ok := Relink(transactions, links + newer, pick);
    }

    /** The whole migration, in one transaction. It succeeds exactly when the unmatched emails differ
        by more than case and fit their column, no enabled organization has a field `message`, the
        migrated amounts are integers, and every donation_id that is cast is an id. Otherwise it
        leaves no trace. */
    method RunOrRollBack(newUserId: string -> Uuid, productOf: Uuid -> Uuid, newFieldId: Uuid -> Uuid,
                   newOrderId: Sale -> Uuid, pick: Choice, balances: set<Uuid>, links: set<Uuid>) returns (ok: bool)
      requires Valid() && PicksAMatch(pick)
      requires Injective(newUserId) && (forall e :: newUserId(e) !in users)
      requires Injective(productOf) && Injective(newOrderId) && Fresh(orders, newOrderId)
      requires Injective(newFieldId) && forall o :: newFieldId(o) !in customFields
      requires IsScan(balances, heldBalances, orders) && IsScan(links, transactions, orders)
      modifies this
      ensures ok <==> CanMigrate(donations, Enabled(), old(users), old(customFields), old(orders), balances + links)
      ensures !ok ==> unchanged(`users, `orders, `products, `customFields, `heldBalances, `transactions)
      ensures ok ==> users == WithDonors(old(users), UnmatchedEmails(donations, old(users)), newUserId)
      ensures ok ==> UniqueEmails(users)
      ensures ok ==> forall d :: d in donations ==> HasOneBuyer(users, donations[d])
      ensures ok ==> orders == Migrated(old(orders), donations, users, Enabled(), productOf, newOrderId)
      ensures ok ==> products == WithProducts(old(products), Enabled(), productOf)
      ensures ok ==> customFields == WithFields(old(customFields), Enabled(), newFieldId)
      ensures ok ==>
        Total(OrderAmounts(orders)) == Total(OrderAmounts(old(orders))) + Total(DonatedAmounts(donations, Enabled()))
      ensures ok ==> heldBalances == Relinked(old(heldBalances), orders, pick)
      ensures ok ==> transactions == Relinked(old(transactions), orders, pick)
      ensures ok ==>
        EndAtTheirOrders(donations, Enabled(), users, old(orders), orders, old(heldBalances), heldBalances)
      ensures ok ==>
        EndAtTheirOrders(donations, Enabled(), users, old(orders), orders, old(transactions), transactions)
    {
      hide *;
      assert IdsAreUuids(donations) by {
        ValidIds();
      }
      var users0, orders0, products0, fields0 := users, orders, products, customFields;
      var balances0, transactions0 := heldBalances, transactions;
      ok := RunSteps(newUserId, productOf, newFieldId, newOrderId, pick, balances, links);
      if ok {
        RevenueGrowsByDonations(orders0, donations, users, Enabled(), productOf, newOrderId);
        RelinkedEnd(balances0, orders0, donations, users, Enabled(), productOf, newOrderId, pick);
        RelinkedEnd(transactions0, orders0, donations, users, Enabled(), productOf, newOrderId, pick);
      } else {
        users, orders, products, customFields := users0, orders0, products0, fields0;
        heldBalances, transactions := balances0, transactions0;
      }
    }

    /** The migration, in the columns of the tables. */
    method Upgrade(newUserId: string -> Uuid, productOf: Uuid -> Uuid, newFieldId: Uuid -> Uuid,
                   newOrderId: Sale -> Uuid, pick: Choice, balances: set<Uuid>, links: set<Uuid>) returns (ok: bool)
      requires Valid() && PicksAMatch(pick)
      requires Injective(newUserId) && (forall e :: newUserId(e) !in users)
      requires Injective(productOf) && Injective(newOrderId) && Fresh(orders, newOrderId)
      requires Injective(newFieldId) && forall o :: newFieldId(o) !in customFields
      requires IsScan(balances, heldBalances, orders) && IsScan(links, transactions, orders)
      modifies this
      ensures ok <==>
        MayMigrate(donations, organizations, old(users), old(customFields), old(orders), balances + links)
      ensures !ok ==> unchanged(`users, `orders, `products, `customFields, `heldBalances, `transactions)
      ensures ok ==> UsersAdded(donations, old(users), users) && UniqueEmails(users)
      ensures ok ==> OrdersAdded(donations, organizations, users, products, old(orders), orders)
      ensures ok ==> forall o :: o in organizations && organizations[o] ==>
        productOf(o) in products && products[productOf(o)] == o
      ensures ok ==> forall o :: o in organizations && organizations[o] ==>
        newFieldId(o) in customFields && customFields[newFieldId(o)] == CustomField(o, "message")
      ensures ok ==> RowsRelinked(old(heldBalances), heldBalances, orders)
      ensures ok ==> RowsRelinked(old(transactions), transactions, orders)
      ensures ok ==>
        EndAtTheirOrders(donations, Enabled(), users, old(orders), orders, old(heldBalances), heldBalances)
      ensures ok ==>
        EndAtTheirOrders(donations, Enabled(), users, old(orders), orders, old(transactions), transactions)
      ensures ok ==>
        Total(OrderAmounts(orders)) == Total(OrderAmounts(old(orders))) + Total(DonatedAmounts(donations, Enabled()))
    {
      hide *;
      var users0, orders0, products0, fields0 := users, orders, products, customFields;
      var balances0, transactions0 := heldBalances, transactions;
      EnabledIff();
      ConditionsInColumns(donations, organizations, Enabled(), users, customFields, orders, balances + links);
      assert IdsAreUuids(donations) by {
        ValidIds();
      }
      ok := RunOrRollBack(newUserId, productOf, newFieldId, newOrderId, pick, balances, links);
      if ok {
        DonorsInColumns(donations, users0, newUserId);
        ProductsInColumns(products0, Enabled(), productOf);
        FieldsInColumns(fields0, Enabled(), newFieldId);
        OrdersInColumns(donations, organizations, Enabled(), users, products, orders0, productOf, newOrderId);
        RelinkedInColumns(balances0, orders, pick);
        RelinkedInColumns(transactions0, orders, pick);
      }
    }

    lemma EnabledIff()
      ensures forall o :: o in Enabled() <==> o in organizations && organizations[o]
    {
    }
  }

  lemma ProductsInColumns(products: map<Uuid, Uuid>, organizations: set<Uuid>, productOf: Uuid -> Uuid)
    requires Injective(productOf)
    ensures var all := WithProducts(products, organizations, productOf);
      forall o :: o in organizations ==> productOf(o) in all && all[productOf(o)] == o
  {
  }

  lemma FieldsInColumns(fields: Fields, organizations: set<Uuid>, newFieldId: Uuid -> Uuid)
    requires Injective(newFieldId)
    ensures var all := WithFields(fields, organizations, newFieldId);
      forall o :: o in organizations ==> newFieldId(o) in all && all[newFieldId(o)] == CustomField(o, "message")
  {
  }

  lemma SalesFitByKind(donations: DonationRows, users: Users, organization: Uuid)
    ensures SalesFit(donations, users, organization) <==>
      forall s: Sale :: s in OwnSales(donations, organization) + AnonymousSales(donations, users, organization) ==>
        s.0 in donations && FitsInteger(donations[s.0].amount)
  {
    hide OwnSales, AnonymousSales, Sales, FitsInteger;
    SalesByKind(donations, users, organization);
    SalesAreOfDonations(donations, users, organization);
  }

  lemma MigratedInTwoSteps(older: Orders, donations: DonationRows, users: Users, organization: Uuid,
                           productOf: Uuid -> Uuid, newOrderId: Sale -> Uuid)
    requires Injective(newOrderId)
    ensures older + NewOrders(OwnSales(donations, organization), donations, productOf, newOrderId)
              + NewOrders(AnonymousSales(donations, users, organization), donations, productOf, newOrderId)
         == Migrated(older, donations, users, {organization}, productOf, newOrderId)
  {
    hide OwnSales, AnonymousSales, Sales, NewOrders, Injective;
    SalesByKind(donations, users, organization);
    NewOrdersUnion(OwnSales(donations, organization), AnonymousSales(donations, users, organization), donations,
      productOf, newOrderId);
  }

  lemma SalesAreOfDonations(donations: DonationRows, users: Users, organization: Uuid)
    ensures forall s: Sale :: s in Sales(donations, users, {organization}) ==> s.0 in donations
  {
  }

  lemma MigratedKeepsOrders(older: Orders, donations: DonationRows, users: Users, organizations: set<Uuid>,
                            productOf: Uuid -> Uuid, newOrderId: Sale -> Uuid)
    requires Injective(newOrderId)
    ensures older.Keys <= Migrated(older, donations, users, organizations, productOf, newOrderId).Keys
  {
    hide NewOrders, Sales, Injective;
  }

  lemma CastsOfBoth(orders: Orders, a: set<Uuid>, b: set<Uuid>)
    ensures CastsParse(orders, a + b) <==> CastsParse(orders, a) && CastsParse(orders, b)
  {
    hide Castable;
  }
}
