/** `2024-12-10-1357_migrate_to_customers.py`: users become customers, one for every
    organization they bought from, and the tables that pointed at users point at customers. */
module CustomerMigration {
  import opened Sql
  import opened Text

  /** The columns of a user that are copied to its customers. */
  datatype Profile = Profile(createdAt: int, email: string, emailVerified: bool, stripeCustomerId: Option<string>)

  datatype Customer = Customer(profile: Profile, organizationId: Uuid, legacyUserId: Option<Uuid>)

  /** A row of orders, subscriptions, benefit_grants, downloadables or license_keys: its user, the
      product or benefit it is about, the remaining column of its unique constraint (a grant's
      subscription_id, a downloadable's file_id; NULL elsewhere), and the new customer_id. */
  datatype Row = Row(userId: Uuid, parentId: Uuid, keyPart: Option<Uuid>, customerId: Option<Uuid>)

  datatype Checkout = Checkout(productId: Uuid, customerId: Option<Uuid>)

  /** A user and an organization. */
  type Pair = (Uuid, Uuid)

  /** Row ids of the products or benefits, with the organization each belongs to. */
  type Owners = map<Uuid, Uuid>

  // ---------------------------------------------------------------- reading the tables

  /** SELECT DISTINCT user_id, organization_id FROM rows JOIN owners. */
  function Pairs(rows: map<Uuid, Row>, owners: Owners): set<Pair> {
    set r | r in rows && rows[r].parentId in owners :: (rows[r].userId, owners[rows[r].parentId])
  }

  function LegacyPairs(customers: map<Uuid, Customer>): set<(Option<Uuid>, Uuid)> {
    set c | c in customers :: (customers[c].legacyUserId, customers[c].organizationId)
  }

  /** The customers a user has in an organization. */
  function CustomersOf(customers: map<Uuid, Customer>, user: Uuid, organization: Uuid): set<Uuid> {
    set c | c in customers && customers[c].legacyUserId == Some(user) && customers[c].organizationId == organization
  }

  function Matches(customers: map<Uuid, Customer>, owners: Owners, user: Uuid, parent: Uuid): set<Uuid> {
    if parent in owners then CustomersOf(customers, user, owners[parent]) else {}
  }

  // ---------------------------------------------------------------- what the steps promise

  /** Exactly one customer, a copy of the user's profile, for every pair, and no other. */
  function CustomersFor(pairs: set<Pair>, users: map<Uuid, Profile>, newId: Pair -> Uuid): map<Uuid, Customer>
    requires Injective(newId)
  {
    map p: Pair | p in pairs && p.0 in users :: newId(p) := Customer(users[p.0], p.1, Some(p.0))
  }

  /** Rows before and after their customer_id was filled in: nothing else changed, and every row
      has a customer of its own user in the organization of its own product or benefit. */
  ghost predicate Rekeyed(before: map<Uuid, Row>, after: map<Uuid, Row>, owners: Owners,
                          customers: map<Uuid, Customer>) {
    && after.Keys == before.Keys
    && forall r :: r in before ==>
         && after[r] == before[r].(customerId := after[r].customerId)
         && before[r].parentId in owners
         && after[r].customerId.Some?
         && CustomersOf(customers, before[r].userId, owners[before[r].parentId]) == {after[r].customerId.value}
  }

  /** UNIQUE (key part, user_id, parent): rows with a NULL never clash. */
  predicate UniqueByUser(rows: map<Uuid, Row>) {
    forall i, j | i in rows && j in rows && rows[i].keyPart.Some? && rows[i].keyPart == rows[j].keyPart
      && rows[i].userId == rows[j].userId && rows[i].parentId == rows[j].parentId :: i == j
  }

  /** UNIQUE (key part, customer_id, parent). */
  predicate UniqueByCustomer(rows: map<Uuid, Row>) {
    forall i, j | i in rows && j in rows && rows[i].keyPart.Some? && rows[i].keyPart == rows[j].keyPart
      && rows[i].customerId.Some? && rows[i].customerId == rows[j].customerId && rows[i].parentId == rows[j].parentId ::
        i == j
  }

  /** The unique index on (organization_id, lower(email)). */
  predicate UniqueCustomerEmails(customers: map<Uuid, Customer>) {
    forall c, d | c in customers && d in customers && customers[c].organizationId == customers[d].organizationId
      && Lower(customers[c].profile.email) == Lower(customers[d].profile.email) :: c == d
  }

  predicate UniqueUserEmails(users: map<Uuid, Profile>) {
    forall u, v :: u in users && v in users && Lower(users[u].email) == Lower(users[v].email) ==> u == v
  }

  predicate AllLinked(rows: map<Uuid, Row>) {
    forall r :: r in rows ==> rows[r].customerId.Some?
  }

  /** The customer a checkout should end up with. */
  function CheckoutCustomer(c: Checkout, products: Owners, pairs: set<Pair>, newId: Pair -> Uuid): Option<Uuid> {
    if c.customerId.Some? && c.productId in products && (c.customerId.value, products[c.productId]) in pairs
    then Some(newId((c.customerId.value, products[c.productId])))
    else None
  }

  ghost predicate CheckoutsRekeyed(before: map<Uuid, Checkout>, after: map<Uuid, Checkout>, products: Owners,
                                   pairs: set<Pair>, newId: Pair -> Uuid)
  {
    && after.Keys == before.Keys
    && forall c :: c in before ==>
         after[c] == before[c].(customerId := CheckoutCustomer(before[c], products, pairs, newId))
  }

  // ---------------------------------------------------------------- lemmas

  /** Customers are looked up by user and organization, and the look-up has exactly the result
      the pair was inserted with. */
  lemma CustomersOfPair(pairs: set<Pair>, users: map<Uuid, Profile>, newId: Pair -> Uuid, user: Uuid,
                        organization: Uuid)
    requires Injective(newId)
    requires forall p: Pair :: p in pairs ==> p.0 in users
    ensures CustomersOf(CustomersFor(pairs, users, newId), user, organization)
         == if (user, organization) in pairs then {newId((user, organization))} else {}
  {
  }

  /** The unique index on customers cannot fail, because user emails are unique up to case. */
  lemma EmailsStayUnique(pairs: set<Pair>, users: map<Uuid, Profile>, newId: Pair -> Uuid)
    requires Injective(newId) && UniqueUserEmails(users)
    ensures UniqueCustomerEmails(CustomersFor(pairs, users, newId))
  {
  }

  /** A unique constraint that names the user carries over to the customer, and conversely, since
      user to customer is one to one within the organization of one product or benefit. */
  lemma UniquenessCarriesOver(before: map<Uuid, Row>, after: map<Uuid, Row>, owners: Owners,
                              customers: map<Uuid, Customer>)
    requires Rekeyed(before, after, owners, customers)
    ensures UniqueByCustomer(after) <==> UniqueByUser(before)
  {
  }

  /** Filling in customer_id leaves no NULL exactly when every row's user was made a customer of
      the row's organization, and then every row is re-keyed as promised. */
  lemma LinkedCompletelyIff(rows: map<Uuid, Row>, owners: Owners, pairs: set<Pair>, users: map<Uuid, Profile>,
                            newId: Pair -> Uuid, pick: Choice)
    requires Injective(newId) && PicksAMatch(pick)
    requires forall p: Pair :: p in pairs ==> p.0 in users
    requires RowsRefer(rows, users, owners)
    ensures var customers := CustomersFor(pairs, users, newId);
            var after := Linked(rows, owners, customers, pick);
            && (AllLinked(after) <==> Pairs(rows, owners) <= pairs)
            && (AllLinked(after) ==> Rekeyed(rows, after, owners, customers))
  {
    hide CustomersFor, CustomersOf, Linked, Injective, PicksAMatch;
    var after := Linked(rows, owners, CustomersFor(pairs, users, newId), pick);
    forall r | r in rows
      ensures var p := (rows[r].userId, owners[rows[r].parentId]);
        && p in Pairs(rows, owners)
        && after[r] == rows[r].(customerId := if p in pairs then Some(newId(p)) else None)
        && (p in pairs ==> CustomersOf(CustomersFor(pairs, users, newId), p.0, p.1) == {newId(p)})
    {
      LinkedRow(rows, owners, pairs, users, newId, pick, r);
      assert (rows[r].userId, owners[rows[r].parentId]) in Pairs(rows, owners);
    }
    forall p | p in Pairs(rows, owners) && AllLinked(after) ensures p in pairs {
      var r :| r in rows && p == (rows[r].userId, owners[rows[r].parentId]);
    }
  }

  lemma LinkedRow(rows: map<Uuid, Row>, owners: Owners, pairs: set<Pair>, users: map<Uuid, Profile>,
                  newId: Pair -> Uuid, pick: Choice, r: Uuid)
    requires Injective(newId) && PicksAMatch(pick)
    requires forall p: Pair :: p in pairs ==> p.0 in users
    requires r in rows && rows[r].parentId in owners && rows[r].customerId == None
    ensures var p := (rows[r].userId, owners[rows[r].parentId]);
            && Linked(rows, owners, CustomersFor(pairs, users, newId), pick)[r]
                 == rows[r].(customerId := if p in pairs then Some(newId(p)) else None)
            && (p in pairs ==> CustomersOf(CustomersFor(pairs, users, newId), p.0, p.1) == {newId(p)})
  {
    var customers, p := CustomersFor(pairs, users, newId), (rows[r].userId, owners[rows[r].parentId]);
    CustomersOfPair(pairs, users, newId, p.0, p.1);
    hide CustomersFor, CustomersOf;
    var m := Matches(customers, owners, rows[r].userId, rows[r].parentId);
    assert p in pairs ==> newId(p) in m && pick(r, m) in m;
  }

  /** The two checkout statements together: a checkout keeps a customer exactly when its user has
      one in the organization of its product. This needs customer ids that are not user ids,
      since the second statement tells them apart by looking them up in customers. */
  lemma CheckoutsAsPromised(checkouts: map<Uuid, Checkout>, products: Owners, pairs: set<Pair>,
                            users: map<Uuid, Profile>, newId: Pair -> Uuid, pick: Choice)
    requires Injective(newId) && PicksAMatch(pick)
    requires forall p: Pair :: p in pairs ==> p.0 in users
    requires forall p: Pair :: newId(p) !in users
    requires forall c :: c in checkouts && checkouts[c].customerId.Some? ==> checkouts[c].customerId.value in users
    ensures var customers := CustomersFor(pairs, users, newId);
            var after := Orphaned(RekeyedCheckouts(checkouts, products, customers, pick), customers);
            CheckoutsRekeyed(checkouts, after, products, pairs, newId)
  {
    var customers := CustomersFor(pairs, users, newId);
    var linked := RekeyedCheckouts(checkouts, products, customers, pick);
    var ids := set c | c in customers :: Some(c);
    forall c | c in checkouts && checkouts[c].customerId.Some?
      ensures Orphaned(linked, customers)[c].customerId == CheckoutCustomer(checkouts[c], products, pairs, newId)
    {
      var user := checkouts[c].customerId.value;
      var m := Matches(customers, products, user, checkouts[c].productId);
      assert Some(user) !in ids;
      if checkouts[c].productId in products {
        var p := (user, products[checkouts[c].productId]);
        CustomersOfPair(pairs, users, newId, p.0, p.1);
        if p in pairs {
          assert newId(p) in m && pick(c, m) in m;
          assert Some(newId(p)) in ids;
        }
      }
    }
  }

  // ---------------------------------------------------------------- in columns

  /** Some row says that the user belongs to the organization. */
  ghost predicate Names(rows: map<Uuid, Row>, owners: Owners, user: Uuid, organization: Uuid) {
    exists r ::
      r in rows && rows[r].userId == user && rows[r].parentId in owners && owners[rows[r].parentId] == organization
  }

  lemma PairsAreNamed(rows: map<Uuid, Row>, owners: Owners, user: Uuid, organization: Uuid)
    ensures (user, organization) in Pairs(rows, owners) <==> Names(rows, owners, user, organization)
  {
  }

  /** Every customer is a copy of the columns of the user it was made from. */
  ghost predicate CopiesUsers(customers: map<Uuid, Customer>, users: map<Uuid, Profile>) {
    forall c | c in customers ::
      && customers[c].legacyUserId.Some? && customers[c].legacyUserId.value in users
      && customers[c].profile.createdAt == users[customers[c].legacyUserId.value].createdAt
      && customers[c].profile.email == users[customers[c].legacyUserId.value].email
      && customers[c].profile.emailVerified == users[customers[c].legacyUserId.value].emailVerified
      && customers[c].profile.stripeCustomerId == users[customers[c].legacyUserId.value].stripeCustomerId
  }

  ghost predicate IsCustomer(customers: map<Uuid, Customer>, c: Uuid, user: Uuid, organization: Uuid) {
    c in customers && customers[c].legacyUserId == Some(user) && customers[c].organizationId == organization
  }

  /** A user has at most one customer in an organization. */
  ghost predicate OneCustomerEach(customers: map<Uuid, Customer>) {
    forall c, d | c in customers && d in customers && customers[c].legacyUserId == customers[d].legacyUserId
      && customers[c].organizationId == customers[d].organizationId :: c == d
  }

  /** Every row keeps its columns and gets the customer of its user in the organization of its parent. */
  ghost predicate RowsLinked(before: map<Uuid, Row>, after: map<Uuid, Row>, owners: Owners,
                             customers: map<Uuid, Customer>) {
    && after.Keys == before.Keys
    && forall r | r in before ::
      && after[r].userId == before[r].userId && after[r].parentId == before[r].parentId
      && after[r].keyPart == before[r].keyPart && before[r].parentId in owners && after[r].customerId.Some?
      && IsCustomer(customers, after[r].customerId.value, before[r].userId, owners[before[r].parentId])
  }

  /** A checkout keeps its product. A customer it has belongs to the user it had, in the organization of
      the product; it has none only if it had none or there is none. */
  ghost predicate CheckoutsLinked(before: map<Uuid, Checkout>, after: map<Uuid, Checkout>, products: Owners,
                                  customers: map<Uuid, Customer>) {
    && after.Keys == before.Keys
    && forall c | c in before ::
      && after[c].productId == before[c].productId
      && (after[c].customerId.Some? ==>
           && before[c].customerId.Some? && before[c].productId in products
           && IsCustomer(customers, after[c].customerId.value, before[c].customerId.value,
             products[before[c].productId]))
      && (after[c].customerId.None? && before[c].customerId.Some? && before[c].productId in products ==>
           !exists k :: IsCustomer(customers, k, before[c].customerId.value, products[before[c].productId]))
  }

  /** No two rows have the same subscription or file, customer and parent. */
  ghost predicate KeysDiffer(rows: map<Uuid, Row>) {
    !exists i, j :: i in rows && j in rows && i != j && rows[i].keyPart.Some? && rows[i].keyPart == rows[j].keyPart
      && rows[i].customerId.Some? && rows[i].customerId == rows[j].customerId && rows[i].parentId == rows[j].parentId
  }

  /** No two customers of an organization have the same email, up to case. */
  ghost predicate EmailsDiffer(customers: map<Uuid, Customer>) {
    !exists c, d :: c in customers && d in customers && c != d &&
      customers[c].organizationId == customers[d].organizationId
      && Lower(customers[c].profile.email) == Lower(customers[d].profile.email)
  }

  lemma UniqueInColumns(rows: map<Uuid, Row>, customers: map<Uuid, Customer>)
    ensures UniqueByCustomer(rows) ==> KeysDiffer(rows)
    ensures UniqueCustomerEmails(customers) ==> EmailsDiffer(customers)
  {
    hide Lower;
  }

  lemma CustomersInColumns(pairs: set<Pair>, users: map<Uuid, Profile>, newId: Pair -> Uuid)
    requires Injective(newId)
    requires forall p: Pair :: p in pairs ==> p.0 in users
    ensures var customers := CustomersFor(pairs, users, newId);
      CopiesUsers(customers, users) && OneCustomerEach(customers)
    ensures forall u: Uuid, o: Uuid :: (u, o) in pairs <==>
      exists c :: IsCustomer(CustomersFor(pairs, users, newId), c, u, o)
  {
    var customers := CustomersFor(pairs, users, newId);
    forall u: Uuid, o: Uuid | (u, o) in pairs ensures IsCustomer(customers, newId((u, o)), u, o) {
      assert newId((u, o)) in customers;
    }
  }

  lemma RowsInColumns(before: map<Uuid, Row>, after: map<Uuid, Row>, owners: Owners, customers: map<Uuid, Customer>)
    requires Rekeyed(before, after, owners, customers)
    ensures RowsLinked(before, after, owners, customers)
  {
    forall r | r in before
      ensures after[r].customerId.Some?
        && IsCustomer(customers, after[r].customerId.value, before[r].userId, owners[before[r].parentId])
    {
      assert after[r].customerId.value in CustomersOf(customers, before[r].userId, owners[before[r].parentId]);
    }
  }

  lemma CheckoutsInColumns(before: map<Uuid, Checkout>, after: map<Uuid, Checkout>, products: Owners,
                           pairs: set<Pair>, users: map<Uuid, Profile>, newId: Pair -> Uuid)
    requires Injective(newId) && CheckoutsRekeyed(before, after, products, pairs, newId)
    requires forall p: Pair :: p in pairs ==> p.0 in users
    ensures CheckoutsLinked(before, after, products, CustomersFor(pairs, users, newId))
  {
    hide IsCustomer, CustomersFor, Injective;
    CustomersInColumns(pairs, users, newId);
    forall c | c in before && after[c].customerId.Some?
      ensures before[c].customerId.Some? && before[c].productId in products
      ensures IsCustomer(CustomersFor(pairs, users, newId), after[c].customerId.value, before[c].customerId.value,
        products[before[c].productId])
    {
      PairIsCustomer(pairs, users, newId, (before[c].customerId.value, products[before[c].productId]));
    }
  }

  lemma PairIsCustomer(pairs: set<Pair>, users: map<Uuid, Profile>, newId: Pair -> Uuid, p: Pair)
    requires Injective(newId) && p in pairs && p.0 in users
    ensures IsCustomer(CustomersFor(pairs, users, newId), newId(p), p.0, p.1)
  {
    assert newId(p) in CustomersFor(pairs, users, newId);
  }

  // ---------------------------------------------------------------- the statements

  /** UPDATE rows SET customer_id = customers.id FROM customers, owners WHERE ... */
  function Linked(rows: map<Uuid, Row>, owners: Owners, customers: map<Uuid, Customer>, pick: Choice)
    : (after: map<Uuid, Row>)
    ensures after.Keys == rows.Keys
  {
    map r | r in rows ::
      var m := Matches(customers, owners, rows[r].userId, rows[r].parentId);
      if m == {} then rows[r] else rows[r].(customerId := Some(pick(r, m)))
  }

  /** UPDATE checkouts SET customer_id = customers.id, looking the old customer_id up as a user. */
  function RekeyedCheckouts(checkouts: map<Uuid, Checkout>, products: Owners, customers: map<Uuid, Customer>,
                            pick: Choice)
    : map<Uuid, Checkout>
  {
    map c | c in checkouts ::
      if checkouts[c].customerId.None? then checkouts[c]
      else
        var m := Matches(customers, products, checkouts[c].customerId.value, checkouts[c].productId);
        if m == {} then checkouts[c] else checkouts[c].(customerId := Some(pick(c, m)))
  }

  /** UPDATE checkouts SET customer_id = NULL WHERE customer_id NOT IN (SELECT id FROM customers). */
  function Orphaned(checkouts: map<Uuid, Checkout>, customers: map<Uuid, Customer>): map<Uuid, Checkout> {
    var ids := set c | c in customers :: Some(c);
    map c | c in checkouts ::
      if NotIn(checkouts[c].customerId, ids) == True then checkouts[c].(customerId := None) else checkouts[c]
  }

  /** Foreign keys of a table's user and product or benefit, before customer_id is filled in. */
  predicate RowsRefer(rows: map<Uuid, Row>, users: map<Uuid, Profile>, owners: Owners) {
    forall r :: r in rows ==> rows[r].userId in users && rows[r].parentId in owners && rows[r].customerId == None
  }

  class Database {
    const users: map<Uuid, Profile>
    const products: Owners
    const benefits: Owners
    var customers: map<Uuid, Customer>
    var orders: map<Uuid, Row>
    var subscriptions: map<Uuid, Row>
    var grants: map<Uuid, Row>
    var downloadables: map<Uuid, Row>
    var licenseKeys: map<Uuid, Row>
    var checkouts: map<Uuid, Checkout>

    constructor (users: map<Uuid, Profile>, products: Owners, benefits: Owners)
      ensures this.users == users && this.products == products && this.benefits == benefits
      ensures customers == map[] && orders == subscriptions == grants == downloadables == licenseKeys == map[]
      ensures checkouts == map[]
    {
      this.users, this.products, this.benefits := users, products, benefits;
      customers, checkouts := map[], map[];
      orders, subscriptions, grants, downloadables, licenseKeys := map[], map[], map[], map[], map[];
    }

    /** What the schema guarantees once the customers table and customer_id columns are added. */
    ghost predicate Valid()
      reads this
    {
      && customers == map[]
      && UniqueUserEmails(users)
      && RowsRefer(orders, users, products) && UniqueByUser(orders)
      && RowsRefer(subscriptions, users, products) && UniqueByUser(subscriptions)
      && RowsRefer(grants, users, benefits) && UniqueByUser(grants)
      && RowsRefer(downloadables, users, benefits) && UniqueByUser(downloadables)
      && RowsRefer(licenseKeys, users, benefits) && UniqueByUser(licenseKeys)
      && forall c :: c in checkouts && checkouts[c].customerId.Some? ==> checkouts[c].customerId.value in users
    }

    /** The pairs that get a customer: those of orders, subscriptions and benefit grants. */
    function CustomerPairs(): set<Pair>
      reads this
    {
      Pairs(orders, products) + Pairs(subscriptions, products) + Pairs(grants, benefits)
    }

    /** One `INSERT INTO customers ... SELECT ... JOIN users`. */
    method InsertCustomers(pairs: set<Pair>, newId: Pair -> Uuid, ghost done: set<Pair>)
      requires Injective(newId)
      requires customers == CustomersFor(done, users, newId)
      requires pairs !! done
      modifies this`customers
      ensures customers == CustomersFor(done + pairs, users, newId)
    {
      customers := customers + map p: Pair | p in pairs && p.0 in users ::
        newId(p) := Customer(users[p.0], p.1, Some(p.0));
    }

    method InsertOrderCustomers(newId: Pair -> Uuid)
      requires Injective(newId) && customers == map[]
      modifies this`customers
      ensures customers == CustomersFor(Pairs(orders, products), users, newId)
    {
      InsertCustomers(Pairs(orders, products), newId, {});
    }

    /** The pairs of `rows` that pass the NOT IN filter of the second and third insert. */
    method MissingPairs(rows: map<Uuid, Row>, owners: Owners, newId: Pair -> Uuid, ghost done: set<Pair>)
      returns (missing: set<Pair>)
      requires Injective(newId) && forall p: Pair :: p in done ==> p.0 in users
      requires customers == CustomersFor(done, users, newId)
      ensures missing == Pairs(rows, owners) - done
    {
      var taken := LegacyPairs(customers);
      missing := set p: Pair | p in Pairs(rows, owners) && PairNotIn(p.0, p.1, taken) == True;
      forall p: Pair | p in Pairs(rows, owners)
        ensures (p in done) == ((Some(p.0), p.1) in taken) && (None, p.1) !in taken
      {
        CustomersOfPair(done, users, newId, p.0, p.1);
        if p in done {
          assert newId(p) in customers && customers[newId(p)] == Customer(users[p.0], p.1, Some(p.0));
        }
        if (Some(p.0), p.1) in taken {
          var c :| c in customers && customers[c].legacyUserId == Some(p.0) && customers[c].organizationId == p.1;
          assert c in CustomersOf(customers, p.0, p.1);
        }
      }
    }

    /** The three inserts: one customer for every pair of a user and an organization it bought
        from, subscribed to or was granted a benefit of, and no others. */
    method InsertAllCustomers(newId: Pair -> Uuid)
      requires Injective(newId) && customers == map[]
      requires forall p: Pair :: p in CustomerPairs() ==> p.0 in users
      modifies this`customers
      ensures customers == CustomersFor(CustomerPairs(), users, newId)
    {
      hide Pairs, CustomersFor, Injective;
      InsertOrderCustomers(newId);
      ghost var done := Pairs(orders, products);
      var missing := MissingPairs(subscriptions, products, newId, done);
      InsertCustomers(missing, newId, done);
      done := done + missing;
      assert done == Pairs(orders, products) + Pairs(subscriptions, products);
      missing := MissingPairs(grants, benefits, newId, done);
      InsertCustomers(missing, newId, done);
      assert done + missing == CustomerPairs();
    }

    /** ADD COLUMN customer_id, fill it in, SET NOT NULL, and re-create the unique constraint. */
    method Relink(rows: map<Uuid, Row>, owners: Owners, newId: Pair -> Uuid, pick: Choice, ghost pairs: set<Pair>)
      returns (after: map<Uuid, Row>, ok: bool)
      requires Injective(newId) && PicksAMatch(pick) && forall p: Pair :: p in pairs ==> p.0 in users
      requires RowsRefer(rows, users, owners) && UniqueByUser(rows)
      requires customers == CustomersFor(pairs, users, newId)
      ensures ok <==> Pairs(rows, owners) <= pairs
      ensures ok ==> Rekeyed(rows, after, owners, customers) && UniqueByCustomer(after)
    {
      LinkedCompletelyIff(rows, owners, pairs, users, newId, pick);
      after := Linked(rows, owners, customers, pick);
      ok := AllLinked(after);
      if ok {
        UniquenessCarriesOver(rows, after, owners, customers);
        ok := UniqueByCustomer(after);
      }
    }

    /** Both checkout statements. */
    method RelinkCheckouts(newId: Pair -> Uuid, pick: Choice, ghost pairs: set<Pair>)
      requires Injective(newId) && PicksAMatch(pick) && forall p: Pair :: newId(p) !in users
      requires forall p: Pair :: p in pairs ==> p.0 in users
      requires forall c :: c in checkouts && checkouts[c].customerId.Some? ==> checkouts[c].customerId.value in users
      requires customers == CustomersFor(pairs, users, newId)
      modifies this`checkouts
      ensures CheckoutsRekeyed(old(checkouts), checkouts, products, pairs, newId)
    {
      CheckoutsAsPromised(checkouts, products, pairs, users, newId, pick);
      checkouts := RekeyedCheckouts(checkouts, products, customers, pick);
      checkouts := Orphaned(checkouts, customers);
    }

    lemma PairsHaveUsers()
      requires Valid()
      ensures forall p: Pair :: p in CustomerPairs() ==> p.0 in users
    {
    }

    /** The steps in order, going on after a failed one; `ok` says that none failed. */
    method RunSteps(newId: Pair -> Uuid, pick: Choice, ghost pairs: set<Pair>) returns (ok: bool)
      requires Valid() && pairs == CustomerPairs()
      requires Injective(newId) && PicksAMatch(pick) && forall p: Pair :: newId(p) !in users
      modifies this
      ensures ok <==> Pairs(old(downloadables), benefits) <= pairs && Pairs(old(licenseKeys), benefits) <= pairs
      ensures customers == CustomersFor(pairs, users, newId)
      ensures ok ==> Rekeyed(old(orders), orders, products, customers)
      ensures ok ==> Rekeyed(old(subscriptions), subscriptions, products, customers)
      ensures ok ==> Rekeyed(old(grants), grants, benefits, customers) && UniqueByCustomer(grants)
      ensures ok ==> Rekeyed(old(downloadables), downloadables, benefits, customers) && UniqueByCustomer(downloadables)
      ensures ok ==> Rekeyed(old(licenseKeys), licenseKeys, benefits, customers)
      ensures CheckoutsRekeyed(old(checkouts), checkouts, products, pairs, newId)
    {
      hide Rekeyed, UniqueByCustomer, UniqueByUser, CustomersFor, Pairs, CheckoutsRekeyed, Injective, PicksAMatch,
        RowsRefer, UniqueUserEmails;
      PairsHaveUsers();
      var g, d, l, o, s: bool;
      InsertAllCustomers(newId);
      grants, g := Relink(grants, benefits, newId, pick, pairs);
      RelinkCheckouts(newId, pick, pairs);
      downloadables, d := Relink(downloadables, benefits, newId, pick, pairs);
      licenseKeys, l := Relink(licenseKeys, benefits, newId, pick, pairs);
      orders, o := Relink(orders, products, newId, pick, pairs);
      subscriptions, s := Relink(subscriptions, products, newId, pick, pairs);
      ok := g && d && l && o && s;
    }

    /** The whole migration, in one transaction. It can fail at two NOT NULL steps only, those of
        downloadables and license_keys, and fails there exactly when one of their rows has a user
        that is not among the customers of the row's organization. It then leaves no trace. */
    method RunOrRollBack(newId: Pair -> Uuid, pick: Choice) returns (ok: bool)
      requires Valid()
      requires Injective(newId) && PicksAMatch(pick) && forall p: Pair :: newId(p) !in users
      modifies this
      ensures ok <==> old(Pairs(downloadables, benefits) <= CustomerPairs() &&
        Pairs(licenseKeys, benefits) <= CustomerPairs())
      ensures !ok ==> unchanged(`customers, `orders, `subscriptions, `grants, `downloadables, `licenseKeys, `checkouts)
      ensures ok ==> customers == CustomersFor(old(CustomerPairs()), users, newId) && UniqueCustomerEmails(customers)
      ensures ok ==> Rekeyed(old(orders), orders, products, customers)
      ensures ok ==> Rekeyed(old(subscriptions), subscriptions, products, customers)
      ensures ok ==> Rekeyed(old(grants), grants, benefits, customers) && UniqueByCustomer(grants)
      ensures ok ==> Rekeyed(old(downloadables), downloadables, benefits, customers) && UniqueByCustomer(downloadables)
      ensures ok ==> Rekeyed(old(licenseKeys), licenseKeys, benefits, customers)
      ensures ok ==> CheckoutsRekeyed(old(checkouts), checkouts, products, old(CustomerPairs()), newId)
    {
      hide Rekeyed, UniqueByCustomer, UniqueByUser, CustomersFor, Pairs, CheckoutsRekeyed, Injective, PicksAMatch,
        RowsRefer, UniqueUserEmails, UniqueCustomerEmails;
      EmailsStayUnique(CustomerPairs(), users, newId);
      var k, g, c, d, l, o, s := customers, grants, checkouts, downloadables, licenseKeys, orders, subscriptions;
      ok := RunSteps(newId, pick, CustomerPairs());
      if !ok {
        customers, grants, checkouts, downloadables, licenseKeys, orders, subscriptions := k, g, c, d, l, o, s;
      }
    }

    /** The migration, in the columns of the tables. It succeeds exactly when every
        downloadable and license key has an order, a subscription or a grant of its user in its
        organization. Then there is one customer for every user and organization that those three tables
        name, and no other, a copy of its user; all rows are linked to the right customer. */
    method Upgrade(newId: Pair -> Uuid, pick: Choice) returns (ok: bool)
      requires Valid()
      requires Injective(newId) && PicksAMatch(pick) && forall p: Pair :: newId(p) !in users
      modifies this
      ensures ok <==>
        && (forall r | r in old(downloadables) ::
             old(IsServed(downloadables[r].userId, benefits[downloadables[r].parentId])))
        && (forall r | r in old(licenseKeys) ::
             old(IsServed(licenseKeys[r].userId, benefits[licenseKeys[r].parentId])))
      ensures !ok ==>
        unchanged(`customers, `orders, `subscriptions, `grants, `downloadables, `licenseKeys, `checkouts)
      ensures ok ==> CopiesUsers(customers, users) && OneCustomerEach(customers) && UniqueCustomerEmails(customers)
      ensures ok ==> forall u: Uuid, o: Uuid :: old(IsServed(u, o)) <==> exists c :: IsCustomer(customers, c, u, o)
      ensures ok ==> RowsLinked(old(orders), orders, products, customers)
      ensures ok ==> RowsLinked(old(subscriptions), subscriptions, products, customers)
      ensures ok ==> RowsLinked(old(grants), grants, benefits, customers) && UniqueByCustomer(grants)
      ensures ok ==> RowsLinked(old(downloadables), downloadables, benefits, customers)
      ensures ok ==> UniqueByCustomer(downloadables)
      ensures ok ==> RowsLinked(old(licenseKeys), licenseKeys, benefits, customers)
      ensures ok ==> CheckoutsLinked(old(checkouts), checkouts, products, customers)
      ensures ok ==> KeysDiffer(grants) && KeysDiffer(downloadables) && EmailsDiffer(customers)
    {
      hide *;
      var orders0, subscriptions0, grants0, downloadables0, licenseKeys0, checkouts0 :=
        orders, subscriptions, grants, downloadables, licenseKeys, checkouts;
      ghost var pairs := CustomerPairs();
      PairsHaveUsers();
      ServedArePairs();
      CoveredIff(downloadables);
      CoveredIff(licenseKeys);
      ok := RunOrRollBack(newId, pick);
      if ok {
        CustomersInColumns(pairs, users, newId);
        RowsInColumns(orders0, orders, products, customers);
        RowsInColumns(subscriptions0, subscriptions, products, customers);
        RowsInColumns(grants0, grants, benefits, customers);
        RowsInColumns(downloadables0, downloadables, benefits, customers);
        RowsInColumns(licenseKeys0, licenseKeys, benefits, customers);
        CheckoutsInColumns(checkouts0, checkouts, products, pairs, users, newId);
        UniqueInColumns(grants, customers);
        UniqueInColumns(downloadables, customers);
      }
    }

    /** An order, a subscription or a grant of the user in the organization. */
    ghost predicate IsServed(user: Uuid, organization: Uuid)
      reads this
    {
      || Names(orders, products, user, organization)
      || Names(subscriptions, products, user, organization)
      || Names(grants, benefits, user, organization)
    }

    lemma ServedArePairs()
      ensures forall u: Uuid, o: Uuid :: (u, o) in CustomerPairs() <==> IsServed(u, o)
    {
      hide Pairs, Names;
      forall u: Uuid, o: Uuid ensures (u, o) in CustomerPairs() <==> IsServed(u, o) {
        PairsAreNamed(orders, products, u, o);
        PairsAreNamed(subscriptions, products, u, o);
        PairsAreNamed(grants, benefits, u, o);
      }
    }

    lemma CoveredIff(rows: map<Uuid, Row>)
      requires Valid() && (rows == downloadables || rows == licenseKeys)
      ensures forall r :: r in rows ==> rows[r].parentId in benefits
      ensures Pairs(rows, benefits) <= CustomerPairs() <==>
        forall r | r in rows :: IsServed(rows[r].userId, benefits[rows[r].parentId])
    {
      hide CustomerPairs, IsServed, UniqueUserEmails, UniqueByUser;
      ServedArePairs();
      forall r | r in rows ensures (rows[r].userId, benefits[rows[r].parentId]) in Pairs(rows, benefits) {
      }
      forall p | p in Pairs(rows, benefits)
        ensures exists r :: r in rows && p == (rows[r].userId, benefits[rows[r].parentId])
      {
      }
    }
  }

  /** A user with one downloadable and no order, subscription or grant stops the migration. */
  method DownloadableWithoutCustomer(user: Profile, newId: Pair -> Uuid, pick: Choice) returns (ok: bool)
    requires Injective(newId) && PicksAMatch(pick) && forall p: Pair :: newId(p) != 1
    ensures !ok
  {
    hide Injective, PicksAMatch, Rekeyed, CheckoutsRekeyed, CustomersFor, UniqueByCustomer, UniqueCustomerEmails;
    var db := new Database(map[1 := user], map[], map[3 := 4]);
    db.downloadables := map[9 := Row(1, 3, Some(5), None)];
    assert !db.IsServed(1, 4) && 9 in db.downloadables;
    ok := db.Upgrade(newId, pick);
  }
}
