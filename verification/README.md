# Formal model of the data migrations, the web proxy and the developer tooling

The repository is a payments platform: a Python server with its database migrations, a Next.js client whose proxy
routes every request, and a command line tool for developers. This project models the parts that carry state,
arithmetic or text transformation, and proves what the later steps, the users or the callers rely on.

* **Migrations.** A table is a map from ids to rows, a migration is a class whose methods are its SQL statements, in
  order. The SQL facts that matter are kept (`Sql.dfy`): three-valued `NOT IN`, an `UPDATE ... FROM` with several
  matches takes any one (a `Choice` that is quantified over), one statement reads one snapshot, new ids are any
  injective choice, and a failing step rolls everything back. `CustomerMigration`, `TokenScopes`,
  `ExternalOrganizations`, `Donations`, `ProductPrices` and `Refunds` are one migration each; `Totals` has the sums
  over tables, `ForeignKeys` deletions.
* **The web proxy.** `Paths` has the pure classification of paths, `Proxy` the answer to one request, the journey of a
  client that follows every redirect, and the handler that clones and changes the address. The journey is a recursive
  function whose termination measure is the theorem that every redirect lowers a rank. `ProxyAnswers` writes the
  answers out with literal hosts, paths, queries and statuses.
* **The secrets file.** `Secrets` parses and prints; an update refines one insert or delete on a map. `SecretsReaders`
  has the readers, which search the lines on their own, and the file as an object; `SecretsByHand` has them on any
  file. `SecretsText` has the text as it stands in the file and the names of the settings.
* **Small loops.** `DockerInstance` (a number kept in a text by regular expressions, whose meaning is in
  `DockerPatterns`), `UserImport`, `BatchedUpdate` and `PowerLaw` (over reals).

`Text` holds what the text models share, `UuidText` the text form of ids. Methods follow the source's loops and
updates and are proved against functions; the lemmas then prove what those functions mean. Each migration's `Upgrade`
states its result column by column, in terms of the rows and their totals, without those functions. Every theorem is
for all inputs that the source can meet, up to what "Left out" names.

Check everything with `dafny verify dfyconfig.toml`.

## Where the code does less than it says

* A token that has nothing but removed scopes keeps them all (`TokenScopes.RemovedScopesSurviveIff`): the aggregated
  rows it would be updated from do not exist. The comment says that removed scopes are replaced.
* The customer migration sets NOT NULL on downloadables and license keys, but creates customers only from orders,
  subscriptions and grants. `CustomerMigration.Database.Upgrade` states exactly when that fails.
* The price round trip is exact only for some products (`ProductPrices.RestoredIff`); prices of products with several
  or no active recurring prices come back as one-time.
* The donation migration can fail in five ways, and the refund migration in three (`Donations.Database.Upgrade`,
  `Refunds.Database.Upgrade`). An older order that carries a donation's id may take its balances
  (`Donations.RelinkedToItsOrderIff`).
* The downgrade of the external organizations cannot restore any organization, since its insert leaves out NOT NULL
  columns (`ExternalOrganizations.Database.Downgrade`). So upgrade and downgrade both succeed only without sync-only
  organizations.
* `_clear_stored_instance` looks for the key in the first column only, while reading accepts indented lines
  (`DockerInstance.ReadEmptied`). Both its pattern and the writer's may run over line ends, and then take lines away
  (`DockerInstance.LinesOfSub`).
* `_update_secrets_file` drops settings whose stripped key begins with `#` (`Secrets.UpdateIsInsertOrDeleteIff`), and
  a value with outer quotes or a line break does not read back (`Secrets.UpdateRefinesIff`).
* The readers of the secrets file do not strip the key, and some stop at the first assignment, so on a file edited by
  hand they may use other lines than the settings come from (`SecretsByHand.ReadersAgreeIff`).
* The import is idempotent, as documented, but it fails on a stored email that has capitals, since it looks up the
  lower-cased email exactly and the unique index ignores case (`UserImport.Session.ImportUsers`).
* The weights are said to follow a power law, but at some sizes an item outweighs an earlier one
  (`PowerLaw.NonIncreasingIff`).
* In the proxy, the sandbox's redirect of the root is never taken, the second test of `!isInternalPath &&
  !isForwardedRoute` never decides, and a browser on a `buy` or `my` host may be sent on a detour that ends on another
  page than a crawler's (`Proxy.SamePage`). A country cookie with a blank beside the two letters makes a browser's
  redirects endless (`Proxy.RedirectsNeverEnd`). An internal path under a country prefix is passed on with its prefix
  (`Proxy.PrefixedInternalPath`).

## Model

| member | source | states |
|---|---|---|
| Paths.ExtractPrefixed | clients/web/src/proxy.ts:178-186 | For every valid path, with or without a prefix of its own, parsing the path that the country redirect prints gives back exactly that country and that path |
| Paths.PrefixIsParsedIff | clients/web/src/proxy.ts:178-186 | Of all texts of one segment, exactly those of two letters are parsed again as a prefix when the redirect prints them |
| Paths.PrefixedExtract | clients/web/src/proxy.ts:178-186 | Printing what was parsed gives the path again, in lower case up to the prefix and without a slash that only ends the prefix; the rest is a valid path |
| Paths.PortalIs | clients/web/src/proxy.ts:121 | A path is a portal path exactly when its first segment is not empty and `portal` is the second segment |
| Paths.ForwardedIsInternal | clients/web/src/proxy.ts:57-75 | Every forwarded path is internal and has no country prefix, so the second test of the guard in line 243 never decides |
| Paths.ProtectedIsInternal | clients/web/src/proxy.ts:40-45 | Every page of the protected part is internal, has no country prefix and asks for authentication |
| Paths.PrefixKeepsClass | clients/web/src/proxy.ts:129-139 | A prefixed path is never forwarded and is internal exactly when the path under the prefix matches a pattern as it stands; so on paths without a prefix the prefix keeps the internal and the public class |
| Paths.SecondPrefixHidesInternal | clients/web/src/proxy.ts:129-139 | The class is not kept under a second prefix: `/us/dashboard` is internal, `/ke/us/dashboard` is not |
| Paths.LoginIsPublic | clients/web/src/proxy.ts:129-139 | The login page is public, has no prefix and asks for no authentication, so it lives under a country itself |
| Proxy.WithoutRemoves | clients/web/src/proxy.ts:347 | Deleting a parameter leaves exactly the parameters of other names |
| Proxy.WithoutKeepsOthers | clients/web/src/proxy.ts:347 | Deleting a parameter keeps the value of every other one |
| Proxy.PrintThenParse | clients/web/src/proxy.ts:340-342 | An address of the dashboard reads back as its organization and its tail |
| Proxy.ParseThenPrint | clients/web/src/proxy.ts:340-342 | A parsed dashboard address prints as the same path, and its organization is one segment |
| Proxy.MoveSettles | clients/web/src/proxy.ts:339-419 | No old dashboard address moves to another old one, whatever the query becomes: the seven redirects never chain |
| Proxy.MoveIsValid | clients/web/src/proxy.ts:339-419 | With plain ids the new address is a valid path and the remaining ids are plain |
| Proxy.LegacyHop | clients/web/src/proxy.ts:339-419 | An old dashboard address is redirected within the protected part on the same host, where it is not an old address any more |
| Proxy.MainHostIsPlain | clients/web/src/proxy.ts:208-236 | No host rule applies on the host that the `www` redirect goes to |
| Proxy.ProtectedIsNotOnShop | clients/web/src/proxy.ts:216-232 | A request that asks for authentication and passes the host rules is not on a `buy` or `my` host |
| Proxy.HopDecreases | clients/web/src/proxy.ts:203-444 | Every redirect leads to a valid request of strictly lower rank (www, old address, login, country), and is never the sandbox's redirect of the root |
| Proxy.CountryJourney | clients/web/src/proxy.ts:284-287 | After the country redirect there is no other; on an ordinary host the page served is the path first asked for, told its country and that path; on a `buy` or `my` host the host rule answers instead |
| Proxy.LoginJourney | clients/web/src/proxy.ts:194-201 | Who must log in meets the login redirect, and, unless a crawler, one country redirect, and is served `/login` with the path and query first asked for as return address |
| Proxy.InternalJourney | clients/web/src/proxy.ts:310-459 | An internal path that is no old address and asks for no login is answered at once |
| Proxy.LegacyJourney | clients/web/src/proxy.ts:339-419 | An old address moves once and then needs a login exactly when it did before, that is, for anonymous clients |
| Proxy.WwwJourney | clients/web/src/proxy.ts:207-214 | The `www` host is left by one redirect that keeps path and query |
| Proxy.RedirectsHereAre | clients/web/src/proxy.ts:216-444 | On any other host the list of redirects a client meets is told from the request alone |
| Proxy.RedirectsAre | clients/web/src/proxy.ts:203-444 | For a country of two lower-case letters every journey ends; its redirects are exactly the list told from the request; there are at most four, and four exactly for an anonymous browser that asks the `www` host for an old dashboard address; the sandbox's root redirect is never met |
| Proxy.RedirectsNeverEnd | clients/web/src/proxy.ts:284-287 | With a country that is neither two letters nor the name of an internal path, a browser at the root of an ordinary host is redirected again and again, each time to one more prefix |
| Proxy.BlankBesideCountryIsOdd | clients/web/src/proxy.ts:284-287 | Such countries: a cookie's ` us` and `us `, which are accepted because the test trims (clients/web/src/lib/geo/index.ts, line 94) and passed on untrimmed (clients/web/src/lib/geo/middleware.ts, lines 109-110), as an address spells them |
| Proxy.SamePage | clients/web/src/proxy.ts:243-303 | For every request, a browser that follows its redirects is served the same path under the same `x-blyss-pathname` as a crawler if and only if the request is not a public path without a prefix that the rules of a `buy` or `my` host let through |
| Proxy.BuyNowIsMisrouted | clients/web/src/proxy.ts:216-224 | Such a request: `/checkout-now` on the `buy` host, on which the two see different answers |
| Proxy.ProtectedOnlyForUsersHere | clients/web/src/proxy.ts:442-444 | No answer shows a page of the protected part unless the session has a user |
| Proxy.ProtectedOnlyForUsers | clients/web/src/proxy.ts:203-444 | The same for the page at the end of every journey, whatever host, prefix or old address it began with |
| Proxy.PrefixedInternalPath | clients/web/src/proxy.ts:129-139 | An internal path under a country prefix, such as `/us/dashboard`, is passed on as it stands, prefix and all, without a login or a redirect; in the sandbox it is blocked unless it looks like a portal |
| Proxy.NextUrl.Clone | clients/web/src/proxy.ts:209 | A clone is a new object with the same address |
| Proxy.GetLoginResponse | clients/web/src/proxy.ts:194-201 | Changing the clone gives the login redirect of the specification and leaves the request alone |
| Proxy.RouteByHost | clients/web/src/proxy.ts:207-236 | The early returns of the host rules are the specified answer |
| Proxy.RouteByLocale | clients/web/src/proxy.ts:244-302 | The answer to a public path is the specified one |
| Proxy.RedirectLegacy | clients/web/src/proxy.ts:339-419 | The seven redirects of old addresses are the specified ones |
| Proxy.Handle | clients/web/src/proxy.ts:203-459 | The whole handler answers as `Route` specifies, on every request, and does not change the request |
| ProxyAnswers.IdAnswers | clients/web/src/proxy.ts:339-386 | The four redirects by query parameter written out: `/customers?customerId=`, `/benefits?benefitId=`, `/products/checkout-links?checkoutLinkId=` and `/usage-billing/meters?selectedMeter=` under `/dashboard/{org}` go, with 307, to `/customers/`, `/products/benefits/`, `/products/checkout-links/` and `/products/meters/` and the id, the parameter gone from the query |
| ProxyAnswers.PathAnswers | clients/web/src/proxy.ts:388-419 | The three redirects by path: `/usage-billing/events`, `/benefits` and `/usage-billing/meters`, and what lies under them, go, with 308, to `/analytics/events`, `/products/benefits` and `/products/meters` with the same tail and query, unless one of the former redirects comes first |
| ProxyAnswers.NoOtherAnswer | clients/web/src/proxy.ts:339-419 | No path but these seven, under one organization of the dashboard, is redirected so |
| ProxyAnswers.HostAnswers | clients/web/src/proxy.ts:208-236 | The answers by host: 308 to `blyss.co.ke`, a rewrite under `/checkout` or `/_my`, or not found |
| ProxyAnswers.HostPassesIff | clients/web/src/proxy.ts:208-236 | The requests that no host rule answers, exactly |
| ProxyAnswers.WwwIff | clients/web/src/proxy.ts:208 | The `www` host is that name in any letter case, or followed by a colon and digits |
| ProxyAnswers.HostIff | clients/web/src/proxy.ts:217-234 | The other hosts are those that start with the name and a dot, or, in any letter case, with the name and `.blyss.` |
| ProxyAnswers.OneHost | clients/web/src/proxy.ts:217-234 | No host is two of these, so the order of the host rules does not matter |
| ProxyAnswers.PublicAnswers | clients/web/src/proxy.ts:243-303 | The three answers to a public path: the rest of the path with the country of its prefix, the path as it is with `ke` for a crawler, or 307 to the path under the client's country |
| ProxyAnswers.InternalAnswers | clients/web/src/proxy.ts:310-459 | The answers to an internal path in their order: forwarded, blocked in the sandbox, an old address, a failing session, a login with 307 and the return address, or the page with its headers |
| ProxyAnswers.IsPublicIff | clients/web/src/proxy.ts:129-139 | A path is public exactly if it is not forwarded and no pattern matches what follows its country, or the path itself without one |
| ProxyAnswers.MatchesInternalIff | clients/web/src/proxy.ts:105-127 | The patterns match exactly the fifteen names and what lies under them, the portal of an organization, files with two to five letters or digits after the dot, and the four well-known files |
| ProxyAnswers.ExtractLocaleIff | clients/web/src/proxy.ts:178-186 | A country is parsed exactly from a slash and two letters, at the end or before a slash and one line; it is lower-cased |
| ProxyAnswers.ForwardedIff | clients/web/src/proxy.ts:57-75 | The forwarded paths |
| ProxyAnswers.RequiresAuthenticationIff | clients/web/src/proxy.ts:40-45 | What asks for a login: every path that begins with one of the four names, `/settingsx` too, unless it is forwarded |
| ProxyAnswers.SandboxAllowsIff | clients/web/src/proxy.ts:26-38 | What the sandbox lets through |
| ProxyAnswers.SearchIs | clients/web/src/proxy.ts:198 | How the return address spells a query |
| CustomerMigration.CustomersOfPair | server/migrations/versions/2024-12-10-1357_migrate_to_customers.py:84-209 | Looking customers up by user and organization finds exactly the one inserted for the pair, or none |
| CustomerMigration.EmailsStayUnique | server/migrations/versions/2024-12-10-1357_migrate_to_customers.py:77-82 | The unique index on organization and lower-cased email holds, given unique user emails up to case |
| CustomerMigration.UniquenessCarriesOver | server/migrations/versions/2024-12-10-1357_migrate_to_customers.py:370-376 | The unique constraint on the customer holds after the re-keying exactly when the one on the user held before (also lines 442-450) |
| CustomerMigration.LinkedCompletelyIff | server/migrations/versions/2024-12-10-1357_migrate_to_customers.py:357-368 | Filling in customer_id leaves no NULL exactly when every row's user became a customer of the row's organization; every row then has the customer of its own user and organization |
| CustomerMigration.LinkedRow | server/migrations/versions/2024-12-10-1357_migrate_to_customers.py:357-366 | One row gets the customer of its own pair, the only match there is, or stays NULL |
| CustomerMigration.CheckoutsAsPromised | server/migrations/versions/2024-12-10-1357_migrate_to_customers.py:403-418 | Both checkout statements: the final customer is NULL or the customer of the original user in the product's organization, and NULL exactly when it was NULL or there is none, given customer ids that are no user ids |
| CustomerMigration.Database.InsertCustomers | server/migrations/versions/2024-12-10-1357_migrate_to_customers.py:91-127 | One insert adds exactly one customer for every pair |
| CustomerMigration.Database.InsertOrderCustomers | server/migrations/versions/2024-12-10-1357_migrate_to_customers.py:91-127 | The first insert covers the pairs of orders |
| CustomerMigration.Database.MissingPairs | server/migrations/versions/2024-12-10-1357_migrate_to_customers.py:157-165 | The `NOT IN` filter lets through exactly the pairs that are not customers yet, NULL included (also lines 198-206) |
| CustomerMigration.Database.InsertAllCustomers | server/migrations/versions/2024-12-10-1357_migrate_to_customers.py:91-209 | After the three inserts there is exactly one customer per pair of user and organization found in orders, subscriptions or grants, and no other |
| CustomerMigration.Database.Relink | server/migrations/versions/2024-12-10-1357_migrate_to_customers.py:430-450 | Add the column, fill it, set it NOT NULL, re-create the unique constraint: succeeds exactly when every pair is a customer, and then links and keeps uniqueness |
| CustomerMigration.Database.RelinkCheckouts | server/migrations/versions/2024-12-10-1357_migrate_to_customers.py:402-426 | The table of checkouts ends as promised |
| CustomerMigration.Database.RunSteps | server/migrations/versions/2024-12-10-1357_migrate_to_customers.py:91-539 | All steps in order; only the NOT NULL steps of downloadables and license keys can fail |
| CustomerMigration.Database.Upgrade | server/migrations/versions/2024-12-10-1357_migrate_to_customers.py:91-539 | The migration, column by column: it succeeds if and only if every downloadable and license key has an order, a subscription or a grant of its user in its organization; otherwise it leaves no trace. On success every customer is a copy of its user (creation date, email, verification, Stripe id) under `legacy_user_id`; there is exactly one for each user and organization that an order, a subscription or a grant names, and no other; every row of the five tables and every checkout is linked to the customer of its own user and organization, and the unique keys hold |
| CustomerMigration.Database.RunOrRollBack | server/migrations/versions/2024-12-10-1357_migrate_to_customers.py:91-539 | The same in terms of the pairs: succeeds exactly when those of downloadables and license keys are among those of orders, subscriptions and grants; a failure is rolled back |
| CustomerMigration.CustomersInColumns | server/migrations/versions/2024-12-10-1357_migrate_to_customers.py:91-127 | The inserted customers, column by column: each has its user, whose columns it copies, and no two have the same user and organization |
| CustomerMigration.RowsInColumns | server/migrations/versions/2024-12-10-1357_migrate_to_customers.py:357-368 | A re-keyed table, row by row: all else is kept, and the customer is that of the row's user and organization |
| CustomerMigration.CheckoutsInColumns | server/migrations/versions/2024-12-10-1357_migrate_to_customers.py:402-426 | The checkouts, row by row |
| CustomerMigration.PairsAreNamed | server/migrations/versions/2024-12-10-1357_migrate_to_customers.py:98-118 | A user and an organization are a pair of a table exactly if some row of it has that user and a product or benefit of that organization |
| CustomerMigration.DownloadableWithoutCustomer | server/migrations/versions/2024-12-10-1357_migrate_to_customers.py:430-441 | An input on which it fails: a downloadable whose user has no order, subscription or grant in the organization |
| TokenScopes.SplitAt | server/migrations/versions/2024-12-10-1357_migrate_to_customers.py:624-626 | A word and the blanks after it are one piece and one separator |
| TokenScopes.ScopesOfJoin | server/migrations/versions/2024-12-10-1357_migrate_to_customers.py:647-664 | Joining pieces with blanks gives a text with exactly those scopes |
| TokenScopes.KeptIs | server/migrations/versions/2024-12-10-1357_migrate_to_customers.py:653-662 | The kept pieces are those not in the list; the empty piece counts as kept |
| TokenScopes.RewrittenScopes | server/migrations/versions/2024-12-10-1357_migrate_to_customers.py:622-674 | A token with a kept and a removed scope ends, as a set, with its kept scopes, the portal's read scope, and the portal's write scope exactly when a removed one was writing; every other token keeps its very text, whatever the order of aggregation |
| TokenScopes.RemovedScopesSurviveIff | server/migrations/versions/2024-12-10-1357_migrate_to_customers.py:622-674 | Removed scopes survive exactly in tokens that have nothing but removed scopes |
| TokenScopes.OnlyRemovedScopeSurvives | server/migrations/versions/2024-12-10-1357_migrate_to_customers.py:622-674 | Such a token: `user:orders:read` |
| TokenScopes.NoRemovedScopeLeft | server/migrations/versions/2024-12-10-1357_migrate_to_customers.py:622-674 | A rewritten token has no removed scope left |
| TokenScopes.RewriteTwice | server/migrations/versions/2024-12-10-1357_migrate_to_customers.py:622-674 | Running the statement again changes nothing |
| TokenScopes.ReplaceIn | server/migrations/versions/2024-12-10-1357_migrate_to_customers.py:665-672 | Every token of one table, by the literal scopes: with one of the eight obsolete scopes and any other piece it ends with its other scopes, `customer_portal:read`, and `customer_portal:write` exactly when it had one of the two obsolete scopes that write; any other token, and NULL, is kept |
| TokenScopes.ReplacedIsRenewed | server/migrations/versions/2024-12-10-1357_migrate_to_customers.py:622-674 | Any order of aggregation gives a token as just described |
| TokenScopes.RewrittenText | server/migrations/versions/2024-12-10-1357_migrate_to_customers.py:640-664 | The very text of a rewritten token: the other pieces in some order, then the scopes of the portal |
| TokenScopes.ReplaceInClients | server/migrations/versions/2024-12-10-1357_migrate_to_customers.py:781-840 | The same for the scope in the metadata of clients, where it may be missing; nothing else of the metadata changes |
| TokenScopes.Database.ReplaceRemovedScopes | server/migrations/versions/2024-12-10-1357_migrate_to_customers.py:621-840 | All four tables are rewritten so, by the literal scopes |
| ForeignKeys.DeletedIsLeast | server/migrations/versions/2024-07-15-1335_create_externalorganization.py:293-299 | What a deletion takes along by cascades is the least set that holds the deleted rows and, with a row, all that follow it |
| ForeignKeys.CascadedIff | server/migrations/versions/2024-07-15-1335_create_externalorganization.py:293-299 | A row is taken along in one step exactly if one of its references with ON DELETE CASCADE ends at a deleted row |
| ForeignKeys.BlockedIff | server/migrations/versions/2024-07-15-1335_create_externalorganization.py:293-299 | A deletion is blocked exactly by a row that stays and has a reference without an action to a deleted row |
| ForeignKeys.OnlyNulledAreLost | server/migrations/versions/2024-07-15-1335_create_externalorganization.py:293-299 | When a deletion succeeds, the rows that stay lose no reference but those set to NULL |
| ForeignKeys.Delete | server/migrations/versions/2024-07-15-1335_create_externalorganization.py:293-299 | The deletion takes exactly that set along, and fails exactly on a row that stays and refers to it without an action |
| ExternalOrganizations.UpgradeKeepsReferences | server/migrations/versions/2024-07-15-1335_create_externalorganization.py:99-299 | After the upgrade every issue, pull request, repository, dependency and pledge points at an existing external organization with the external_id of the organization it pointed at before, for any injective choice of new ids |
| ExternalOrganizations.RestoredCompletely | server/migrations/versions/2024-07-15-1335_create_externalorganization.py:306-364 | After the downgrade's insert every external organization has exactly one organization of its external_id |
| ExternalOrganizations.MissingAfterUpgrade | server/migrations/versions/2024-07-15-1335_create_externalorganization.py:359-363 | After the upgrade, the organizations that the downgrade has to insert are the sync-only ones, under their new ids |
| ExternalOrganizations.RoundTripOfRow | server/migrations/versions/2024-07-15-1335_create_externalorganization.py:99-467 | One referring row comes back to its organization |
| ExternalOrganizations.RoundTrip | server/migrations/versions/2024-07-15-1335_create_externalorganization.py:99-467 | Upgrade then downgrade brings every referring row back to an organization with its original external_id: the same id if that organization survived the deletion, the new id otherwise |
| ExternalOrganizations.SyncOnlyIsNotRestored | server/migrations/versions/2024-07-15-1335_create_externalorganization.py:293-364 | An input on which the upgrade succeeds and the downgrade does not: one sync-only organization |
| ExternalOrganizations.DonorIsHeld | server/migrations/versions/2024-07-15-1335_create_externalorganization.py:293-299 | An input on which the upgrade fails: a donation that a sync-only organization made |
| ExternalOrganizations.Database.CopyOrganizations | server/migrations/versions/2024-07-15-1335_create_externalorganization.py:99-167 | Every organization is copied under its id and given a new id |
| ExternalOrganizations.Database.RelinkToExternals | server/migrations/versions/2024-07-15-1335_create_externalorganization.py:176-183 | One table is relinked from a snapshot, so a new id that equals another old id is not followed twice (also lines 186-227) |
| ExternalOrganizations.Database.RelinkAllToExternals | server/migrations/versions/2024-07-15-1335_create_externalorganization.py:169-227 | The five tables end renumbered |
| ExternalOrganizations.Database.RekeyExternals | server/migrations/versions/2024-07-15-1335_create_externalorganization.py:229-242 | The new ids become the primary key, which holds because they differ |
| ExternalOrganizations.Database.DropSyncOnly | server/migrations/versions/2024-07-15-1335_create_externalorganization.py:281-299 | Exactly the sync-only organizations and their traffic are deleted; what refers to them by a cascade goes along, and a row of another table that holds on to any of this is exactly what makes it fail |
| ExternalOrganizations.Database.Upgrade | server/migrations/versions/2024-07-15-1335_create_externalorganization.py:99-299 | The upgrade, column by column: it fails, leaving no trace, exactly when a row of another table that stays holds on to an organization without installation that no maintainer upgrade created, or to a row deleted with one. On success an organization is left, unchanged, if and only if it has an installation date or comes from a maintainer upgrade; traffic stays exactly if its organization does; every organization is copied under its new id, and every reference carries the new id |
| ExternalOrganizations.UpgradedInColumns | server/migrations/versions/2024-07-15-1335_create_externalorganization.py:99-299 | The state after the upgrade, in these columns |
| ExternalOrganizations.UnusedAreSyncOnly | server/migrations/versions/2024-07-15-1335_create_externalorganization.py:289-299 | What makes the upgrade fail is what holds on to these organizations |
| ExternalOrganizations.MissingInColumns | server/migrations/versions/2024-07-15-1335_create_externalorganization.py:359-363 | The downgrade restores exactly the external organizations whose external_id no organization has |
| ExternalOrganizations.Database.RestoreAndRelink | server/migrations/versions/2024-07-15-1335_create_externalorganization.py:304-467 | The statements of the downgrade in order |
| ExternalOrganizations.Database.RestoreOrganizations | server/migrations/versions/2024-07-15-1335_create_externalorganization.py:307-364 | The insert succeeds exactly when there is nothing to insert, since it leaves out NOT NULL columns that have no default; if they had one, exactly when no inserted id is taken |
| ExternalOrganizations.Database.RelinkToOrganizations | server/migrations/versions/2024-07-15-1335_create_externalorganization.py:370-378 | One table is relinked back by external_id, whichever match is picked (also lines 387-459) |
| ExternalOrganizations.Database.RelinkAllToOrganizations | server/migrations/versions/2024-07-15-1335_create_externalorganization.py:366-467 | All five tables are |
| ExternalOrganizations.Database.Downgrade | server/migrations/versions/2024-07-15-1335_create_externalorganization.py:304-467 | The downgrade succeeds exactly when every external organization has an organization of its external_id, or, if the omitted columns had a default, when no other id is taken; otherwise it leaves no trace. On success all organizations stay, those without one are added under their ids with external_id and installation, and every reference ends at an organization of its external_id |
| ExternalOrganizations.UpgradeThenDowngrade | server/migrations/versions/2024-07-15-1335_create_externalorganization.py:99-467 | Both directions on a database: on the schema as it stands both succeed if and only if every organization has an installation or comes from a maintainer upgrade; whenever both succeed every row is back at its organization, under the old id if that was kept and the new one otherwise |
| Donations.NewDonorFitsIff | server/migrations/versions/2024-11-06-1405_remove_donation.py:98-109 | A new donor collides with a user up to case exactly when it collides with a donor added before it |
| Donations.EmailsDiffer | server/migrations/versions/2024-11-06-1405_remove_donation.py:88-109 | With unmatched emails distinct up to case, emails stay unique |
| Donations.OneBuyerEach | server/migrations/versions/2024-11-06-1405_remove_donation.py:88-109 | Every donation then belongs to exactly one user |
| Donations.OneOrderPerDonation | server/migrations/versions/2024-11-06-1405_remove_donation.py:179-228 | Every donation to an enabled organization becomes exactly one order, of its amount, for its buyer; any other becomes none |
| Donations.SalesByKind | server/migrations/versions/2024-11-06-1405_remove_donation.py:179-228 | The two inserts, of donors with and without an account, together cover every donation of the organization |
| Donations.MigratedAdd | server/migrations/versions/2024-11-06-1405_remove_donation.py:121-228 | One more turn of the loop over organizations |
| Donations.AmountsConserved | server/migrations/versions/2024-11-06-1405_remove_donation.py:179-228 | The amounts of the new orders add up to the amounts of the migrated donations |
| Donations.RevenueGrowsByDonations | server/migrations/versions/2024-11-06-1405_remove_donation.py:179-228 | All orders together are worth the older ones plus the migrated donations |
| Donations.RelinkedToItsOrderIff | server/migrations/versions/2024-11-06-1405_remove_donation.py:230-247 | A held balance or transaction of a donation is linked to that donation's own order under every choice of match if and only if no older order carries the donation's id |
| Donations.Database.CreateDonors | server/migrations/versions/2024-11-06-1405_remove_donation.py:88-109 | The loop succeeds exactly when no two unmatched emails differ only by case and none is longer than 320 characters, and adds one user per unmatched email |
| Donations.Database.InsertOrders | server/migrations/versions/2024-11-06-1405_remove_donation.py:179-228 | One turn of the loop inserts the orders of one organization; it fails exactly when an amount is no INTEGER |
| Donations.Database.MigrateOrganizations | server/migrations/versions/2024-11-06-1405_remove_donation.py:121-228 | The loop inserts the orders of all enabled organizations, with one product and one custom field for each; it fails exactly when one of them has a field `message` already, up to case, or an amount that is no INTEGER |
| Donations.AmountsFitIff | server/migrations/versions/2024-11-06-1405_remove_donation.py:179-228 | The inserted amounts fit exactly when those of all donations to the organizations do |
| Donations.OtherFieldsDoNotMatter | server/migrations/versions/2024-11-06-1405_remove_donation.py:124-132 | The custom fields added for other organizations do not take this one's slug |
| Donations.SafeScansIff | server/migrations/versions/2024-11-06-1405_remove_donation.py:230-247 | The casts succeed under every plan of the database if and only if every older donation_id is a UUID, and under some plan if and only if, otherwise, no row has a donation |
| Donations.NewCastsParse | server/migrations/versions/2024-11-06-1405_remove_donation.py:193 | The donation_id of a new order is always a UUID |
| Donations.RelinkedEnd | server/migrations/versions/2024-11-06-1405_remove_donation.py:230-247 | Every held balance and transaction of a donation to an enabled organization, whose id no older order carries, ends at the only order that carries it, of its amount and date and for its buyer |
| Donations.OlderOrderTakesTheBalance | server/migrations/versions/2024-11-06-1405_remove_donation.py:230-238 | An input that fails: an older order with the same donation_id takes the balance |
| Donations.Database.Relink | server/migrations/versions/2024-11-06-1405_remove_donation.py:230-247 | One relinking statement fails exactly when a donation_id that it casts is no UUID |
| Donations.Database.RunSteps | server/migrations/versions/2024-11-06-1405_remove_donation.py:88-247 | The statements in order succeed exactly under the five conditions of `CanMigrate` |
| Donations.Database.Upgrade | server/migrations/versions/2024-11-06-1405_remove_donation.py:88-247 | The migration, column by column: it succeeds if and only if the emails of donations without a user, which no user has up to case, differ by more than case and fit their column, no enabled organization has a custom field `message` (unique with the organization and blind to case by 2024-11-04-1100_add_customfield_and_productcustomfield.py, lines 25 and 47-51), the amounts of donations to enabled organizations are INTEGERs, and every donation_id that is cast is a UUID; otherwise it leaves no trace. On success old users are unchanged and every such email, and no other, has exactly one new user; old orders are unchanged and every donation to an enabled organization, and no other, has exactly one new order, of its amount, date and text id, for its user or the user of its email, and its product; every enabled organization has a product and a field `message`; a held balance or transaction is relinked exactly if an order carries its donation's id, and then to such an order; money is conserved |
| Donations.Database.RunOrRollBack | server/migrations/versions/2024-11-06-1405_remove_donation.py:88-247 | The same in terms of the statements: one buyer each, money conserved, and every held balance and transaction of a donation ends at the donation's only order unless an older order carries its id; a failure is rolled back |
| Donations.DonorsInColumns | server/migrations/versions/2024-11-06-1405_remove_donation.py:88-109 | The new users, column by column |
| Donations.OrdersInColumns | server/migrations/versions/2024-11-06-1405_remove_donation.py:179-228 | The new orders, column by column |
| Donations.RelinkedInColumns | server/migrations/versions/2024-11-06-1405_remove_donation.py:230-247 | The relinked rows, row by row |
| Donations.ConditionsInColumns | server/migrations/versions/2024-11-06-1405_remove_donation.py:88-247 | The five conditions in columns |
| UuidText.PrintIs | server/migrations/versions/2024-11-06-1405_remove_donation.py:193 | The text form: thirty-two lower-case hexadecimal digits, the highest first, with hyphens after eight, twelve, sixteen and twenty |
| UuidText.BracesAreRead | server/migrations/versions/2024-11-06-1405_remove_donation.py:232-238 | The cast also reads an id in braces |
| UuidText.OpenBraceIsNoId | server/migrations/versions/2024-11-06-1405_remove_donation.py:232-238 | A brace that is not closed makes the cast fail |
| Donations.OneDonationMigratesIff | server/migrations/versions/2024-11-06-1405_remove_donation.py:88-247 | With one donation and no users the conditions are independent of each other |
| Donations.EachConditionIsNeeded | server/migrations/versions/2024-11-06-1405_remove_donation.py:88-247 | An input for each failure: a long email, a taken slug, a large amount, a donation_id that is no UUID |
| Donations.CaseClashStops | server/migrations/versions/2024-11-06-1405_remove_donation.py:88-109 | An input for the remaining one: two emails that differ only by case |
| UuidText.PrintedReadsBack | server/migrations/versions/2024-11-06-1405_remove_donation.py:193 | The text of a UUID, as it is printed into the metadata, casts back to it |
| ProductPrices.ActiveRecurringUnaffected | server/migrations/versions/2025-02-12-1445_migrate_product_prices.py:36-53 | The first statement does not change which recurring prices are counted |
| ProductPrices.PickedPrice | server/migrations/versions/2025-02-12-1445_migrate_product_prices.py:54-64 | A product with one active recurring price takes its interval from one of its own prices |
| ProductPrices.RoundTripOfPrice | server/migrations/versions/2025-02-12-1445_migrate_product_prices.py:36-106 | A price comes back one-time when its product took no interval, and otherwise recurring on the interval of the price the product took it from |
| ProductPrices.ReturnedSameIff | server/migrations/versions/2025-02-12-1445_migrate_product_prices.py:36-106 | All prices of a product come back as they were under that form if and only if they are all one-time, or exactly one recurring price is active and all are recurring on one interval |
| ProductPrices.RestoredIff | server/migrations/versions/2025-02-12-1445_migrate_product_prices.py:36-106 | Upgrade then downgrade restores a product's prices if and only if they are all one-time, or exactly one recurring price is active and all prices are recurring on one interval |
| ProductPrices.RestoredForAll | server/migrations/versions/2025-02-12-1445_migrate_product_prices.py:36-106 | The same for all products at once |
| ProductPrices.TwoActivePricesAreLost | server/migrations/versions/2025-02-12-1445_migrate_product_prices.py:36-106 | A product that is not restored: two active recurring prices |
| ProductPrices.OthersComeBackOneTime | server/migrations/versions/2025-02-12-1445_migrate_product_prices.py:36-106 | Prices of products with no or several active recurring prices come back as one_time |
| ProductPrices.UpgradeMoves | server/migrations/versions/2025-02-12-1445_migrate_product_prices.py:36-70 | After the upgrade a price has no type exactly if it was one-time or its product has exactly one active recurring price; in the latter case the interval is gone from the prices and is the product's, taken from one of them; all else is kept |
| ProductPrices.IntervalsAreInOnePlace | server/migrations/versions/2025-02-12-1445_migrate_product_prices.py:36-70 | No interval is then recorded both on a product and on a price of it |
| ProductPrices.Database.Upgrade | server/migrations/versions/2025-02-12-1445_migrate_product_prices.py:36-70 | Both statements, column by column: a price loses its type if it was one-time, and type and interval if its product has exactly one recurring price that is not archived, whose product takes the interval of one of its own prices; every other price and product keeps what it had |
| ProductPrices.Database.Downgrade | server/migrations/versions/2025-02-12-1445_migrate_product_prices.py:80-112 | Both statements, column by column: a price without a type gets `one_time`, or `recurring` and its product's interval if that has one; the final NOT NULL step cannot fail |
| ProductPrices.UpgradeThenDowngrade | server/migrations/versions/2025-02-12-1445_migrate_product_prices.py:36-112 | The round trip on a database: a product's prices come back as they were if and only if all are `one_time`, or exactly one `recurring` price is not archived and all are `recurring` with one interval |
| ProductPrices.OneActiveIff | server/migrations/versions/2025-02-12-1445_migrate_product_prices.py:36-53 | What is counted are the recurring prices that are not archived |
| ProductPrices.UpgradeInColumns | server/migrations/versions/2025-02-12-1445_migrate_product_prices.py:36-70 | The upgrade in these columns |
| ProductPrices.RestoredInColumns | server/migrations/versions/2025-02-12-1445_migrate_product_prices.py:36-106 | The condition for coming back, in literal types and intervals |
| ProductPrices.ArchivedIntervalIsLost | server/migrations/versions/2025-02-12-1445_migrate_product_prices.py:36-106 | A product with one active price whose archived price has another interval does not come back, although without the archived price it would |
| Refunds.OneRefundPerTransaction | server/migrations/versions/2025-01-08-0000_add_refunds.py:149-220 | Refunds and live refund transactions point at each other one to one; other transactions are untouched |
| Refunds.InsertSucceedsIff | server/migrations/versions/2025-01-08-0000_add_refunds.py:149-203 | The refunds keep processor ids unique exactly when no two live refund transactions share a refund id |
| Refunds.LinkedRefund | server/migrations/versions/2025-01-08-0000_add_refunds.py:204-247 | The refund of a transaction, with the columns of its order |
| Refunds.OrdersAddUp | server/migrations/versions/2025-01-08-0000_add_refunds.py:253-267 | What is summed per order adds up to all counted refunds of orders |
| Refunds.SettledIsTotal | server/migrations/versions/2025-01-08-0000_add_refunds.py:253-301 | An order's refunded amount is the total of its own refunds, 0 without any |
| Refunds.RefundsConserved | server/migrations/versions/2025-01-08-0000_add_refunds.py:149-301 | The sum of the refunded amounts of all orders is the sum of the absolute amounts of live refund transactions with an order, and so for taxes |
| Refunds.RefundedPerOrder | server/migrations/versions/2025-01-08-0000_add_refunds.py:149-301 | What an order's refunds add up to is what its live refund transactions add up to |
| Refunds.StatusMeaning | server/migrations/versions/2025-01-08-0000_add_refunds.py:267-292 | An order with refunds is left 'paid' exactly when neither component is under-refunded and at least one is over-refunded |
| Refunds.Database.BackfillRefunds | server/migrations/versions/2025-01-08-0000_add_refunds.py:144-247 | The three statements of the refund table; fails exactly on a duplicate refund id or an absolute amount that is no INTEGER |
| Refunds.Database.LinkTransactions | server/migrations/versions/2025-01-08-0000_add_refunds.py:204-220 | Every live refund transaction gets its refund, whichever match is picked |
| Refunds.Database.BackfillOrders | server/migrations/versions/2025-01-08-0000_add_refunds.py:250-305 | Orders are settled and no column stays NULL, exactly when every sum is an INTEGER |
| Refunds.Database.Upgrade | server/migrations/versions/2025-01-08-0000_add_refunds.py:144-305 | Both backfills together, column by column: they succeed if and only if live refund transactions have distinct refund ids and neither an absolute amount nor an order's sum exceeds INTEGER; otherwise they leave no trace. On success each live transaction has exactly one refund, with the columns of its order; an order ends with the absolute amounts and taxes of its live refund transactions, and with the status `paid` if it has none, `refunded` if both equal its own, `partially_refunded` if one is less, and `paid` otherwise; money is conserved |
| Refunds.Database.RunOrRollBack | server/migrations/versions/2025-01-08-0000_add_refunds.py:144-305 | The same in terms of the statements, a failure rolled back: links one to one, money conserved |
| Refunds.OrdersInColumns | server/migrations/versions/2025-01-08-0000_add_refunds.py:253-301 | The settled orders, by their live refund transactions and with literal statuses |
| Refunds.RefundsInColumns | server/migrations/versions/2025-01-08-0000_add_refunds.py:149-247 | The refunds, column by column |
| Refunds.ConditionsInColumns | server/migrations/versions/2025-01-08-0000_add_refunds.py:144-305 | When the backfill succeeds, in terms of the transactions |
| Refunds.DuplicateRefundIdStops | server/migrations/versions/2025-01-08-0000_add_refunds.py:149-203 | An input for a failure: two refunds with one refund id |
| Refunds.LeastAmountStops | server/migrations/versions/2025-01-08-0000_add_refunds.py:177-178 | Another: the least INTEGER, whose absolute value is none |
| Refunds.LargeSumStops | server/migrations/versions/2025-01-08-0000_add_refunds.py:253-267 | Another: two refunds of one order whose sum is no INTEGER |
| Secrets.PutIsInsert | dev/cli/up_steps/09_configure_integrations.py:97-100 | Assigning a key in the dict is one insert on the map it stands for |
| Secrets.PopIsDelete | dev/cli/up_steps/09_configure_integrations.py:97-100 | Popping a key is one delete |
| Secrets.LineIsPrintable | dev/cli/up_steps/09_configure_integrations.py:92-95 | Every entry that is read can be printed |
| Secrets.ParsedIsProper | dev/cli/up_steps/09_configure_integrations.py:90-95 | Every dict that is read has distinct, printable entries |
| Secrets.PrintedLineReadsBack | dev/cli/up_steps/09_configure_integrations.py:105-107 | A printed entry is one line and reads back as itself, unless its key begins with `#` |
| Secrets.WrittenReadsBack | dev/cli/up_steps/09_configure_integrations.py:90-107 | Reading what was written gives the dict back, without keys that begin with `#` |
| Secrets.UpdateRefines | dev/cli/up_steps/09_configure_integrations.py:86-107 | A sound update is one insert or delete on the settings the file stands for, after dropping settings whose key begins with `#` |
| Secrets.UpdateRefinesIff | dev/cli/up_steps/09_configure_integrations.py:86-107 | Of all updates exactly the sound ones do so: every delete, and an insert whose key has no `=`, no outer blanks and no `#` in front, whose value has no outer quotes, and neither a line break |
| Secrets.PastedQuotesAreLost | dev/cli/up_steps/09_configure_integrations.py:86-107 | A value that does not read back: one pasted with its quotes |
| Secrets.DenotedIsPrintable | dev/cli/up_steps/09_configure_integrations.py:90-95 | Every setting of any file has such a key, but for `#`, and such a value |
| Secrets.UpdateIsInsertOrDeleteIff | dev/cli/up_steps/09_configure_integrations.py:86-107 | It is exactly that insert or delete if and only if no other setting's key begins with `#` |
| Secrets.IndentedCommentIsLost | dev/cli/up_steps/09_configure_integrations.py:93-95 | A file that loses a setting: an indented line whose key begins with `#` |
| Secrets.RunRefines | dev/cli/commands/stripe.py:56-75 | Any run of sound updates, by either copy of the routine in any mixture, reads back as the run on the map |
| Secrets.RunIsWritten | dev/cli/commands/stripe.py:72-75 | After any run of sound updates the file is one that a copy of the routine wrote |
| SecretsReaders.AssignsOnly | dev/cli/up_steps/09_configure_integrations.py:25 | A line assigns the text before its first `=` and no other key |
| SecretsReaders.ReadersAgree | dev/cli/up_steps/09_configure_integrations.py:19-70 | On a file the routine wrote, the readers that take the first assignment and those that take the last agree with the map |
| SecretsByHand.AssignedIff | dev/cli/up_steps/09_configure_integrations.py:23-26 | A reader accepts a line exactly if the update routine reads the key from it and no blank stands around the key |
| SecretsByHand.SameLineIff | dev/cli/commands/stripe.py:45-52 | The reader that lets the last assignment win uses the line of the key's last entry if and only if that is written without blanks around the key |
| SecretsByHand.FirstLineIff | dev/cli/up_steps/09_configure_integrations.py:24-37 | The readers that stop at the first assignment use the line of the last entry if and only if, moreover, no line before it assigns the key |
| SecretsByHand.ReadersAgreeIff | dev/cli/up_steps/09_configure_integrations.py:19-70 | On any file, also one edited by hand, the map has the key's last entry, and where a reader uses the line of that entry, by the two conditions above, it finds the same, whatever the values are; without an entry no reader finds one |
| SecretsByHand.IndentedSettingIsHidden | dev/cli/up_steps/09_configure_integrations.py:92-95 | An indented setting is in the map, but no reader finds it |
| SecretsByHand.SecondAssignmentIsOverlooked | dev/cli/up_steps/09_configure_integrations.py:24-28 | After two assignments the first-assignment readers find the first, the other reader and the map the second |
| SecretsByHand.ReadersDiffer | dev/cli/up_steps/09_configure_integrations.py:24-28 | Such a file: `A=1` and then `A=2` |
| SecretsReaders.AssignedIsContained | dev/cli/up_steps/09_configure_integrations.py:23 | The substring test before the loop never changes the result of is_github_configured |
| SecretsReaders.SkippedReadsBack | dev/cli/up_steps/09_configure_integrations.py:31-43 | What set_..._skipped stored is what is_..._skipped finds, whatever the file was |
| SecretsReaders.SavedKeysReadBack | dev/cli/up_steps/09_configure_integrations.py:46-83 | After saving, Stripe counts as configured exactly when both keys are given, and no other visible setting has changed (the second copy: dev/cli/commands/stripe.py, lines 39-83) |
| SecretsReaders.SecretsFile.ReadExisting | dev/cli/up_steps/09_configure_integrations.py:90-95 | The loop fills the dict that the file stands for |
| SecretsReaders.SecretsFile.Write | dev/cli/up_steps/09_configure_integrations.py:102-107 | The loop writes the header and one line per entry |
| SecretsReaders.SecretsFile.Update | dev/cli/up_steps/09_configure_integrations.py:86-107 | The method is the specified edit of the file |
| SecretsReaders.SecretsFile.ReadFirst | dev/cli/up_steps/09_configure_integrations.py:24-28 | The loop returns the first assigned value |
| SecretsReaders.SecretsFile.IsGithubConfigured | dev/cli/up_steps/09_configure_integrations.py:19-28 | The first assignment of the client id is not empty |
| SecretsReaders.SecretsFile.IsGithubSkipped | dev/cli/up_steps/09_configure_integrations.py:31-38 | The first assignment is `true`, up to case |
| SecretsReaders.SecretsFile.IsStripeSkipped | dev/cli/up_steps/09_configure_integrations.py:63-70 | The first assignment is `true`, up to case |
| SecretsReaders.SecretsFile.IsStripeConfigured | dev/cli/commands/stripe.py:39-53 | The last assignments of both keys are not empty |
| SecretsReaders.SecretsFile.SetGithubSkipped | dev/cli/up_steps/09_configure_integrations.py:41-43 | The choice is stored, and read back |
| SecretsReaders.SecretsFile.SetStripeSkipped | dev/cli/up_steps/09_configure_integrations.py:73-75 | The choice is stored, and read back |
| SecretsReaders.SecretsFile.SaveStripeKeys | dev/cli/commands/stripe.py:78-83 | Two or three edits, the third only for a webhook secret |
| SecretsText.EntryIs | dev/cli/up_steps/09_configure_integrations.py:92-95 | A line `key = value`, with any blanks around both and any quotes around the value, is read as that key and that value |
| SecretsText.EmptyFileIs | dev/cli/up_steps/09_configure_integrations.py:102-104 | The header of the setup step; the stripe command writes none |
| SecretsText.WrittenSnoc | dev/cli/up_steps/09_configure_integrations.py:105-107 | The last entry is the last line, its value between double quotes, or between single ones when it holds a double one |
| SecretsText.KeysOfPut | dev/cli/up_steps/09_configure_integrations.py:97-98 | An existing key keeps its line, a new one comes last |
| SecretsText.KeysOfPop | dev/cli/up_steps/09_configure_integrations.py:99-100 | A removed key leaves the others in their order |
| SecretsText.OtherKeysStay | dev/cli/up_steps/09_configure_integrations.py:86-107 | After an update the readers find every other setting as it was in the file |
| SecretsText.ChoicesAreApart | dev/cli/up_steps/09_configure_integrations.py:31-75 | Storing or clearing one of the two choices leaves the other one unread and unchanged |
| SecretsText.SavedKeysAre | dev/cli/commands/stripe.py:78-83 | After saving, the three settings, under their literal names, are what was given; without a webhook secret that one is as it was |
| SecretsText.TrueIs | dev/cli/up_steps/09_configure_integrations.py:37 | A choice counts as made exactly for the four letters of `true` in any case |
| DockerInstance.DigitsReadBack | dev/cli/commands/docker.py:48 | The printed number reads back as itself |
| DockerInstance.LineReads | dev/cli/commands/docker.py:37-39 | The line that is written holds the number |
| DockerInstance.ReadableIsMatched | dev/cli/commands/docker.py:49 | Every line that holds a number is matched by the writer's pattern, and by the clearer's exactly where its key starts the line |
| DockerInstance.SubReads | dev/cli/commands/docker.py:50-55 | After replacing, the text reads as the new number if anything matched, and as nothing otherwise |
| DockerInstance.ReadWritten | dev/cli/commands/docker.py:43-58 | Reading after writing n gives n, for every text and every n >= 0 |
| DockerInstance.ReadEmptied | dev/cli/commands/docker.py:61-74 | Reading after clearing gives nothing if and only if every number's line had the key in its first column |
| DockerInstance.IndentedLineIsNotCleared | dev/cli/commands/docker.py:66 | An indented line is read but not cleared |
| DockerInstance.LinesOfSub | dev/cli/commands/docker.py:49-55 | Replacing never adds a line, and keeps all lines that do not match in place if and only if no match runs over the end of its line (also lines 66-72) |
| DockerInstance.BlankLineIsTaken | dev/cli/commands/docker.py:49-55 | A text that loses a line: a blank one in front of the key |
| DockerInstance.RunIsClean | dev/cli/commands/docker.py:43-74 | A run leaves a clean text exactly when it began with one or wrote something |
| DockerInstance.LastOperationDecides | dev/cli/commands/docker.py:28-74 | After any run of writes and clears, what is read is the last operation's result if and only if the text was clean to begin with or some operation of the run was a write |
| DockerInstance.ReadIsFirstOfLines | dev/cli/commands/docker.py:32-40 | Reading the text is finding the first line that holds a number |
| DockerInstance.EnvFile.ReadStoredInstance | dev/cli/commands/docker.py:28-40 | The loop returns the first number, or nothing; nothing for a missing file |
| DockerInstance.EnvFile.EnsureEnvFile | dev/cli/commands/docker.py:104-108 | A missing file is created from the template |
| DockerInstance.EnvFile.WriteStoredInstance | dev/cli/commands/docker.py:43-58 | The new text, and what is then read |
| DockerInstance.EnvFile.ClearStoredInstance | dev/cli/commands/docker.py:61-76 | Returns whether the pattern was found; the new text; when nothing is read afterwards |
| DockerInstance.WriteReadClear | dev/cli/commands/docker.py:28-76 | On any file, also a missing one, what is written is read and after clearing it nothing is |
| DockerPatterns.ReadLineIff | dev/cli/commands/docker.py:32-40 | A line is read as n exactly if it is the key, the sign and digits of value n, with any blanks around them |
| DockerPatterns.MatchIff | dev/cli/commands/docker.py:49 | The writer's and the clearer's pattern match exactly such a text up to the end of its line; only the writer's allows a number sign and blanks in front (the clearer's: line 66) |
| DockerPatterns.SearchIff | dev/cli/commands/docker.py:50 | A match is found exactly if there is one at the start of some line |
| DockerPatterns.OnlyMatchingLinesChange | dev/cli/commands/docker.py:50-55 | Where each match stays on its line, exactly the matching lines change: to the number's line, or to a comment |
| DockerPatterns.AppendedIs | dev/cli/commands/docker.py:52-53 | Without a match the text stays, but for the blanks at its end, and the number's line follows |
| DockerPatterns.NothingToClear | dev/cli/commands/docker.py:66-74 | Clearing changes nothing where the key starts no line |
| DockerPatterns.NoLeadingZero | dev/cli/commands/docker.py:48 | Numbers are printed without zeros in front |
| UserImport.MergedSnoc | server/scripts/import_users.py:82-110 | One more record of an email updates its closed form as the loop body does |
| UserImport.ImportStep | server/scripts/import_users.py:63-110 | One turn of the loop keeps the closed form of the whole table |
| UserImport.RefusalFoundIff | server/scripts/import_users.py:74-94 | The growing table refuses exactly the records that the original one refuses |
| UserImport.RefusedRecords | server/scripts/import_users.py:74-94 | Such records: an address stored with a capital, and one that is too long |
| UserImport.BadImageFoundIff | server/scripts/import_users.py:71-105 | The loop meets an image that cannot be stored exactly when a user without an avatar would get one as the first image of its records |
| UserImport.BadAvatar | server/scripts/import_users.py:71-105 | Such a record |
| UserImport.ImportAbsorbs | server/scripts/import_users.py:96-110 | After an import every record of the payload is old news |
| UserImport.NothingNew | server/scripts/import_users.py:96-110 | A payload that is old news changes nothing and is skipped record by record |
| UserImport.Session.Update | server/scripts/import_users.py:96-110 | The three tests and whether anything changed |
| UserImport.Session.ImportRecord | server/scripts/import_users.py:63-110 | One record is refused, or creates, changes or skips, and the table becomes the next one of the closed form |
| UserImport.Session.ImportRows | server/scripts/import_users.py:63-110 | The loop ends in the closed form, counts every record once, and fails only on a refused record or an image that cannot be stored |
| UserImport.Session.ImportUsers | server/scripts/import_users.py:51-115 | The import, column by column: it fails, committing nothing, exactly when some record's email holds U+0000, or is missing and either present up to case or longer than 320 characters, or when the first image for a user without an avatar holds U+0000. Otherwise the users are those before and those of the payload; a flag is set if it was or if a record of the stripped, lower-cased email says so, for the admin flag with the role `admin` in any case; the avatar is the old one or else the email's first image; who is new has the date of the first record; created + updated + skipped is the payload length, and created is the growth of the table |
| UserImport.ImportedInColumns | server/scripts/import_users.py:63-110 | The closed form of the table, in these columns |
| UserImport.ConditionsInColumns | server/scripts/import_users.py:63-110 | When the import succeeds, in terms of the records |
| UserImport.AbsorbedIff | server/scripts/import_users.py:96-110 | A record is old news exactly if its turn of the loop would change nothing |
| UserImport.ImportTwice | server/scripts/import_users.py:60-115 | A second run changes nothing and returns (0, 0, length) |
| BatchedUpdate.BatchAdds | server/scripts/helper.py:111-129 | A batch takes its rows out of the candidates and adds up with the earlier ones |
| BatchedUpdate.NothingLeft | server/scripts/helper.py:121-126 | When no candidate is left the table is that of one unlimited update |
| BatchedUpdate.Table.Select | server/scripts/helper.py:86-91 | A batch is any set of candidates of the limited size |
| BatchedUpdate.Table.Execute | server/scripts/helper.py:113-119 | One execution updates a batch and returns its row count |
| BatchedUpdate.RunBatch | server/scripts/helper.py:112-129 | One turn of the loop |
| BatchedUpdate.RunBatchedUpdate | server/scripts/helper.py:111-140 | Whichever rows each batch picks, the loop ends with every row that needs it updated once and no other changed, returns the initial number of these and takes that number divided by the batch size, rounded up, as its number of batches; with batch size 0 it does nothing |
| PowerLaw.CalculateWeights | server/load_tests/common/distribution.py:24-57 | The loop and the division give each item its share over the total |
| PowerLaw.TierSums | server/load_tests/common/distribution.py:31-53 | Every tier adds its part, however few items are in it |
| PowerLaw.SharesTotal | server/load_tests/common/distribution.py:56 | The total is that of the tiers that have items |
| PowerLaw.WeightsAreADistribution | server/load_tests/common/distribution.py:55-57 | The weights are positive and sum to 1, for every n >= 1 |
| PowerLaw.TierPercentages | server/load_tests/common/distribution.py:24-57 | For n >= 21 the tiers get exactly 35, 43, 12, 6 and 4 percent |
| PowerLaw.TiersAreEven | server/load_tests/common/distribution.py:31-53 | Within each tier all items weigh the same |
| PowerLaw.NonIncreasingIff | server/load_tests/common/distribution.py:24-57 | The weights never increase if and only if n is not 2, 6, 11, 12 or 21 to 26 |

## Left out

* Customer migration: merging of oauth accounts, the user_customers and customer_sessions tables, transactions (their
  payment customer may be any of a user's customers), notifications, webhook and benefit JSON. Dropped `user_id`
  columns stay in the modelled rows so that the result can be compared with them.
* Token scopes: the JSON text of a client's metadata is modelled as its fields, all of them texts.
* External organizations: only id, external_id and the two columns that tell sync-only organizations. Of the NOT NULL
  columns that the downgrade's insert omits, one stands for all. That the round trip brings rows home with restored
  organizations is proved for a schema with defaults, which the real one has not. Rows of other tables appear only
  with their references. Other unique columns are not modelled: they are copied, so the copies are unique as well, but
  a restored organization might repeat a name given since.
* Donations: Stripe calls and their retries, prices of the new products and the attachment of the field to them,
  creation dates of new users, message and other metadata, webhook and notification clean-up. An email whose
  characters after the 320th are all blanks is taken for too long, though the database would cut them off.
* Refunds: columns that are constants or plain copies (reason, processor data, timestamps), and pledges. Sums are not
  limited before they are stored.
* Prices: amounts and Stripe ids of prices, which no statement touches.
* Proxy: headers and cookies other than those named in `Headers`, distinct ids, cache headers, currency look-up, the
  matcher configuration, how the country and the session are found (both are inputs that stay the same while a client
  follows redirects, also from the `www` host; the country is two lower-case letters where nothing else is said). A
  page is compared by path, not by query. Percent-encoding and dot segments are not modelled, so a legacy id is one
  plain segment and a path is one that the URL parser has already normalised.
* Letter case, blanks and digits are those of ASCII; only a line feed ends a line; a file's text has no other line
  ends.
* User import: parsing of dates, reading of the JSON file; an email is the unique key of a user. No text holds a lone
  surrogate, which JSON can carry and the database refuses.
* Batched update: statements that run at the same time in other transactions, sleeping, progress output. The update is
  any function of a row that makes the row leave the predicate, which is what the loop needs to end.
* Weights: rounding of floating point numbers; random selection by weight.
* Commands, prompts, containers and subprocesses of the developer tool; files are their texts.
* Server configuration, plumbing and generated schema migrations: nothing there computes.
