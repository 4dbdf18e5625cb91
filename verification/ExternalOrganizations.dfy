/** `2024-07-15-1335_create_externalorganization.py`: organizations are copied to external
    organizations under new ids, five tables are pointed at the copies, and sync-only
    organizations are deleted. The downgrade undoes this. */
module ExternalOrganizations {
  import opened Sql
  import opened ForeignKeys

  datatype Organization = Organization(externalId: int, installationCreatedAt: Option<int>, fromMaintainerUpgrade: bool)

  datatype External = External(externalId: int, installationCreatedAt: Option<int>, newId: Option<Uuid>)

  /** The five tables with an organization_id that the migration re-keys. */
  datatype Referrer = IssueDependencies | Issues | PullRequests | Repositories | Pledges

  /** organization_id of every row of the five tables. */
  type References = map<(Referrer, Uuid), Uuid>

  datatype Tables = Tables(organizations: map<Uuid, Organization>, externals: map<Uuid, External>,
                           refs: References, traffic: map<Uuid, Option<Uuid>>)

  /** An organization that exists only because GitHub data mentioned it. */
  predicate SyncOnly(o: Organization) {
    o.installationCreatedAt == None && !o.fromMaintainerUpgrade
  }

  predicate UniqueExternalIds(organizations: map<Uuid, Organization>) {
    forall o, p | o in organizations && p in organizations &&
      organizations[o].externalId == organizations[p].externalId :: o == p
  }

  predicate UniqueExternals(externals: map<Uuid, External>) {
    forall e, f | e in externals && f in externals && externals[e].externalId == externals[f].externalId :: e == f
  }

  /** What the schema guarantees before the upgrade. */
  ghost predicate BeforeUpgrade(t: Tables) {
    && t.externals == map[]
    && UniqueExternalIds(t.organizations)
    && (forall r :: r in t.refs ==> t.refs[r] in t.organizations)
    && (forall r :: r in t.traffic && t.traffic[r].Some? ==> t.traffic[r].value in t.organizations)
  }

  /** What the schema guarantees before the downgrade. */
  ghost predicate BeforeDowngrade(t: Tables) {
    && UniqueExternalIds(t.organizations) && UniqueExternals(t.externals)
    && forall r :: r in t.refs ==> t.refs[r] in t.externals
  }

  /** One external organization for every organization, under its new id. */
  function Copies(organizations: map<Uuid, Organization>, newId: Uuid -> Uuid): (copies: map<Uuid, External>)
    requires Injective(newId)
    ensures forall o :: o in organizations ==>
      newId(o) in copies && copies[newId(o)].externalId == organizations[o].externalId
    ensures UniqueExternalIds(organizations) ==> UniqueExternals(copies)
  {
    map o | o in organizations ::
      newId(o) := External(organizations[o].externalId, organizations[o].installationCreatedAt, None)
  }

  function Rekeyed(externals: map<Uuid, External>, newId: Uuid -> Uuid): map<Uuid, External>
    requires Injective(newId)
  {
    map o | o in externals :: newId(o) := externals[o].(newId := None)
  }

  lemma RekeyedIsCopies(organizations: map<Uuid, Organization>, externals: map<Uuid, External>, newId: Uuid -> Uuid)
    requires Injective(newId) && externals.Keys == organizations.Keys
    requires forall o :: o in organizations ==>
      externals[o] == External(organizations[o].externalId, organizations[o].installationCreatedAt, Some(newId(o)))
    ensures Rekeyed(externals, newId) == Copies(organizations, newId)
  {
    var rekeyed, copies := Rekeyed(externals, newId), Copies(organizations, newId);
    forall e | e in rekeyed ensures e in copies && copies[e] == rekeyed[e] {
      var o :| o in externals && e == newId(o);
      assert o in organizations && newId(o) in copies;
    }
    forall e | e in copies ensures e in rekeyed {
      var o :| o in organizations && e == newId(o);
      assert o in externals;
    }
  }

  function Renumbered(refs: References, newId: Uuid -> Uuid): References {
    map r | r in refs :: newId(refs[r])
  }

  function Kept(organizations: map<Uuid, Organization>): map<Uuid, Organization> {
    map o | o in organizations && !SyncOnly(organizations[o]) :: organizations[o]
  }

  function KeptTraffic(traffic: map<Uuid, Option<Uuid>>,
                       organizations: map<Uuid, Organization>): map<Uuid, Option<Uuid>> {
    map r | r in traffic && !(traffic[r].Some? && traffic[r].value in organizations &&
      SyncOnly(organizations[traffic[r].value]))
      :: traffic[r]
  }

  /** The effect of the upgrade in closed form. */
  ghost predicate Upgraded(before: Tables, after: Tables, newId: Uuid -> Uuid)
    requires Injective(newId)
  {
    && after.externals == Copies(before.organizations, newId)
    && after.refs == Renumbered(before.refs, newId)
    && after.organizations == Kept(before.organizations)
    && after.traffic == KeptTraffic(before.traffic, before.organizations)
  }

  /** The external organizations that the downgrade inserts: those whose external_id is NOT IN
      (SELECT external_id FROM organizations). */
  function Missing(organizations: map<Uuid, Organization>, externals: map<Uuid, External>): set<Uuid> {
    var known := set o | o in organizations :: Some(organizations[o].externalId);
    set e | e in externals && NotIn(Some(externals[e].externalId), known) == True
  }

  /** The organizations after the insert, which leaves `created_from_user_maintainer_upgrade` to its
      default. */
  function Restored(organizations: map<Uuid, Organization>, externals: map<Uuid, External>,
                    byDefault: bool): map<Uuid, Organization> {
    organizations + map e | e in Missing(organizations, externals) && e in externals ::
      Organization(externals[e].externalId, externals[e].installationCreatedAt, byDefault)
  }

  predicate Same(externals: map<Uuid, External>, e: Uuid, organizations: map<Uuid, Organization>, o: Uuid) {
    e in externals && o in organizations && organizations[o].externalId == externals[e].externalId
  }

  /** What the downgrade promises: organizations are kept and completed from the externals, and a
      row points at the organization with the external id it pointed at. */
  ghost predicate Downgraded(before: Tables, after: Tables, byDefault: bool) {
    && after.externals == map[] && after.traffic == before.traffic
    && Missing(before.organizations, before.externals) !! before.organizations.Keys
    && after.organizations == Restored(before.organizations, before.externals, byDefault)
    && UniqueExternalIds(after.organizations)
    && after.refs.Keys == before.refs.Keys
    && forall r :: r in before.refs ==> Same(before.externals, before.refs[r], after.organizations, after.refs[r])
  }

  /** Re-keying keeps every reference: all five new foreign keys hold, each row points at the copy
      of its organization, and what the schema needs for a downgrade holds. */
  lemma UpgradeKeepsReferences(before: Tables, after: Tables, newId: Uuid -> Uuid)
    requires Injective(newId) && BeforeUpgrade(before) && Upgraded(before, after, newId)
    ensures BeforeDowngrade(after)
    ensures forall r :: r in before.refs ==>
      && r in after.refs && after.refs[r] in after.externals
      && after.externals[after.refs[r]].externalId == before.organizations[before.refs[r]].externalId
    ensures forall r :: r in after.traffic && after.traffic[r].Some? ==> after.traffic[r].value in after.organizations
  {
    hide Copies;
  }

  /** After the downgrade's insert every external organization has exactly one organization. */
  lemma RestoredCompletely(organizations: map<Uuid, Organization>, externals: map<Uuid, External>, byDefault: bool)
    requires UniqueExternalIds(organizations) && UniqueExternals(externals)
    requires Missing(organizations, externals) !! organizations.Keys
    ensures var restored := Restored(organizations, externals, byDefault);
            && UniqueExternalIds(restored)
            && forall e :: e in externals ==> exists o :: Same(externals, e, restored, o)
  {
    hide Missing;
    MissingIff(organizations, externals);
    var restored := Restored(organizations, externals, byDefault);
    assert forall o :: o in organizations ==> o in restored && restored[o] == organizations[o];
    forall e | e in externals ensures exists o :: Same(externals, e, restored, o) {
      if e in Missing(organizations, externals) {
        assert Same(externals, e, restored, e);
      } else {
        var o :| o in organizations && organizations[o].externalId == externals[e].externalId;
        assert Same(externals, e, restored, o);
      }
    }
  }

  lemma MissingIff(organizations: map<Uuid, Organization>, externals: map<Uuid, External>)
    ensures forall e :: e in Missing(organizations, externals) ==> e in externals
    ensures forall e | e in externals ::
      e !in Missing(organizations, externals) <==>
        exists o :: o in organizations && organizations[o].externalId == externals[e].externalId
  {
    var known := set o | o in organizations :: Some(organizations[o].externalId);
    assert forall o :: o in organizations ==> Some(organizations[o].externalId) in known;
  }

  /** After the upgrade, what is missing are the sync-only organizations. */
  lemma MissingAfterUpgrade(before: Tables, middle: Tables, newId: Uuid -> Uuid)
    requires Injective(newId) && BeforeUpgrade(before) && Upgraded(before, middle, newId)
    ensures forall o | o in before.organizations ::
      newId(o) in Missing(middle.organizations, middle.externals) <==> SyncOnly(before.organizations[o])
    ensures Missing(middle.organizations, middle.externals) == {} <==> !HasSyncOnly(before.organizations)
    ensures forall e :: e in Missing(middle.organizations, middle.externals) ==>
      exists o :: o in before.organizations && e == newId(o)
  {
    hide Missing;
    MissingIff(middle.organizations, middle.externals);
    forall o | o in before.organizations
      ensures newId(o) in Missing(middle.organizations, middle.externals) <==> SyncOnly(before.organizations[o])
    {
      assert newId(o) in middle.externals;
      if !SyncOnly(before.organizations[o]) {
        assert o in middle.organizations;
      }
    }
  }

  // ---------------------------------------------------------------- in columns

  /** The upgrade keeps exactly the organizations with an installation or from a maintainer upgrade. */
  ghost predicate KeptColumns(before: map<Uuid, Organization>, after: map<Uuid, Organization>) {
    && (forall o :: o in after ==> o in before && after[o] == before[o])
    && forall o | o in before :: o in after <==>
      before[o].installationCreatedAt.Some? || before[o].fromMaintainerUpgrade
  }

  /** It keeps the traffic of these and of none. */
  ghost predicate TrafficColumns(before: Tables, after: Tables) {
    && (forall r :: r in after.traffic ==> r in before.traffic && after.traffic[r] == before.traffic[r])
    && forall r | r in before.traffic :: r in after.traffic <==>
      (before.traffic[r].Some? && before.traffic[r].value in before.organizations ==>
        before.traffic[r].value in after.organizations)
  }

  /** Every organization is copied under its new id, and nothing else is. */
  ghost predicate CopyColumns(before: map<Uuid, Organization>, after: map<Uuid, External>, newId: Uuid -> Uuid) {
    && (forall o | o in before ::
         && newId(o) in after && after[newId(o)].externalId == before[o].externalId
         && after[newId(o)].installationCreatedAt == before[o].installationCreatedAt)
    && forall e :: e in after ==> exists o :: o in before && e == newId(o)
  }

  /** Every reference carries the new id. */
  ghost predicate ReferenceColumns(before: References, after: References, newId: Uuid -> Uuid) {
    after.Keys == before.Keys && forall r | r in before :: after[r] == newId(before[r])
  }

  ghost predicate UpgradedColumns(before: Tables, after: Tables, newId: Uuid -> Uuid) {
    && KeptColumns(before.organizations, after.organizations)
    && TrafficColumns(before, after)
    && CopyColumns(before.organizations, after.externals, newId)
    && ReferenceColumns(before.refs, after.refs, newId)
  }

  lemma KeptInColumns(before: map<Uuid, Organization>)
    ensures KeptColumns(before, Kept(before))
  {
  }

  lemma TrafficInColumns(before: Tables, after: Tables)
    requires after.organizations == Kept(before.organizations)
    requires after.traffic == KeptTraffic(before.traffic, before.organizations)
    ensures TrafficColumns(before, after)
  {
  }

  lemma CopiesInColumns(before: map<Uuid, Organization>, newId: Uuid -> Uuid)
    requires Injective(newId)
    ensures CopyColumns(before, Copies(before, newId), newId)
  {
  }

  lemma UpgradedInColumns(before: Tables, after: Tables, newId: Uuid -> Uuid)
    requires Injective(newId) && Upgraded(before, after, newId)
    ensures UpgradedColumns(before, after, newId)
  {
    hide Kept, KeptTraffic, Copies, KeptColumns, TrafficColumns, CopyColumns, Injective;
    KeptInColumns(before.organizations);
    TrafficInColumns(before, after);
    CopiesInColumns(before.organizations, newId);
  }

  lemma UpgradedIs(before: Tables, after: Tables, newId: Uuid -> Uuid)
    requires Injective(newId)
    requires after.externals == Copies(before.organizations, newId)
    requires after.refs == Renumbered(before.refs, newId)
    requires after.organizations == Kept(before.organizations)
    requires after.traffic == KeptTraffic(before.traffic, before.organizations)
    ensures Upgraded(before, after, newId)
  {
  }

  /** The organizations without an installation that no maintainer upgrade created. */
  ghost function Unused(organizations: map<Uuid, Organization>): set<Key> {
    set o | o in organizations && organizations[o].installationCreatedAt.None? &&
      !organizations[o].fromMaintainerUpgrade
      :: OfOrganization(o)
  }

  lemma UnusedAreSyncOnly(others: Rows, organizations: map<Uuid, Organization>)
    ensures HoldsSyncOnly(others, organizations) <==> IsBlocked(others, Deleted(others, Unused(organizations)))
  {
    hide IsBlocked, Deleted;
    assert SyncOnlyKeys(organizations) == Unused(organizations);
  }

  /** The downgrade keeps all organizations and adds, for every external organization whose external_id
      none of them has, one with its id, its external_id and its installation. */
  ghost predicate DowngradedColumns(before: Tables, after: Tables, byDefault: bool) {
    && (forall o :: o in before.organizations ==>
         o in after.organizations && after.organizations[o] == before.organizations[o])
    && (forall e :: e in before.externals && HasNone(before.organizations, before.externals[e].externalId) ==>
         && e in after.organizations
         && after.organizations[e].externalId == before.externals[e].externalId
         && after.organizations[e].installationCreatedAt == before.externals[e].installationCreatedAt
         && after.organizations[e].fromMaintainerUpgrade == byDefault)
    && (forall o :: o in after.organizations && o !in before.organizations ==>
         o in before.externals && HasNone(before.organizations, before.externals[o].externalId))
    && after.externals == map[] && after.traffic == before.traffic && after.refs.Keys == before.refs.Keys
    && forall r :: r in before.refs ==>
         && before.refs[r] in before.externals && after.refs[r] in after.organizations
         && after.organizations[after.refs[r]].externalId == before.externals[before.refs[r]].externalId
  }

  ghost predicate HasNone(organizations: map<Uuid, Organization>, externalId: int) {
    forall o :: o in organizations ==> organizations[o].externalId != externalId
  }

  lemma DowngradedInColumns(before: Tables, after: Tables, byDefault: bool)
    requires Downgraded(before, after, byDefault)
    ensures DowngradedColumns(before, after, byDefault)
  {
    hide Missing;
    MissingIff(before.organizations, before.externals);
    forall r | r in before.refs
      ensures before.refs[r] in before.externals && after.refs[r] in after.organizations
      ensures after.organizations[after.refs[r]].externalId == before.externals[before.refs[r]].externalId
    {
      assert Same(before.externals, before.refs[r], after.organizations, after.refs[r]);
    }
  }

  /** The external organizations to restore. */
  lemma MissingInColumns(organizations: map<Uuid, Organization>, externals: map<Uuid, External>)
    ensures forall e :: e in Missing(organizations, externals) <==>
      e in externals && HasNone(organizations, externals[e].externalId)
  {
    hide Missing;
    MissingIff(organizations, externals);
  }

  function SyncOnlyKeys(organizations: map<Uuid, Organization>): set<Key> {
    set o | o in organizations && SyncOnly(organizations[o]) :: OfOrganization(o)
  }

  /** What goes with the sync-only organizations. */
  function Gone(others: Rows, organizations: map<Uuid, Organization>): set<Key> {
    Deleted(others, SyncOnlyKeys(organizations))
  }

  predicate HoldsSyncOnly(others: Rows, organizations: map<Uuid, Organization>) {
    IsBlocked(others, Gone(others, organizations))
  }

  lemma NothingHeld(others: Rows, organizations: map<Uuid, Organization>)
    requires !HasSyncOnly(organizations)
    ensures !HoldsSyncOnly(others, organizations)
  {
    hide SyncOnly, Deleted, IsBlocked;
    NothingDeleted(others);
    assert SyncOnlyKeys(organizations) == {};
  }

  predicate HasSyncOnly(organizations: map<Uuid, Organization>) {
    exists o :: o in organizations && SyncOnly(organizations[o])
  }

  /** Upgrade then downgrade: every row is back at its organization, under the same id if that
      organization survived the deletion and under the generated one otherwise. */
  lemma RoundTrip(before: Tables, middle: Tables, after: Tables, newId: Uuid -> Uuid, byDefault: bool)
    requires Injective(newId) && BeforeUpgrade(before)
    requires Upgraded(before, middle, newId) && Downgraded(middle, after, byDefault)
    ensures after.refs.Keys == before.refs.Keys
    ensures forall r :: r in before.refs ==>
      && after.refs[r] == Home(before.organizations, before.refs[r], newId)
      && after.refs[r] in after.organizations
      && after.organizations[after.refs[r]].externalId == before.organizations[before.refs[r]].externalId
  {
    hide Upgraded, Downgraded, Home, Injective;
    RowsStay(before, middle, after, newId, byDefault);
    forall r | r in before.refs
      ensures after.refs[r] == Home(before.organizations, before.refs[r], newId)
      ensures after.refs[r] in after.organizations
      ensures after.organizations[after.refs[r]].externalId == before.organizations[before.refs[r]].externalId
    {
      RoundTripOfRow(before, middle, after, newId, byDefault, r);
    }
  }

  lemma RowsStay(before: Tables, middle: Tables, after: Tables, newId: Uuid -> Uuid, byDefault: bool)
    requires Injective(newId) && Upgraded(before, middle, newId) && Downgraded(middle, after, byDefault)
    ensures after.refs.Keys == before.refs.Keys
  {
    hide Copies, Restored, Missing, Kept, KeptTraffic;
  }

  /** Where the rows of an organization point after upgrade and downgrade. */
  function Home(organizations: map<Uuid, Organization>, o: Uuid, newId: Uuid -> Uuid): Uuid
    requires o in organizations
  {
    if SyncOnly(organizations[o]) then newId(o) else o
  }

  lemma HomeIsRestored(before: Tables, middle: Tables, newId: Uuid -> Uuid, byDefault: bool, o: Uuid)
    requires Injective(newId) && BeforeUpgrade(before) && Upgraded(before, middle, newId) && o in before.organizations
    requires Missing(middle.organizations, middle.externals) !! middle.organizations.Keys
    ensures var restored := Restored(middle.organizations, middle.externals, byDefault);
            Home(before.organizations, o, newId) in restored
            && restored[Home(before.organizations, o, newId)].externalId == before.organizations[o].externalId
  {
    hide Missing;
    MissingAfterUpgrade(before, middle, newId);
    if SyncOnly(before.organizations[o]) {
      assert newId(o) in middle.externals &&
        middle.externals[newId(o)].externalId == before.organizations[o].externalId;
    } else {
      assert o in middle.organizations;
    }
  }

  lemma RoundTripOfRow(before: Tables, middle: Tables, after: Tables, newId: Uuid -> Uuid, byDefault: bool,
                       r: (Referrer, Uuid))
    requires Injective(newId) && BeforeUpgrade(before)
    requires Upgraded(before, middle, newId) && Downgraded(middle, after, byDefault)
    requires r in before.refs
    ensures r in after.refs && after.refs[r] == Home(before.organizations, before.refs[r], newId)
    ensures after.refs[r] in after.organizations
    ensures after.organizations[after.refs[r]].externalId == before.organizations[before.refs[r]].externalId
  {
    hide Missing, Restored;
    var o := before.refs[r];
    var e := newId(o);
    assert middle.refs[r] == e && e in middle.externals &&
      middle.externals[e].externalId == before.organizations[o].externalId;
    assert Same(middle.externals, e, after.organizations, after.refs[r]);
    HomeIsRestored(before, middle, newId, byDefault, o);
  }

  /** The rows of the tables in `done` carry the new ids, the others still the old ones. */
  ghost predicate Relinked(before: References, refs: References, done: set<Referrer>, newId: Uuid -> Uuid) {
    && refs.Keys == before.Keys
    && forall r :: r in before ==> refs[r] == if r.0 in done then newId(before[r]) else before[r]
  }

  /** The rows of the tables in `done` point at the organization of their external organization. */
  ghost predicate RelinkedBack(before: References, refs: References, done: set<Referrer>,
                               externals: map<Uuid, External>, organizations: map<Uuid, Organization>)
  {
    && refs.Keys == before.Keys
    && forall r :: r in before ==>
         if r.0 in done then Same(externals, before[r], organizations, refs[r]) else refs[r] == before[r]
  }

  function EveryTable(): set<Referrer> {
    {IssueDependencies, Issues, PullRequests, Repositories, Pledges}
  }

  lemma EveryTableHasAll()
    ensures forall table: Referrer :: table in EveryTable()
  {
    forall table: Referrer ensures table in EveryTable() {
      match table
      case IssueDependencies =>
      case Issues =>
      case PullRequests =>
      case Repositories =>
      case Pledges =>
    }
  }

  class Database {
    /** The default of the NOT NULL columns that the downgrade's insert leaves out, of which only
        `created_from_user_maintainer_upgrade` is modelled. The schema has none. */
    const byDefault: Option<bool>
    /** The rows of all other tables, as far as they refer to organizations or to each other. */
    var others: Rows
    var organizations: map<Uuid, Organization>
    var externals: map<Uuid, External>
    var refs: References
    var traffic: map<Uuid, Option<Uuid>>

    constructor (t: Tables, others: Rows, byDefault: Option<bool>)
      ensures Contents() == t && this.others == others && this.byDefault == byDefault
    {
      this.others, this.byDefault := others, byDefault;
      organizations, externals, refs, traffic := t.organizations, t.externals, t.refs, t.traffic;
    }

    ghost function Contents(): Tables
      reads this
    {
      Tables(organizations, externals, refs, traffic)
    }

    /** INSERT INTO external_organizations ... SELECT, then UPDATE ... SET new_id. */
    method CopyOrganizations(newId: Uuid -> Uuid)
      modifies this`externals
      ensures externals.Keys == organizations.Keys
      ensures forall o :: o in organizations ==>
        externals[o] == External(organizations[o].externalId, organizations[o].installationCreatedAt, Some(newId(o)))
    {
      externals := map o | o in organizations ::
        External(organizations[o].externalId, organizations[o].installationCreatedAt, None);
      externals := map o | o in externals :: externals[o].(newId := Some(newId(o)));
    }

    /** UPDATE table SET organization_id = new_id ... WHERE organization_id = external_organizations.id.
        Every row is read before any is written, so a new id that happens to be an old one of
        another organization is not followed twice. */
    method RelinkToExternals(table: Referrer, newId: Uuid -> Uuid, ghost before: References, ghost done: set<Referrer>)
      requires Relinked(before, refs, done, newId) && table !in done
      requires forall r :: r in before ==> before[r] in externals
      requires forall o :: o in externals ==> externals[o].newId == Some(newId(o))
      modifies this`refs
      ensures Relinked(before, refs, done + {table}, newId)
    {
      refs := map r | r in refs ::
        if r.0 == table && refs[r] in externals && externals[refs[r]].newId.Some? then externals[refs[r]].newId.value
        else refs[r];
    }

    /** DROP COLUMN id, RENAME new_id TO id, ADD PRIMARY KEY (id). */
    method RekeyExternals(newId: Uuid -> Uuid)
      requires Injective(newId) && externals.Keys == organizations.Keys
      requires forall o :: o in organizations ==>
        externals[o] == External(organizations[o].externalId, organizations[o].installationCreatedAt, Some(newId(o)))
      modifies this`externals
      ensures externals == Copies(organizations, newId)
    {
      hide Copies, Rekeyed, Injective;
      RekeyedIsCopies(organizations, externals, newId);
      externals := Rekeyed(externals, newId);
    }

    /** DELETE FROM traffic and DELETE FROM organizations, for sync-only organizations. The second takes
        along what refers to them by a cascade, and fails on a row that holds on to any of this. */
    method DropSyncOnly() returns (ok: bool)
      modifies this`organizations, this`traffic, this`others
      ensures ok <==> !HoldsSyncOnly(old(others), old(organizations))
      ensures ok ==> traffic == KeptTraffic(old(traffic), old(organizations))
      ensures ok ==> organizations == Kept(old(organizations))
      ensures others == if ok then Remaining(old(others), Gone(old(others), old(organizations))) else old(others)
    {
      hide IsBlocked, Remaining, Deleted;
      var drop := set o | o in organizations && SyncOnly(organizations[o]);
      traffic := map r | r in traffic && !(traffic[r].Some? && traffic[r].value in drop) :: traffic[r];
      assert (set o | o in drop :: OfOrganization(o)) == SyncOnlyKeys(organizations);
      others, ok := Delete(others, set o | o in drop :: OfOrganization(o));
      if ok {
        organizations := map o | o in organizations && o !in drop :: organizations[o];
      }
    }

    method RelinkAllToExternals(newId: Uuid -> Uuid)
      requires forall r :: r in refs ==> refs[r] in externals
      requires forall o :: o in externals ==> externals[o].newId == Some(newId(o))
      modifies this`refs
      ensures refs == Renumbered(old(refs), newId)
    {
      RelinkTablesToExternals(newId);
      EveryTableHasAll();
    }

    method RelinkTablesToExternals(newId: Uuid -> Uuid)
      requires forall r :: r in refs ==> refs[r] in externals
      requires forall o :: o in externals ==> externals[o].newId == Some(newId(o))
      modifies this`refs
      ensures Relinked(old(refs), refs, EveryTable(), newId)
    {
      ghost var before := refs;
      assert Relinked(before, refs, {}, newId);
      hide Relinked;
      RelinkToExternals(IssueDependencies, newId, before, {});
      RelinkToExternals(Issues, newId, before, {} + {IssueDependencies});
      RelinkToExternals(PullRequests, newId, before, {} + {IssueDependencies} + {Issues});
      RelinkToExternals(Repositories, newId, before, {} + {IssueDependencies} + {Issues} + {PullRequests});
      RelinkToExternals(Pledges, newId, before, {} + {IssueDependencies} + {Issues} + {PullRequests} + {Repositories});
      assert {} + {IssueDependencies} + {Issues} + {PullRequests} + {Repositories} + {Pledges} == EveryTable();
    }

    /** The upgrade, in one transaction. It fails exactly when a row of another table, which is not
        deleted along, holds on to a sync-only organization or to a row that is. */
    method Upgrade(newId: Uuid -> Uuid) returns (ok: bool)
      requires BeforeUpgrade(Contents()) && Injective(newId)
      modifies this
      ensures ok <==> !HoldsSyncOnly(old(others), old(organizations))
      ensures !ok ==> Contents() == old(Contents()) && others == old(others)
      ensures ok ==> Upgraded(old(Contents()), Contents(), newId)
      ensures ok ==> others == Remaining(old(others), Gone(old(others), old(organizations)))
      ensures ok ==> UpgradedColumns(old(Contents()), Contents(), newId)
      ensures ok <==> !IsBlocked(old(others), Deleted(old(others), Unused(old(organizations))))
    {
      hide Copies, Renumbered, Kept, KeptTraffic, Injective, SyncOnly, HoldsSyncOnly, Remaining, Gone, Upgraded,
        UpgradedColumns, IsBlocked, Deleted, Unused;
      UnusedAreSyncOnly(old(others), organizations);
      var organizations0, refs0, traffic0 := organizations, refs, traffic;
      CopyOrganizations(newId);
      RelinkAllToExternals(newId);
      RekeyExternals(newId);
      ok := DropSyncOnly();
      if !ok {
        organizations, externals, refs, traffic := organizations0, map[], refs0, traffic0;
      } else {
        UpgradedIs(old(Contents()), Contents(), newId);
        UpgradedInColumns(old(Contents()), Contents(), newId);
      }
    }

    /** INSERT INTO organizations ... SELECT ... FROM external_organizations. Any row to insert fails on
        the omitted columns unless they have a default; it then fails only on a taken id. */
    method RestoreOrganizations() returns (ok: bool)
      modifies this`organizations
      ensures var missing := Missing(old(organizations), externals);
        ok <==> missing == {} || (byDefault.Some? && missing !! old(organizations).Keys)
      ensures organizations == if ok then Restored(old(organizations), externals, byDefault == Some(true))
        else old(organizations)
    {
      hide Missing;
      var missing := Missing(organizations, externals);
      ok := missing == {} || (byDefault.Some? && missing !! organizations.Keys);
      if ok {
        organizations := Restored(organizations, externals, byDefault == Some(true));
      }
    }

    /** UPDATE table SET organization_id = organizations.id FROM organizations LEFT JOIN
        external_organizations ON ... WHERE table.organization_id = external_organizations.id. */
    method RelinkToOrganizations(table: Referrer, pick: Choice, ghost before: References, ghost done: set<Referrer>)
      requires PicksAMatch(pick)
      requires RelinkedBack(before, refs, done, externals, organizations) && table !in done
      requires forall r :: r in before ==> exists o :: Same(externals, before[r], organizations, o)
      modifies this`refs
      ensures RelinkedBack(before, refs, done + {table}, externals, organizations)
    {
      refs := map r | r in refs ::
        if r.0 != table then refs[r]
        else
          var matches := set o | o in organizations && Same(externals, refs[r], organizations, o);
          if matches == {} then refs[r] else pick(r.1, matches);
      forall r | r in before && r.0 == table ensures Same(externals, before[r], organizations, refs[r]) {
        var matches := set o | o in organizations && Same(externals, before[r], organizations, o);
        var o :| Same(externals, before[r], organizations, o);
        assert o in matches && pick(r.1, matches) in matches;
      }
    }

    method RelinkAllToOrganizations(pick: Choice)
      requires PicksAMatch(pick)
      requires forall r :: r in refs ==> exists o :: Same(externals, refs[r], organizations, o)
      modifies this`refs
      ensures RelinkedBack(old(refs), refs, EveryTable(), externals, organizations)
    {
      ghost var before := refs;
      assert RelinkedBack(before, refs, {}, externals, organizations);
      hide RelinkedBack, Same, PicksAMatch;
      RelinkToOrganizations(Repositories, pick, before, {});
      RelinkToOrganizations(PullRequests, pick, before, {} + {Repositories});
      RelinkToOrganizations(Issues, pick, before, {} + {Repositories} + {PullRequests});
      RelinkToOrganizations(IssueDependencies, pick, before, {} + {Repositories} + {PullRequests} + {Issues});
      RelinkToOrganizations(Pledges, pick, before,
        {} + {Repositories} + {PullRequests} + {Issues} + {IssueDependencies});
      assert {} + {Repositories} + {PullRequests} + {Issues} + {IssueDependencies} + {Pledges} == EveryTable();
    }

    /** The downgrade, in one transaction. On the schema as it stands, without defaults, it succeeds
        exactly when it has no organization to restore. */
    method Downgrade(pick: Choice) returns (ok: bool)
      requires BeforeDowngrade(Contents()) && PicksAMatch(pick)
      modifies this
      ensures var missing := Missing(old(organizations), old(externals));
        ok <==> missing == {} || (byDefault.Some? && missing !! old(organizations).Keys)
      ensures !ok ==> Contents() == old(Contents())
      ensures ok ==> Downgraded(old(Contents()), Contents(), byDefault == Some(true))
      ensures ok ==> DowngradedColumns(old(Contents()), Contents(), byDefault == Some(true))
      ensures ok <==> forall e :: e in old(externals) && HasNone(old(organizations), old(externals)[e].externalId) ==>
        byDefault.Some? && e !in old(organizations)
    {
      hide Downgraded, DowngradedColumns, HasNone, Missing;
      MissingInColumns(organizations, externals);
      ok := RestoreAndRelink(pick);
      if ok {
        DowngradedInColumns(old(Contents()), Contents(), byDefault == Some(true));
      }
    }

    method RestoreAndRelink(pick: Choice) returns (ok: bool)
      requires BeforeDowngrade(Contents()) && PicksAMatch(pick)
      modifies this
      ensures var missing := Missing(old(organizations), old(externals));
        ok <==> missing == {} || (byDefault.Some? && missing !! old(organizations).Keys)
      ensures !ok ==> Contents() == old(Contents())
      ensures ok ==> Downgraded(old(Contents()), Contents(), byDefault == Some(true))
    {
      hide Same, Missing, Restored, UniqueExternals, UniqueExternalIds, PicksAMatch, EveryTable;
      ok := RestoreOrganizations();
      if ok {
        RestoredCompletely(old(organizations), externals, byDefault == Some(true));
        RelinkAllToOrganizations(pick);
        EveryTableHasAll();
        externals := map[];
      }
    }
  }

  /** Both directions run one after the other on a database. Without defaults for the omitted columns
      both succeed exactly when no organization was sync-only; in any case, when they do, every row is
      back home. */
  method UpgradeThenDowngrade(db: Database, newId: Uuid -> Uuid, pick: Choice) returns (up: bool, down: bool)
    requires BeforeUpgrade(db.Contents()) && Injective(newId) && PicksAMatch(pick)
    requires forall o, p :: o in db.organizations && p in db.organizations ==> newId(o) != p
    modifies db
    ensures up <==> !HoldsSyncOnly(old(db.others), old(db.organizations))
    ensures down <==> up && (db.byDefault.Some? || !HasSyncOnly(old(db.organizations)))
    ensures db.byDefault == None ==> (up && down <==> !HasSyncOnly(old(db.organizations)))
    ensures down ==> db.refs.Keys == old(db.refs).Keys
    ensures down ==> forall r :: r in db.refs ==>
      && db.refs[r] == Home(old(db.organizations), old(db.refs)[r], newId)
      && db.refs[r] in db.organizations
      && db.organizations[db.refs[r]].externalId == old(db.organizations)[old(db.refs)[r]].externalId
    ensures down ==> forall r :: r in db.refs ==>
      var o := old(db.refs)[r];
      var organization := old(db.organizations)[o];
      db.refs[r] == if organization.installationCreatedAt.Some? || organization.fromMaintainerUpgrade then o
        else newId(o)
    ensures db.byDefault == None ==> (up && down <==>
      forall o :: o in old(db.organizations) ==>
        old(db.organizations)[o].installationCreatedAt.Some? || old(db.organizations)[o].fromMaintainerUpgrade)
  {
    HomesInColumns(db.organizations, newId);
    hide Upgraded, Downgraded, BeforeDowngrade, Missing, Restored, SyncOnly, Home, Injective, PicksAMatch,
      HoldsSyncOnly, Gone;
    if !HasSyncOnly(db.organizations) {
      NothingHeld(db.others, db.organizations);
    }
    ghost var before := db.Contents();
    up := db.Upgrade(newId);
    if !up {
      return up, false;
    }
    ghost var middle := db.Contents();
    UpgradeKeepsReferences(before, middle, newId);
    MissingAfterUpgrade(before, middle, newId);
    OrganizationsOnlyShrink(before, middle, newId);
    down := db.Downgrade(pick);
    if down {
      RoundTrip(before, middle, db.Contents(), newId, db.byDefault == Some(true));
    }
  }

  lemma HomesInColumns(organizations: map<Uuid, Organization>, newId: Uuid -> Uuid)
    ensures forall o | o in organizations ::
      Home(organizations, o, newId)
        == if organizations[o].installationCreatedAt.Some? || organizations[o].fromMaintainerUpgrade then o
          else newId(o)
    ensures !HasSyncOnly(organizations) <==> forall o | o in organizations ::
      organizations[o].installationCreatedAt.Some? || organizations[o].fromMaintainerUpgrade
  {
  }

  lemma OrganizationsOnlyShrink(before: Tables, middle: Tables, newId: Uuid -> Uuid)
    requires Injective(newId) && Upgraded(before, middle, newId)
    ensures middle.organizations.Keys <= before.organizations.Keys
  {
  }

  /** One sync-only organization: the upgrade succeeds and the downgrade does not. */
  method SyncOnlyIsNotRestored(newId: Uuid -> Uuid, pick: Choice) returns (up: bool, down: bool)
    requires Injective(newId) && PicksAMatch(pick) && newId(1) != 1
    ensures up && !down
  {
    hide Injective, PicksAMatch, HoldsSyncOnly, Home;
    var one := map[1 := Organization(5, None, false)];
    var db := new Database(Tables(one, map[], map[], map[]), map[], None);
    assert 1 in one && SyncOnly(one[1]);
    NobodyHolds(one);
    up, down := UpgradeThenDowngrade(db, newId, pick);
  }

  lemma NobodyHolds(organizations: map<Uuid, Organization>)
    ensures !HoldsSyncOnly(map[], organizations)
  {
    hide Gone;
  }

  /** A donation that was made by a sync-only organization stops the upgrade. */
  method DonorIsHeld(newId: Uuid -> Uuid) returns (ok: bool)
    requires Injective(newId)
    ensures !ok
  {
    hide Injective;
    var one := map[1 := Organization(5, None, false)];
    var others: Rows := map[OfTable("donations", 9) := {Reference(OfOrganization(1), NoAction)}];
    DonationHoldsOn(one, others);
    var db := new Database(Tables(one, map[], map[], map[]), others, None);
    ok := db.Upgrade(newId);
  }

  lemma DonationHoldsOn(one: map<Uuid, Organization>, others: Rows)
    requires one == map[1 := Organization(5, None, false)]
    requires others == map[OfTable("donations", 9) := {Reference(OfOrganization(1), NoAction)}]
    ensures HoldsSyncOnly(others, one)
  {
    var keys := SyncOnlyKeys(one);
    assert 1 in one && SyncOnly(one[1]) && OfOrganization(1) in keys;
    var donation := OfTable("donations", 9);
    assert donation in others && donation !in keys && Step(others, keys) == keys;
    var f := Reference(OfOrganization(1), NoAction);
    assert f in others[donation];
  }
}
