/** SQL's SUM over the rows of a table, as the total of a map from row ids to amounts. */
module Totals {
  import opened Sql

  predicate IsLeast(s: set<Uuid>, k: Uuid) {
    k in s && forall j :: j in s ==> k <= j
  }

  lemma {:induction false} HasLeast(s: set<Uuid>)
    requires s != {}
    ensures exists k :: IsLeast(s, k)
  {
    var k :| k in s;
    if j :| j in s && j < k {
      assert j in s - {k};
      HasLeast(s - {k});
      var l :| IsLeast(s - {k}, l);
      assert forall x :: x in s ==> x == k || x in s - {k};
      assert IsLeast(s, l);
    } else {
      assert IsLeast(s, k);
    }
  }

  function Least(s: set<Uuid>): (k: Uuid)
    requires s != {}
    ensures IsLeast(s, k)
  {
    HasLeast(s);
    var k :| IsLeast(s, k);
    k
  }

  /** The rows are added up in the order of their ids; `TotalRemove` shows that the order does not
      matter. */
  function Total(m: map<Uuid, int>): int
    decreases m.Keys
  {
    if m.Keys == {} then 0
    else
      var k := Least(m.Keys);
      assert k !in (m - {k}).Keys;
      m[k] + Total(m - {k})
  }

  lemma {:induction false} TotalRemove(m: map<Uuid, int>, k: Uuid)
    requires k in m
    ensures Total(m) == m[k] + Total(m - {k})
    decreases m.Keys
  {
    var l := Least(m.Keys);
    if l != k {
      TotalRemove(m - {l}, k);
      TotalRemove(m - {k}, l);
      assert m - {l} - {k} == m - {k} - {l};
    }
  }

  lemma {:induction false} TotalUnion(a: map<Uuid, int>, b: map<Uuid, int>)
    requires a.Keys !! b.Keys
    ensures Total(a + b) == Total(a) + Total(b)
    decreases a.Keys
  {
    if a == map[] {
      assert a + b == b;
    } else {
      var k :| k in a;
      TotalUnion(a - {k}, b);
      TotalRemove(a, k);
      TotalRemove(a + b, k);
      assert (a + b) - {k} == (a - {k}) + b;
    }
  }

  function Renamed(m: map<Uuid, int>, newId: Uuid -> Uuid): map<Uuid, int>
    requires Injective(newId)
  {
    map k | k in m :: newId(k) := m[k]
  }

  /** Giving the rows new ids does not change their total. */
  lemma {:induction false} TotalRenamed(m: map<Uuid, int>, newId: Uuid -> Uuid)
    requires Injective(newId)
    ensures Total(Renamed(m, newId)) == Total(m)
    decreases m.Keys
  {
    if m.Keys != {} {
      var k :| k in m;
      TotalRenamed(m - {k}, newId);
      TotalRemove(m, k);
      TotalRemove(Renamed(m, newId), newId(k));
      RenamedRemove(m, newId, k);
    }
  }

  lemma RenamedIs(m: map<Uuid, int>, newId: Uuid -> Uuid, n: map<Uuid, int>)
    requires Injective(newId)
    requires forall k :: k in m ==> newId(k) in n && n[newId(k)] == m[k]
    requires forall j :: j in n ==> exists k :: k in m && j == newId(k)
    ensures n == Renamed(m, newId)
  {
  }

  lemma RenamedRemove(m: map<Uuid, int>, newId: Uuid -> Uuid, k: Uuid)
    requires Injective(newId) && k in m
    ensures Renamed(m, newId) - {newId(k)} == Renamed(m - {k}, newId)
  {
  }

  /** The rows of one group. */
  function Group(m: map<Uuid, int>, groupOf: map<Uuid, Uuid>, g: Uuid): map<Uuid, int> {
    map r | r in m && r in groupOf && groupOf[r] == g :: m[r]
  }

  function Grouped(m: map<Uuid, int>, groupOf: map<Uuid, Uuid>, groups: set<Uuid>): map<Uuid, int> {
    map r | r in m && r in groupOf && groupOf[r] in groups :: m[r]
  }

  function GroupTotals(m: map<Uuid, int>, groupOf: map<Uuid, Uuid>, groups: set<Uuid>): map<Uuid, int> {
    map g | g in groups :: Total(Group(m, groupOf, g))
  }

  /** GROUP BY: summing the groups' totals sums every row that is in one of the groups. */
  lemma {:induction false} TotalOfGroups(m: map<Uuid, int>, groupOf: map<Uuid, Uuid>, groups: set<Uuid>)
    ensures Total(GroupTotals(m, groupOf, groups)) == Total(Grouped(m, groupOf, groups))
    decreases groups
  {
    if groups == {} {
      assert GroupTotals(m, groupOf, groups) == map[] == Grouped(m, groupOf, groups);
    } else {
      var g :| g in groups;
      TotalOfGroups(m, groupOf, groups - {g});
      TakeGroup(m, groupOf, groups, g);
      hide GroupTotals, Grouped, Group;
      TotalRemove(GroupTotals(m, groupOf, groups), g);
      TotalUnion(Group(m, groupOf, g), Grouped(m, groupOf, groups - {g}));
    }
  }

  lemma TakeGroup(m: map<Uuid, int>, groupOf: map<Uuid, Uuid>, groups: set<Uuid>, g: Uuid)
    requires g in groups
    ensures g in GroupTotals(m, groupOf, groups) && GroupTotals(m, groupOf, groups)[g] == Total(Group(m, groupOf, g))
    ensures GroupTotals(m, groupOf, groups) - {g} == GroupTotals(m, groupOf, groups - {g})
    ensures Group(m, groupOf, g).Keys !! Grouped(m, groupOf, groups - {g}).Keys
    ensures Group(m, groupOf, g) + Grouped(m, groupOf, groups - {g}) == Grouped(m, groupOf, groups)
  {
  }
}
