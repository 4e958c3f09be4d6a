/** Why no two screens can disagree: the levels of the rollup add up, the order of the rows does not matter, and the
    health ring built on the rollup hides nothing (app/alert_rules.py). */
module AlertConsistency {
  import opened Options
  import AlertRules
  import opened AlertRollup

  // ---- every level adds up ---------------------------------------------------------------

  ghost function Pick<K>(m: map<K, nat>): (k: K)
    requires m != map[]
    ensures k in m
  {
    var k :| k in m; k
  }

  /** The sum of a map's values. */
  ghost function Total<K>(m: map<K, nat>): nat
    decreases |m|
  {
    if m == map[] then 0 else
    var k := Pick(m);
    assert (m - {k}).Keys == m.Keys - {k};
    m[k] + Total(m - {k})
  }

  ghost function CountAny<K>(rows: seq<Row>, keys: set<K>, scope: K -> Scope, k: Kind): nat {
    if rows == [] then 0 else
    var last := rows[|rows| - 1];
    CountAny(rows[..|rows| - 1], keys, scope, k)
    + (if (exists x :: x in keys && Within(last, scope(x))) && KindOf(last) == Some(k) then 1 else 0)
  }

  /** No row falls under two of the keys. */
  ghost predicate Disjoint<K>(rows: seq<Row>, keys: set<K>, scope: K -> Scope) {
    forall row, x, y :: row in rows && x in keys && y in keys && Within(row, scope(x)) && Within(row, scope(y)) ==>
      x == y
  }

  lemma {:induction false} CountAnySplit<K>(rows: seq<Row>, keys: set<K>, scope: K -> Scope, k: Kind, x: K)
    requires x in keys && Disjoint(rows, keys, scope)
    ensures CountAny(rows, keys, scope, k) == CountAny(rows, keys - {x}, scope, k) + Count(rows, scope(x), k)
  {
    if rows != [] {
      var last, front := rows[|rows| - 1], rows[..|rows| - 1];
      assert last in rows;
      forall row, y, z | row in front && y in keys && z in keys && Within(row, scope(y)) && Within(row, scope(z))
        ensures y == z
      {
        assert row in rows;
      }
      CountAnySplit(front, keys, scope, k, x);
      if Within(last, scope(x)) {
        forall y | y in keys && Within(last, scope(y)) ensures y == x { }
      } else {
        assert forall y :: y in keys && Within(last, scope(y)) ==> y in keys - {x};
      }
    }
  }

  lemma {:induction false} CountNone<K>(rows: seq<Row>, scope: K -> Scope, k: Kind)
    ensures CountAny(rows, {}, scope, k) == 0
  {
    if rows != [] { CountNone(rows[..|rows| - 1], scope, k); }
  }

  lemma {:induction false} TotalOfCounts<K>(rows: seq<Row>, m: map<K, nat>, scope: K -> Scope, k: Kind)
    requires Disjoint(rows, m.Keys, scope) && forall x :: x in m ==> m[x] == Count(rows, scope(x), k)
    ensures Total(m) == CountAny(rows, m.Keys, scope, k)
    decreases |m|
  {
    if m == map[] {
      CountNone(rows, scope, k);
    } else {
      var x := Pick(m);
      assert (m - {x}).Keys == m.Keys - {x};
      TotalOfCounts(rows, m - {x}, scope, k);
      CountAnySplit(rows, m.Keys, scope, k, x);
    }
  }

  lemma {:induction false} CountAnyIsCount<K>(rows: seq<Row>, keys: set<K>, scope: K -> Scope, k: Kind, sc: Scope)
    requires forall row :: row in rows ==> (Within(row, sc) <==> exists x :: x in keys && Within(row, scope(x)))
    ensures CountAny(rows, keys, scope, k) == Count(rows, sc, k)
  {
    if rows != [] { CountAnyIsCount(rows[..|rows| - 1], keys, scope, k, sc); }
  }

  function ServiceCounts(rows: seq<Row>, a: int, k: Kind): map<string, nat> {
    map s | s in ServicesOf(rows, a) :: Count(rows, OfService(a, s), k)
  }

  lemma TotalOfServiceCounts(rows: seq<Row>, a: int, k: Kind)
    ensures Total(ServiceCounts(rows, a, k)) == Count(rows, OfAccount(a), k)
  {
    var m := ServiceCounts(rows, a, k);
    var scope := (s: string) => OfService(a, s);
    forall row | row in rows ensures Within(row, OfAccount(a)) <==> exists s :: s in m.Keys && Within(row, scope(s)) {
      if Within(row, OfAccount(a)) {
        assert (a, ServiceOf(row)) in Services(rows);
        assert ServiceOf(row) in m.Keys && Within(row, scope(ServiceOf(row)));
      }
    }
    TotalOfCounts(rows, m, scope, k);
    CountAnyIsCount(rows, m.Keys, scope, k, OfAccount(a));
  }

  function ResourceCounts(rows: seq<Row>, a: int, k: Kind): map<(int, string), nat> {
    map key | key in Resources(rows) && key.0 == a :: Count(rows, OfResource(key.0, key.1), k)
  }

  lemma TotalOfResourceCounts(rows: seq<Row>, a: int, k: Kind)
    ensures Total(ResourceCounts(rows, a, k)) == Count(rows, OfAccount(a), k)
  {
    var m := ResourceCounts(rows, a, k);
    var scope := (key: (int, string)) => OfResource(key.0, key.1);
    forall row | row in rows
      ensures Within(row, OfAccount(a)) <==> exists key :: key in m.Keys && Within(row, scope(key))
    {
      if Within(row, OfAccount(a)) {
        assert (a, row.resourceId) in m.Keys && Within(row, scope((a, row.resourceId)));
      }
    }
    TotalOfCounts(rows, m, scope, k);
    CountAnyIsCount(rows, m.Keys, scope, k, OfAccount(a));
  }

  lemma CountedIs(rows: seq<Row>, sc: Scope, k: Kind, service: string)
    ensures Finish(BucketOf(rows, sc)).Counted(k) == Count(rows, sc, k)
    ensures FinishResource(service, BucketOf(rows, sc)).Counted(k) == Count(rows, sc, k)
  {
    match k case Critical => case Warning => case Info => case Stale => case Acknowledged => case Suppressed =>
  }

  function ServiceSums(services: map<string, Finished>, k: Kind): map<string, nat> {
    map s | s in services :: services[s].Counted(k)
  }

  function ResourceSums(resources: map<(int, string), Resource>, a: int, k: Kind): map<(int, string), nat> {
    map key | key in resources && key.0 == a :: resources[key].Counted(k)
  }

  lemma ServiceSumsAre(rows: seq<Row>, a: int, k: Kind)
    ensures ServiceSums(AccountOf(rows, a).services, k) == ServiceCounts(rows, a, k)
  {
    var services := AccountOf(rows, a).services;
    forall s | s in ServicesOf(rows, a) ensures services[s].Counted(k) == Count(rows, OfService(a, s), k) {
      CountedIs(rows, OfService(a, s), k, s);
    }
  }

  lemma ResourceSumsAre(rows: seq<Row>, a: int, k: Kind)
    ensures ResourceSums(RollupOf(rows).resources, a, k) == ResourceCounts(rows, a, k)
  {
    var resources := RollupOf(rows).resources;
    forall key | key in Resources(rows) && key.0 == a
      ensures resources[key].Counted(k) == Count(rows, OfResource(key.0, key.1), k)
    {
      assert resources[key] == ResourceOf(rows, key);
      CountedIs(rows, OfResource(key.0, key.1), k, FirstService(rows, key));
    }
  }

  lemma AccountIs(rows: seq<Row>, a: int, k: Kind)
    requires a in Accounts(rows)
    ensures RollupOf(rows).accounts[a] == AccountOf(rows, a)
    ensures AccountOf(rows, a).totals.Counted(k) == Count(rows, OfAccount(a), k)
  {
    CountedIs(rows, OfAccount(a), k, "");
  }

  /** Each of an account's six counters is the sum of that counter over the account's services. */
  lemma ServicesAddUp(rows: seq<Row>, a: int, k: Kind)
    requires a in Accounts(rows)
    ensures var acc := RollupOf(rows).accounts[a];
            Total(ServiceSums(acc.services, k)) == acc.totals.Counted(k)
  {
    AccountIs(rows, a, k);
    ServiceSumsAre(rows, a, k);
    TotalOfServiceCounts(rows, a, k);
  }

  /** The same for the account's resources. */
  lemma ResourcesAddUp(rows: seq<Row>, a: int, k: Kind)
    requires a in Accounts(rows)
    ensures var out := RollupOf(rows);
            Total(ResourceSums(out.resources, a, k)) == out.accounts[a].totals.Counted(k)
  {
    AccountIs(rows, a, k);
    ResourceSumsAre(rows, a, k);
    TotalOfResourceCounts(rows, a, k);
  }

  lemma {:induction false} CountIsPositive(rows: seq<Row>, sc: Scope, k: Kind)
    ensures Count(rows, sc, k) > 0 <==> exists row :: row in rows && Within(row, sc) && KindOf(row) == Some(k)
  {
    if rows != [] {
      CountIsPositive(rows[..|rows| - 1], sc, k);
      assert forall row :: row in rows <==> row in rows[..|rows| - 1] || row == rows[|rows| - 1];
    }
  }

  /** A resource has a row of one of the kinds exactly when it is listed with a positive count of one of them. */
  lemma ResourceHasKind(rows: seq<Row>, a: int, id: string, kinds: set<Kind>)
    ensures id in ResourcesWith(rows, OfAccount(a), kinds) <==>
              (a, id) in Resources(rows) && exists k :: k in kinds && Count(rows, OfResource(a, id), k) > 0
  {
    forall k: Kind
      ensures Count(rows, OfResource(a, id), k) > 0 <==>
                exists row :: row in rows && Within(row, OfResource(a, id)) && KindOf(row) == Some(k)
    {
      CountIsPositive(rows, OfResource(a, id), k);
    }
  }

  function Ids(keys: set<(int, string)>): set<string> {
    set key | key in keys :: key.1
  }

  lemma IdsAre(rows: seq<Row>, a: int, kinds: set<Kind>, keys: set<(int, string)>)
    requires forall key :: key in keys <==>
               key in Resources(rows) && key.0 == a
               && exists k :: k in kinds && Count(rows, OfResource(a, key.1), k) > 0
    ensures Ids(keys) == ResourcesWith(rows, OfAccount(a), kinds)
  {
    forall id ensures id in Ids(keys) <==> id in ResourcesWith(rows, OfAccount(a), kinds) {
      ResourceHasKind(rows, a, id, kinds);
      assert id in Ids(keys) <==> (a, id) in keys;
    }
  }

  function FiringResources(resources: map<(int, string), Resource>, a: int): set<(int, string)> {
    set key | key in resources && key.0 == a && resources[key].total > 0
  }

  function ResourcesCounting(resources: map<(int, string), Resource>, a: int, k: Kind): set<(int, string)> {
    set key | key in resources && key.0 == a && resources[key].Counted(k) > 0
  }

  lemma FiringIdsAre(rows: seq<Row>, a: int)
    ensures Ids(FiringResources(RollupOf(rows).resources, a)) ==
              ResourcesWith(rows, OfAccount(a), {Critical, Warning, Info})
  {
    var resources := RollupOf(rows).resources;
    var kinds := {Critical, Warning, Info};
    forall key
      ensures key in FiringResources(resources, a) <==>
                key in Resources(rows) && key.0 == a
                && exists k :: k in kinds && Count(rows, OfResource(a, key.1), k) > 0
    {
      if key in Resources(rows) && key.0 == a {
        assert resources[key] == ResourceOf(rows, key);
        assert Critical in kinds && Warning in kinds && Info in kinds;
      }
    }
    IdsAre(rows, a, kinds, FiringResources(resources, a));
  }

  lemma CountingIdsAre(rows: seq<Row>, a: int, k: Kind)
    ensures Ids(ResourcesCounting(RollupOf(rows).resources, a, k)) == ResourcesWith(rows, OfAccount(a), {k})
  {
    var resources := RollupOf(rows).resources;
    forall key
      ensures key in ResourcesCounting(resources, a, k) <==>
                key in Resources(rows) && key.0 == a && exists x :: x in {k} && Count(rows, OfResource(a, key.1), x) > 0
    {
      if key in Resources(rows) && key.0 == a {
        assert resources[key] == ResourceOf(rows, key);
        CountedIs(rows, OfResource(a, key.1), k, FirstService(rows, key));
        assert k in {k};
      }
    }
    IdsAre(rows, a, {k}, ResourcesCounting(resources, a, k));
  }

  /** "Resources affected" is the number of the account's resources that have a firing alert, and the critical and
      warning resource counts are those with a firing alert at that level. */
  lemma ResourcesAffectedAreTheFiringOnes(rows: seq<Row>, a: int)
    requires a in Accounts(rows)
    ensures var out := RollupOf(rows);
            && out.accounts[a].totals.resourcesAffected == |Ids(FiringResources(out.resources, a))|
            && out.accounts[a].totals.criticalResources == |Ids(ResourcesCounting(out.resources, a, Critical))|
            && out.accounts[a].totals.warningResources == |Ids(ResourcesCounting(out.resources, a, Warning))|
  {
    assert RollupOf(rows).accounts[a] == AccountOf(rows, a);
    FiringIdsAre(rows, a);
    CountingIdsAre(rows, a, Critical);
    CountingIdsAre(rows, a, Warning);
  }

  // ---- the order of the rows does not matter ---------------------------------------------

  lemma {:induction false} CountConcat(xs: seq<Row>, ys: seq<Row>, sc: Scope, k: Kind)
    ensures Count(xs + ys, sc, k) == Count(xs, sc, k) + Count(ys, sc, k)
  {
    if ys == [] {
      assert xs + ys == xs;
    } else {
      var n := |ys| - 1;
      assert (xs + ys)[..|xs + ys| - 1] == xs + ys[..n];
      CountConcat(xs, ys[..n], sc, k);
    }
  }

  lemma {:induction false} CountIgnoresOrder(xs: seq<Row>, ys: seq<Row>, sc: Scope, k: Kind)
    requires multiset(xs) == multiset(ys)
    ensures Count(xs, sc, k) == Count(ys, sc, k)
    decreases |xs|
  {
    if xs == [] {
      assert |multiset(ys)| == 0;
    } else {
      var last, front := xs[|xs| - 1], xs[..|xs| - 1];
      assert xs == front + [last];
      assert last in multiset(ys);
      var i :| 0 <= i < |ys| && ys[i] == last;
      assert ys == ys[..i] + [last] + ys[i + 1..];
      assert multiset(ys) == multiset(ys[..i] + ys[i + 1..]) + multiset{last};
      assert multiset(xs) == multiset(front) + multiset{last};
      assert multiset(front) == multiset(xs) - multiset{last};
      assert multiset(ys[..i] + ys[i + 1..]) == multiset(ys) - multiset{last};
      CountIgnoresOrder(front, ys[..i] + ys[i + 1..], sc, k);
      CountConcat(ys[..i], ys[i + 1..], sc, k);
      CountConcat(ys[..i] + [last], ys[i + 1..], sc, k);
      CountConcat(ys[..i], [last], sc, k);
      CountConcat(front, [last], sc, k);
    }
  }

  lemma SameRows(xs: seq<Row>, ys: seq<Row>)
    requires multiset(xs) == multiset(ys)
    ensures forall row :: row in xs <==> row in ys
  {
    assert forall row :: row in xs <==> row in multiset(xs);
  }

  lemma BucketIgnoresOrder(xs: seq<Row>, ys: seq<Row>, sc: Scope)
    requires multiset(xs) == multiset(ys)
    ensures BucketOf(xs, sc) == BucketOf(ys, sc)
  {
    SameRows(xs, ys);
    forall k: Kind ensures Count(xs, sc, k) == Count(ys, sc, k) { CountIgnoresOrder(xs, ys, sc, k); }
  }

  lemma AccountIgnoresOrder(xs: seq<Row>, ys: seq<Row>, a: int)
    requires multiset(xs) == multiset(ys)
    ensures AccountOf(xs, a) == AccountOf(ys, a)
  {
    SameRows(xs, ys);
    BucketIgnoresOrder(xs, ys, OfAccount(a));
    assert Services(xs) == Services(ys);
    assert ServicesOf(xs, a) == ServicesOf(ys, a);
    forall s | s in ServicesOf(xs, a) ensures BucketOf(xs, OfService(a, s)) == BucketOf(ys, OfService(a, s)) {
      BucketIgnoresOrder(xs, ys, OfService(a, s));
    }
  }

  /** Everything but the service a resource is listed under is the same for any order of the rows. */
  lemma RollupIgnoresOrder(xs: seq<Row>, ys: seq<Row>)
    requires multiset(xs) == multiset(ys)
    ensures RollupOf(xs).accounts == RollupOf(ys).accounts
    ensures RollupOf(xs).resources.Keys == RollupOf(ys).resources.Keys
    ensures forall key :: key in RollupOf(xs).resources ==>
              RollupOf(xs).resources[key].(service := "") == RollupOf(ys).resources[key].(service := "")
  {
    SameRows(xs, ys);
    assert Accounts(xs) == Accounts(ys) && Resources(xs) == Resources(ys);
    forall a | a in Accounts(xs) ensures AccountOf(xs, a) == AccountOf(ys, a) { AccountIgnoresOrder(xs, ys, a); }
    forall key | key in Resources(xs)
      ensures ResourceOf(xs, key).(service := "") == ResourceOf(ys, key).(service := "")
    {
      BucketIgnoresOrder(xs, ys, OfResource(key.0, key.1));
    }
  }

  /** What the join with the resources table guarantees: one type for each (account, resource). */
  ghost predicate OneTypePerResource(rows: seq<Row>) {
    forall r, s :: r in rows && s in rows && r.account == s.account && r.resourceId == s.resourceId ==>
      r.resourceType == s.resourceType
  }

  lemma {:induction false} FirstServiceIsOfARow(rows: seq<Row>, key: (int, string))
    requires key in Resources(rows)
    ensures exists row :: row in rows && (row.account, row.resourceId) == key
              && FirstService(rows, key) == ServiceOf(row)
  {
    if (rows[0].account, rows[0].resourceId) == key {
      assert rows[0] in rows;
    } else {
      assert forall r :: r in rows <==> r == rows[0] || r in rows[1..];
      FirstServiceIsOfARow(rows[1..], key);
    }
  }

  /** On rows that come out of that join the whole rollup ignores the order. */
  lemma JoinedRollupIgnoresOrder(xs: seq<Row>, ys: seq<Row>)
    requires multiset(xs) == multiset(ys) && OneTypePerResource(xs)
    ensures RollupOf(xs) == RollupOf(ys)
  {
    RollupIgnoresOrder(xs, ys);
    SameRows(xs, ys);
    var p, q := RollupOf(xs).resources, RollupOf(ys).resources;
    forall key | key in p ensures p[key] == q[key] {
      FirstServiceIsOfARow(xs, key);
      FirstServiceIsOfARow(ys, key);
      assert p[key].service == q[key].service;
      assert p[key].(service := "") == q[key].(service := "");
    }
    assert p == q;
  }

  /** Without it the service field does depend on the order. */
  lemma ServiceDependsOnOrder()
    ensures var a := Row(1, "x", "ec2", None, AlertRules.Firing);
            var b := Row(1, "x", "rds", None, AlertRules.Firing);
            (1, "x") in RollupOf([a, b]).resources && (1, "x") in RollupOf([b, a]).resources &&
            RollupOf([a, b]).resources[(1, "x")].service != RollupOf([b, a]).resources[(1, "x")].service
  {
    var a := Row(1, "x", "ec2", None, AlertRules.Firing);
    var b := Row(1, "x", "rds", None, AlertRules.Firing);
    assert a in [a, b] && a in [b, a];
    assert ServiceOf(a) == "ec2" && ServiceOf(b) == "rds" && "ec2"[0] != "rds"[0];
  }

  // ---- the health ring -------------------------------------------------------------------

  datatype Ring = Ring(total: nat, critical: nat, warning: nat, healthy: int, criticalServices: set<string>,
                       warningServices: set<string>)

  function CriticalIn(services: map<string, Finished>): set<string> {
    set s | s in services && services[s].critical > 0
  }

  function WarningIn(services: map<string, Finished>): set<string> {
    set s | s in services && services[s].critical == 0 && services[s].warning > 0
  }

  method ServiceRing(active: set<string>, services: map<string, Finished>) returns (ring: Ring)
    ensures ring.criticalServices == CriticalIn(services) && ring.warningServices == WarningIn(services)
    ensures ring.critical == |CriticalIn(services)| && ring.warning == |WarningIn(services)|
    ensures ring.total == |active + CriticalIn(services) + WarningIn(services)|
    ensures ring.healthy == ring.total - ring.critical - ring.warning
  {
    var crit: set<string>, warn: set<string>, todo := {}, {}, services.Keys;
    while todo != {}
      invariant todo <= services.Keys
      invariant forall s :: s in crit <==> s in services && s !in todo && services[s].critical > 0
      invariant forall s :: s in warn <==>
                  s in services && s !in todo && services[s].critical == 0 && services[s].warning > 0
    {
      var key :| key in todo;
      todo := todo - {key};
      if services[key].critical > 0 {
        crit := crit + {key};
      } else if services[key].warning > 0 {
        warn := warn + {key};
      }
    }
    assert crit == CriticalIn(services) && warn == WarningIn(services);
    var all := active + crit + warn;
    ring := Ring(|all|, |crit|, |warn|, |all| - |crit| - |warn|, crit, warn);
  }

  /** The ring partitions its services: what is neither critical nor warning is healthy, whatever set of active services
      it is given. */
  lemma RingPartitions(active: set<string>, services: map<string, Finished>)
    ensures CriticalIn(services) !! WarningIn(services)
    ensures var c, w := CriticalIn(services), WarningIn(services);
            |active + c + w| == |c| + |w| + |active - c - w|
  {
    var c, w := CriticalIn(services), WarningIn(services);
    assert active + c + w == (c + w) + (active - c - w);
    assert (c + w) !! (active - c - w);
    assert |(c + w) + (active - c - w)| == |c + w| + |active - c - w|;
  }

  /** An account's service is critical on its ring exactly when one of its rows is firing at CRITICAL, and warning
      exactly when none is and one is firing at WARNING: nothing firing is hidden and nothing else colours it. */
  lemma RingShowsExactlyTheFiring(rows: seq<Row>, a: int, s: string)
    requires a in Accounts(rows)
    ensures var services := RollupOf(rows).accounts[a].services;
            && (s in CriticalIn(services) <==>
                exists row :: row in rows && Within(row, OfService(a, s)) && KindOf(row) == Some(Critical))
            && (s in WarningIn(services) <==>
                  && s !in CriticalIn(services)
                  && exists row :: row in rows && Within(row, OfService(a, s)) && KindOf(row) == Some(Warning))
  {
    CountIsPositive(rows, OfService(a, s), Critical);
    CountIsPositive(rows, OfService(a, s), Warning);
    if row :| row in rows && Within(row, OfService(a, s)) {
      assert (a, s) in Services(rows);
    }
  }

  /** So a firing CRITICAL or WARNING row always has its service on the ring of its account. */
  lemma NoFiringRowIsHidden(rows: seq<Row>, row: Row)
    requires row in rows
    ensures row.account in RollupOf(rows).accounts
    ensures var services := RollupOf(rows).accounts[row.account].services;
            && (KindOf(row) == Some(Critical) ==> ServiceOf(row) in CriticalIn(services))
            && (KindOf(row) == Some(Warning) ==> ServiceOf(row) in CriticalIn(services) + WarningIn(services))
  {
    RingShowsExactlyTheFiring(rows, row.account, ServiceOf(row));
    assert Within(row, OfService(row.account, ServiceOf(row)));
  }
}
