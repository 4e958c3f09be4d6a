/** The fingerprint query itself (app/alert_cache.py), which changes it sees, and what the ones it does not see do to
    the cache. */
module AlertFingerprint {
  import opened Options
  import opened AlertRules
  import AlertConsistency
  import AlertRollup
  import AlertCache

  /** One row of the alerts table, already joined with its resource. */
  datatype Alert = Alert(id: nat, account: nat, resourceId: string, resourceType: string, severity: string,
                         columns: Columns, falsePositive: Option<int>)

  predicate IsOpen(a: Alert) {
    a.columns.status == Some("active") || a.columns.status == Some("acknowledged")
  }

  /** The eleven aggregates of the query. SUM skips NULLs, COALESCE turns an empty SUM or MAX into 0. */
  datatype Fingerprint = Fingerprint(n: nat, maxId: nat, active: nat, acknowledged: nat, critical: nat, silenced: int,
                                     falsePositives: int, muted: nat, mutedSum: int,
                                     acknowledgedIds: nat, maxAccount: nat)

  function Bit(b: bool): nat {
    if b then 1 else 0
  }

  function OrZero(x: Option<int>): int {
    if x.Some? then x.value else 0
  }

  function Max(a: nat, b: nat): nat {
    if a < b then b else a
  }

  /** What one open row adds to the sums. */
  function Share(a: Alert): Fingerprint {
    var acked := a.columns.status == Some("acknowledged");
    Fingerprint(1, a.id, Bit(a.columns.status == Some("active")), Bit(acked),
                Bit(AlertRollup.Upper(a.severity) == "CRITICAL"), OrZero(a.columns.silenced), OrZero(a.falsePositive),
                Bit(a.columns.mutedUntil.Some?), OrZero(a.columns.mutedUntil),
                if acked then a.id else 0, a.account)
  }

  function Plus(f: Fingerprint, g: Fingerprint): Fingerprint {
    Fingerprint(f.n + g.n, Max(f.maxId, g.maxId), f.active + g.active, f.acknowledged + g.acknowledged,
                f.critical + g.critical, f.silenced + g.silenced, f.falsePositives + g.falsePositives,
                f.muted + g.muted, f.mutedSum + g.mutedSum,
                f.acknowledgedIds + g.acknowledgedIds, Max(f.maxAccount, g.maxAccount))
  }

  const NOTHING := Fingerprint(0, 0, 0, 0, 0, 0, 0, 0, 0, 0, 0)

  function ShareIfOpen(a: Alert): Fingerprint {
    if IsOpen(a) then Share(a) else NOTHING
  }

  function FingerprintOf(table: seq<Alert>): Fingerprint {
    if table == [] then NOTHING else Plus(ShareIfOpen(table[0]), FingerprintOf(table[1..]))
  }

  lemma MaxAssociates(a: nat, b: nat, c: nat)
    ensures Max(Max(a, b), c) == Max(a, Max(b, c))
  {
  }

  lemma PlusAssociates(f: Fingerprint, g: Fingerprint, h: Fingerprint)
    ensures Plus(Plus(f, g), h) == Plus(f, Plus(g, h))
  {
    MaxAssociates(f.maxId, g.maxId, h.maxId);
    MaxAssociates(f.maxAccount, g.maxAccount, h.maxAccount);
  }

  lemma PlusNothing(f: Fingerprint)
    ensures Plus(NOTHING, f) == f && Plus(f, NOTHING) == f
  {
  }

  lemma {:induction false} FingerprintConcat(xs: seq<Alert>, ys: seq<Alert>)
    ensures FingerprintOf(xs + ys) == Plus(FingerprintOf(xs), FingerprintOf(ys))
  {
    if xs == [] {
      assert xs + ys == ys;
      PlusNothing(FingerprintOf(ys));
    } else {
      assert (xs + ys)[1..] == xs[1..] + ys;
      FingerprintConcat(xs[1..], ys);
      PlusAssociates(ShareIfOpen(xs[0]), FingerprintOf(xs[1..]), FingerprintOf(ys));
    }
  }

  lemma FingerprintOfOne(a: Alert)
    ensures FingerprintOf([a]) == ShareIfOpen(a)
  {
    var share, table := ShareIfOpen(a), [a];
    assert table[0] == a && FingerprintOf(table[1..]) == NOTHING;
    assert FingerprintOf(table) == Plus(share, NOTHING) by { assert table != []; }
    PlusNothing(share);
  }

  lemma FingerprintAround(xs: seq<Alert>, a: Alert, ys: seq<Alert>)
    ensures FingerprintOf(xs + [a] + ys) == Plus(Plus(FingerprintOf(xs), ShareIfOpen(a)), FingerprintOf(ys))
  {
    FingerprintConcat(xs + [a], ys);
    FingerprintConcat(xs, [a]);
    FingerprintOfOne(a);
  }

  lemma PlusCancels(f: Fingerprint, x: Fingerprint, y: Fingerprint, g: Fingerprint)
    requires x.n == y.n ==> x.maxId == y.maxId && x.maxAccount == y.maxAccount
    ensures Plus(Plus(f, x), g) == Plus(Plus(f, y), g) <==> x == y
  {
    if x != y && x.n == y.n {
      var p, q := Plus(Plus(f, x), g), Plus(Plus(f, y), g);
      if x.active != y.active {
        assert p.active != q.active;
      } else if x.acknowledged != y.acknowledged {
        assert p.acknowledged != q.acknowledged;
      } else if x.critical != y.critical {
        assert p.critical != q.critical;
      } else if x.silenced != y.silenced {
        assert p.silenced != q.silenced;
      } else if x.falsePositives != y.falsePositives {
        assert p.falsePositives != q.falsePositives;
      } else if x.muted != y.muted {
        assert p.muted != q.muted;
      } else if x.mutedSum != y.mutedSum {
        assert p.mutedSum != q.mutedSum;
      } else {
        assert p.acknowledgedIds != q.acknowledgedIds;
      }
    } else if x != y {
      assert Plus(Plus(f, x), g).n != Plus(Plus(f, y), g).n;
    }
  }

  /** The exact set of one-row updates the fingerprint sees, in any table: those that open or close the alert or change
      its own share. A row keeps its id and its account. */
  lemma OneRowUpdateIsSeenExactly(xs: seq<Alert>, a: Alert, b: Alert, ys: seq<Alert>)
    requires a.id == b.id && a.account == b.account
    ensures FingerprintOf(xs + [a] + ys) == FingerprintOf(xs + [b] + ys) <==> ShareIfOpen(a) == ShareIfOpen(b)
  {
    var f, g, x, y := FingerprintOf(xs), FingerprintOf(ys), ShareIfOpen(a), ShareIfOpen(b);
    var p, q := Plus(Plus(f, x), g), Plus(Plus(f, y), g);
    assert p == q <==> x == y by { PlusCancels(f, x, y, g); }
    assert FingerprintOf(xs + [a] + ys) == p by { FingerprintAround(xs, a, ys); }
    assert FingerprintOf(xs + [b] + ys) == q by { FingerprintAround(xs, b, ys); }
  }

  /** Opening or removing an alert is always seen. */
  lemma InsertIsSeen(xs: seq<Alert>, a: Alert, ys: seq<Alert>)
    requires IsOpen(a)
    ensures FingerprintOf(xs + [a] + ys) != FingerprintOf(xs + ys)
  {
    FingerprintAround(xs, a, ys);
    FingerprintConcat(xs, ys);
  }

  function RowOf(a: Alert, now: int, staleMinutes: int): AlertRollup.Row {
    AlertRollup.Row(a.account, a.resourceId, a.resourceType, Some(a.severity), StateOf(a.columns, now, staleMinutes))
  }

  function OpenRows(table: seq<Alert>, now: int, staleMinutes: int): seq<AlertRollup.Row> {
    if table == [] then []
    else if IsOpen(table[0]) then [RowOf(table[0], now, staleMinutes)] + OpenRows(table[1..], now, staleMinutes)
    else OpenRows(table[1..], now, staleMinutes)
  }

  /** Where a row is counted: its kind and the three keys. */
  function CountedAs(row: AlertRollup.Row): (Option<AlertRollup.Kind>, int, string, string) {
    (AlertRollup.KindOf(row), row.account, row.resourceId, AlertRollup.ServiceOf(row))
  }

  /** A one-row update that changes what the alert is counted as, or under, but not the fingerprint moves the alert
      between severities below CRITICAL, touches the timestamps its freshness is judged by, or moves it to another
      resource. */
  lemma WhatAnUnseenUpdateCanChange(a: Alert, b: Alert, now: int, staleMinutes: int)
    requires a.id == b.id && a.account == b.account && IsOpen(a) && IsOpen(b) && ShareIfOpen(a) == ShareIfOpen(b)
    requires CountedAs(RowOf(a, now, staleMinutes)) != CountedAs(RowOf(b, now, staleMinutes))
    ensures || (a.severity != b.severity
                && AlertRollup.Upper(a.severity) != "CRITICAL" && AlertRollup.Upper(b.severity) != "CRITICAL")
            || a.columns.lastSeenAt != b.columns.lastSeenAt || a.columns.triggeredAt != b.columns.triggeredAt
            || a.resourceId != b.resourceId || a.resourceType != b.resourceType
  {
  }

  // ---- exactly which updates make the cache answer wrongly -----------------------------------

  function RollupAt(table: seq<Alert>, now: int, staleMinutes: int): AlertRollup.Rollup {
    AlertRollup.RollupOf(OpenRows(table, now, staleMinutes))
  }

  function SourceAt(now: int, staleMinutes: int): AlertCache.Source<seq<Alert>, Fingerprint, AlertRollup.Rollup> {
    AlertCache.Source((t: seq<Alert>) => FingerprintOf(t), (t: seq<Alert>) => RollupAt(t, now, staleMinutes))
  }

  /** Row by row the same keys and kinds. */
  ghost predicate Alike(rows: seq<AlertRollup.Row>, rows': seq<AlertRollup.Row>) {
    |rows| == |rows'| && forall i :: 0 <= i < |rows| ==> CountedAs(rows[i]) == CountedAs(rows'[i])
  }

  lemma {:induction false} AlikeCount(rows: seq<AlertRollup.Row>, rows': seq<AlertRollup.Row>, sc: AlertRollup.Scope,
                                      k: AlertRollup.Kind)
    requires Alike(rows, rows')
    ensures AlertRollup.Count(rows, sc, k) == AlertRollup.Count(rows', sc, k)
  {
    if rows != [] {
      var n := |rows| - 1;
      AlikeCount(rows[..n], rows'[..n], sc, k);
      assert CountedAs(rows[n]) == CountedAs(rows'[n]);
    }
  }

  lemma AlikeResources(rows: seq<AlertRollup.Row>, rows': seq<AlertRollup.Row>, sc: AlertRollup.Scope,
                       kinds: set<AlertRollup.Kind>)
    requires Alike(rows, rows')
    ensures AlertRollup.ResourcesWith(rows, sc, kinds) == AlertRollup.ResourcesWith(rows', sc, kinds)
  {
    forall i | 0 <= i < |rows|
      ensures CountedAs(rows[i]) == CountedAs(rows'[i]) && rows[i] in rows && rows'[i] in rows' {}
  }

  lemma AlikeBucket(rows: seq<AlertRollup.Row>, rows': seq<AlertRollup.Row>, sc: AlertRollup.Scope)
    requires Alike(rows, rows')
    ensures AlertRollup.BucketOf(rows, sc) == AlertRollup.BucketOf(rows', sc)
  {
    forall k: AlertRollup.Kind ensures AlertRollup.Count(rows, sc, k) == AlertRollup.Count(rows', sc, k) {
      AlikeCount(rows, rows', sc, k);
    }
    forall kinds: set<AlertRollup.Kind>
      ensures AlertRollup.ResourcesWith(rows, sc, kinds) == AlertRollup.ResourcesWith(rows', sc, kinds)
    {
      AlikeResources(rows, rows', sc, kinds);
    }
  }

  lemma {:induction false} AlikeFirstService(rows: seq<AlertRollup.Row>, rows': seq<AlertRollup.Row>,
                                             key: (int, string))
    requires Alike(rows, rows')
    ensures AlertRollup.FirstService(rows, key) == AlertRollup.FirstService(rows', key)
  {
    if rows != [] {
      assert CountedAs(rows[0]) == CountedAs(rows'[0]);
      AlikeFirstService(rows[1..], rows'[1..], key);
    }
  }

  lemma AlikeKeys(rows: seq<AlertRollup.Row>, rows': seq<AlertRollup.Row>)
    requires Alike(rows, rows')
    ensures AlertRollup.Accounts(rows) == AlertRollup.Accounts(rows')
    ensures AlertRollup.Services(rows) == AlertRollup.Services(rows')
    ensures AlertRollup.Resources(rows) == AlertRollup.Resources(rows')
  {
    forall i | 0 <= i < |rows|
      ensures CountedAs(rows[i]) == CountedAs(rows'[i]) && rows[i] in rows && rows'[i] in rows' {}
  }

  lemma AlikeAccount(rows: seq<AlertRollup.Row>, rows': seq<AlertRollup.Row>, account: int)
    requires Alike(rows, rows')
    ensures AlertRollup.AccountOf(rows, account) == AlertRollup.AccountOf(rows', account)
  {
    AlikeBucket(rows, rows', AlertRollup.OfAccount(account));
    assert AlertRollup.ServicesOf(rows, account) == AlertRollup.ServicesOf(rows', account) by {
      AlikeKeys(rows, rows');
    }
    var m, m' := AlertRollup.AccountOf(rows, account).services, AlertRollup.AccountOf(rows', account).services;
    assert m.Keys == m'.Keys;
    forall s | s in m ensures m[s] == m'[s] { AlikeBucket(rows, rows', AlertRollup.OfService(account, s)); }
    assert m == m';
  }

  lemma AlikeRollup(rows: seq<AlertRollup.Row>, rows': seq<AlertRollup.Row>)
    requires Alike(rows, rows')
    ensures AlertRollup.RollupOf(rows) == AlertRollup.RollupOf(rows')
  {
    AlikeAccounts(rows, rows');
    AlikeResourceEntries(rows, rows');
  }

  lemma AlikeAccounts(rows: seq<AlertRollup.Row>, rows': seq<AlertRollup.Row>)
    requires Alike(rows, rows')
    ensures AlertRollup.RollupOf(rows).accounts == AlertRollup.RollupOf(rows').accounts
  {
    assert AlertRollup.Accounts(rows) == AlertRollup.Accounts(rows') by { AlikeKeys(rows, rows'); }
    var m, m' := AlertRollup.RollupOf(rows).accounts, AlertRollup.RollupOf(rows').accounts;
    assert m.Keys == m'.Keys;
    forall a | a in m ensures m[a] == m'[a] {
      var account, account' := AlertRollup.AccountOf(rows, a), AlertRollup.AccountOf(rows', a);
      assert account == account' by { AlikeAccount(rows, rows', a); }
      assert m[a] == account && m'[a] == account';
    }
    assert m == m';
  }

  lemma AlikeResourceEntries(rows: seq<AlertRollup.Row>, rows': seq<AlertRollup.Row>)
    requires Alike(rows, rows')
    ensures AlertRollup.RollupOf(rows).resources == AlertRollup.RollupOf(rows').resources
  {
    assert AlertRollup.Resources(rows) == AlertRollup.Resources(rows') by { AlikeKeys(rows, rows'); }
    var m, m' := AlertRollup.RollupOf(rows).resources, AlertRollup.RollupOf(rows').resources;
    assert m.Keys == m'.Keys;
    forall key | key in m ensures m[key] == m'[key] {
      AlikeFirstService(rows, rows', key);
      AlikeBucket(rows, rows', AlertRollup.OfResource(key.0, key.1));
    }
    assert m == m';
  }

  lemma {:induction false} OpenRowsConcat(xs: seq<Alert>, ys: seq<Alert>, now: int, staleMinutes: int)
    ensures OpenRows(xs + ys, now, staleMinutes) == OpenRows(xs, now, staleMinutes) + OpenRows(ys, now, staleMinutes)
  {
    if xs == [] {
      assert xs + ys == ys;
    } else {
      OpenRowsConcat(xs[1..], ys, now, staleMinutes);
      var table, rest := xs + ys, OpenRows(xs[1..], now, staleMinutes) + OpenRows(ys, now, staleMinutes);
      assert table[1..] == xs[1..] + ys && table[0] == xs[0];
      if IsOpen(xs[0]) {
        assert OpenRows(table, now, staleMinutes) == [RowOf(xs[0], now, staleMinutes)] + rest;
      }
    }
  }

  lemma OpenRowsAround(xs: seq<Alert>, a: Alert, ys: seq<Alert>, now: int, staleMinutes: int)
    requires IsOpen(a)
    ensures OpenRows(xs + [a] + ys, now, staleMinutes)
            == OpenRows(xs, now, staleMinutes) + [RowOf(a, now, staleMinutes)] + OpenRows(ys, now, staleMinutes)
  {
    OpenRowsConcat(xs + [a], ys, now, staleMinutes);
    OpenRowsConcat(xs, [a], now, staleMinutes);
    assert [a][1..] == [];
  }

  lemma CountAround(us: seq<AlertRollup.Row>, row: AlertRollup.Row, vs: seq<AlertRollup.Row>, sc: AlertRollup.Scope,
                    k: AlertRollup.Kind)
    ensures AlertRollup.Count(us + [row] + vs, sc, k)
            == AlertRollup.Count(us, sc, k) + AlertRollup.Count(vs, sc, k)
               + (if AlertRollup.Within(row, sc) && AlertRollup.KindOf(row) == Some(k) then 1 else 0)
  {
    AlertConsistency.CountConcat(us + [row], vs, sc, k);
    AlertRollup.CountStep(us, row, sc, k);
  }

  lemma AccountCounts(rows: seq<AlertRollup.Row>, row: AlertRollup.Row, k: AlertRollup.Kind)
    requires row in rows
    ensures row.account in AlertRollup.RollupOf(rows).accounts
    ensures AlertRollup.RollupOf(rows).accounts[row.account].totals.Counted(k)
            == AlertRollup.Count(rows, AlertRollup.OfAccount(row.account), k)
  {
    AlertConsistency.AccountIs(rows, row.account, k);
  }

  /** Whatever the other rows are, changing one open alert that stays on its resource changes the rollup exactly when it
      changes what the alert is counted as. */
  lemma RollupSeesExactlyTheKind(xs: seq<Alert>, a: Alert, b: Alert, ys: seq<Alert>, now: int, staleMinutes: int)
    requires a.account == b.account && a.resourceId == b.resourceId && a.resourceType == b.resourceType && IsOpen(a)
             && IsOpen(b)
    ensures RollupAt(xs + [a] + ys, now, staleMinutes) == RollupAt(xs + [b] + ys, now, staleMinutes) <==>
              AlertRollup.KindOf(RowOf(a, now, staleMinutes)) == AlertRollup.KindOf(RowOf(b, now, staleMinutes))
  {
    var us, vs := OpenRows(xs, now, staleMinutes), OpenRows(ys, now, staleMinutes);
    var p, q := RowOf(a, now, staleMinutes), RowOf(b, now, staleMinutes);
    OpenRowsAround(xs, a, ys, now, staleMinutes);
    OpenRowsAround(xs, b, ys, now, staleMinutes);
    if AlertRollup.KindOf(p) == AlertRollup.KindOf(q) {
      AlikeRollup(us + [p] + vs, us + [q] + vs);
    } else {
      var k := if AlertRollup.KindOf(p).Some? then AlertRollup.KindOf(p).value else AlertRollup.KindOf(q).value;
      KindsCountApart(us, p, q, vs, k);
    }
  }

  lemma KindsCountApart(us: seq<AlertRollup.Row>, p: AlertRollup.Row, q: AlertRollup.Row, vs: seq<AlertRollup.Row>,
                        k: AlertRollup.Kind)
    requires p.account == q.account && (AlertRollup.KindOf(p) == Some(k)) != (AlertRollup.KindOf(q) == Some(k))
    ensures AlertRollup.RollupOf(us + [p] + vs) != AlertRollup.RollupOf(us + [q] + vs)
  {
    CountAround(us, p, vs, AlertRollup.OfAccount(p.account), k);
    CountAround(us, q, vs, AlertRollup.OfAccount(p.account), k);
    assert p in us + [p] + vs && q in us + [q] + vs;
    AccountCounts(us + [p] + vs, p, k);
    AccountCounts(us + [q] + vs, q, k);
  }

  /** The exact theorem for one update of one open alert on its resource, in any table: every schedule of the cache over
      it answers rightly if and only if the update changes the alert's own share of the eleven aggregates, or leaves
      what the alert is counted as. */
  lemma OneRowHistoryExactly(xs: seq<Alert>, a: Alert, b: Alert, ys: seq<Alert>, now: int, staleMinutes: int)
    requires a.id == b.id && a.account == b.account && a.resourceId == b.resourceId && a.resourceType == b.resourceType
    requires IsOpen(a) && IsOpen(b)
    ensures AlertCache.Faithful(SourceAt(now, staleMinutes), [xs + [a] + ys, xs + [b] + ys]) <==>
              || ShareIfOpen(a) != ShareIfOpen(b)
              || AlertRollup.KindOf(RowOf(a, now, staleMinutes)) == AlertRollup.KindOf(RowOf(b, now, staleMinutes))
  {
    OneRowUpdateIsSeenExactly(xs, a, b, ys);
    RollupSeesExactlyTheKind(xs, a, b, ys, now, staleMinutes);
    AlertCache.TwoVersions(SourceAt(now, staleMinutes), xs + [a] + ys, xs + [b] + ys);
  }

  /** What the evaluator does on every cycle of an open alert. */
  function Refreshed(a: Alert, now: int): Alert {
    a.(columns := a.columns.(lastSeenAt := Some(now)))
  }

  /** The fingerprint is documented as changing whenever the state of an open alert does. The refresh of a stale alert
      makes it firing again and leaves the fingerprint as it is: whatever else the table holds, a call made entirely
      after that write can still be answered with the old rollup. */
  lemma RefreshIsServedStale(xs: seq<Alert>, a: Alert, ys: seq<Alert>, now: int, staleMinutes: nat, ttl: int)
    requires ttl > 0 && StateOf(a.columns, now, staleMinutes) == Stale
    ensures StateOf(Refreshed(a, now).columns, now, staleMinutes) == Firing
    ensures var src := SourceAt(now, staleMinutes);
            var h := [xs + [a] + ys, xs + [Refreshed(a, now)] + ys];
            var es := AlertCache.StaleSchedule(h, 0, 0, 1);
            var s := AlertCache.Run(src, ttl, AlertCache.Start(h[0], 0, 1, [0, 0]), es);
            s.hist == h && !AlertCache.Linearizable(src, s)
  {
    var b := Refreshed(a, now);
    OneRowUpdateIsSeenExactly(xs, a, b, ys);
    RollupSeesExactlyTheKind(xs, a, b, ys, now, staleMinutes);
    AlertCache.UnseenWriteIsServedStale(SourceAt(now, staleMinutes), ttl, xs + [a] + ys, xs + [b] + ys);
  }

  // ---- two updates that cancel out -----------------------------------------------------------

  function WithBoth(xs: seq<Alert>, a: Alert, ys: seq<Alert>, b: Alert, zs: seq<Alert>): seq<Alert> {
    xs + [a] + (ys + [b] + zs)
  }

  lemma FingerprintOfTwo(xs: seq<Alert>, a: Alert, ys: seq<Alert>, b: Alert, zs: seq<Alert>)
    ensures FingerprintOf(WithBoth(xs, a, ys, b, zs))
            == Plus(Plus(FingerprintOf(xs), ShareIfOpen(a)),
                    Plus(Plus(FingerprintOf(ys), ShareIfOpen(b)), FingerprintOf(zs)))
  {
    FingerprintAround(xs, a, ys + [b] + zs);
    FingerprintAround(ys, b, zs);
  }

  /** What the evaluator writes to an open alert on a breaching cycle: a CRITICAL alert whose reading is no longer
      critical comes down to what it is now, any other goes up to CRITICAL if it is that now, and one that was
      acknowledged is then active again. */
  function Breached(a: Alert, severity: string, now: int): Alert {
    var up := a.severity != "CRITICAL" && severity == "CRITICAL";
    var status := if up && a.columns.status == Some("acknowledged") then Some("active") else a.columns.status;
    a.(severity := if up || a.severity == "CRITICAL" then severity else a.severity,
       columns := a.columns.(status := status, lastSeenAt := Some(now)))
  }

  /** One alert comes down from CRITICAL to WARNING and another, below CRITICAL, goes up to it. */
  predicate CanSwap(a: Alert, b: Alert) {
    && IsOpen(a) && IsOpen(b) && a.severity == "CRITICAL" && AlertRollup.Upper(b.severity) != "CRITICAL"
  }

  lemma SeveritiesRead()
    ensures AlertRollup.Upper("CRITICAL") == "CRITICAL" && AlertRollup.Upper("WARNING") != "CRITICAL"
  {
    assert AlertRollup.Upper("CRITICAL") == "CRITICAL";
    assert |AlertRollup.Upper("WARNING")| == 7 && |"CRITICAL"| == 8;
  }

  /** Two such writes bring the fingerprint back exactly when the second alert was not acknowledged before. */
  lemma SwapKeepsTheFingerprintExactly(xs: seq<Alert>, a: Alert, ys: seq<Alert>, b: Alert, zs: seq<Alert>, now: int)
    requires CanSwap(a, b)
    ensures var after := WithBoth(xs, Breached(a, "WARNING", now), ys, Breached(b, "CRITICAL", now), zs);
            FingerprintOf(after) == FingerprintOf(WithBoth(xs, a, ys, b, zs)) <==> b.columns.status == Some("active")
  {
    var a', b' := Breached(a, "WARNING", now), Breached(b, "CRITICAL", now);
    var p, q, p', q' := ShareIfOpen(a), ShareIfOpen(b), ShareIfOpen(a'), ShareIfOpen(b');
    var f, g, h := FingerprintOf(xs), FingerprintOf(ys), FingerprintOf(zs);
    FingerprintOfTwo(xs, a, ys, b, zs);
    FingerprintOfTwo(xs, a', ys, b', zs);
    assert p' == p.(critical := 0) && p.critical == 1 && q.critical == 0 by { SeveritiesRead(); }
    assert b.columns.status == Some("active") ==> q' == q.(critical := 1) by { SeveritiesRead(); }
    if b.columns.status != Some("active") {
      assert q'.active == 1 && q.active == 0;
      assert Plus(Plus(f, p), Plus(Plus(g, q), h)).active != Plus(Plus(f, p'), Plus(Plus(g, q'), h)).active;
    }
  }

  lemma CountOfTwo(xs: seq<Alert>, a: Alert, ys: seq<Alert>, b: Alert, zs: seq<Alert>, now: int, staleMinutes: int,
                   sc: AlertRollup.Scope, k: AlertRollup.Kind)
    requires IsOpen(a) && IsOpen(b)
    ensures var p, q := RowOf(a, now, staleMinutes), RowOf(b, now, staleMinutes);
            var rows := OpenRows(WithBoth(xs, a, ys, b, zs), now, staleMinutes);
            && p in rows
            && AlertRollup.Count(rows, sc, k)
               == AlertRollup.Count(OpenRows(xs, now, staleMinutes), sc, k)
                  + AlertRollup.Count(OpenRows(ys, now, staleMinutes), sc, k)
                  + AlertRollup.Count(OpenRows(zs, now, staleMinutes), sc, k)
                  + (if AlertRollup.Within(p, sc) && AlertRollup.KindOf(p) == Some(k) then 1 else 0)
                  + (if AlertRollup.Within(q, sc) && AlertRollup.KindOf(q) == Some(k) then 1 else 0)
  {
    OpenRowsAround(xs, a, ys + [b] + zs, now, staleMinutes);
    OpenRowsAround(ys, b, zs, now, staleMinutes);
    CountAround(OpenRows(xs, now, staleMinutes), RowOf(a, now, staleMinutes),
                OpenRows(ys + [b] + zs, now, staleMinutes), sc, k);
    CountAround(OpenRows(ys, now, staleMinutes), RowOf(b, now, staleMinutes), OpenRows(zs, now, staleMinutes), sc, k);
  }

  lemma ServiceCounts(rows: seq<AlertRollup.Row>, row: AlertRollup.Row, k: AlertRollup.Kind)
    requires row in rows
    ensures var svc := AlertRollup.ServiceOf(row); var accounts := AlertRollup.RollupOf(rows).accounts;
            && row.account in accounts && svc in accounts[row.account].services
            && accounts[row.account].services[svc].Counted(k)
               == AlertRollup.Count(rows, AlertRollup.OfService(row.account, svc), k)
  {
    var svc := AlertRollup.ServiceOf(row);
    assert (row.account, svc) in AlertRollup.Services(rows);
    assert svc in AlertRollup.ServicesOf(rows, row.account);
    AlertConsistency.AccountIs(rows, row.account, k);
    AlertConsistency.CountedIs(rows, AlertRollup.OfService(row.account, svc), k, svc);
  }

  lemma ComesDown(a: Alert, now: int, staleMinutes: int)
    requires a.severity == "CRITICAL" && StateOf(a.columns, now, staleMinutes) == Firing
    ensures AlertRollup.KindOf(RowOf(a, now, staleMinutes)) == Some(AlertRollup.Critical)
    ensures AlertRollup.KindOf(RowOf(Breached(a, "WARNING", now), now, staleMinutes)) != Some(AlertRollup.Critical)
  {
    SeveritiesRead();
  }

  /** The first alert's service loses a firing CRITICAL and gains none. */
  lemma SwapMovesACritical(xs: seq<Alert>, a: Alert, ys: seq<Alert>, b: Alert, zs: seq<Alert>, now: int,
                           staleMinutes: int)
    requires CanSwap(a, b) && StateOf(a.columns, now, staleMinutes) == Firing
    requires (a.account, AlertRollup.ServiceKey(a.resourceType, a.resourceId)) !=
               (b.account, AlertRollup.ServiceKey(b.resourceType, b.resourceId))
    ensures var a', b' := Breached(a, "WARNING", now), Breached(b, "CRITICAL", now);
            var rows := OpenRows(WithBoth(xs, a, ys, b, zs), now, staleMinutes);
            var rows' := OpenRows(WithBoth(xs, a', ys, b', zs), now, staleMinutes);
            var p, p' := RowOf(a, now, staleMinutes), RowOf(a', now, staleMinutes);
            var sc := AlertRollup.OfService(a.account, AlertRollup.ServiceOf(p));
            && p in rows && p' in rows'
            && AlertRollup.Count(rows', sc, AlertRollup.Critical) < AlertRollup.Count(rows, sc, AlertRollup.Critical)
  {
    var a', b' := Breached(a, "WARNING", now), Breached(b, "CRITICAL", now);
    var p, p' := RowOf(a, now, staleMinutes), RowOf(a', now, staleMinutes);
    var sc := AlertRollup.OfService(a.account, AlertRollup.ServiceOf(p));
    ComesDown(a, now, staleMinutes);
    CountOfTwo(xs, a, ys, b, zs, now, staleMinutes, sc, AlertRollup.Critical);
    CountOfTwo(xs, a', ys, b', zs, now, staleMinutes, sc, AlertRollup.Critical);
  }

  lemma SwapChangesTheRollup(xs: seq<Alert>, a: Alert, ys: seq<Alert>, b: Alert, zs: seq<Alert>, now: int,
                             staleMinutes: int)
    requires CanSwap(a, b) && StateOf(a.columns, now, staleMinutes) == Firing
    requires (a.account, AlertRollup.ServiceKey(a.resourceType, a.resourceId)) !=
               (b.account, AlertRollup.ServiceKey(b.resourceType, b.resourceId))
    ensures RollupAt(WithBoth(xs, Breached(a, "WARNING", now), ys, Breached(b, "CRITICAL", now), zs), now, staleMinutes)
            != RollupAt(WithBoth(xs, a, ys, b, zs), now, staleMinutes)
  {
    var a', b' := Breached(a, "WARNING", now), Breached(b, "CRITICAL", now);
    var rows := OpenRows(WithBoth(xs, a, ys, b, zs), now, staleMinutes);
    var rows' := OpenRows(WithBoth(xs, a', ys, b', zs), now, staleMinutes);
    SwapMovesACritical(xs, a, ys, b, zs, now, staleMinutes);
    ServiceCounts(rows, RowOf(a, now, staleMinutes), AlertRollup.Critical);
    ServiceCounts(rows', RowOf(a', now, staleMinutes), AlertRollup.Critical);
  }

  lemma FirstWriteIsSeen(xs: seq<Alert>, a: Alert, ys: seq<Alert>, b: Alert, zs: seq<Alert>, now: int)
    requires CanSwap(a, b)
    ensures FingerprintOf(WithBoth(xs, Breached(a, "WARNING", now), ys, b, zs))
            != FingerprintOf(WithBoth(xs, a, ys, b, zs))
  {
    FingerprintOfTwo(xs, a, ys, b, zs);
    FingerprintOfTwo(xs, Breached(a, "WARNING", now), ys, b, zs);
    SeveritiesRead();
  }

  /** So, in any table with a firing CRITICAL and an active alert below it of another service: the two writes pass
      through a version with another fingerprint, end where the fingerprint was before, and a call made entirely after
      both can be answered with the rollup from before both. */
  lemma SwapIsServedStale(xs: seq<Alert>, a: Alert, ys: seq<Alert>, b: Alert, zs: seq<Alert>, now: int,
                          staleMinutes: int, ttl: int)
    requires ttl > 0 && CanSwap(a, b)
    requires StateOf(a.columns, now, staleMinutes) == Firing && b.columns.status == Some("active")
    requires (a.account, AlertRollup.ServiceKey(a.resourceType, a.resourceId)) !=
               (b.account, AlertRollup.ServiceKey(b.resourceType, b.resourceId))
    ensures var a', b' := Breached(a, "WARNING", now), Breached(b, "CRITICAL", now);
            var src := SourceAt(now, staleMinutes);
            var h := [WithBoth(xs, a, ys, b, zs), WithBoth(xs, a', ys, b, zs), WithBoth(xs, a', ys, b', zs)];
            var es := AlertCache.StaleSchedule(h, 0, 0, 2);
            var s := AlertCache.Run(src, ttl, AlertCache.Start(h[0], 0, 1, [0, 0]), es);
            && FingerprintOf(h[1]) != FingerprintOf(h[0]) && FingerprintOf(h[2]) == FingerprintOf(h[0])
            && s.hist == h && !AlertCache.Linearizable(src, s)
  {
    var a', b' := Breached(a, "WARNING", now), Breached(b, "CRITICAL", now);
    var h := [WithBoth(xs, a, ys, b, zs), WithBoth(xs, a', ys, b, zs), WithBoth(xs, a', ys, b', zs)];
    SwapKeepsTheFingerprintExactly(xs, a, ys, b, zs, now);
    SwapChangesTheRollup(xs, a, ys, b, zs, now, staleMinutes);
    FirstWriteIsSeen(xs, a, ys, b, zs, now);
    AlertCache.StaleScheduleAnswersWrongly(SourceAt(now, staleMinutes), ttl, h, 0, 0, 2);
    assert h[..3] == h;
  }

  // ---- writes to the accounts, which the query does not read -----------------------------------

  /** The alerts, and the accounts that are active: the rollup's rows are joined to these. */
  datatype Site = Site(table: seq<Alert>, active: set<nat>)

  function Visible(table: seq<Alert>, active: set<nat>): seq<Alert> {
    if table == [] then [] else (if table[0].account in active then [table[0]] else []) + Visible(table[1..], active)
  }

  /** With every account active the site is the plain table. */
  lemma {:induction false} AllVisible(table: seq<Alert>, active: set<nat>)
    requires forall a :: a in table ==> a.account in active
    ensures Visible(table, active) == table
  {
    if table != [] { AllVisible(table[1..], active); }
  }

  function SiteSource(now: int, staleMinutes: int): AlertCache.Source<Site, Fingerprint, AlertRollup.Rollup> {
    AlertCache.Source((s: Site) => FingerprintOf(s.table),
                      (s: Site) => RollupAt(Visible(s.table, s.active), now, staleMinutes))
  }

  /** Some open alert's account is active before or after, not both. */
  predicate Uncovers(table: seq<Alert>, active: set<nat>, active': set<nat>) {
    exists a :: a in table && IsOpen(a) && (a.account in active) != (a.account in active')
  }

  lemma {:induction false} VisibleAlike(table: seq<Alert>, active: set<nat>, active': set<nat>, now: int,
                                        staleMinutes: int)
    requires !Uncovers(table, active, active')
    ensures OpenRows(Visible(table, active), now, staleMinutes) == OpenRows(Visible(table, active'), now, staleMinutes)
  {
    if table != [] {
      var first, rest := table[0], table[1..];
      assert forall a :: a in rest ==> a in table;
      VisibleAlike(rest, active, active', now, staleMinutes);
      VisibleFirst(table, active, now, staleMinutes);
      VisibleFirst(table, active', now, staleMinutes);
      assert first in table;
    }
  }

  lemma VisibleFirst(table: seq<Alert>, active: set<nat>, now: int, staleMinutes: int)
    requires table != []
    ensures OpenRows(Visible(table, active), now, staleMinutes)
            == (if IsOpen(table[0]) && table[0].account in active then [RowOf(table[0], now, staleMinutes)] else [])
               + OpenRows(Visible(table[1..], active), now, staleMinutes)
  {
    var rest := Visible(table[1..], active);
    if table[0].account in active {
      assert ([table[0]] + rest)[1..] == rest;
    } else {
      assert [] + rest == rest;
    }
  }

  /** The accounts of the rollup are the active ones with an open alert. */
  lemma {:induction false} RolledUpAccounts(table: seq<Alert>, active: set<nat>, now: int, staleMinutes: int,
                                            account: nat)
    ensures account in AlertRollup.Accounts(OpenRows(Visible(table, active), now, staleMinutes)) <==>
              account in active && exists a :: a in table && IsOpen(a) && a.account == account
  {
    if table != [] {
      var first, rest := table[0], table[1..];
      RolledUpAccounts(rest, active, now, staleMinutes, account);
      VisibleFirst(table, active, now, staleMinutes);
      var rows := OpenRows(Visible(table, active), now, staleMinutes);
      var more := OpenRows(Visible(rest, active), now, staleMinutes);
      assert forall a :: a in table <==> a == first || a in rest;
      assert forall row :: row in rows <==>
          (IsOpen(first) && first.account in active && row == RowOf(first, now, staleMinutes)) || row in more;
      assert IsOpen(first) && first.account in active ==> RowOf(first, now, staleMinutes) in rows;
    }
  }

  /** The exact theorem for a write to the accounts alone, such as taking one out of monitoring: every schedule of the
      cache over it answers rightly if and only if no open alert belongs to an account that the write switches. */
  lemma AccountWriteExactly(table: seq<Alert>, active: set<nat>, active': set<nat>, now: int, staleMinutes: int)
    ensures AlertCache.Faithful(SiteSource(now, staleMinutes), [Site(table, active), Site(table, active')]) <==>
              !Uncovers(table, active, active')
  {
    if Uncovers(table, active, active') {
      SwitchedRollupsDiffer(table, active, active', now, staleMinutes);
    } else {
      VisibleAlike(table, active, active', now, staleMinutes);
    }
    AlertCache.TwoVersions(SiteSource(now, staleMinutes), Site(table, active), Site(table, active'));
  }

  lemma SwitchedRollupsDiffer(table: seq<Alert>, active: set<nat>, active': set<nat>, now: int, staleMinutes: int)
    requires Uncovers(table, active, active')
    ensures RollupAt(Visible(table, active), now, staleMinutes) != RollupAt(Visible(table, active'), now, staleMinutes)
  {
    var a :| a in table && IsOpen(a) && (a.account in active) != (a.account in active');
    RolledUpAccounts(table, active, now, staleMinutes, a.account);
    RolledUpAccounts(table, active', now, staleMinutes, a.account);
    var r := RollupAt(Visible(table, active), now, staleMinutes);
    var r' := RollupAt(Visible(table, active'), now, staleMinutes);
    assert (a.account in r.accounts) != (a.account in r'.accounts);
  }

  /** Otherwise a call made entirely after the write can still be answered with the old rollup. */
  lemma AccountWriteIsServedStale(table: seq<Alert>, active: set<nat>, active': set<nat>, now: int, staleMinutes: int,
                                  ttl: int)
    requires ttl > 0 && Uncovers(table, active, active')
    ensures var src := SiteSource(now, staleMinutes);
            var h := [Site(table, active), Site(table, active')];
            var es := AlertCache.StaleSchedule(h, 0, 0, 1);
            var s := AlertCache.Run(src, ttl, AlertCache.Start(h[0], 0, 1, [0, 0]), es);
            s.hist == h && !AlertCache.Linearizable(src, s)
  {
    SwitchedRollupsDiffer(table, active, active', now, staleMinutes);
    AlertCache.UnseenWriteIsServedStale(SiteSource(now, staleMinutes), ttl, Site(table, active), Site(table, active'));
  }
}
