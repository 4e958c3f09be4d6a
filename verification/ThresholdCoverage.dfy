/** Alert coverage and the one-click defaults (app/threshold_coverage.py). */
module ThresholdCoverage {
  import opened Options
  import opened ThresholdLimits

  datatype Entry = Entry(id: nat, account: nat, metric: string, service: string, line: Line, enabled: bool,
                         dynamic: bool)

  /** The shipped defaults, and the base metric of a per-mount name (None for pseudo mounts and other names). */
  datatype Catalog = Catalog(defaults: map<string, Line>, capacityBase: string -> Option<string>)

  datatype State = Alerting | Upgradable | CollectOnly | Disabled

  function Recommended(cat: Catalog, metric: string): (r: Option<Line>)
    ensures r.Some? ==> r.value != PLACEHOLDER
  {
    var base := cat.capacityBase(metric);
    var d :=
      if metric in cat.defaults then Some(cat.defaults[metric])
      else if base.Some? && base.value in cat.defaults then Some(cat.defaults[base.value])
      else None;
    if d.None? || d.value == PLACEHOLDER then None else d
  }

  function Classify(cat: Catalog, r: Entry): State {
    if !r.enabled then Disabled
    else if r.dynamic then Alerting
    else if r.line != PLACEHOLDER then Alerting
    else if Recommended(cat, r.metric).Some? then Upgradable else CollectOnly
  }

  /** An enabled row counts as alerting exactly when the evaluator has a line of its own for it, except for a
      placeholder row switched to dynamic: coverage counts that one as alerting, the evaluator treats it as
      anomaly-only. */
  lemma AlertingMeansALineExactly(cat: Catalog, r: Entry, limits: Row)
    requires r.enabled && limits.line == r.line && limits.useDynamic == r.dynamic
    ensures (Classify(cat, r) == Alerting <==> ThresholdMode(limits) != Anomaly) <==>
              !(r.dynamic && r.line == PLACEHOLDER)
  {
  }

  datatype Change = Change(id: nat, line: Line)

  type Rows = seq<Entry>

  ghost predicate Distinct(rows: Rows) {
    forall i, j :: 0 <= i < j < |rows| ==> rows[i].id != rows[j].id
  }

  // ---- coverage ---------------------------------------------------------------------------------------------

  function Count(cat: Catalog, rows: Rows, account: nat, service: Option<string>, state: State): nat {
    if rows == [] then 0 else
    var r := rows[|rows| - 1];
    Count(cat, rows[..|rows| - 1], account, service, state) +
    if r.account == account && (service.Some? ==> r.service == service.value) && Classify(cat, r) == state then 1 else 0
  }

  function ChangeOf(cat: Catalog, r: Entry, account: nat): seq<Change> {
    if r.account == account && Classify(cat, r) == Upgradable then [Change(r.id, Recommended(cat, r.metric).value)]
    else []
  }

  function Upgrades(cat: Catalog, rows: Rows, account: nat): seq<Change> {
    if rows == [] then [] else
    var r := rows[|rows| - 1];
    Upgrades(cat, rows[..|rows| - 1], account) + ChangeOf(cat, r, account)
  }

  type Tally = map<State, nat>

  const ZERO: Tally := map[Alerting := 0, Upgradable := 0, CollectOnly := 0, Disabled := 0]

  ghost predicate Tallies(cat: Catalog, rows: Rows, account: nat, service: Option<string>, t: Tally) {
    forall s :: s in t && t[s] == Count(cat, rows, account, service, s)
  }

  function TallyOf(byService: map<string, Tally>, service: string): Tally {
    if service in byService then byService[service] else ZERO
  }

  lemma ZeroHasAll()
    ensures forall s :: s in ZERO && ZERO[s] == 0
  {
    forall s ensures s in ZERO && ZERO[s] == 0 {
      match s case Alerting => case Upgradable => case CollectOnly => case Disabled =>
    }
  }

  function BumpTally(t: Tally, state: State): Tally {
    t[state := (if state in t then t[state] else 0) + 1]
  }

  lemma TallyStep(cat: Catalog, rows: Rows, n: nat, account: nat, service: Option<string>, t: Tally)
    requires n < |rows| && Tallies(cat, rows[..n], account, service, t)
    ensures Tallies(cat, rows[..n + 1], account, service,
              if rows[n].account == account && (service.Some? ==> rows[n].service == service.value)
              then BumpTally(t, Classify(cat, rows[n])) else t)
  {
    assert rows[..n + 1][..n] == rows[..n];
    forall s ensures s in t && t[s] == Count(cat, rows[..n], account, service, s) {}
  }

  method Coverage(cat: Catalog, rows: Rows, account: nat)
    returns (totals: Tally, byService: map<string, Tally>, upgradable: seq<Change>)
    ensures Tallies(cat, rows, account, None, totals)
    ensures forall svc :: Tallies(cat, rows, account, Some(svc), TallyOf(byService, svc))
    ensures upgradable == Upgrades(cat, rows, account)
  {
    totals, byService, upgradable := ZERO, map[], [];
    ZeroHasAll();
    for i := 0 to |rows|
      invariant Tallies(cat, rows[..i], account, None, totals)
      invariant forall svc :: Tallies(cat, rows[..i], account, Some(svc), TallyOf(byService, svc))
      invariant upgradable == Upgrades(cat, rows[..i], account)
    {
      var r := rows[i];
      assert rows[..i + 1][..i] == rows[..i];
      TallyStep(cat, rows, i, account, None, totals);
      forall svc
        ensures Tallies(cat, rows[..i + 1], account, Some(svc),
                        if r.account == account && r.service == svc
                        then BumpTally(TallyOf(byService, svc), Classify(cat, r))
                        else TallyOf(byService, svc))
      {
        TallyStep(cat, rows, i, account, Some(svc), TallyOf(byService, svc));
      }
      if r.account == account {
        var state := Classify(cat, r);
        totals := BumpTally(totals, state);
        byService := byService[r.service := BumpTally(TallyOf(byService, r.service), state)];
        if state == Upgradable { upgradable := upgradable + [Change(r.id, Recommended(cat, r.metric).value)]; }
      }
    }
    assert rows[..|rows|] == rows;
  }

  function OfAccount(rows: Rows, account: nat): nat {
    if rows == [] then 0 else
    OfAccount(rows[..|rows| - 1], account) + if rows[|rows| - 1].account == account then 1 else 0
  }

  /** The four states share the account's rows out among themselves. */
  lemma {:induction false} StatesAddUp(cat: Catalog, rows: Rows, account: nat)
    ensures Count(cat, rows, account, None, Alerting) + Count(cat, rows, account, None, Upgradable)
              + Count(cat, rows, account, None, CollectOnly) + Count(cat, rows, account, None, Disabled) ==
                OfAccount(rows, account)
  {
    if rows != [] { StatesAddUp(cat, rows[..|rows| - 1], account); }
  }

  // ---- the upgrade --------------------------------------------------------------------------------------------

  /** One UPDATE, guarded by the placeholder still being there. */
  function UpdateRow(r: Entry, account: nat, c: Change): Entry {
    if r.id == c.id && r.account == account && r.line == PLACEHOLDER then r.(line := c.line) else r
  }

  function Update(rows: Rows, account: nat, c: Change): (r: Rows)
    ensures |r| == |rows| && forall i :: 0 <= i < |rows| ==> r[i] == UpdateRow(rows[i], account, c)
  {
    seq(|rows|, i requires 0 <= i < |rows| => UpdateRow(rows[i], account, c))
  }

  function UpdateAll(rows: Rows, account: nat, cs: seq<Change>): Rows {
    if cs == [] then rows else Update(UpdateAll(rows, account, cs[..|cs| - 1]), account, cs[|cs| - 1])
  }

  /** What the upgrade means, row by row. */
  function UpgradedRow(cat: Catalog, r: Entry, account: nat): Entry {
    if r.account == account && Classify(cat, r) == Upgradable then r.(line := Recommended(cat, r.metric).value) else r
  }

  function Upgraded(cat: Catalog, rows: Rows, account: nat): (r: Rows)
    ensures |r| == |rows| && forall i :: 0 <= i < |rows| ==> r[i] == UpgradedRow(cat, rows[i], account)
  {
    seq(|rows|, i requires 0 <= i < |rows| => UpgradedRow(cat, rows[i], account))
  }

  lemma {:induction false} ChangesAreOfRows(cat: Catalog, rows: Rows, account: nat, c: Change)
    requires c in Upgrades(cat, rows, account)
    ensures exists r :: r in rows && r.id == c.id && r.account == account && Classify(cat, r) == Upgradable
              && c.line == Recommended(cat, r.metric).value
  {
    var r := rows[|rows| - 1];
    if c in Upgrades(cat, rows[..|rows| - 1], account) {
      ChangesAreOfRows(cat, rows[..|rows| - 1], account, c);
      var q :| q in rows[..|rows| - 1] && q.id == c.id && q.account == account && Classify(cat, q) == Upgradable
        && c.line == Recommended(cat, q.metric).value;
      assert q in rows;
    } else {
      assert r in rows;
    }
  }

  /** What a sequence of updates does to one row. */
  function RowAfter(r: Entry, account: nat, cs: seq<Change>): Entry {
    if cs == [] then r else UpdateRow(RowAfter(r, account, cs[..|cs| - 1]), account, cs[|cs| - 1])
  }

  lemma {:induction false} UpdateAllByRow(rows: Rows, account: nat, cs: seq<Change>)
    ensures var t := UpdateAll(rows, account, cs);
            |t| == |rows| && forall i :: 0 <= i < |rows| ==> t[i] == RowAfter(rows[i], account, cs)
  {
    if cs != [] { UpdateAllByRow(rows, account, cs[..|cs| - 1]); }
  }

  lemma RowAfterOneMore(r: Entry, account: nat, cs: seq<Change>, c: Change)
    ensures RowAfter(r, account, cs + [c]) == UpdateRow(RowAfter(r, account, cs), account, c)
  {
    assert (cs + [c])[..|cs|] == cs;
  }

  lemma UpgradesOneMore(cat: Catalog, rows: Rows, account: nat, n: nat)
    requires n < |rows|
    ensures Upgrades(cat, rows[..n + 1], account) == Upgrades(cat, rows[..n], account) + ChangeOf(cat, rows[n], account)
  {
    assert rows[..n + 1][..n] == rows[..n];
  }

  /** The change of row q reaches row r exactly when they are the same row. */
  lemma ChangeReaches(cat: Catalog, r: Entry, q: Entry, account: nat, cs: seq<Change>)
    requires q.id != r.id || (q == r && RowAfter(r, account, cs) == r)
    requires RowAfter(r, account, cs).id == r.id
    ensures RowAfter(r, account, cs + ChangeOf(cat, q, account)) ==
              if q.id == r.id then UpgradedRow(cat, r, account) else RowAfter(r, account, cs)
  {
    if ChangeOf(cat, q, account) == [] {
      assert cs + [] == cs;
    } else {
      RowAfterOneMore(r, account, cs, Change(q.id, Recommended(cat, q.metric).value));
    }
  }

  lemma {:induction false} RowAfterUpgrades(cat: Catalog, rows: Rows, account: nat, i: nat, n: nat)
    requires Distinct(rows) && i < |rows| && n <= |rows|
    ensures RowAfter(rows[i], account, Upgrades(cat, rows[..n], account)) ==
              if i < n then UpgradedRow(cat, rows[i], account) else rows[i]
    decreases n
  {
    if n == 0 {
      assert rows[..0] == [];
    } else {
      RowAfterUpgrades(cat, rows, account, i, n - 1);
      UpgradesOneMore(cat, rows, account, n - 1);
      assert i < n - 1 ==> rows[i].id != rows[n - 1].id;
      assert n - 1 < i ==> rows[n - 1].id != rows[i].id;
      ChangeReaches(cat, rows[i], rows[n - 1], account, Upgrades(cat, rows[..n - 1], account));
    }
  }

  /** Undisturbed, the updates of a coverage reach exactly the upgradable rows. */
  lemma UpdatesReachTheUpgradable(cat: Catalog, rows: Rows, account: nat)
    requires Distinct(rows)
    ensures UpdateAll(rows, account, Upgrades(cat, rows, account)) == Upgraded(cat, rows, account)
  {
    UpdateAllByRow(rows, account, Upgrades(cat, rows, account));
    assert rows[..|rows|] == rows;
    forall i | 0 <= i < |rows|
      ensures RowAfter(rows[i], account, Upgrades(cat, rows, account)) == UpgradedRow(cat, rows[i], account)
    {
      RowAfterUpgrades(cat, rows, account, i, |rows|);
    }
  }

  class ThresholdTable {
    var rows: Rows

    /** `applied` is the number of rows the updates changed. */
    method UpgradePlaceholders(cat: Catalog, account: nat, dryRun: bool) returns (changes: seq<Change>, applied: nat)
      requires Distinct(rows)
      modifies this
      ensures changes == Upgrades(cat, old(rows), account)
      ensures |rows| == |old(rows)| && rows == if dryRun then old(rows) else Upgraded(cat, old(rows), account)
      ensures applied == if dryRun then 0 else Changed(old(rows), rows)
    {
      var totals, byService, upgradable := Coverage(cat, rows, account);
      changes, applied := upgradable, 0;
      if !dryRun {
        UpdatesReachTheUpgradable(cat, rows, account);
        forall c | c in changes ensures c.line != PLACEHOLDER { ChangesAreOfRows(cat, rows, account, c); }
        applied := ApplyChanges(account, changes);
      }
    }

    /** The update loop. */
    method ApplyChanges(account: nat, changes: seq<Change>) returns (applied: nat)
      requires forall c :: c in changes ==> c.line != PLACEHOLDER
      modifies this
      ensures rows == UpdateAll(old(rows), account, changes)
      ensures |rows| == |old(rows)| && applied == Changed(old(rows), rows)
    {
      applied := 0;
      ghost var before := rows;
      NothingChanged(rows);
      for i := 0 to |changes|
        invariant rows == UpdateAll(before, account, changes[..i])
        invariant |rows| == |before| && applied == Changed(before, rows)
        invariant forall j :: 0 <= j < |rows| ==>
                    rows[j] == before[j] || (before[j].line == PLACEHOLDER && rows[j].line != PLACEHOLDER)
      {
        assert changes[..i + 1][..i] == changes[..i];
        var next := Update(rows, account, changes[i]);
        ChangedMore(before, rows, next);
        applied := applied + Changed(rows, next);
        rows := next;
      }
      assert changes[..|changes|] == changes;
    }
  }

  function Changed(rows: Rows, rows': Rows): nat
    requires |rows| == |rows'|
  {
    if rows == [] then 0 else
    Changed(rows[..|rows| - 1], rows'[..|rows| - 1]) + if rows[|rows| - 1] != rows'[|rows| - 1] then 1 else 0
  }

  lemma {:induction false} NothingChanged(rows: Rows)
    ensures Changed(rows, rows) == 0
  {
    if rows != [] { NothingChanged(rows[..|rows| - 1]); }
  }

  /** A row changed once is not changed again. */
  lemma {:induction false} ChangedMore(a: Rows, b: Rows, c: Rows)
    requires |a| == |b| == |c|
    requires forall i :: 0 <= i < |a| ==> a[i] == b[i] || b[i] == c[i]
    requires forall i :: 0 <= i < |a| && a[i] == c[i] ==> a[i] == b[i]
    ensures Changed(a, c) == Changed(a, b) + Changed(b, c)
  {
    if a != [] {
      var n := |a| - 1;
      ChangedMore(a[..n], b[..n], c[..n]);
      assert a[n] == b[n] || b[n] == c[n];
    }
  }

  // ---- what an upgrade leaves behind ------------------------------------------------------------------------------

  lemma UpgradedRowState(cat: Catalog, r: Entry, account: nat)
    requires r.account == account
    ensures var r' := UpgradedRow(cat, r, account);
            Classify(cat, r') == (if Classify(cat, r) == Upgradable then Alerting else Classify(cat, r))
  {
  }

  /** No row is left upgradable, each that was is alerting, and every other count is as it was. */
  lemma {:induction false} UpgradeMovesToAlerting(cat: Catalog, rows: Rows, account: nat, service: Option<string>)
    ensures var rows' := Upgraded(cat, rows, account);
            && Count(cat, rows', account, service, Upgradable) == 0
            && Count(cat, rows', account, service, Alerting) ==
              Count(cat, rows, account, service, Alerting) + Count(cat, rows, account, service, Upgradable)
            && Count(cat, rows', account, service, CollectOnly) == Count(cat, rows, account, service, CollectOnly)
            && Count(cat, rows', account, service, Disabled) == Count(cat, rows, account, service, Disabled)
  {
    if rows != [] {
      var n := |rows| - 1;
      UpgradeMovesToAlerting(cat, rows[..n], account, service);
      assert Upgraded(cat, rows, account)[..n] == Upgraded(cat, rows[..n], account);
      if rows[n].account == account { UpgradedRowState(cat, rows[n], account); }
    }
  }

  lemma {:induction false} NothingUpgradable(cat: Catalog, rows: Rows, account: nat)
    requires Count(cat, rows, account, None, Upgradable) == 0
    ensures Upgrades(cat, rows, account) == []
  {
    if rows != [] { NothingUpgradable(cat, rows[..|rows| - 1], account); }
  }

  /** A second upgrade finds nothing to do. */
  lemma UpgradeTwice(cat: Catalog, rows: Rows, account: nat)
    ensures Upgrades(cat, Upgraded(cat, rows, account), account) == []
    ensures Upgraded(cat, Upgraded(cat, rows, account), account) == Upgraded(cat, rows, account)
  {
    UpgradeMovesToAlerting(cat, rows, account, None);
    NothingUpgradable(cat, Upgraded(cat, rows, account), account);
    var once := Upgraded(cat, rows, account);
    forall i | 0 <= i < |rows| ensures UpgradedRow(cat, once[i], account) == once[i] {
      if rows[i].account == account { UpgradedRowState(cat, rows[i], account); }
    }
  }

  // ---- upgrades while people edit ---------------------------------------------------------------------------------

  /** A run of upgrade_placeholders: the changes of its coverage, taken once, and how many of them it has written. */
  datatype Upgrader = Upgrader(account: nat, changes: seq<Change>, at: nat)

  /** The database numbers new rows upwards; a row keeps its metric. */
  datatype Table = Table(rows: Rows, next: nat, upgraders: seq<Upgrader>)

  datatype Event =
    | SetLine(id: nat, line: Line)
    | SetFlags(id: nat, enabled: bool, dynamic: bool)
    | AddRow(account: nat, metric: string, service: string, line: Line, enabled: bool, dynamic: bool)
    | RemoveRow(id: nat)
    | Snapshot(account: nat)
    | WriteNext(upgrader: nat)

  predicate IsUpgrade(e: Event) {
    e.Snapshot? || e.WriteNext?
  }

  function EditRow(r: Entry, e: Event): Entry {
    match e
    case SetLine(id, line) => if r.id == id then r.(line := line) else r
    case SetFlags(id, enabled, dynamic) => if r.id == id then r.(enabled := enabled, dynamic := dynamic) else r
    case _ => r
  }

  function Edited(rows: Rows, e: Event): (r: Rows)
    ensures |r| == |rows| && forall i :: 0 <= i < |rows| ==> r[i] == EditRow(rows[i], e)
  {
    seq(|rows|, i requires 0 <= i < |rows| => EditRow(rows[i], e))
  }

  function Kept(rows: Rows, id: nat): (r: Rows)
    ensures forall x :: x in r ==> x in rows
  {
    if rows == [] then [] else
    Kept(rows[..|rows| - 1], id) + if rows[|rows| - 1].id != id then [rows[|rows| - 1]] else []
  }

  function Next(cat: Catalog, t: Table, e: Event): Table {
    match e
    case SetLine(_, _) => t.(rows := Edited(t.rows, e))
    case SetFlags(_, _, _) => t.(rows := Edited(t.rows, e))
    case AddRow(account, metric, service, line, enabled, dynamic) =>
      t.(rows := t.rows + [Entry(t.next, account, metric, service, line, enabled, dynamic)], next := t.next + 1)
    case RemoveRow(id) => t.(rows := Kept(t.rows, id))
    case Snapshot(account) => t.(upgraders := t.upgraders + [Upgrader(account, Upgrades(cat, t.rows, account), 0)])
    case WriteNext(u) =>
      if u >= |t.upgraders| || t.upgraders[u].at >= |t.upgraders[u].changes| then t else
      var up := t.upgraders[u];
      t.(rows := Update(t.rows, up.account, up.changes[up.at]), upgraders := t.upgraders[u := up.(at := up.at + 1)])
  }

  function Run(cat: Catalog, t: Table, es: seq<Event>): Table {
    if es == [] then t else Next(cat, Run(cat, t, es[..|es| - 1]), es[|es| - 1])
  }

  /** The people's edits alone. */
  function Edits(es: seq<Event>): seq<Event> {
    if es == [] then [] else Edits(es[..|es| - 1]) + if IsUpgrade(es[|es| - 1]) then [] else [es[|es| - 1]]
  }

  // what every run keeps

  ghost predicate Numbered(t: Table) {
    Distinct(t.rows) && forall r :: r in t.rows ==> r.id < t.next
  }

  /** A pending change carries its row's own default, as long as the row is there. */
  ghost predicate ChangeOk(cat: Catalog, t: Table, account: nat, c: Change) {
    c.id < t.next && forall r ::
      r in t.rows && r.id == c.id && r.account == account ==> Recommended(cat, r.metric) == Some(c.line)
  }

  ghost predicate Inv(cat: Catalog, t: Table) {
    && Numbered(t)
    && forall u :: 0 <= u < |t.upgraders| ==> UpgraderOk(cat, t, t.upgraders[u])
  }

  ghost predicate UpgraderOk(cat: Catalog, t: Table, up: Upgrader) {
    forall c :: c in up.changes ==> ChangeOk(cat, t, up.account, c)
  }

  lemma {:induction false} KeptStaysDistinct(rows: Rows, id: nat)
    requires Distinct(rows)
    ensures Distinct(Kept(rows, id))
  {
    if rows != [] {
      var n := |rows| - 1;
      KeptStaysDistinct(rows[..n], id);
      var k := Kept(rows[..n], id);
      forall i | 0 <= i < |k| ensures k[i].id != rows[n].id {
        assert k[i] in k;
        var j :| 0 <= j < n && rows[j] == k[i];
      }
    }
  }

  lemma NextStaysNumbered(cat: Catalog, t: Table, e: Event)
    requires Numbered(t)
    ensures Numbered(Next(cat, t, e))
  {
    var t' := Next(cat, t, e);
    match e
    case RemoveRow(id) => KeptStaysDistinct(t.rows, id);
    case AddRow(_, _, _, _, _, _) => assert forall i :: 0 <= i < |t.rows| ==> t.rows[i] in t.rows;
    case _ =>
      assert |t'.rows| == |t.rows|
          && forall i :: 0 <= i < |t.rows| ==> t.rows[i] in t.rows && t'.rows[i].id == t.rows[i].id;
  }

  /** Every row was there before with its id, account and metric, or is numbered anew. */
  lemma NextKeepsOrigins(cat: Catalog, t: Table, e: Event, r': Entry)
    requires r' in Next(cat, t, e).rows
    ensures || r'.id == t.next
            || exists r :: r in t.rows && r.id == r'.id && r.account == r'.account && r.metric == r'.metric
  {
    var t' := Next(cat, t, e);
    var i :| 0 <= i < |t'.rows| && t'.rows[i] == r';
    match e
    case RemoveRow(id) => assert r' in t.rows;
    case AddRow(_, _, _, _, _, _) => if i < |t.rows| { assert t.rows[i] in t.rows; }
    case _ => assert t.rows[i] in t.rows;
  }

  lemma NextKeepsChangeOk(cat: Catalog, t: Table, e: Event, account: nat, c: Change)
    requires ChangeOk(cat, t, account, c)
    ensures ChangeOk(cat, Next(cat, t, e), account, c)
  {
    var t' := Next(cat, t, e);
    forall r' | r' in t'.rows && r'.id == c.id && r'.account == account
      ensures Recommended(cat, r'.metric) == Some(c.line)
    {
      NextKeepsOrigins(cat, t, e, r');
    }
  }

  lemma SnapshotIsOk(cat: Catalog, t: Table, account: nat, c: Change)
    requires Numbered(t) && c in Upgrades(cat, t.rows, account)
    ensures ChangeOk(cat, t, account, c)
  {
    ChangesAreOfRows(cat, t.rows, account, c);
    var q :| q in t.rows && q.id == c.id && q.account == account && Classify(cat, q) == Upgradable
             && c.line == Recommended(cat, q.metric).value;
    forall r | r in t.rows && r.id == c.id ensures r == q {
      var i :| 0 <= i < |t.rows| && t.rows[i] == r;
      var j :| 0 <= j < |t.rows| && t.rows[j] == q;
      assert i == j;
    }
  }

  lemma NextKeepsInv(cat: Catalog, t: Table, e: Event)
    requires Inv(cat, t)
    ensures Inv(cat, Next(cat, t, e))
  {
    NextStaysNumbered(cat, t, e);
    var t' := Next(cat, t, e);
    forall u, c | 0 <= u < |t'.upgraders| && c in t'.upgraders[u].changes
      ensures ChangeOk(cat, t', t'.upgraders[u].account, c)
    {
      if u < |t.upgraders| {
        assert UpgraderOk(cat, t, t.upgraders[u]);
      } else {
        SnapshotIsOk(cat, t, e.account, c);
      }
      NextKeepsChangeOk(cat, t, e, t'.upgraders[u].account, c);
    }
  }

  lemma {:induction false} RunKeepsInv(cat: Catalog, t: Table, es: seq<Event>)
    requires Inv(cat, t)
    ensures Inv(cat, Run(cat, t, es))
  {
    if es != [] {
      RunKeepsInv(cat, t, es[..|es| - 1]);
      NextKeepsInv(cat, Run(cat, t, es[..|es| - 1]), es[|es| - 1]);
    }
  }

  // with and without the upgrades

  /** r' is r, or r is exactly the placeholder and r' has instead the default of its own metric. */
  predicate Shadows(cat: Catalog, r: Entry, r': Entry) {
    || r' == r
    || (r.line == PLACEHOLDER && Recommended(cat, r.metric).Some? && r' == r.(line := Recommended(cat, r.metric).value))
  }

  ghost predicate AllShadow(cat: Catalog, rows: Rows, rows': Rows) {
    |rows| == |rows'| && forall i :: 0 <= i < |rows| ==> Shadows(cat, rows[i], rows'[i])
  }

  lemma {:induction false} KeptShadows(cat: Catalog, rows: Rows, rows': Rows, id: nat)
    requires AllShadow(cat, rows, rows')
    ensures AllShadow(cat, Kept(rows, id), Kept(rows', id))
  {
    if rows != [] {
      var n := |rows| - 1;
      KeptShadows(cat, rows[..n], rows'[..n], id);
      assert Shadows(cat, rows[n], rows'[n]);
    }
  }

  lemma EditShadows(cat: Catalog, plain: Table, both: Table, e: Event)
    requires !IsUpgrade(e) && plain.next == both.next && AllShadow(cat, plain.rows, both.rows)
    ensures Next(cat, plain, e).next == Next(cat, both, e).next
    ensures AllShadow(cat, Next(cat, plain, e).rows, Next(cat, both, e).rows)
  {
    if e.RemoveRow? {
      KeptShadows(cat, plain.rows, both.rows, e.id);
    } else {
      assert forall i :: 0 <= i < |plain.rows| ==> Shadows(cat, plain.rows[i], both.rows[i]);
    }
  }

  lemma UpgradeShadows(cat: Catalog, plain: Table, both: Table, e: Event)
    requires IsUpgrade(e) && Inv(cat, both) && plain.next == both.next && AllShadow(cat, plain.rows, both.rows)
    ensures Next(cat, both, e).next == both.next && AllShadow(cat, plain.rows, Next(cat, both, e).rows)
  {
    var both' := Next(cat, both, e);
    if both'.rows != both.rows {
      var up := both.upgraders[e.upgrader];
      var c := up.changes[up.at];
      assert UpgraderOk(cat, both, up) && c in up.changes;
      forall i | 0 <= i < |plain.rows| ensures Shadows(cat, plain.rows[i], both'.rows[i]) {
        assert Shadows(cat, plain.rows[i], both.rows[i]) && both.rows[i] in both.rows;
      }
    }
  }

  /** However edits, additions, removals and any number of upgrade runs interleave, the table is the one the edits alone
      would have made, except that a row whose line is exactly the placeholder there may carry the default of its own
      metric instead: a line that a person chose is never overwritten, and no enabled or dynamic flag is. */
  lemma {:induction false} UpgradesOnlyFillPlaceholders(cat: Catalog, t: Table, es: seq<Event>)
    requires Numbered(t) && t.upgraders == []
    ensures AllShadow(cat, Run(cat, t, Edits(es)).rows, Run(cat, t, es).rows)
    ensures Run(cat, t, Edits(es)).next == Run(cat, t, es).next
  {
    if es != [] {
      var n := |es| - 1;
      var before, e := es[..n], es[n];
      UpgradesOnlyFillPlaceholders(cat, t, before);
      RunKeepsInv(cat, t, before);
      var plain, both := Run(cat, t, Edits(before)), Run(cat, t, before);
      if IsUpgrade(e) {
        assert Edits(es) == Edits(before) + [] == Edits(before);
        UpgradeShadows(cat, plain, both, e);
      } else {
        assert Edits(es) == Edits(before) + [e] && (Edits(before) + [e])[..|Edits(before)|] == Edits(before);
        EditShadows(cat, plain, both, e);
      }
    }
  }

  /** An update looks at the line alone. A row that was switched off, or to dynamic, between the snapshot and its update
      gets its default all the same, and keeps the switches. */
  lemma FlagsDoNotStopAnUpdate(cat: Catalog, t: Table, u: nat, i: nat)
    requires Inv(cat, t) && u < |t.upgraders| && t.upgraders[u].at < |t.upgraders[u].changes| && i < |t.rows|
    requires t.rows[i].id == t.upgraders[u].changes[t.upgraders[u].at].id && t.rows[i].account == t.upgraders[u].account
    requires t.rows[i].line == PLACEHOLDER
    ensures var r, r' := t.rows[i], Next(cat, t, WriteNext(u)).rows[i];
            && Recommended(cat, r.metric).Some? && r' == r.(line := Recommended(cat, r.metric).value)
            && Classify(cat, r') == if r.enabled then Alerting else Disabled
  {
    var up := t.upgraders[u];
    assert UpgraderOk(cat, t, up) && up.changes[up.at] in up.changes && t.rows[i] in t.rows;
  }
}
