/** The one rollup every screen reads, and the health ring built on it (app/alert_rules.py). */
module AlertRollup {
  import opened Options
  import opened AlertRules

  datatype Row = Row(account: int, resourceId: string, resourceType: string, severity: Option<string>, state: State)

  /** The six things a row can be counted as. */
  datatype Kind = Critical | Warning | Info | Stale | Acknowledged | Suppressed

  predicate IsFiringKind(k: Kind) {
    k in {Critical, Warning, Info}
  }

  function Upper(s: string): string {
    seq(|s|, i requires 0 <= i < |s| => if 'a' <= s[i] <= 'z' then s[i] - 32 as char else s[i])
  }

  function KindOf(row: Row): Option<Kind> {
    match row.state
    case Firing =>
      var sev := Upper(if row.severity.Some? then row.severity.value else "");
      Some(if sev == "CRITICAL" then Critical else if sev == "WARNING" then Warning else Info)
    case Stale => Some(Kind.Stale)
    case Acknowledged => Some(Kind.Acknowledged)
    case Suppressed => Some(Kind.Suppressed)
    case Resolved => None
  }

  predicate Contains(s: string, part: string) {
    exists i :: 0 <= i <= |s| && part <= s[i..]
  }

  /** normalize_service_key of app/threshold_defaults.py: load balancers are split by their ARN. */
  function ServiceKey(resourceType: string, resourceId: string): string {
    if resourceType == "elb" then
      if Contains(resourceId, "loadbalancer/app/") then "alb"
      else if Contains(resourceId, "loadbalancer/net/") then "nlb"
      else resourceType
    else if resourceType == "ecs" || resourceType == "ecs_service" then "ecs"
    else resourceType
  }

  function ServiceOf(row: Row): string {
    ServiceKey(row.resourceType, row.resourceId)
  }

  // ---- the counters the loop updates -----------------------------------------------------

  datatype Bucket = Bucket(critical: nat, warning: nat, info: nat, stale: nat, acknowledged: nat, suppressed: nat,
                           resources: set<string>, criticalResources: set<string>, warningResources: set<string>)
  {
    function Counted(k: Kind): nat {
      match k
      case Critical => critical
      case Warning => warning
      case Info => info
      case Stale => stale
      case Acknowledged => acknowledged
      case Suppressed => suppressed
    }
  }

  const BLANK := Bucket(0, 0, 0, 0, 0, 0, {}, {}, {})

  function Bump(b: Bucket, k: Kind): Bucket {
    match k
    case Critical => b.(critical := b.critical + 1)
    case Warning => b.(warning := b.warning + 1)
    case Info => b.(info := b.info + 1)
    case Stale => b.(stale := b.stale + 1)
    case Acknowledged => b.(acknowledged := b.acknowledged + 1)
    case Suppressed => b.(suppressed := b.suppressed + 1)
  }

  function Add(b: Bucket, row: Row): Bucket {
    match KindOf(row)
    case None => b
    case Some(k) =>
      var b := Bump(b, k);
      if !IsFiringKind(k) then b else
      b.(resources := b.resources + {row.resourceId},
         criticalResources := b.criticalResources + (if k == Critical then {row.resourceId} else {}),
         warningResources := b.warningResources + (if k == Warning then {row.resourceId} else {}))
  }

  datatype Finished = Finished(critical: nat, warning: nat, info: nat, stale: nat, acknowledged: nat, suppressed: nat,
                               resourcesAffected: nat, criticalResources: nat, warningResources: nat, firing: nat)
  {
    function Counted(k: Kind): nat {
      match k
      case Critical => critical
      case Warning => warning
      case Info => info
      case Stale => stale
      case Acknowledged => acknowledged
      case Suppressed => suppressed
    }
  }

  function Finish(b: Bucket): Finished {
    Finished(b.critical, b.warning, b.info, b.stale, b.acknowledged, b.suppressed,
             |b.resources|, |b.criticalResources|, |b.warningResources|, b.critical + b.warning + b.info)
  }

  datatype Account = Account(totals: Finished, services: map<string, Finished>)

  datatype Worst = WorstCritical | WorstWarning | WorstInfo | NoneFiring

  datatype Resource = Resource(service: string, critical: nat, warning: nat, info: nat, stale: nat, acknowledged: nat,
                               suppressed: nat, worst: Worst, total: nat)
  {
    function Counted(k: Kind): nat {
      match k
      case Critical => critical
      case Warning => warning
      case Info => info
      case Stale => stale
      case Acknowledged => acknowledged
      case Suppressed => suppressed
    }
  }

  function FinishResource(service: string, b: Bucket): Resource {
    Resource(service, b.critical, b.warning, b.info, b.stale, b.acknowledged, b.suppressed,
             if b.critical > 0 then WorstCritical
             else if b.warning > 0 then WorstWarning
             else if b.info > 0 then WorstInfo
             else NoneFiring,
             b.critical + b.warning + b.info)
  }

  datatype Rollup = Rollup(accounts: map<int, Account>, resources: map<(int, string), Resource>)

  // ---- what the numbers mean -------------------------------------------------------------

  /** The three keys a row is counted under. */
  datatype Scope =
    | OfAccount(account: int)
    | OfService(account: int, service: string)
    | OfResource(account: int, resourceId: string)

  predicate Within(row: Row, sc: Scope) {
    && row.account == sc.account
    && match sc
       case OfAccount(_) => true
       case OfService(_, service) => ServiceOf(row) == service
       case OfResource(_, id) => row.resourceId == id
  }

  function Count(rows: seq<Row>, sc: Scope, k: Kind): nat {
    if rows == [] then 0 else
    var last := rows[|rows| - 1];
    Count(rows[..|rows| - 1], sc, k) + (if Within(last, sc) && KindOf(last) == Some(k) then 1 else 0)
  }

  function ResourcesWith(rows: seq<Row>, sc: Scope, kinds: set<Kind>): set<string> {
    set row | row in rows && Within(row, sc) && KindOf(row).Some? && KindOf(row).value in kinds :: row.resourceId
  }

  function BucketOf(rows: seq<Row>, sc: Scope): Bucket {
    Bucket(Count(rows, sc, Critical), Count(rows, sc, Warning), Count(rows, sc, Info), Count(rows, sc, Kind.Stale),
           Count(rows, sc, Kind.Acknowledged), Count(rows, sc, Kind.Suppressed),
           ResourcesWith(rows, sc, {Critical, Warning, Info}), ResourcesWith(rows, sc, {Critical}),
             ResourcesWith(rows, sc, {Warning}))
  }

  function Accounts(rows: seq<Row>): set<int> {
    set row | row in rows :: row.account
  }

  function Services(rows: seq<Row>): set<(int, string)> {
    set row | row in rows :: (row.account, ServiceOf(row))
  }

  function Resources(rows: seq<Row>): set<(int, string)> {
    set row | row in rows :: (row.account, row.resourceId)
  }

  /** The service a resource is listed under: that of its first row. */
  function FirstService(rows: seq<Row>, key: (int, string)): string {
    if rows == [] then ""
    else if (rows[0].account, rows[0].resourceId) == key then ServiceOf(rows[0])
    else FirstService(rows[1..], key)
  }

  function ResourceOf(rows: seq<Row>, key: (int, string)): Resource {
    FinishResource(FirstService(rows, key), BucketOf(rows, OfResource(key.0, key.1)))
  }

  function ServicesOf(rows: seq<Row>, account: int): set<string> {
    set key | key in Services(rows) && key.0 == account :: key.1
  }

  function AccountOf(rows: seq<Row>, a: int): Account {
    Account(Finish(BucketOf(rows, OfAccount(a))),
            map s | s in ServicesOf(rows, a) :: Finish(BucketOf(rows, OfService(a, s))))
  }

  /** The rollup, declaratively: every number is a count of rows. */
  function RollupOf(rows: seq<Row>): Rollup {
    Rollup(map a | a in Accounts(rows) :: AccountOf(rows, a),
           map key | key in Resources(rows) :: ResourceOf(rows, key))
  }

  // ---- the loop computes it --------------------------------------------------------------

  lemma CountStep(rows: seq<Row>, row: Row, sc: Scope, k: Kind)
    ensures Count(rows + [row], sc, k) ==
              Count(rows, sc, k) + if Within(row, sc) && KindOf(row) == Some(k) then 1 else 0
  {
    assert (rows + [row])[..|rows|] == rows;
  }

  lemma BucketStep(rows: seq<Row>, row: Row, sc: Scope)
    ensures BucketOf(rows + [row], sc) == if Within(row, sc) then Add(BucketOf(rows, sc), row) else BucketOf(rows, sc)
  {
    forall k: Kind
      ensures Count(rows + [row], sc, k) ==
                Count(rows, sc, k) + if Within(row, sc) && KindOf(row) == Some(k) then 1 else 0
    {
      CountStep(rows, row, sc, k);
    }
    ResourcesStep(rows, row, sc, {Critical, Warning, Info});
    ResourcesStep(rows, row, sc, {Critical});
    ResourcesStep(rows, row, sc, {Warning});
  }

  lemma ResourcesStep(rows: seq<Row>, row: Row, sc: Scope, kinds: set<Kind>)
    ensures ResourcesWith(rows + [row], sc, kinds) ==
            ResourcesWith(rows, sc, kinds) +
              (if Within(row, sc) && KindOf(row).Some? && KindOf(row).value in kinds then {row.resourceId} else {})
  {
    assert forall r :: r in rows + [row] <==> r in rows || r == row;
  }

  lemma {:induction false} NoRowBlankBucket(rows: seq<Row>, sc: Scope)
    requires forall row :: row in rows ==> !Within(row, sc)
    ensures BucketOf(rows, sc) == BLANK
  {
    forall k: Kind ensures Count(rows, sc, k) == 0 { NoRowNoCount(rows, sc, k); }
  }

  lemma {:induction false} NoRowNoCount(rows: seq<Row>, sc: Scope, k: Kind)
    requires forall row :: row in rows ==> !Within(row, sc)
    ensures Count(rows, sc, k) == 0
  {
    if rows != [] {
      NoRowNoCount(rows[..|rows| - 1], sc, k);
    }
  }

  lemma {:induction false} FirstServiceStep(rows: seq<Row>, row: Row, key: (int, string))
    ensures FirstService(rows + [row], key) ==
            if key in Resources(rows) then FirstService(rows, key)
            else if (row.account, row.resourceId) == key then ServiceOf(row) else ""
    ensures key !in Resources(rows) ==> FirstService(rows, key) == ""
  {
    if rows == [] {
      assert (rows + [row])[1..] == [];
    } else {
      assert (rows + [row])[1..] == rows[1..] + [row];
      assert forall r :: r in rows <==> r == rows[0] || r in rows[1..];
      FirstServiceStep(rows[1..], row, key);
    }
  }

  function AccountBuckets(rows: seq<Row>): map<int, Bucket> {
    map a | a in Accounts(rows) :: BucketOf(rows, OfAccount(a))
  }

  function ServiceBuckets(rows: seq<Row>): map<(int, string), Bucket> {
    map key | key in Services(rows) :: BucketOf(rows, OfService(key.0, key.1))
  }

  function ResourceBuckets(rows: seq<Row>): map<(int, string), (string, Bucket)> {
    map key | key in Resources(rows) :: ResourceEntry(rows, key)
  }

  /** The loop's three updates: a key seen for the first time starts from a blank bucket. */
  function WithAccount(m: map<int, Bucket>, row: Row): map<int, Bucket> {
    m[row.account := Add(if row.account in m then m[row.account] else BLANK, row)]
  }

  function WithService(m: map<(int, string), Bucket>, row: Row): map<(int, string), Bucket> {
    var k := (row.account, ServiceOf(row));
    m[k := Add(if k in m then m[k] else BLANK, row)]
  }

  function WithResource(m: map<(int, string), (string, Bucket)>, row: Row): map<(int, string), (string, Bucket)> {
    var k := (row.account, row.resourceId);
    m[k := if k in m then (m[k].0, Add(m[k].1, row)) else (ServiceOf(row), Add(BLANK, row))]
  }

  lemma MapStep<K, B>(m: map<K, B>, m': map<K, B>, k: K, b: B)
    requires m'.Keys == m.Keys + {k} && m'[k] == b
    requires forall x :: x in m && x != k ==> m'[x] == m[x]
    ensures m' == m[k := b]
  {
  }

  lemma AccountStep(rows: seq<Row>, row: Row)
    ensures AccountBuckets(rows + [row]) == WithAccount(AccountBuckets(rows), row)
  {
    var m, m', k := AccountBuckets(rows), AccountBuckets(rows + [row]), row.account;
    assert forall x :: x in rows + [row] <==> x in rows || x == row;
    assert m'.Keys == m.Keys + {k};
    BucketStep(rows, row, OfAccount(k));
    if k !in m { NoRowBlankBucket(rows, OfAccount(k)); }
    forall x | x in m && x != k ensures m'[x] == m[x] { BucketStep(rows, row, OfAccount(x)); }
    MapStep(m, m', k, Add(if k in m then m[k] else BLANK, row));
  }

  lemma ServiceStep(rows: seq<Row>, row: Row)
    ensures ServiceBuckets(rows + [row]) == WithService(ServiceBuckets(rows), row)
  {
    var m, m', k := ServiceBuckets(rows), ServiceBuckets(rows + [row]), (row.account, ServiceOf(row));
    assert forall x :: x in rows + [row] <==> x in rows || x == row;
    assert m'.Keys == m.Keys + {k};
    BucketStep(rows, row, OfService(k.0, k.1));
    if k !in m { NoRowBlankBucket(rows, OfService(k.0, k.1)); }
    forall x | x in m && x != k ensures m'[x] == m[x] { BucketStep(rows, row, OfService(x.0, x.1)); }
    MapStep(m, m', k, Add(if k in m then m[k] else BLANK, row));
  }

  function ResourceEntry(rows: seq<Row>, key: (int, string)): (string, Bucket) {
    (FirstService(rows, key), BucketOf(rows, OfResource(key.0, key.1)))
  }

  lemma ResourceEntryStep(rows: seq<Row>, row: Row, key: (int, string))
    ensures (row.account, row.resourceId) != key && key in Resources(rows) ==>
              ResourceEntry(rows + [row], key) == ResourceEntry(rows, key)
    ensures (row.account, row.resourceId) == key ==>
              ResourceEntry(rows + [row], key) ==
              if key in Resources(rows) then (ResourceEntry(rows, key).0, Add(ResourceEntry(rows, key).1, row))
              else (ServiceOf(row), Add(BLANK, row))
  {
    BucketStep(rows, row, OfResource(key.0, key.1));
    FirstServiceStep(rows, row, key);
    if key !in Resources(rows) { NoRowBlankBucket(rows, OfResource(key.0, key.1)); }
  }

  lemma ResourceStep(rows: seq<Row>, row: Row)
    ensures ResourceBuckets(rows + [row]) == WithResource(ResourceBuckets(rows), row)
  {
    var m, m', k := ResourceBuckets(rows), ResourceBuckets(rows + [row]), (row.account, row.resourceId);
    assert forall x :: x in rows + [row] <==> x in rows || x == row;
    assert m'.Keys == m.Keys + {k};
    ResourceEntryStep(rows, row, k);
    forall x | x in m && x != k ensures m'[x] == m[x] { ResourceEntryStep(rows, row, x); }
    MapStep(m, m', k, if k in m then (m[k].0, Add(m[k].1, row)) else (ServiceOf(row), Add(BLANK, row)));
  }

  function AssembleAccount(b: Bucket, svc: map<(int, string), Bucket>, a: int): Account {
    Account(Finish(b), map key | key in svc && key.0 == a :: key.1 := Finish(svc[key]))
  }

  /** The second half of the source: turn the accumulated buckets into the answer. */
  function Assemble(acc: map<int, Bucket>, svc: map<(int, string), Bucket>,
                    res: map<(int, string), (string, Bucket)>): Rollup {
    Rollup(map a | a in acc :: AssembleAccount(acc[a], svc, a),
           map key | key in res :: FinishResource(res[key].0, res[key].1))
  }

  lemma AssembleOneAccount(rows: seq<Row>, a: int)
    ensures AssembleAccount(BucketOf(rows, OfAccount(a)), ServiceBuckets(rows), a) == AccountOf(rows, a)
  {
    var svc := ServiceBuckets(rows);
    var m := map key | key in svc && key.0 == a :: key.1 := Finish(svc[key]);
    forall s ensures s in m <==> s in ServicesOf(rows, a) {
      assert s in m <==> (a, s) in svc;
    }
    forall s | s in m ensures m[s] == Finish(BucketOf(rows, OfService(a, s))) {
      assert (a, s) in svc;
    }
  }

  lemma AssembleAccounts(rows: seq<Row>)
    ensures Assemble(AccountBuckets(rows), ServiceBuckets(rows), ResourceBuckets(rows)).accounts ==
              RollupOf(rows).accounts
  {
    var x, y := Assemble(AccountBuckets(rows), ServiceBuckets(rows), ResourceBuckets(rows)).accounts,
      RollupOf(rows).accounts;
    assert x.Keys == y.Keys;
    forall a | a in x.Keys ensures x[a] == y[a] {
      AssembleOneAccount(rows, a);
    }
  }

  lemma AssembleResources(rows: seq<Row>)
    ensures Assemble(AccountBuckets(rows), ServiceBuckets(rows), ResourceBuckets(rows)).resources ==
              RollupOf(rows).resources
  {
    var m := ResourceBuckets(rows);
    var x, y := map key | key in m :: FinishResource(m[key].0, m[key].1), RollupOf(rows).resources;
    assert x.Keys == y.Keys;
    forall key | key in x ensures x[key] == y[key] { assert m[key] == ResourceEntry(rows, key); }
    assert x == y;
  }

  lemma AssembleIsRollup(rows: seq<Row>)
    ensures Assemble(AccountBuckets(rows), ServiceBuckets(rows), ResourceBuckets(rows)) == RollupOf(rows)
  {
    AssembleAccounts(rows);
    AssembleResources(rows);
  }

  lemma StepAt(rows: seq<Row>, n: nat)
    requires n < |rows|
    ensures AccountBuckets(rows[..n + 1]) == WithAccount(AccountBuckets(rows[..n]), rows[n])
    ensures ServiceBuckets(rows[..n + 1]) == WithService(ServiceBuckets(rows[..n]), rows[n])
    ensures ResourceBuckets(rows[..n + 1]) == WithResource(ResourceBuckets(rows[..n]), rows[n])
  {
    assert rows[..n] + [rows[n]] == rows[..n + 1];
    AccountStep(rows[..n], rows[n]);
    ServiceStep(rows[..n], rows[n]);
    ResourceStep(rows[..n], rows[n]);
  }

  method ComputeRollup(rows: seq<Row>) returns (out: Rollup)
    ensures out == RollupOf(rows)
  {
    var accounts: map<int, Bucket> := map[];
    var services: map<(int, string), Bucket> := map[];
    var resources: map<(int, string), (string, Bucket)> := map[];
    for n := 0 to |rows|
      invariant accounts == AccountBuckets(rows[..n])
      invariant services == ServiceBuckets(rows[..n])
      invariant resources == ResourceBuckets(rows[..n])
    {
      StepAt(rows, n);
      accounts := WithAccount(accounts, rows[n]);
      services := WithService(services, rows[n]);
      resources := WithResource(resources, rows[n]);
    }
    assert rows[..|rows|] == rows;
    AssembleIsRollup(rows);
    out := Assemble(accounts, services, resources);
  }
}
