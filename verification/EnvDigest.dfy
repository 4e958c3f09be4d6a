/** The weekly digest of unplaced resources (app/env_digest.py): claim the (account, week) row, send, record the
    outcome. */
module EnvDigest {
  import opened Options

  datatype Key = Key(account: nat, week: nat)

  datatype Status = Claimed | Sent | Failed | NoRecipients

  datatype LogRow = LogRow(status: Status, createdAt: int)

  /** One account of a plan: the new items it would list and who would get them. */
  datatype PlanRow = PlanRow(account: nat, items: set<nat>, handled: bool, groupFound: bool, recipients: nat)

  predicate Deliverable(p: PlanRow) {
    p.groupFound && p.recipients > 0
  }

  /** Rows the sender passes over without claiming them. */
  predicate Skipped(p: PlanRow, smtp: bool) {
    p.handled || p.items == {} || (Deliverable(p) && !smtp)
  }

  function OutcomeOf(p: PlanRow, delivered: nat): Status {
    if !Deliverable(p) then NoRecipients else if delivered > 0 then Sent else Failed
  }

  // ---- one undisturbed run -----------------------------------------------------------------

  function Handle(rows: map<Key, LogRow>, week: nat, p: PlanRow, smtp: bool, now: int,
                  delivered: nat): (map<Key, LogRow>, Option<Status>) {
    var key := Key(p.account, week);
    if Skipped(p, smtp) || key in rows then (rows, None)
    else (rows[key := LogRow(OutcomeOf(p, delivered), now)], Some(OutcomeOf(p, delivered)))
  }

  function HandleAll(rows: map<Key, LogRow>, week: nat, plan: seq<PlanRow>, smtp: bool, now: int,
                     delivered: seq<nat>): (map<Key, LogRow>, map<nat, Status>)
    requires |delivered| == |plan|
  {
    if plan == [] then (rows, map[]) else
    var n := |plan| - 1;
    var (rows, results) := HandleAll(rows, week, plan[..n], smtp, now, delivered[..n]);
    var (rows', r) := Handle(rows, week, plan[n], smtp, now, delivered[n]);
    (rows', if r.Some? then results[plan[n].account := r.value] else results)
  }

  class DigestLog {
    var rows: map<Key, LogRow>

    constructor ()
      ensures rows == map[]
    {
      rows := map[];
    }

    /** INSERT IGNORE on the unique (account, week) key. */
    method InsertIgnore(key: Key, now: int) returns (claimed: bool)
      modifies this
      ensures claimed == (key !in old(rows))
      ensures rows == if claimed then old(rows)[key := LogRow(Claimed, now)] else old(rows)
    {
      claimed := key !in rows;
      if claimed { rows := rows[key := LogRow(Claimed, now)]; }
    }

    method Record(key: Key, status: Status)
      requires key in rows
      modifies this
      ensures rows == old(rows)[key := old(rows)[key].(status := status)]
    {
      rows := rows[key := rows[key].(status := status)];
    }

    method SendWeeklyDigest(week: nat, plan: seq<PlanRow>, smtp: bool, now: int, delivered: seq<nat>)
      returns (results: map<nat, Status>)
      requires |delivered| == |plan|
      modifies this
      ensures (rows, results) == HandleAll(old(rows), week, plan, smtp, now, delivered)
    {
      results := map[];
      for n := 0 to |plan|
        invariant (rows, results) == HandleAll(old(rows), week, plan[..n], smtp, now, delivered[..n])
      {
        var p, key := plan[n], Key(plan[n].account, week);
        assert plan[..n + 1][..n] == plan[..n] && delivered[..n + 1][..n] == delivered[..n];
        ghost var before := rows;
        if !Skipped(p, smtp) {
          var claimed := InsertIgnore(key, now);
          if claimed {
            assert rows == before[key := LogRow(Claimed, now)];
            assert rows[key := rows[key].(status := OutcomeOf(p, delivered[n]))] ==
                before[key := LogRow(OutcomeOf(p, delivered[n]), now)];
            Record(key, OutcomeOf(p, delivered[n]));
            results := results[p.account := OutcomeOf(p, delivered[n])];
          }
        }
      }
      assert plan[..|plan|] == plan && delivered[..|plan|] == delivered;
    }
  }

  // ---- any number of runs, interleaved, each of which may die anywhere ---------------------------

  datatype Resource = Resource(account: nat, createdAt: int)

  datatype Stage = Ready | HasClaim | HasSent(delivered: nat)

  /** A run of send_weekly_digest. A restarted process is a new run. */
  datatype Run = Run(week: nat, plannedAt: nat, plan: seq<PlanRow>, at: nat, stage: Stage, dead: bool)

  predicate Active(r: Run) {
    !r.dead && r.at < |r.plan|
  }

  function KeyAt(r: Run, i: nat): Key
    requires i < |r.plan|
  {
    Key(r.plan[i].account, r.week)
  }

  datatype Delivery = Delivery(run: nat, key: Key, items: set<nat>)

  datatype System = System(log: map<Key, LogRow>, claims: map<Key, nat>, resources: map<nat, Resource>,
                           unplaced: set<nat>, clock: nat, runs: seq<Run>, sends: seq<Delivery>)

  datatype Event =
    | Tick(elapsed: nat)
    | Discover(id: nat, account: nat)
    | Reclassify(unplaced: set<nat>)
    | Plan(plan: seq<PlanRow>)
    | Claim(run: nat, smtp: bool)
    | Deliver(run: nat, delivered: nat)
    | RecordOutcome(run: nat)
    | Crash(run: nat)

  const WEEK: nat := 7 * 86400
  const FIRST_WINDOW: nat := 7 * 86400
  const LIST_FETCH := 200

  /** The week key of a time; the clock counts seconds from the start of some week. */
  function WeekOf(now: nat): nat {
    now / WEEK
  }

  ghost predicate SentFor(s: System, k: Key, account: nat) {
    k in s.log && k.account == account && s.log[k].status == Sent
  }

  /** created_at > since, where since is the newest row recorded as sent, or seven days ago when there is none. */
  ghost predicate IsNew(s: System, account: nat, r: Resource) {
    && r.account == account
    && (forall k :: SentFor(s, k, account) ==> r.createdAt > s.log[k].createdAt)
    && ((forall k :: !SentFor(s, k, account)) ==> r.createdAt > s.clock - FIRST_WINDOW)
  }

  /** What build_plan may return: it reads one snapshot; of more than 200 new items any 200 may be listed here. */
  ghost predicate ValidPlan(s: System, plan: seq<PlanRow>) {
    && (forall i, j :: 0 <= i < j < |plan| ==> plan[i].account != plan[j].account)
    && forall i :: 0 <= i < |plan| ==>
         && plan[i].handled == (Key(plan[i].account, WeekOf(s.clock)) in s.log)
         && (forall id :: id in plan[i].items ==>
             id in s.resources && id in s.unplaced && IsNew(s, plan[i].account, s.resources[id]))
         && |plan[i].items| <= LIST_FETCH
         && (|plan[i].items| < LIST_FETCH ==>
               forall id :: id in s.resources && id in s.unplaced && IsNew(s, plan[i].account, s.resources[id]) ==>
                 id in plan[i].items)
  }

  function SetRun(s: System, n: nat, r: Run): System
    requires n < |s.runs|
  {
    s.(runs := s.runs[n := r])
  }

  /** An event that cannot happen in a state changes nothing. */
  ghost function Next(s: System, e: Event): System {
    match e
    case Tick(elapsed) => s.(clock := s.clock + elapsed)
    case Discover(id, account) =>
      if id in s.resources then s
      else s.(resources := s.resources[id := Resource(account, s.clock)], unplaced := s.unplaced + {id})
    case Reclassify(unplaced) => s.(unplaced := unplaced)
    case Plan(plan) =>
      if ValidPlan(s, plan) then s.(runs := s.runs + [Run(WeekOf(s.clock), s.clock, plan, 0, Ready, false)]) else s
    case Claim(n, smtp) =>
      if n >= |s.runs| || !Active(s.runs[n]) || s.runs[n].stage != Ready then s else
      var r := s.runs[n];
      var key := KeyAt(r, r.at);
      if Skipped(r.plan[r.at], smtp) || key in s.log then SetRun(s, n, r.(at := r.at + 1))
      else SetRun(s.(log := s.log[key := LogRow(Claimed, s.clock)], claims := s.claims[key := n]), n,
                  r.(stage := HasClaim))
    case Deliver(n, delivered) =>
      if n >= |s.runs| || !Active(s.runs[n]) || s.runs[n].stage != HasClaim then s else
      var r := s.runs[n];
      var p := r.plan[r.at];
      var s' := if Deliverable(p) then s.(sends := s.sends + [Delivery(n, KeyAt(r, r.at), p.items)]) else s;
      SetRun(s', n, r.(stage := HasSent(delivered)))
    case RecordOutcome(n) =>
      if n >= |s.runs| || !Active(s.runs[n]) || !s.runs[n].stage.HasSent? then s else
      var r := s.runs[n];
      if KeyAt(r, r.at) !in s.log then s else
      var key := KeyAt(r, r.at);
      SetRun(s.(log := s.log[key := s.log[key].(status := OutcomeOf(r.plan[r.at], r.stage.delivered))]), n,
             r.(at := r.at + 1, stage := Ready))
    case Crash(n) => if n < |s.runs| then SetRun(s, n, s.runs[n].(dead := true)) else s
  }

  ghost function RunAll(s: System, es: seq<Event>): System
    decreases |es|
  {
    if es == [] then s else RunAll(Next(s, es[0]), es[1..])
  }

  const START := System(map[], map[], map[], {}, 0, [], [])

  // ---- what every run keeps -----------------------------------------------------------------

  ghost predicate ItemsBy(s: System, account: nat, items: set<nat>, t: int) {
    forall id :: id in items ==>
      id in s.resources && s.resources[id].account == account && s.resources[id].createdAt <= t
  }

  ghost predicate PlanOk(s: System, r: Run) {
    && r.plannedAt <= s.clock && r.week == WeekOf(r.plannedAt) && r.at <= |r.plan|
    && (forall i, j :: 0 <= i < j < |r.plan| ==> r.plan[i].account != r.plan[j].account)
    && (forall i :: 0 <= i < |r.plan| ==> ItemsBy(s, r.plan[i].account, r.plan[i].items, r.plannedAt))
  }

  /** A run between claim and record owns its row. */
  ghost predicate StageOk(s: System, n: nat, r: Run) {
    r.stage != Ready ==>
      && r.at < |r.plan|
      && var key := KeyAt(r, r.at);
         && key in s.log && s.log[key].status == Claimed && r.plannedAt <= s.log[key].createdAt
         && key in s.claims && s.claims[key] == n
         && (r.stage == HasClaim ==> forall i :: 0 <= i < |s.sends| ==> s.sends[i].key != key)
         && (r.stage.HasSent? && Deliverable(r.plan[r.at]) ==> Delivery(n, key, r.plan[r.at].items) in s.sends)
  }

  ghost predicate DeliveryOk(s: System, d: Delivery) {
    d.key in s.log && d.key in s.claims && s.claims[d.key] == d.run
      && ItemsBy(s, d.key.account, d.items, s.log[d.key].createdAt)
  }

  ghost predicate Inv(s: System) {
    && (forall id :: id in s.resources ==> s.resources[id].createdAt <= s.clock)
    && (forall n :: 0 <= n < |s.runs| ==> PlanOk(s, s.runs[n]) && StageOk(s, n, s.runs[n]))
    && s.claims.Keys == s.log.Keys
    && (forall d :: d in s.sends ==> DeliveryOk(s, d))
    && (forall i, j :: 0 <= i < j < |s.sends| ==> s.sends[i].key != s.sends[j].key)
    && (forall k :: k in s.log && s.log[k].status == Sent ==> exists d :: d in s.sends && d.key == k)
  }

  /** Time passes and resources are never renumbered. */
  ghost predicate Grows(s: System, s': System) {
    s.clock <= s'.clock && forall id :: id in s.resources ==> id in s'.resources && s'.resources[id] == s.resources[id]
  }

  lemma PlanKept(s: System, s': System, r: Run, r': Run)
    requires PlanOk(s, r) && Grows(s, s') && r'.plan == r.plan && r'.plannedAt == r.plannedAt && r'.week == r.week
    requires r'.at <= |r.plan|
    ensures PlanOk(s', r')
  {
    forall i | 0 <= i < |r.plan| ensures ItemsBy(s', r.plan[i].account, r.plan[i].items, r.plannedAt) {
      assert ItemsBy(s, r.plan[i].account, r.plan[i].items, r.plannedAt);
    }
  }

  lemma DeliveryKept(s: System, s': System, d: Delivery)
    requires DeliveryOk(s, d) && Grows(s, s')
    requires d.key in s'.log && s'.log[d.key].createdAt == s.log[d.key].createdAt && d.key in s'.claims
             && s'.claims[d.key] == s.claims[d.key]
    ensures DeliveryOk(s', d)
  {
  }

  lemma QuietKeepsInv(s: System, e: Event)
    requires Inv(s) && (e.Tick? || e.Discover? || e.Reclassify?)
    ensures Inv(Next(s, e))
  {
    var s' := Next(s, e);
    assert Grows(s, s') && s'.runs == s.runs && s'.log == s.log && s'.claims == s.claims && s'.sends == s.sends;
    forall n | 0 <= n < |s'.runs| ensures PlanOk(s', s'.runs[n]) && StageOk(s', n, s'.runs[n]) {
      PlanKept(s, s', s.runs[n], s.runs[n]);
      assert StageOk(s, n, s.runs[n]);
    }
    forall d | d in s'.sends ensures DeliveryOk(s', d) { DeliveryKept(s, s', d); }
  }

  lemma CrashKeepsInv(s: System, n: nat)
    requires Inv(s)
    ensures Inv(Next(s, Crash(n)))
  {
    var s' := Next(s, Crash(n));
    forall m | 0 <= m < |s'.runs| ensures PlanOk(s', s'.runs[m]) && StageOk(s', m, s'.runs[m]) {
      PlanKept(s, s', s.runs[m], s'.runs[m]);
      assert StageOk(s, m, s.runs[m]);
    }
    forall d | d in s'.sends ensures DeliveryOk(s', d) { DeliveryKept(s, s', d); }
  }

  lemma PlanKeepsInv(s: System, plan: seq<PlanRow>)
    requires Inv(s)
    ensures Inv(Next(s, Plan(plan)))
  {
    var s' := Next(s, Plan(plan));
    forall n | 0 <= n < |s'.runs| ensures PlanOk(s', s'.runs[n]) && StageOk(s', n, s'.runs[n]) {
      if n < |s.runs| {
        PlanKept(s, s', s.runs[n], s.runs[n]);
        assert StageOk(s, n, s.runs[n]);
      }
    }
    forall d | d in s'.sends ensures DeliveryOk(s', d) { DeliveryKept(s, s', d); }
  }

  lemma ClaimKeepsInv(s: System, n: nat, smtp: bool)
    requires Inv(s)
    ensures Inv(Next(s, Claim(n, smtp)))
  {
    var s' := Next(s, Claim(n, smtp));
    if s' != s {
      var key := KeyAt(s.runs[n], s.runs[n].at);
      forall d | d in s'.sends ensures DeliveryOk(s', d) { DeliveryKept(s, s', d); }
      forall m | 0 <= m < |s'.runs| ensures PlanOk(s', s'.runs[m]) && StageOk(s', m, s'.runs[m]) {
        PlanKept(s, s', s.runs[m], s'.runs[m]);
        assert StageOk(s, m, s.runs[m]);
        if m == n && s'.runs[n].stage == HasClaim { ClaimIsUnsent(s, key); }
      }
    }
  }

  lemma ClaimIsUnsent(s: System, key: Key)
    requires Inv(s) && key !in s.log
    ensures forall i :: 0 <= i < |s.sends| ==> s.sends[i].key != key
  {
    forall i | 0 <= i < |s.sends|
      ensures s.sends[i].key != key
    {
      assert s.sends[i] in s.sends && DeliveryOk(s, s.sends[i]);
    }
  }

  lemma DeliverKeepsRuns(s: System, n: nat, delivered: nat)
    requires Inv(s)
    ensures var s' := Next(s, Deliver(n, delivered));
            forall m :: 0 <= m < |s'.runs| ==> PlanOk(s', s'.runs[m]) && StageOk(s', m, s'.runs[m])
  {
    var s' := Next(s, Deliver(n, delivered));
    if s' != s {
      var r := s.runs[n];
      assert StageOk(s, n, r);
      if Deliverable(r.plan[r.at]) { assert s'.sends[|s.sends|] == Delivery(n, KeyAt(r, r.at), r.plan[r.at].items); }
      forall m | 0 <= m < |s'.runs| ensures PlanOk(s', s'.runs[m]) && StageOk(s', m, s'.runs[m]) {
        PlanKept(s, s', s.runs[m], s'.runs[m]);
        assert StageOk(s, m, s.runs[m]);
      }
    }
  }

  lemma DeliverKeepsInv(s: System, n: nat, delivered: nat)
    requires Inv(s)
    ensures Inv(Next(s, Deliver(n, delivered)))
  {
    var s' := Next(s, Deliver(n, delivered));
    DeliverKeepsRuns(s, n, delivered);
    if s' != s {
      var r := s.runs[n];
      var d0 := Delivery(n, KeyAt(r, r.at), r.plan[r.at].items);
      assert PlanOk(s, r) && StageOk(s, n, r);
      assert forall d :: d in s'.sends ==> d in s.sends || d == d0;
      forall d | d in s'.sends ensures DeliveryOk(s', d) {
        if d in s.sends { DeliveryKept(s, s', d); }
      }
      forall k | k in s'.log && s'.log[k].status == Sent ensures exists d :: d in s'.sends && d.key == k {
        var d :| d in s.sends && d.key == k;
        assert d in s'.sends;
      }
    }
  }

  lemma RecordKeepsInv(s: System, n: nat)
    requires Inv(s)
    ensures Inv(Next(s, RecordOutcome(n)))
  {
    var s' := Next(s, RecordOutcome(n));
    if s' != s {
      var r := s.runs[n];
      var key := KeyAt(r, r.at);
      assert PlanOk(s, r) && StageOk(s, n, r);
      forall m | 0 <= m < |s'.runs| ensures PlanOk(s', s'.runs[m]) && StageOk(s', m, s'.runs[m]) {
        PlanKept(s, s', s.runs[m], s'.runs[m]);
        assert StageOk(s, m, s.runs[m]);
      }
      forall d | d in s'.sends ensures DeliveryOk(s', d) { DeliveryKept(s, s', d); }
      forall k | k in s'.log && s'.log[k].status == Sent ensures exists d :: d in s'.sends && d.key == k {
        if k == key { assert Delivery(n, key, r.plan[r.at].items) in s'.sends; }
      }
    }
  }

  lemma NextKeepsInv(s: System, e: Event)
    requires Inv(s)
    ensures Inv(Next(s, e))
  {
    match e
    case Plan(plan) => PlanKeepsInv(s, plan);
    case Claim(n, smtp) => ClaimKeepsInv(s, n, smtp);
    case Deliver(n, delivered) => DeliverKeepsInv(s, n, delivered);
    case RecordOutcome(n) => RecordKeepsInv(s, n);
    case Crash(n) => CrashKeepsInv(s, n);
    case _ => QuietKeepsInv(s, e);
  }

  lemma {:induction false} RunKeepsInv(s: System, es: seq<Event>)
    requires Inv(s)
    ensures Inv(RunAll(s, es))
    decreases |es|
  {
    if es != [] {
      NextKeepsInv(s, es[0]);
      RunKeepsInv(Next(s, es[0]), es[1..]);
    }
  }

  /** Over every interleaving, with crashes anywhere: a given account and week is sent by one run at most, once at most;
      and what is recorded as sent was sent. */
  lemma SentAtMostOnce(es: seq<Event>)
    ensures var s := RunAll(START, es);
            && (forall i, j :: 0 <= i < j < |s.sends| ==> s.sends[i].key != s.sends[j].key)
            && (forall k :: k in s.log && s.log[k].status == Sent ==> exists d :: d in s.sends && d.key == k)
  {
    RunKeepsInv(START, es);
  }

  // ---- when two weeks repeat an item -----------------------------------------------------------

  /** A row that goes out to somebody when its turn comes. */
  predicate Sends(p: PlanRow) {
    !p.handled && p.items != {} && Deliverable(p)
  }

  /** Run n, unfinished, may still record row i of its plan as sent. */
  predicate StillToSend(s: System, n: int, i: int) {
    && 0 <= n < |s.runs| && !s.runs[n].dead && s.runs[n].at <= i < |s.runs[n].plan|
    && var r := s.runs[n];
       if i == r.at && r.stage != Ready then Deliverable(r.plan[i]) && (r.stage.HasSent? ==> r.stage.delivered > 0)
       else Sends(r.plan[i]) && KeyAt(r, i) !in s.log
  }

  /** No unfinished run of another week still has to send, for the same account, an item that this plan would also
      send. */
  ghost predicate SafePlan(s: System, plan: seq<PlanRow>) {
    forall n, i, j :: StillToSend(s, n, i) && s.runs[n].week != WeekOf(s.clock) && 0 <= j < |plan| && Sends(plan[j])
                      && plan[j].account == s.runs[n].plan[i].account ==>
      plan[j].items !! s.runs[n].plan[i].items
  }

  ghost predicate Safe(s: System, e: Event) {
    e.Plan? && ValidPlan(s, e.plan) ==> SafePlan(s, e.plan)
  }

  ghost predicate SafeRun(s: System, es: seq<Event>)
    decreases |es|
  {
    es == [] || (Safe(s, es[0]) && SafeRun(Next(s, es[0]), es[1..]))
  }

  ghost predicate BothSent(s: System, d: Delivery, d': Delivery) {
    d in s.sends && d' in s.sends && d.key != d'.key && SentFor(s, d.key, d.key.account)
      && SentFor(s, d'.key, d.key.account)
  }

  ghost predicate SentDisjoint(s: System) {
    forall d, d' :: BothSent(s, d, d') ==> d.items !! d'.items
  }

  ghost predicate IsSent(s: System, d: Delivery) {
    d in s.sends && SentFor(s, d.key, d.key.account)
  }

  /** Two runs may both still send for one account, in different weeks. */
  ghost predicate Rivals(s: System, n: int, i: int, m: int, j: int) {
    && StillToSend(s, n, i) && StillToSend(s, m, j)
    && s.runs[n].week != s.runs[m].week && s.runs[n].plan[i].account == s.runs[m].plan[j].account
  }

  /** Run n may still send for the account of a digest that another week has sent. */
  ghost predicate Follows(s: System, n: int, i: int, d: Delivery) {
    StillToSend(s, n, i) && IsSent(s, d) && d.key.week != s.runs[n].week && d.key.account == s.runs[n].plan[i].account
  }

  /** Nothing that is sent or may still be sent meets anything else of the account. */
  ghost predicate Apart(s: System) {
    && Inv(s)
    && (forall n, i, m, j :: Rivals(s, n, i, m, j) ==> s.runs[n].plan[i].items !! s.runs[m].plan[j].items)
    && (forall n, i, d :: Follows(s, n, i, d) ==> s.runs[n].plan[i].items !! d.items)
    && SentDisjoint(s)
  }

  /** Nothing new may be sent, and nothing new is sent. */
  ghost predicate Shrinks(s: System, s': System) {
    && |s'.runs| == |s.runs|
    && (forall n :: 0 <= n < |s.runs| ==> s'.runs[n].week == s.runs[n].week && s'.runs[n].plan == s.runs[n].plan)
    && (forall n, i :: StillToSend(s', n, i) ==> StillToSend(s, n, i))
    && (forall d :: IsSent(s', d) ==> IsSent(s, d))
  }

  lemma ShrinkingKeepsApart(s: System, s': System)
    requires Apart(s) && Inv(s') && Shrinks(s, s')
    ensures Apart(s')
  {
    forall n, i, m, j | Rivals(s', n, i, m, j) ensures s'.runs[n].plan[i].items !! s'.runs[m].plan[j].items {
      assert Rivals(s, n, i, m, j);
    }
    forall n, i, d | Follows(s', n, i, d) ensures s'.runs[n].plan[i].items !! d.items { assert Follows(s, n, i, d); }
    forall d, d' | BothSent(s', d, d') ensures d.items !! d'.items {
      assert IsSent(s', d) && IsSent(s', d');
      assert BothSent(s, d, d');
    }
  }

  lemma QuietShrinks(s: System, e: Event)
    requires Inv(s) && (e.Tick? || e.Discover? || e.Reclassify? || e.Crash?)
    ensures Shrinks(s, Next(s, e))
  {
  }

  lemma ClaimShrinks(s: System, n: nat, smtp: bool)
    requires Inv(s)
    ensures Shrinks(s, Next(s, Claim(n, smtp)))
  {
    var s' := Next(s, Claim(n, smtp));
    if s' != s {
      forall m, i | StillToSend(s', m, i) ensures StillToSend(s, m, i) { assert PlanOk(s, s.runs[m]); }
    }
  }

  lemma DeliverShrinks(s: System, n: nat, delivered: nat)
    requires Inv(s)
    ensures Shrinks(s, Next(s, Deliver(n, delivered)))
  {
    var s' := Next(s, Deliver(n, delivered));
    if s' != s {
      assert StageOk(s, n, s.runs[n]);
      assert forall d :: d in s'.sends ==> d in s.sends || d.key == KeyAt(s.runs[n], s.runs[n].at);
    }
  }

  lemma PlanKeepsApart(s: System, plan: seq<PlanRow>)
    requires Apart(s) && ValidPlan(s, plan) && SafePlan(s, plan)
    ensures Apart(Next(s, Plan(plan)))
  {
    PlanKeepsInv(s, plan);
    var s' := Next(s, Plan(plan));
    var w := |s.runs|;
    forall n, i | StillToSend(s', n, i) && n != w ensures StillToSend(s, n, i) && s'.runs[n] == s.runs[n] {}
    forall j | StillToSend(s', w, j) ensures Sends(plan[j]) && s'.runs[w].plan == plan {}
    forall n, i, m, j | Rivals(s', n, i, m, j) ensures s'.runs[n].plan[i].items !! s'.runs[m].plan[j].items {
      if n != w && m != w { assert Rivals(s, n, i, m, j); }
    }
    forall n, i, d | Follows(s', n, i, d) ensures s'.runs[n].plan[i].items !! d.items {
      assert IsSent(s, d);
      if n != w { assert Follows(s, n, i, d); } else { NewIsUnsent(s, plan, i, d); }
    }
    forall d, d' | BothSent(s', d, d') ensures d.items !! d'.items { assert BothSent(s, d, d'); }
  }

  /** What a plan lists is newer than every digest recorded as sent for the account, so that one lists none of it. */
  lemma NewIsUnsent(s: System, plan: seq<PlanRow>, i: nat, d: Delivery)
    requires Inv(s) && ValidPlan(s, plan) && i < |plan| && IsSent(s, d) && d.key.account == plan[i].account
    ensures plan[i].items !! d.items
  {
    assert DeliveryOk(s, d);
    forall id | id in plan[i].items ensures id !in d.items {
      assert IsNew(s, plan[i].account, s.resources[id]);
      assert SentFor(s, d.key, plan[i].account);
    }
  }

  lemma RecordSends(s: System, n: nat, d: Delivery)
    requires Inv(s) && IsSent(Next(s, RecordOutcome(n)), d) && !IsSent(s, d)
    ensures n < |s.runs| && StillToSend(s, n, s.runs[n].at)
    ensures d == Delivery(n, KeyAt(s.runs[n], s.runs[n].at), s.runs[n].plan[s.runs[n].at].items)
  {
    var s' := Next(s, RecordOutcome(n));
    var r := s.runs[n];
    assert StageOk(s, n, r);
    var d0 := Delivery(n, KeyAt(r, r.at), r.plan[r.at].items);
    assert d.key == d0.key && d0 in s.sends;
    SameKeySameDelivery(s, d, d0);
  }

  lemma SameKeySameDelivery(s: System, d: Delivery, d': Delivery)
    requires Inv(s) && d in s.sends && d' in s.sends && d.key == d'.key
    ensures d == d'
  {
    var i :| 0 <= i < |s.sends| && s.sends[i] == d;
    var j :| 0 <= j < |s.sends| && s.sends[j] == d';
    assert i == j;
  }

  lemma RecordShrinksPlans(s: System, n: nat)
    requires Inv(s)
    ensures var s' := Next(s, RecordOutcome(n));
            && |s'.runs| == |s.runs|
            && (forall m :: 0 <= m < |s.runs| ==>
                s'.runs[m].week == s.runs[m].week && s'.runs[m].plan == s.runs[m].plan)
            && (forall m, i :: StillToSend(s', m, i) ==> StillToSend(s, m, i))
  {
  }

  lemma RecordKeepsApart(s: System, n: nat)
    requires Apart(s)
    ensures Apart(Next(s, RecordOutcome(n)))
  {
    RecordKeepsInv(s, n);
    RecordShrinksPlans(s, n);
    var s' := Next(s, RecordOutcome(n));
    forall m, i, w, j | Rivals(s', m, i, w, j) ensures s'.runs[m].plan[i].items !! s'.runs[w].plan[j].items {
      assert Rivals(s, m, i, w, j);
    }
    forall m, i, d | Follows(s', m, i, d) ensures s'.runs[m].plan[i].items !! d.items {
      if IsSent(s, d) {
        assert Follows(s, m, i, d);
      } else {
        RecordSends(s, n, d);
        assert Rivals(s, m, i, n, s.runs[n].at);
      }
    }
    forall d, d' | BothSent(s', d, d') ensures d.items !! d'.items {
      assert IsSent(s', d) && IsSent(s', d');
      RecordedMeetsNothing(s, n, d, d');
    }
  }

  lemma RecordedMeetsNothing(s: System, n: nat, d: Delivery, d': Delivery)
    requires Apart(s) && BothSent(Next(s, RecordOutcome(n)), d, d')
    ensures d.items !! d'.items
  {
    var s' := Next(s, RecordOutcome(n));
    assert IsSent(s', d) && IsSent(s', d');
    if IsSent(s, d) && IsSent(s, d') {
      assert BothSent(s, d, d');
    } else if IsSent(s, d) {
      RecordSends(s, n, d');
      assert Follows(s, n, s.runs[n].at, d);
    } else {
      RecordSends(s, n, d);
      if !IsSent(s, d') { RecordSends(s, n, d'); }
      assert Follows(s, n, s.runs[n].at, d');
    }
  }

  lemma NextKeepsApart(s: System, e: Event)
    requires Apart(s) && Safe(s, e)
    ensures Apart(Next(s, e))
  {
    NextKeepsInv(s, e);
    match e
    case Plan(plan) => if ValidPlan(s, plan) { PlanKeepsApart(s, plan); }
    case RecordOutcome(n) => RecordKeepsApart(s, n);
    case Claim(n, smtp) =>
      ClaimShrinks(s, n, smtp);
      ShrinkingKeepsApart(s, Next(s, e));
    case Deliver(n, delivered) =>
      DeliverShrinks(s, n, delivered);
      ShrinkingKeepsApart(s, Next(s, e));
    case _ =>
      QuietShrinks(s, e);
      ShrinkingKeepsApart(s, Next(s, e));
  }

  lemma {:induction false} RunKeepsApart(s: System, es: seq<Event>)
    requires Apart(s) && SafeRun(s, es)
    ensures Apart(RunAll(s, es))
    decreases |es|
  {
    if es != [] {
      NextKeepsApart(s, es[0]);
      RunKeepsApart(Next(s, es[0]), es[1..]);
    }
  }

  /** In every run whose plans are all safe, the digests recorded as sent for one account list pairwise disjoint
      items. */
  lemma SafePlansSendDisjointDigests(es: seq<Event>)
    requires SafeRun(START, es)
    ensures SentDisjoint(RunAll(START, es))
  {
    RunKeepsApart(START, es);
  }

  /** A run of one week is planned only when no run of another week is still at work. */
  ghost predicate NoOverlap(s: System, e: Event) {
    e.Plan? ==> forall n :: 0 <= n < |s.runs| && Active(s.runs[n]) ==> s.runs[n].week == WeekOf(s.clock)
  }

  ghost predicate NoOverlapRun(s: System, es: seq<Event>)
    decreases |es|
  {
    es == [] || (NoOverlap(s, es[0]) && NoOverlapRun(Next(s, es[0]), es[1..]))
  }

  lemma {:induction false} NoOverlapIsSafe(s: System, es: seq<Event>)
    requires NoOverlapRun(s, es)
    ensures SafeRun(s, es)
    decreases |es|
  {
    if es != [] {
      assert Safe(s, es[0]) by {
        assert forall n, i :: StillToSend(s, n, i) ==> Active(s.runs[n]);
      }
      NoOverlapIsSafe(Next(s, es[0]), es[1..]);
    }
  }

  /** When runs of different weeks do not overlap, the digests recorded as sent for one account list pairwise disjoint
      items. */
  lemma SentDigestsAreDisjoint(es: seq<Event>, d: Delivery, d': Delivery)
    requires NoOverlapRun(START, es) && BothSent(RunAll(START, es), d, d')
    ensures d.items !! d'.items
  {
    NoOverlapIsSafe(START, es);
    SafePlansSendDisjointDigests(es);
  }

  // ---- safe plans are exactly those that cannot repeat an item -----------------------------------

  ghost predicate NoPlans(es: seq<Event>) {
    forall k :: 0 <= k < |es| ==> !es[k].Plan?
  }

  lemma {:induction false} NoPlansIsSafe(s: System, es: seq<Event>)
    requires NoPlans(es)
    ensures SafeRun(s, es)
    decreases |es|
  {
    if es != [] {
      assert forall k :: 0 <= k < |es[1..]| ==> es[1..][k] == es[k + 1];
      NoPlansIsSafe(Next(s, es[0]), es[1..]);
    }
  }

  lemma {:induction false} RunConcat(s: System, es: seq<Event>, fs: seq<Event>)
    ensures RunAll(s, es + fs) == RunAll(RunAll(s, es), fs)
    decreases |es|
  {
    if es == [] {
      assert es + fs == fs;
    } else {
      assert (es + fs)[1..] == es[1..] + fs;
      RunConcat(Next(s, es[0]), es[1..], fs);
    }
  }

  /** Run n goes on by itself from row `from` to row `upto`: other runs, other weeks' rows and what was delivered
      stay. */
  ghost predicate Passed(s: System, s': System, n: nat, upto: nat)
    requires n < |s.runs|
  {
    && s'.runs == s.runs[n := s.runs[n].(at := upto, stage := Ready)]
    && (forall k: Key :: k.week != s.runs[n].week ==>
        (k in s'.log <==> k in s.log) && (k in s.log ==> s'.log[k] == s.log[k]))
    && (forall i :: upto <= i < |s.runs[n].plan| ==> (KeyAt(s.runs[n], i) in s'.log <==> KeyAt(s.runs[n], i) in s.log))
    && (forall d :: d in s.sends ==> d in s'.sends)
  }

  ghost predicate RowIsSent(s: System, n: nat, r: Run, i: nat)
    requires i < |r.plan|
  {
    var key := KeyAt(r, i);
    key in s.log && s.log[key].status == Sent && Delivery(n, key, r.plan[i].items) in s.sends
  }

  /** The three steps of one row. A row that is passed over takes only the first; the others find nothing to do. */
  function RowSteps(n: nat, smtp: bool, delivered: nat): seq<Event> {
    [Claim(n, smtp), Deliver(n, delivered), RecordOutcome(n)]
  }

  ghost function Three(s: System, n: nat, smtp: bool, delivered: nat): System {
    Next(Next(Next(s, Claim(n, smtp)), Deliver(n, delivered)), RecordOutcome(n))
  }

  lemma ThreeSteps(s: System, n: nat, smtp: bool, delivered: nat, es: seq<Event>)
    requires |es| >= 3 && es[..3] == RowSteps(n, smtp, delivered)
    ensures RunAll(s, es) == RunAll(Three(s, n, smtp, delivered), es[3..])
  {
    var s1 := Next(s, es[0]);
    var s2 := Next(s1, es[1]);
    var s3 := Next(s2, es[2]);
    assert es[0] == es[..3][0] && es[1] == es[..3][1] && es[2] == es[..3][2];
    assert es[1..][1..] == es[2..] && es[2..][1..] == es[3..];
    assert RunAll(s2, es[2..]) == RunAll(s3, es[3..]);
    assert RunAll(s1, es[1..]) == RunAll(s2, es[2..]);
  }

  lemma RowPassedOver(s: System, n: nat, smtp: bool, delivered: nat)
    requires n < |s.runs| && Active(s.runs[n]) && s.runs[n].stage == Ready
    requires var r := s.runs[n]; Skipped(r.plan[r.at], smtp) || KeyAt(r, r.at) in s.log
    ensures Three(s, n, smtp, delivered) == SetRun(s, n, s.runs[n].(at := s.runs[n].at + 1))
  {
  }

  lemma RowClaimed(s: System, n: nat, smtp: bool, delivered: nat)
    requires n < |s.runs| && Active(s.runs[n]) && s.runs[n].stage == Ready
    requires var r := s.runs[n]; !Skipped(r.plan[r.at], smtp) && KeyAt(r, r.at) !in s.log
    ensures var r := s.runs[n]; var p, key := r.plan[r.at], KeyAt(r, r.at); var s' := Three(s, n, smtp, delivered);
            && s'.log == s.log[key := LogRow(OutcomeOf(p, delivered), s.clock)]
            && s'.sends == s.sends + (if Deliverable(p) then [Delivery(n, key, p.items)] else [])
            && s'.clock == s.clock && s'.resources == s.resources && s'.runs == s.runs[n := r.(at := r.at + 1)]
  {
    var r, s1 := s.runs[n], Next(s, Claim(n, smtp));
    var p, key := r.plan[r.at], KeyAt(r, r.at);
    var s2 := Next(s1, Deliver(n, delivered));
    assert s1.log == s.log[key := LogRow(Claimed, s.clock)] && s1.runs == s.runs[n := r.(stage := HasClaim)];
    assert s2.log == s1.log && s2.runs == s.runs[n := r.(stage := HasSent(delivered))];
  }

  /** A row that is claimed already takes only the last of the steps. */
  lemma RowFinished(s: System, n: nat)
    requires Inv(s) && n < |s.runs| && Active(s.runs[n]) && s.runs[n].stage != Ready
    ensures RowDone(s, n, Three(s, n, true, 1))
  {
    var r := s.runs[n];
    assert PlanOk(s, r) && StageOk(s, n, r) && Next(s, Claim(n, true)) == s;
    var s1 := Next(s, Deliver(n, 1));
    if r.stage == HasClaim {
      assert s1.runs == s.runs[n := r.(stage := HasSent(1))] && s1.log == s.log;
    } else {
      assert s1 == s;
    }
    assert Next(s1, RecordOutcome(n)).runs == s.runs[n := r.(at := r.at + 1, stage := Ready)];
  }

  /** Run n has gone on by one row, and sent it if it still had to. */
  ghost predicate RowDone(s: System, n: nat, s': System)
    requires n < |s.runs| && Active(s.runs[n])
  {
    var r := s.runs[n];
    Passed(s, s', n, r.at + 1) && (StillToSend(s, n, r.at) ==> RowIsSent(s', n, r, r.at))
  }

  lemma PassRow(s: System, n: nat)
    requires Inv(s) && n < |s.runs| && Active(s.runs[n])
    ensures RowDone(s, n, Three(s, n, true, 1))
  {
    var r, s' := s.runs[n], Three(s, n, true, 1);
    if r.stage != Ready {
      RowFinished(s, n);
    } else if Skipped(r.plan[r.at], true) || KeyAt(r, r.at) in s.log {
      RowPassedOver(s, n, true, 1);
    } else {
      var p, key := r.plan[r.at], KeyAt(r, r.at);
      assert && s'.log == s.log[key := LogRow(OutcomeOf(p, 1), s.clock)]
             && s'.sends == s.sends + (if Deliverable(p) then [Delivery(n, key, p.items)] else [])
             && s'.runs == s.runs[n := r.(at := r.at + 1)] by { RowClaimed(s, n, true, 1); }
      forall i | r.at + 1 <= i < |r.plan| ensures KeyAt(r, i) != key { assert PlanOk(s, r); }
    }
  }

  lemma {:induction false} PassTo(s: System, n: nat, i: nat) returns (fs: seq<Event>)
    requires Inv(s) && StillToSend(s, n, i)
    ensures NoPlans(fs) && Passed(s, RunAll(s, fs), n, i + 1) && RowIsSent(RunAll(s, fs), n, s.runs[n], i)
    decreases i - s.runs[n].at
  {
    var r, first := s.runs[n], RowSteps(n, true, 1);
    assert RowDone(s, n, RunAll(s, first)) by {
      PassRow(s, n);
      ThreeSteps(s, n, true, 1, first);
      assert first[3..] == [];
    }
    if r.at == i {
      fs := first;
    } else {
      var s1 := RunAll(s, first);
      RunKeepsInv(s, first);
      assert s1.runs[n] == r.(at := r.at + 1, stage := Ready);
      var rest := PassTo(s1, n, i);
      fs := first + rest;
      RunConcat(s, first, rest);
      forall j | i + 1 <= j < |r.plan| ensures KeyAt(r, j) in RunAll(s, fs).log <==> KeyAt(r, j) in s.log {
        assert KeyAt(s1.runs[n], j) == KeyAt(r, j);
      }
    }
  }

  /** The exact condition on one plan, in any state that safe runs reach: a plan is safe if and only if no safe run that
      goes on from it ever records two digests with a common item as sent for one account. */
  lemma PlanIsSafeExactly(s: System, plan: seq<PlanRow>)
    requires Apart(s) && ValidPlan(s, plan)
    ensures SafePlan(s, plan) <==>
              forall fs :: SafeRun(Next(s, Plan(plan)), fs) ==> SentDisjoint(RunAll(Next(s, Plan(plan)), fs))
  {
    var s1 := Next(s, Plan(plan));
    if SafePlan(s, plan) {
      PlanKeepsApart(s, plan);
      forall fs | SafeRun(s1, fs) ensures SentDisjoint(RunAll(s1, fs)) { RunKeepsApart(s1, fs); }
    } else {
      var n, i, j :| StillToSend(s, n, i) && s.runs[n].week != WeekOf(s.clock) && 0 <= j < |plan| && Sends(plan[j])
                     && plan[j].account == s.runs[n].plan[i].account && !(plan[j].items !! s.runs[n].plan[i].items);
      UnsafePlanRepeats(s, plan, n, i, j);
    }
  }

  lemma UnsafePlanRepeats(s: System, plan: seq<PlanRow>, n: nat, i: nat, j: nat)
    requires Inv(s) && ValidPlan(s, plan) && StillToSend(s, n, i) && s.runs[n].week != WeekOf(s.clock)
    requires j < |plan| && Sends(plan[j]) && plan[j].account == s.runs[n].plan[i].account
    requires !(plan[j].items !! s.runs[n].plan[i].items)
    ensures exists fs :: SafeRun(Next(s, Plan(plan)), fs) && !SentDisjoint(RunAll(Next(s, Plan(plan)), fs))
  {
    var s1 := Next(s, Plan(plan));
    PlanKeepsInv(s, plan);
    var m := |s.runs|;
    assert s1.runs[n] == s.runs[n] && s1.runs[m].plan == plan;
    assert StillToSend(s1, n, i) && StillToSend(s1, m, j);
    var es := PassTo(s1, n, i);
    var s2 := RunAll(s1, es);
    RunKeepsInv(s1, es);
    assert s2.runs[m] == s1.runs[m] && StillToSend(s2, m, j);
    var gs := PassTo(s2, m, j);
    var s3 := RunAll(s2, gs);
    RunConcat(s1, es, gs);
    var fs := es + gs;
    NoPlansIsSafe(s1, fs);
    var r, q := s1.runs[n], s1.runs[m];
    var d, d' := Delivery(n, KeyAt(r, i), r.plan[i].items), Delivery(m, KeyAt(q, j), plan[j].items);
    assert RowIsSent(s2, n, r, i) && RowIsSent(s3, m, q, j);
    assert s3.log[d.key] == s2.log[d.key];
    assert BothSent(s3, d, d');
    assert SafeRun(Next(s, Plan(plan)), fs) && !SentDisjoint(RunAll(Next(s, Plan(plan)), fs));
  }

  // ---- what falls between a plan and its record is never listed -----------------------------------

  /** Runs of other weeks were planned before an unfinished one; and each run was planned before the run that a sent
      digest belongs to, or lists only what is newer than that digest. */
  ghost predicate InOrder(s: System) {
    && Inv(s)
    && PlannedInOrder(s)
    && (forall k :: k in s.claims ==> s.claims[k] < |s.runs| && s.runs[s.claims[k]].week == k.week)
    && (forall d :: d in s.sends ==> FromItsPlan(s, d))
    && (forall m, k: Key :: 0 <= m < |s.runs| && SentFor(s, k, k.account) && k.week != s.runs[m].week ==>
        PlannedAround(s, s.runs[m], k))
  }

  ghost predicate PlannedInOrder(s: System) {
    forall n, m :: 0 <= n < |s.runs| && 0 <= m < |s.runs| && Active(s.runs[n]) && s.runs[m].week != s.runs[n].week ==>
      s.runs[m].plannedAt <= s.runs[n].plannedAt
  }

  ghost predicate FromItsPlan(s: System, d: Delivery) {
    && d.run < |s.runs| && s.runs[d.run].week == d.key.week
    && exists i :: 0 <= i < |s.runs[d.run].plan| && s.runs[d.run].plan[i].account == d.key.account
         && s.runs[d.run].plan[i].items == d.items
  }

  ghost predicate PlannedAround(s: System, r: Run, k: Key) {
    && k in s.log && k in s.claims && s.claims[k] < |s.runs|
    && (|| r.plannedAt <= s.runs[s.claims[k]].plannedAt
        || forall i :: 0 <= i < |r.plan| && r.plan[i].account == k.account ==>
          NewerThan(s, r.plan[i].items, s.log[k].createdAt))
  }

  ghost predicate NewerThan(s: System, items: set<nat>, t: int) {
    forall id :: id in items ==> id in s.resources && s.resources[id].createdAt > t
  }

  /** Nothing is planned, nobody newly active, and rows and deliveries are kept. */
  ghost predicate Continues(s: System, s': System) {
    && |s'.runs| == |s.runs|
    && (forall n :: 0 <= n < |s.runs| ==>
          && s'.runs[n].week == s.runs[n].week && s'.runs[n].plan == s.runs[n].plan
          && s'.runs[n].plannedAt == s.runs[n].plannedAt
          && (Active(s'.runs[n]) ==> Active(s.runs[n])))
    && (forall id :: id in s.resources ==> id in s'.resources && s'.resources[id] == s.resources[id])
    && (forall k :: k in s.claims ==> k in s'.claims && s'.claims[k] == s.claims[k])
    && (forall k :: k in s.log ==> k in s'.log && s'.log[k].createdAt == s.log[k].createdAt)
  }

  lemma ClaimContinues(s: System, n: nat, smtp: bool)
    requires Inv(s)
    ensures Continues(s, Next(s, Claim(n, smtp)))
  {
  }

  lemma RecordContinues(s: System, n: nat)
    requires Inv(s)
    ensures Continues(s, Next(s, RecordOutcome(n)))
  {
  }

  lemma DeliverContinues(s: System, n: nat, delivered: nat)
    requires Inv(s)
    ensures Continues(s, Next(s, Deliver(n, delivered)))
  {
  }

  lemma EventContinues(s: System, e: Event)
    requires Inv(s) && !e.Plan?
    ensures Continues(s, Next(s, e))
  {
    match e
    case Claim(n, smtp) => ClaimContinues(s, n, smtp);
    case RecordOutcome(n) => RecordContinues(s, n);
    case Deliver(n, delivered) => DeliverContinues(s, n, delivered);
    case _ =>
  }

  lemma PlannedAroundKept(s: System, s': System, m: nat, k: Key)
    requires Continues(s, s') && m < |s.runs| && PlannedAround(s, s.runs[m], k)
    ensures PlannedAround(s', s'.runs[m], k)
  {
    var r := s.runs[m];
    if r.plannedAt > s.runs[s.claims[k]].plannedAt {
      forall i | 0 <= i < |r.plan| && r.plan[i].account == k.account
        ensures NewerThan(s', r.plan[i].items, s'.log[k].createdAt)
      {
        assert NewerThan(s, r.plan[i].items, s.log[k].createdAt);
      }
    }
  }

  lemma ClaimsKept(s: System, e: Event)
    requires InOrder(s) && !e.Plan?
    ensures var s' := Next(s, e);
            forall k :: k in s'.claims ==> s'.claims[k] < |s'.runs| && s'.runs[s'.claims[k]].week == k.week
  {
    EventContinues(s, e);
  }

  lemma DeliveriesKept(s: System, e: Event, d: Delivery)
    requires InOrder(s) && !e.Plan? && d in Next(s, e).sends
    ensures FromItsPlan(Next(s, e), d)
  {
    EventContinues(s, e);
    var s' := Next(s, e);
    if d in s.sends {
      assert FromItsPlan(s, d);
    } else {
      var r := s.runs[e.run];
      assert StageOk(s, e.run, r) && d == Delivery(e.run, KeyAt(r, r.at), r.plan[r.at].items);
      assert s'.runs[e.run].plan[r.at].items == d.items;
    }
  }

  /** When a digest is recorded as sent, its run is unfinished. */
  lemma NewlySent(s: System, e: Event, k: Key)
    requires Inv(s) && !e.Plan? && SentFor(Next(s, e), k, k.account) && !SentFor(s, k, k.account)
    ensures e.RecordOutcome? && e.run < |s.runs| && Active(s.runs[e.run]) && k in s.claims && s.claims[k] == e.run
    ensures k in s.log && k.week == s.runs[e.run].week
  {
    assert e.RecordOutcome?;
    assert StageOk(s, e.run, s.runs[e.run]);
  }

  lemma ContinuesInOrder(s: System, s': System)
    requires Continues(s, s') && PlannedInOrder(s)
    ensures PlannedInOrder(s')
  {
  }

  lemma EventKeepsAround(s: System, e: Event, m: nat, k: Key)
    requires InOrder(s) && !e.Plan? && m < |s.runs| && Continues(s, Next(s, e))
    requires SentFor(Next(s, e), k, k.account) && k.week != s.runs[m].week
    ensures PlannedAround(Next(s, e), Next(s, e).runs[m], k)
  {
    if !SentFor(s, k, k.account) {
      NewlySent(s, e, k);
      assert s.runs[m].plannedAt <= s.runs[e.run].plannedAt;
    }
    assert PlannedAround(s, s.runs[m], k);
    PlannedAroundKept(s, Next(s, e), m, k);
  }

  lemma EventKeepsOrder(s: System, e: Event)
    requires InOrder(s) && !e.Plan?
    ensures InOrder(Next(s, e))
  {
    var s' := Next(s, e);
    NextKeepsInv(s, e);
    EventContinues(s, e);
    ClaimsKept(s, e);
    ContinuesInOrder(s, s');
    forall d | d in s'.sends ensures FromItsPlan(s', d) { DeliveriesKept(s, e, d); }
    forall m, k: Key | 0 <= m < |s'.runs| && SentFor(s', k, k.account) && k.week != s'.runs[m].week
      ensures PlannedAround(s', s'.runs[m], k)
    {
      EventKeepsAround(s, e, m, k);
    }
  }

  lemma PlanKeepsAround(s: System, plan: seq<PlanRow>, m: nat, k: Key)
    requires InOrder(s) && ValidPlan(s, plan) && m <= |s.runs| && SentFor(s, k, k.account)
    requires m < |s.runs| ==> k.week != s.runs[m].week
    ensures var s' := Next(s, Plan(plan)); PlannedAround(s', s'.runs[m], k)
  {
    var s' := Next(s, Plan(plan));
    if m < |s.runs| {
      assert PlannedAround(s, s.runs[m], k);
      assert s'.runs[m] == s.runs[m] && s'.runs[s.claims[k]] == s.runs[s.claims[k]];
    } else {
      NewPlanIsNewer(s, plan, k);
    }
  }

  lemma PlanIsLast(s: System, plan: seq<PlanRow>)
    requires InOrder(s) && NoOverlap(s, Plan(plan))
    ensures PlannedInOrder(Next(s, Plan(plan)))
  {
    forall n | 0 <= n < |s.runs| ensures s.runs[n].plannedAt <= s.clock { assert PlanOk(s, s.runs[n]); }
  }

  lemma PlanKeepsOrder(s: System, plan: seq<PlanRow>)
    requires InOrder(s) && NoOverlap(s, Plan(plan))
    ensures InOrder(Next(s, Plan(plan)))
  {
    PlanKeepsInv(s, plan);
    PlanIsLast(s, plan);
    var s' := Next(s, Plan(plan));
    if s' == s { return; }
    forall d | d in s'.sends ensures FromItsPlan(s', d) { assert FromItsPlan(s, d); }
    forall m, k: Key | 0 <= m < |s'.runs| && SentFor(s', k, k.account) && k.week != s'.runs[m].week
      ensures PlannedAround(s', s'.runs[m], k)
    {
      assert SentFor(s, k, k.account);
      PlanKeepsAround(s, plan, m, k);
    }
  }

  lemma NewPlanIsNewer(s: System, plan: seq<PlanRow>, k: Key)
    requires ValidPlan(s, plan) && SentFor(s, k, k.account)
    ensures forall i :: 0 <= i < |plan| && plan[i].account == k.account ==>
              NewerThan(s, plan[i].items, s.log[k].createdAt)
  {
    forall i | 0 <= i < |plan| && plan[i].account == k.account ensures NewerThan(s, plan[i].items, s.log[k].createdAt) {
      forall id | id in plan[i].items ensures s.resources[id].createdAt > s.log[k].createdAt {
        assert IsNew(s, plan[i].account, s.resources[id]) && SentFor(s, k, plan[i].account);
      }
    }
  }

  lemma {:induction false} RunKeepsOrder(s: System, es: seq<Event>)
    requires InOrder(s) && NoOverlapRun(s, es)
    ensures InOrder(RunAll(s, es))
    decreases |es|
  {
    if es != [] {
      if es[0].Plan? { PlanKeepsOrder(s, es[0].plan); } else { EventKeepsOrder(s, es[0]); }
      RunKeepsOrder(Next(s, es[0]), es[1..]);
    }
  }

  /** A resource of a sent digest's account that is no newer than the digest's row. */
  ghost predicate Covered(s: System, d: Delivery, id: nat) {
    && IsSent(s, d) && d.run < |s.runs|
    && id in s.resources && s.resources[id].account == d.key.account
    && s.resources[id].createdAt <= s.log[d.key].createdAt
  }

  /** The resource appeared after the digest's run had planned and no later than the digest's row was inserted. */
  ghost predicate Missed(s: System, d: Delivery, id: nat) {
    Covered(s, d, id) && s.runs[d.run].plannedAt < s.resources[id].createdAt
  }

  lemma SentStaysSent(s: System, e: Event, d: Delivery)
    requires Inv(s) && IsSent(s, d)
    ensures IsSent(Next(s, e), d)
  {
    if e.RecordOutcome? && e.run < |s.runs| { assert StageOk(s, e.run, s.runs[e.run]); }
  }

  /** All that `Covered` and `Missed` look at. */
  ghost function Facts(s: System, d: Delivery, id: nat): (bool, Option<nat>, Option<Resource>, Option<int>) {
    (IsSent(s, d),
     if d.run < |s.runs| then Some(s.runs[d.run].plannedAt) else None,
     if id in s.resources then Some(s.resources[id]) else None,
     if d.key in s.log then Some(s.log[d.key].createdAt) else None)
  }

  lemma NextKeepsFacts(s: System, e: Event, d: Delivery, id: nat)
    requires Inv(s) && Covered(s, d, id)
    ensures Facts(Next(s, e), d, id) == Facts(s, d, id)
  {
    SentStaysSent(s, e, d);
    if !e.Plan? { EventContinues(s, e); }
  }

  lemma {:induction false} RunKeepsFacts(s: System, es: seq<Event>, d: Delivery, id: nat)
    requires Inv(s) && Covered(s, d, id)
    ensures Facts(RunAll(s, es), d, id) == Facts(s, d, id)
    decreases |es|
  {
    if es != [] {
      NextKeepsInv(s, es[0]);
      NextKeepsFacts(s, es[0], d, id);
      RunKeepsFacts(Next(s, es[0]), es[1..], d, id);
    }
  }

  lemma CoveredIsUnlisted(s: System, d: Delivery, id: nat, d': Delivery)
    requires InOrder(s) && Covered(s, d, id) && d' in s.sends && d'.key.account == d.key.account
    requires d'.run < |s.runs| && s.runs[d'.run].plannedAt > s.runs[d.run].plannedAt
    ensures id !in d'.items
  {
    assert FromItsPlan(s, d') && DeliveryOk(s, d);
    if d'.key == d.key {
      SameKeySameDelivery(s, d, d');
    } else {
      var r := s.runs[d'.run];
      var i :| 0 <= i < |r.plan| && r.plan[i].account == d'.key.account && r.plan[i].items == d'.items;
      assert PlannedAround(s, r, d.key);
      assert NewerThan(s, r.plan[i].items, s.log[d.key].createdAt);
    }
  }

  lemma MissedIsUnlisted(s: System, d: Delivery, id: nat, d': Delivery)
    requires InOrder(s) && Missed(s, d, id) && d' in s.sends && d'.key.account == d.key.account
    ensures id !in d'.items
  {
    assert FromItsPlan(s, d');
    var r := s.runs[d'.run];
    if r.plannedAt > s.runs[d.run].plannedAt {
      CoveredIsUnlisted(s, d, id, d');
    } else {
      var i :| 0 <= i < |r.plan| && r.plan[i].account == d'.key.account && r.plan[i].items == d'.items;
      assert PlanOk(s, r) && ItemsBy(s, r.plan[i].account, r.plan[i].items, r.plannedAt);
    }
  }

  /** When runs of different weeks do not overlap: once a digest is recorded as sent, no delivery of the account that is
      planned later, in any run that goes on, lists a resource no newer than the digest's row. What the digest itself
      left out, beyond its 200 items or otherwise, stays out. */
  lemma NeverListedLater(es: seq<Event>, fs: seq<Event>, d: Delivery, id: nat, d': Delivery)
    requires Covered(RunAll(START, es), d, id) && NoOverlapRun(START, es + fs)
    requires var s := RunAll(START, es + fs);
             && d' in s.sends && d'.key.account == d.key.account && d.run < |s.runs| && d'.run < |s.runs|
             && s.runs[d'.run].plannedAt > s.runs[d.run].plannedAt
    ensures id !in d'.items
  {
    RunKeepsInv(START, es);
    RunConcat(START, es, fs);
    RunKeepsFacts(RunAll(START, es), fs, d, id);
    RunKeepsOrder(START, es + fs);
    CoveredIsUnlisted(RunAll(START, es + fs), d, id, d');
  }

  /** When runs of different weeks do not overlap: a resource that appears after a digest was planned and before its row
      was inserted, once that digest is recorded as sent, is listed by no delivery of the account in any run that goes
      on. */
  lemma NeverNewAgain(es: seq<Event>, fs: seq<Event>, d: Delivery, id: nat, d': Delivery)
    requires Missed(RunAll(START, es), d, id) && NoOverlapRun(START, es + fs)
    requires d' in RunAll(START, es + fs).sends && d'.key.account == d.key.account
    ensures id !in d'.items
  {
    RunKeepsInv(START, es);
    RunConcat(START, es, fs);
    RunKeepsFacts(RunAll(START, es), fs, d, id);
    RunKeepsOrder(START, es + fs);
    MissedIsUnlisted(RunAll(START, es + fs), d, id, d');
  }

  const LISTED := [PlanRow(1, {5}, false, true, 1)]

  const MISSING: seq<Event> :=
    [Discover(5, 1), Tick(1), Plan(LISTED), Tick(1), Discover(7, 1), Tick(1), Claim(0, true), Deliver(0, 1),
     RecordOutcome(0)]

  lemma Step(es: seq<Event>, s: System, k: nat)
    requires k < |es|
    ensures RunAll(s, es[k..]) == RunAll(Next(s, es[k]), es[k + 1..])
  {
    assert es[k..][0] == es[k] && es[k..][1..] == es[k + 1..];
  }

  lemma ListedIsValid(s: System)
    requires s.log == map[] && 5 in s.resources && s.resources[5].account == 1 && s.unplaced == {5}
    requires s.resources.Keys == {5} && s.resources[5].createdAt > s.clock - FIRST_WINDOW
    ensures ValidPlan(s, LISTED)
  {
    assert forall k, a :: !SentFor(s, k, a);
    assert |LISTED[0].items| == 1;
    assert IsNew(s, 1, s.resources[5]);
  }

  lemma MissingPlanned()
    ensures RunAll(START, MISSING) ==
              RunAll(System(map[], map[], map[5 := Resource(1, 0)], {5}, 1, [Run(0, 1, LISTED, 0, Ready, false)], []),
                     MISSING[3..])
  {
    var s2 := START.(resources := map[5 := Resource(1, 0)], unplaced := {5}, clock := 1);
    assert MISSING[0..] == MISSING;
    Step(MISSING, START, 0);
    Step(MISSING, Next(START, MISSING[0]), 1);
    assert Next(Next(START, MISSING[0]), MISSING[1]) == s2;
    ListedIsValid(s2);
    Step(MISSING, s2, 2);
    assert s2.runs + [Run(0, 1, LISTED, 0, Ready, false)] == [Run(0, 1, LISTED, 0, Ready, false)];
  }

  /** A run in which that happens: resource 7 appears between the plan and the claim. */
  lemma DiscoveredTooLate()
    ensures Missed(RunAll(START, MISSING), Delivery(0, Key(1, 0), {5}), 7)
  {
    MissingPlanned();
    var run := Run(0, 1, LISTED, 0, Ready, false);
    var s3 := System(map[], map[], map[5 := Resource(1, 0)], {5}, 1, [run], []);
    var s6 := System(map[], map[], map[5 := Resource(1, 0), 7 := Resource(1, 2)], {5, 7}, 3, [run], []);
    Step(MISSING, s3, 3);
    Step(MISSING, Next(s3, MISSING[3]), 4);
    Step(MISSING, Next(Next(s3, MISSING[3]), MISSING[4]), 5);
    assert Next(Next(Next(s3, MISSING[3]), MISSING[4]), MISSING[5]) == s6;
    ThreeSteps(s6, 0, true, 1, MISSING[6..]);
    RowClaimed(s6, 0, true, 1);
    assert MISSING[6..][3..] == [];
  }

  // a resource beyond the 200 listed ones

  function FirstIds(n: nat): (ids: set<nat>)
    ensures |ids| == n && forall id: nat :: id in ids <==> id < n
  {
    if n == 0 then {} else FirstIds(n - 1) + {n - 1}
  }

  function Discoveries(n: nat): seq<Event> {
    if n == 0 then [] else Discoveries(n - 1) + [Discover(n - 1, 1)]
  }

  function Discovered(n: nat): System {
    START.(resources := map id | id in FirstIds(n) :: Resource(1, 0), unplaced := FirstIds(n))
  }

  lemma {:induction false} ManyDiscovered(n: nat)
    ensures RunAll(START, Discoveries(n)) == Discovered(n)
  {
    if n == 0 {
      assert Discovered(0) == START;
    } else {
      ManyDiscovered(n - 1);
      RunConcat(START, Discoveries(n - 1), [Discover(n - 1, 1)]);
      var s := Discovered(n - 1);
      assert RunAll(s, [Discover(n - 1, 1)]) == Next(s, Discover(n - 1, 1));
      assert s.resources[n - 1 := Resource(1, 0)] == Discovered(n).resources;
    }
  }

  function FullRow(n: nat): PlanRow {
    PlanRow(1, FirstIds(n), false, true, 1)
  }

  function FullSteps(n: nat): seq<Event> {
    [Plan([FullRow(n)]), Claim(0, true), Deliver(0, 1), RecordOutcome(0)]
  }

  lemma FullRowIsValid(s: System, n: nat)
    requires s == Discovered(n + 1) && n == LIST_FETCH
    ensures ValidPlan(s, [FullRow(n)])
  {
    assert forall k, a :: !SentFor(s, k, a);
    forall id | id in FullRow(n).items ensures id in s.resources && id in s.unplaced && IsNew(s, 1, s.resources[id]) {
      assert s.resources[id] == Resource(1, 0);
    }
  }

  lemma FirstPlan(s: System, plan: seq<PlanRow>)
    requires ValidPlan(s, plan) && s.runs == [] && s.clock == 0
    ensures Next(s, Plan(plan)) == s.(runs := [Run(0, 0, plan, 0, Ready, false)])
  {
    assert s.runs + [Run(0, 0, plan, 0, Ready, false)] == [Run(0, 0, plan, 0, Ready, false)];
  }

  lemma FullRowIsPlanned(n: nat) returns (s: System)
    requires n == LIST_FETCH
    ensures s == Discovered(n + 1).(runs := [Run(0, 0, [FullRow(n)], 0, Ready, false)])
    ensures RunAll(START, Discoveries(n + 1) + FullSteps(n)) == RunAll(s, FullSteps(n)[1..])
  {
    var s0, es := Discovered(n + 1), FullSteps(n);
    assert RunAll(START, Discoveries(n + 1) + es) == RunAll(s0, es) by {
      ManyDiscovered(n + 1);
      RunConcat(START, Discoveries(n + 1), es);
    }
    s := s0.(runs := [Run(0, 0, [FullRow(n)], 0, Ready, false)]);
    assert Next(s0, es[0]) == s by {
      FullRowIsValid(s0, n);
      FirstPlan(s0, [FullRow(n)]);
    }
  }

  /** A run in which the 201st new resource is left out for good. */
  lemma CutOffForGood(n: nat)
    requires n == LIST_FETCH
    ensures var s := RunAll(START, Discoveries(n + 1) + FullSteps(n)); var d := Delivery(0, Key(1, 0), FirstIds(n));
            Covered(s, d, n) && n !in d.items
  {
    var s := FullRowIsPlanned(n);
    var es := FullSteps(n)[1..];
    assert es[3..] == [] && 0 in FullRow(n).items;
    ThreeSteps(s, 0, true, 1, es);
    RowClaimed(s, 0, true, 1);
    var s' := Three(s, 0, true, 1);
    assert RunAll(s, es) == s' && s'.sends[0] == Delivery(0, Key(1, 0), FirstIds(n));
    assert n in s'.resources && s'.resources[n] == Resource(1, 0);
  }

  // ---- overlapping weeks can repeat an item ----------------------------------------------------

  /** Two processes, the second of which plans a little later, in the next week. */
  const OVERLAPPING: seq<Event> :=
    [Tick(604790), Discover(5, 1), Plan(LISTED), Tick(20), Plan(LISTED),
     Claim(0, true), Deliver(0, 1), RecordOutcome(0), Claim(1, true), Deliver(1, 1), RecordOutcome(1)]

  const LISTED_RUN0 := Run(0, 604790, LISTED, 0, Ready, false)
  const LISTED_RUN1 := Run(1, 604810, LISTED, 0, Ready, false)
  const PLANNED_TWICE :=
    System(map[], map[], map[5 := Resource(1, 604790)], {5}, 604810, [LISTED_RUN0, LISTED_RUN1], [])

  const FIRST_PLANNED := System(map[], map[], map[5 := Resource(1, 604790)], {5}, 604790, [LISTED_RUN0], [])

  lemma FirstPlanned()
    ensures RunAll(START, OVERLAPPING) == RunAll(FIRST_PLANNED, OVERLAPPING[3..])
  {
    var s2 := FIRST_PLANNED.(runs := []);
    assert OVERLAPPING[0..] == OVERLAPPING;
    Step(OVERLAPPING, START, 0);
    Step(OVERLAPPING, Next(START, OVERLAPPING[0]), 1);
    assert Next(Next(START, OVERLAPPING[0]), OVERLAPPING[1]) == s2;
    ListedIsValid(s2);
    assert WeekOf(604790) == 0;
    assert [] + [LISTED_RUN0] == [LISTED_RUN0];
    Step(OVERLAPPING, s2, 2);
  }

  lemma SecondPlanned(s: System)
    requires s == FIRST_PLANNED.(clock := 604810)
    ensures Next(s, Plan(LISTED)) == PLANNED_TWICE
  {
    ListedIsValid(s);
    assert WeekOf(604810) == 1;
    assert [LISTED_RUN0] + [LISTED_RUN1] == [LISTED_RUN0, LISTED_RUN1];
  }

  lemma BothPlanned()
    ensures RunAll(START, OVERLAPPING) == RunAll(PLANNED_TWICE, OVERLAPPING[5..])
  {
    FirstPlanned();
    Step(OVERLAPPING, FIRST_PLANNED, 3);
    var s4 := FIRST_PLANNED.(clock := 604810);
    assert Next(FIRST_PLANNED, OVERLAPPING[3]) == s4;
    SecondPlanned(s4);
    Step(OVERLAPPING, s4, 4);
  }

  /** A run whose second plan is not safe: two digests of successive weeks send the same item. */
  lemma OverlapRepeatsAnItem()
    ensures var s := RunAll(START, OVERLAPPING);
            BothSent(s, Delivery(0, Key(1, 0), {5}), Delivery(1, Key(1, 1), {5}))
  {
    BothPlanned();
    ThreeSteps(PLANNED_TWICE, 0, true, 1, OVERLAPPING[5..]);
    RowClaimed(PLANNED_TWICE, 0, true, 1);
    var s8 := Three(PLANNED_TWICE, 0, true, 1);
    assert OVERLAPPING[5..][3..] == OVERLAPPING[8..];
    ThreeSteps(s8, 1, true, 1, OVERLAPPING[8..]);
    RowClaimed(s8, 1, true, 1);
    assert OVERLAPPING[8..][3..] == [];
  }

  // ---- a run with nothing in between is the undisturbed one --------------------------------------

  function AllSteps(n: nat, smtp: bool, delivered: seq<nat>): seq<Event> {
    if delivered == [] then []
    else AllSteps(n, smtp, delivered[..|delivered| - 1]) + RowSteps(n, smtp, delivered[|delivered| - 1])
  }

  /** What reaches recipients for one row. */
  function SentFrom(rows: map<Key, LogRow>, run: nat, week: nat, p: PlanRow, smtp: bool): seq<Delivery> {
    var key := Key(p.account, week);
    if !Skipped(p, smtp) && key !in rows && Deliverable(p) then [Delivery(run, key, p.items)] else []
  }

  lemma RowAlone(s: System, n: nat, smtp: bool, delivered: nat)
    requires n < |s.runs| && Active(s.runs[n]) && s.runs[n].stage == Ready
    ensures var r := s.runs[n]; var p := r.plan[r.at]; var s' := RunAll(s, RowSteps(n, smtp, delivered));
            && s'.log == Handle(s.log, r.week, p, smtp, s.clock, delivered).0
            && s'.sends == s.sends + SentFrom(s.log, n, r.week, p, smtp)
            && s'.clock == s.clock && s'.runs == s.runs[n := r.(at := r.at + 1)]
  {
    ThreeSteps(s, n, smtp, delivered, RowSteps(n, smtp, delivered));
    assert RowSteps(n, smtp, delivered)[3..] == [];
    var r := s.runs[n];
    if Skipped(r.plan[r.at], smtp) || KeyAt(r, r.at) in s.log {
      RowPassedOver(s, n, smtp, delivered);
    } else {
      RowClaimed(s, n, smtp, delivered);
    }
  }

  lemma HandleOneMore(rows: map<Key, LogRow>, week: nat, plan: seq<PlanRow>, smtp: bool, now: int, delivered: seq<nat>)
    requires 0 < |delivered| <= |plan|
    ensures var m := |delivered| - 1;
            HandleAll(rows, week, plan[..m + 1], smtp, now, delivered).0
            == Handle(HandleAll(rows, week, plan[..m], smtp, now, delivered[..m]).0, week, plan[m], smtp, now,
                      delivered[m]).0
  {
    var m := |delivered| - 1;
    assert plan[..m + 1][..m] == plan[..m];
  }

  /** The state machine's run with nothing in between its steps is the loop of send_weekly_digest: it leaves the rows
      that `HandleAll` says. */
  lemma {:induction false} UndisturbedRunIsTheLoop(s: System, n: nat, smtp: bool, delivered: seq<nat>)
    requires n < |s.runs| && !s.runs[n].dead && s.runs[n].at == 0 && s.runs[n].stage == Ready
    requires |delivered| <= |s.runs[n].plan|
    ensures var r := s.runs[n]; var s' := RunAll(s, AllSteps(n, smtp, delivered));
            && s'.log == HandleAll(s.log, r.week, r.plan[..|delivered|], smtp, s.clock, delivered).0
            && s'.clock == s.clock && s'.runs == s.runs[n := r.(at := |delivered|)]
    decreases |delivered|
  {
    var r := s.runs[n];
    if delivered == [] {
      assert s.runs == s.runs[n := r];
    } else {
      var m := |delivered| - 1;
      var before := AllSteps(n, smtp, delivered[..m]);
      var mid := RunAll(s, before);
      UndisturbedRunIsTheLoop(s, n, smtp, delivered[..m]);
      assert mid.runs[n] == r.(at := m);
      assert RunAll(s, AllSteps(n, smtp, delivered)) == RunAll(mid, RowSteps(n, smtp, delivered[m])) by {
        RunConcat(s, before, RowSteps(n, smtp, delivered[m]));
      }
      var after := RunAll(mid, RowSteps(n, smtp, delivered[m]));
      assert after.clock == s.clock && after.runs == mid.runs[n := r.(at := m + 1)]
             && after.log == Handle(mid.log, r.week, r.plan[m], smtp, s.clock, delivered[m]).0 by {
        RowAlone(mid, n, smtp, delivered[m]);
      }
      assert mid.runs[n := r.(at := m + 1)] == s.runs[n := r.(at := m + 1)];
      HandleOneMore(s.log, r.week, r.plan, smtp, s.clock, delivered);
    }
  }

  /** The statuses a run returns are those of the rows it has added. */
  lemma {:induction false} ResultsAreTheNewRows(rows: map<Key, LogRow>, week: nat, plan: seq<PlanRow>, smtp: bool,
                                                now: int, delivered: seq<nat>)
    requires |delivered| == |plan|
    ensures var (rows', results) := HandleAll(rows, week, plan, smtp, now, delivered);
            && (forall k :: k in rows ==> k in rows' && rows'[k] == rows[k])
            && (forall k :: k in rows' && k !in rows ==>
                  k.week == week && k.account in results && rows'[k] == LogRow(results[k.account], now))
            && (forall a :: a in results ==> Key(a, week) in rows' && Key(a, week) !in rows)
    decreases |plan|
  {
    if plan != [] {
      var m := |plan| - 1;
      ResultsAreTheNewRows(rows, week, plan[..m], smtp, now, delivered[..m]);
    }
  }
}
