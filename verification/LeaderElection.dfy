/** Leader election over a named lock that MySQL ties to a session. `probe` selects the loop: false is the one written
    by apply_db_pool_leak_and_leader_election_fix.py, which never looks at its session again once it has started; true
    is app/collector/leader.py, which re-confirms ownership at every poll and signals its collectors to stop. */
module LeaderElection {
  import opened Options

  // ---- one server, one worker --------------------------------------------------------------

  datatype Server = Server(live: set<nat>, holder: Option<nat>, next: nat)

  /** `starts` counts calls of start_fn in this process. `toStart` is set between winning the lock and calling start_fn.
      `signal` is the event handed to the collectors of the probing loop. */
  datatype Worker = Worker(alive: bool, conn: Option<nat>, started: bool, toStart: bool, starts: nat, signal: bool)

  const FRESH := Worker(true, None, false, false, 0, false)

  /** The lock goes with the session. Closing a pooled connection resets its session instead of ending it; that too
      releases the lock, and the session is not used as this worker's again. */
  function EndSession(sv: Server, session: nat): Server {
    sv.(live := sv.live - {session}, holder := if sv.holder == Some(session) then None else sv.holder)
  }

  /** The except branch: close the connection, stop claiming leadership, tell the collectors. */
  function Fail(sv: Server, w: Worker): (Server, Worker) {
    (if w.conn.Some? then EndSession(sv, w.conn.value) else sv,
     w.(conn := None, started := false, toStart := false, signal := false))
  }

  function Connect(sv: Server, w: Worker): (Server, Worker) {
    (sv.(live := sv.live + {sv.next}, next := sv.next + 1), w.(conn := Some(sv.next)))
  }

  /** GET_LOCK(name, 0) on the worker's session. */
  function TryLock(sv: Server, w: Worker): (Server, Worker)
    requires w.conn.Some?
  {
    if w.conn.value !in sv.live then Fail(sv, w)
    else if sv.holder == None || sv.holder == w.conn
      then (sv.(holder := w.conn), w.(started := true, toStart := true, signal := true))
    else (sv, w)
  }

  function CallStart(sv: Server, w: Worker, ok: bool): (Server, Worker) {
    var w' := w.(toStart := false, starts := w.starts + 1);
    if ok then (sv, w') else Fail(sv, w')
  }

  /** IS_USED_LOCK(name) compared with the worker's own session. */
  function Probe(sv: Server, w: Worker): (Server, Worker)
    requires w.conn.Some?
  {
    if w.conn.value !in sv.live || sv.holder != w.conn then Fail(sv, w) else (sv, w)
  }

  // ---- the loop as it runs -----------------------------------------------------------------

  /** One pass of the loop body with nothing in between. */
  function Pass(probe: bool, sv: Server, w: Worker, canConnect: bool, startOk: bool): (Server, Worker) {
    if w.conn.None? && !canConnect then Fail(sv, w)
    else
      var (sv, w) := if w.conn.None? then Connect(sv, w) else (sv, w);
      if !w.started then
        var (sv, w) := TryLock(sv, w);
        if w.started then CallStart(sv, w, startOk) else (sv, w)
      else if probe then Probe(sv, w) else (sv, w)
  }

  class LockServer {
    var live: set<nat>
    var holder: Option<nat>
    var next: nat

    function Contents(): Server
      reads this
    {
      Server(live, holder, next)
    }

    constructor ()
      ensures Contents() == Server({}, None, 0)
    {
      live, holder, next := {}, None, 0;
    }

    method Open() returns (session: nat)
      modifies this
      ensures session == old(next) && Contents() == Server(old(live) + {session}, old(holder), old(next) + 1)
    {
      session := next;
      live, next := live + {session}, next + 1;
    }

    method Close(session: nat)
      modifies this
      ensures Contents() == EndSession(old(Contents()), session)
    {
      live := live - {session};
      if holder == Some(session) { holder := None; }
    }

    /** None when the session is gone and the query raises. */
    method GetLock(session: nat) returns (got: Option<bool>)
      modifies this
      ensures old(session !in live) ==> got == None && Contents() == old(Contents())
      ensures old(session in live) ==>
                && got == Some(old(holder) == None || old(holder) == Some(session))
                && Contents() == old(Contents()).(holder := if got.value then Some(session) else old(holder))
    {
      if session !in live { return None; }
      if holder == None || holder == Some(session) {
        holder := Some(session);
        return Some(true);
      }
      return Some(false);
    }
  }

  class Loop {
    const probe: bool
    var conn: Option<nat>
    var started: bool
    var starts: nat
    var signal: bool

    function Contents(): Worker
      reads this
    {
      Worker(true, conn, started, false, starts, signal)
    }

    constructor (probe: bool)
      ensures this.probe == probe && Contents() == FRESH
    {
      this.probe := probe;
      conn, started, starts, signal := None, false, 0, false;
    }

    method GiveUp(server: LockServer)
      modifies this, server
      ensures (server.Contents(), Contents()) == Fail(old(server.Contents()), old(Contents()))
    {
      if conn.Some? { server.Close(conn.value); }
      conn, started, signal := None, false, false;
    }

    /** One iteration; `startOk` is whether start_fn returns, `canConnect` whether the pool has a connection. */
    method Iterate(server: LockServer, canConnect: bool, startOk: bool)
      modifies this, server
      ensures (server.Contents(), Contents()) ==
                Pass(probe, old(server.Contents()), old(Contents()), canConnect, startOk)
    {
      if conn.None? {
        if !canConnect { GiveUp(server); return; }
        var session := server.Open();
        conn := Some(session);
      }
      if !started {
        var got := server.GetLock(conn.value);
        if got.None? { GiveUp(server); return; }
        if got.value {
          started, signal := true, true;
          starts := starts + 1;
          if !startOk { GiveUp(server); }
        }
      } else if probe {
        if conn.value !in server.live || server.holder != conn { GiveUp(server); }
      }
    }
  }

  // ---- any number of workers, interleaved --------------------------------------------------

  datatype System = System(server: Server, workers: seq<Worker>)

  datatype Action = Connecting | Locking | Starting(ok: bool) | Probing | QueryFails | Dying

  datatype Event = SessionLost(session: nat) | By(p: nat, action: Action)

  function Set(s: System, p: nat, r: (Server, Worker)): System
    requires p < |s.workers|
  {
    System(r.0, s.workers[p := r.1])
  }

  /** A step that is not the worker's next one changes nothing. A started worker of the embedded loop sends no query, so
      none can fail. */
  function Act(probe: bool, sv: Server, w: Worker, action: Action): (Server, Worker) {
    match action
    case Connecting => if w.conn.None? then Connect(sv, w) else (sv, w)
    case Locking => if w.conn.Some? && !w.started then TryLock(sv, w) else (sv, w)
    case Starting(ok) => if w.toStart then CallStart(sv, w, ok) else (sv, w)
    case Probing => if probe && w.conn.Some? && w.started && !w.toStart then Probe(sv, w) else (sv, w)
    case QueryFails => if !w.toStart && (!w.started || probe) then Fail(sv, w) else (sv, w)
    case Dying => var (sv', w') := Fail(sv, w); (sv', w'.(alive := false))
  }

  /** One pass of the loop is these four actions in a row; the system below lets anything happen between them. */
  lemma PassIsFourActions(probe: bool, sv: Server, w: Worker, startOk: bool)
    requires w.alive && !w.toStart && (w.started ==> w.conn.Some?)
             && forall session :: session in sv.live ==> session < sv.next
    ensures var (sv1, w1) := Act(probe, sv, w, Connecting);
            var (sv2, w2) := Act(probe, sv1, w1, Locking);
            var (sv3, w3) := Act(probe, sv2, w2, Starting(startOk));
            Act(probe, sv3, w3, Probing) == Pass(probe, sv, w, true, startOk)
  {
  }

  function Next(probe: bool, s: System, e: Event): System {
    match e
    case SessionLost(session) => s.(server := EndSession(s.server, session))
    case By(p, action) =>
      if p < |s.workers| && s.workers[p].alive then Set(s, p, Act(probe, s.server, s.workers[p], action)) else s
  }

  function Run(probe: bool, s: System, es: seq<Event>): System
    decreases |es|
  {
    if es == [] then s else Run(probe, Next(probe, s, es[0]), es[1..])
  }

  function Boot(n: nat): System {
    System(Server({}, None, 0), seq(n, _ => FRESH))
  }

  // ---- what every run keeps, with no hypothesis ---------------------------------------------

  ghost predicate WorkerOk(sv: Server, w: Worker) {
    && (w.conn.Some? ==> w.conn.value < sv.next)
    && (w.started ==> w.conn.Some? && (sv.holder == w.conn || w.conn.value !in sv.live))
    && (w.toStart ==> w.started) && (w.signal <==> w.started)
    && (!w.alive ==> w.conn.None?)
  }

  ghost predicate Inv(s: System) {
    && (forall session :: session in s.server.live ==> session < s.server.next)
    && (s.server.holder.Some? ==> s.server.holder.value in s.server.live)
    && (forall p :: 0 <= p < |s.workers| ==> WorkerOk(s.server, s.workers[p]))
    && OwnSessions(s)
  }

  ghost predicate OwnSessions(s: System) {
    forall p, q :: 0 <= p < q < |s.workers| && s.workers[p].conn.Some? ==> s.workers[p].conn != s.workers[q].conn
  }

  lemma SessionsStayApart(probe: bool, s: System, e: Event)
    requires Inv(s)
    ensures OwnSessions(Next(probe, s, e))
  {
    var s' := Next(probe, s, e);
    if s' != s && !e.SessionLost? {
      assert WorkerOk(s.server, s.workers[e.p]);
      forall p | 0 <= p < |s.workers| && s.workers[p].conn.Some?
        ensures s.workers[p].conn.value < s.server.next
      {
        assert WorkerOk(s.server, s.workers[p]);
      }
    }
  }

  lemma NextKeepsInv(probe: bool, s: System, e: Event)
    requires Inv(s)
    ensures Inv(Next(probe, s, e))
  {
    var s' := Next(probe, s, e);
    SessionsStayApart(probe, s, e);
    if s' != s {
      forall p | 0 <= p < |s'.workers| ensures WorkerOk(s'.server, s'.workers[p]) {
        assert WorkerOk(s.server, s.workers[p]);
        if !e.SessionLost? { assert WorkerOk(s.server, s.workers[e.p]); }
      }
    }
  }

  lemma {:induction false} RunKeepsInv(probe: bool, s: System, es: seq<Event>)
    requires Inv(s)
    ensures Inv(Run(probe, s, es))
    decreases |es|
  {
    if es != [] {
      NextKeepsInv(probe, s, es[0]);
      RunKeepsInv(probe, Next(probe, s, es[0]), es[1..]);
    }
  }

  /** A worker that may still be acting as leader although its session is gone. */
  predicate Stale(s: System, p: nat)
    requires p < |s.workers|
  {
    var w := s.workers[p];
    w.alive && w.signal && w.conn.Some? && w.conn.value !in s.server.live
  }

  /** The probing loop, in every run whatever fails: of two workers whose collectors are told to run, one has lost its
      session and has not polled since. */
  lemma OverlapMeansALostSession(n: nat, es: seq<Event>, p: nat, q: nat)
    requires p < n && q < n && p != q
    requires |Run(true, Boot(n), es).workers| == n
    requires Run(true, Boot(n), es).workers[p].signal && Run(true, Boot(n), es).workers[q].signal
    ensures Stale(Run(true, Boot(n), es), p) || Stale(Run(true, Boot(n), es), q)
  {
    RunKeepsInv(true, Boot(n), es);
    var s := Run(true, Boot(n), es);
    assert WorkerOk(s.server, s.workers[p]) && WorkerOk(s.server, s.workers[q]);
  }

  /** And that worker's next poll tells its collectors to stop. */
  lemma NextPollStopsAStaleLeader(s: System, p: nat)
    requires Inv(s) && p < |s.workers| && Stale(s, p) && !s.workers[p].toStart
    ensures !Next(true, s, By(p, Probing)).workers[p].signal
  {
    assert WorkerOk(s.server, s.workers[p]);
  }

  /** Its poll never disturbs a leader that does hold the lock. */
  lemma PollKeepsTheTrueLeader(s: System, p: nat)
    requires Inv(s) && p < |s.workers| && s.workers[p].alive && s.workers[p].started && !Stale(s, p)
    ensures Next(true, s, By(p, Probing)) == s
  {
    assert WorkerOk(s.server, s.workers[p]);
  }

  // ---- the embedded loop under its two hypotheses --------------------------------------------

  /** No session of a live started process is lost, and start_fn does not raise. */
  ghost predicate Kept(s: System, e: Event) {
    && (e.By? && e.action.Starting? ==> e.action.ok)
    && (e.SessionLost? ==> forall p :: 0 <= p < |s.workers| && s.workers[p].alive && s.workers[p].started ==>
                             s.workers[p].conn != Some(e.session))
  }

  ghost predicate KeptRun(s: System, es: seq<Event>)
    decreases |es|
  {
    es == [] || (Kept(s, es[0]) && KeptRun(Next(false, s, es[0]), es[1..]))
  }

  ghost predicate LeaderOk(sv: Server, w: Worker) {
    && (w.started ==> w.conn.Some? && w.conn.value in sv.live)
    && (w.alive ==> w.starts == if w.started && !w.toStart then 1 else 0)
    && w.starts <= 1
  }

  ghost predicate OneLeader(s: System) {
    Inv(s) && forall p :: 0 <= p < |s.workers| ==> LeaderOk(s.server, s.workers[p])
  }

  /** The same hypotheses for one step, asking nothing of a Starting event that is not the worker's next step. */
  ghost predicate KeptNow(s: System, e: Event) {
    && (e.By? && e.action == Starting(false) && e.p < |s.workers| && s.workers[e.p].alive ==> !s.workers[e.p].toStart)
    && (e.SessionLost? ==> forall p :: 0 <= p < |s.workers| && s.workers[p].alive && s.workers[p].started ==>
                             s.workers[p].conn != Some(e.session))
  }

  lemma NextKeepsOneLeader(s: System, e: Event)
    requires OneLeader(s) && KeptNow(s, e)
    ensures OneLeader(Next(false, s, e))
  {
    NextKeepsInv(false, s, e);
    var s' := Next(false, s, e);
    if s' != s {
      forall p | 0 <= p < |s'.workers| ensures LeaderOk(s'.server, s'.workers[p]) {
        assert LeaderOk(s.server, s.workers[p]) && WorkerOk(s.server, s.workers[p]);
        if !e.SessionLost? { assert LeaderOk(s.server, s.workers[e.p]) && WorkerOk(s.server, s.workers[e.p]); }
      }
    }
  }

  lemma {:induction false} KeptRunKeepsOneLeader(s: System, es: seq<Event>)
    requires OneLeader(s) && KeptRun(s, es)
    ensures OneLeader(Run(false, s, es))
    decreases |es|
  {
    if es != [] {
      NextKeepsOneLeader(s, es[0]);
      KeptRunKeepsOneLeader(Next(false, s, es[0]), es[1..]);
    }
  }

  lemma {:induction false} RunKeepsSize(probe: bool, s: System, es: seq<Event>)
    ensures |Run(probe, s, es).workers| == |s.workers|
    decreases |es|
  {
    if es != [] { RunKeepsSize(probe, Next(probe, s, es[0]), es[1..]); }
  }

  /** A live process in which start_fn has been called. */
  predicate Leads(s: System, p: nat)
    requires p < |s.workers|
  {
    s.workers[p].alive && s.workers[p].starts > 0
  }

  /** A started worker holds the lock, at most one live process has called start_fn, and no process has called it
      twice. */
  ghost predicate Good(s: System) {
    && (forall p :: 0 <= p < |s.workers| && s.workers[p].started ==>
        s.workers[p].conn.Some? && s.server.holder == s.workers[p].conn)
    && (forall p, q :: 0 <= p < |s.workers| && 0 <= q < |s.workers| && Leads(s, p) && Leads(s, q) ==> p == q)
    && (forall p :: 0 <= p < |s.workers| ==> s.workers[p].starts <= 1)
  }

  lemma OneLeaderIsGood(s: System)
    requires OneLeader(s)
    ensures Good(s)
  {
    forall p | 0 <= p < |s.workers| ensures LeaderOk(s.server, s.workers[p]) && WorkerOk(s.server, s.workers[p]) {}
    forall p, q | 0 <= p < |s.workers| && 0 <= q < |s.workers| && Leads(s, p) && Leads(s, q) ensures p == q {
      assert LeaderOk(s.server, s.workers[p]) && LeaderOk(s.server, s.workers[q]);
      assert s.workers[p].conn == s.workers[q].conn;
    }
  }

  /** In every such run of any number of workers: a started worker holds the lock, so at most one live process has
      called start_fn, and no process calls it twice. */
  lemma CollectorsRunOnce(n: nat, es: seq<Event>)
    requires KeptRun(Boot(n), es)
    ensures var s := Run(false, Boot(n), es);
            && |s.workers| == n
            && (forall p :: 0 <= p < n && s.workers[p].started ==>
                s.workers[p].conn.Some? && s.server.holder == s.workers[p].conn)
            && (forall p, q :: 0 <= p < n && 0 <= q < n && Leads(s, p) && Leads(s, q) ==> p == q)
            && (forall p :: 0 <= p < n ==> s.workers[p].starts <= 1)
  {
    KeptRunKeepsOneLeader(Boot(n), es);
    RunKeepsSize(false, Boot(n), es);
    OneLeaderIsGood(Run(false, Boot(n), es));
  }

  /** Neither hypothesis can be spared at any step of any kept run: a step obeys them exactly when every kept run that
      goes on from it is good. */
  lemma KeptExactly(s: System, e: Event)
    requires OneLeader(s)
    ensures KeptNow(s, e) <==> forall fs :: KeptRun(Next(false, s, e), fs) ==> Good(Run(false, Next(false, s, e), fs))
  {
    var s1 := Next(false, s, e);
    if KeptNow(s, e) {
      NextKeepsOneLeader(s, e);
      forall fs | KeptRun(s1, fs) ensures Good(Run(false, s1, fs)) {
        KeptRunKeepsOneLeader(s1, fs);
        OneLeaderIsGood(Run(false, s1, fs));
      }
    } else if e.SessionLost? {
      var p :| 0 <= p < |s.workers| && s.workers[p].alive && s.workers[p].started
        && s.workers[p].conn == Some(e.session);
      assert LeaderOk(s.server, s.workers[p]) && WorkerOk(s.server, s.workers[p]);
      assert s1.workers[p].started && s1.workers[p].conn.Some? && s1.server.holder == None;
      var fs: seq<Event> := [];
      assert KeptRun(s1, fs) && Run(false, s1, fs) == s1;
      assert KeptRun(Next(false, s, e), fs) && !Good(Run(false, Next(false, s, e), fs));
    } else {
      RaisedStartsAgain(s, e.p);
      var fs := Winning(e.p);
      assert KeptRun(Next(false, s, e), fs) && !Good(Run(false, Next(false, s, e), fs));
    }
  }

  lemma RunThree(s: System, e0: Event, e1: Event, e2: Event)
    ensures Run(false, s, [e0, e1, e2]) == Next(false, Next(false, Next(false, s, e0), e1), e2)
    ensures Kept(s, e0) && Kept(Next(false, s, e0), e1) && Kept(Next(false, Next(false, s, e0), e1), e2) ==>
              KeptRun(s, [e0, e1, e2])
  {
    var es := [e0, e1, e2];
    var s1 := Next(false, s, e0);
    var s2 := Next(false, s1, e1);
    var s3 := Next(false, s2, e2);
    assert es[1..] == [e1, e2] && [e1, e2][1..] == [e2] && [e2][1..] == [];
    assert Run(false, s2, [e2]) == s3 && (Kept(s2, e2) ==> KeptRun(s2, [e2])) by { assert KeptRun(s3, []); }
    assert Run(false, s1, [e1, e2]) == Run(false, s2, [e2]);
    assert Kept(s1, e1) && KeptRun(s2, [e2]) ==> KeptRun(s1, [e1, e2]);
  }

  /** One process connects, asks for the lock and starts. */
  function Winning(p: nat): seq<Event> {
    [By(p, Connecting), By(p, Locking), By(p, Starting(true))]
  }

  /** After a start_fn that raised, the same process connects, wins the lock again and starts a second time. */
  lemma RaisedStartsAgain(s: System, p: nat)
    requires OneLeader(s) && p < |s.workers| && s.workers[p].alive && s.workers[p].toStart
    ensures var s1 := Next(false, s, By(p, Starting(false))); var s' := Run(false, s1, Winning(p));
            KeptRun(s1, Winning(p)) && |s'.workers| == |s.workers| && s'.workers[p].starts == 2
  {
    assert LeaderOk(s.server, s.workers[p]) && WorkerOk(s.server, s.workers[p]);
    var s1 := Next(false, s, By(p, Starting(false)));
    RunThree(s1, By(p, Connecting), By(p, Locking), By(p, Starting(true)));
  }

  /** The same, after first finding out that the process has lost its own session. */
  function TakingOver(s: System, q: nat): seq<Event>
    requires q < |s.workers|
  {
    if s.workers[q].conn.Some? && s.workers[q].conn.value !in s.server.live then [By(q, Locking)] + Winning(q)
    else Winning(q)
  }

  /** And from any kept state with a leader at work and another live worker, losing the leader's session goes on to a
      kept run with two leaders, whether the other worker has a session, none, or has lost its own. */
  lemma SessionLossMakesTwoLeaders(s: System, leader: nat, q: nat)
    requires OneLeader(s) && leader < |s.workers| && q < |s.workers| && leader != q && s.workers[q].alive
    requires s.workers[leader].alive && s.workers[leader].started && !s.workers[leader].toStart
    ensures s.workers[leader].conn.Some?
    ensures var s1 := Next(false, s, SessionLost(s.workers[leader].conn.value));
            var fs := TakingOver(s1, q);
            var s' := Run(false, s1, fs);
            KeptRun(s1, fs) && |s'.workers| == |s.workers| && Leads(s', leader) && Leads(s', q)
  {
    assert LeaderOk(s.server, s.workers[leader]) && WorkerOk(s.server, s.workers[leader]);
    assert LeaderOk(s.server, s.workers[q]) && WorkerOk(s.server, s.workers[q]);
    assert s.workers[leader].conn != s.workers[q].conn;
    assert !s.workers[q].started;
    var s1 := Next(false, s, SessionLost(s.workers[leader].conn.value));
    var fs := TakingOver(s1, q);
    if s1.workers[q].conn.Some? && s1.workers[q].conn.value !in s1.server.live {
      var s2 := Next(false, s1, By(q, Locking));
      RunThree(s2, By(q, Connecting), By(q, Locking), By(q, Starting(true)));
      assert fs[1..] == Winning(q) && Kept(s1, By(q, Locking));
    } else {
      RunThree(s1, By(q, Connecting), By(q, Locking), By(q, Starting(true)));
    }
  }

  /** When the leader dies the lock is free at once. The next poll of a survivor with a live session, or with none,
      makes it leader; one that has lost its own session finds that out at its next poll and leads after one more. */
  lemma SurvivorTakesOver(probe: bool, s: System, leader: nat, p: nat)
    requires Inv(s) && leader < |s.workers| && p < |s.workers| && leader != p
    requires s.workers[leader].alive && s.workers[leader].conn.Some? && s.server.holder == s.workers[leader].conn
    requires s.workers[p].alive && !s.workers[p].started
    ensures var s1 := Next(probe, s, By(leader, Dying)); var s2 := Next(probe, s1, By(p, Locking));
            && s1.server.holder == None
            && (s.workers[p].conn.Some? && s.workers[p].conn.value in s.server.live ==> s2.workers[p].started)
            && (s.workers[p].conn.None? ==>
                  Next(probe, Next(probe, s1, By(p, Connecting)), By(p, Locking)).workers[p].started)
            && (s.workers[p].conn.Some? && s.workers[p].conn.value !in s.server.live ==>
                  && s2.workers[p].conn.None? && !s2.workers[p].started
                  && Next(probe, Next(probe, s2, By(p, Connecting)), By(p, Locking)).workers[p].started)
  {
    assert WorkerOk(s.server, s.workers[leader]) && WorkerOk(s.server, s.workers[p]);
    var s1 := Next(probe, s, By(leader, Dying));
    assert s1.workers[p] == s.workers[p];
    assert s.workers[leader].conn != s.workers[p].conn;
  }

  // ---- both hypotheses are needed -------------------------------------------------------------

  const BOTH_LEAD: seq<Event> :=
    [By(0, Connecting), By(0, Locking), By(0, Starting(true)), SessionLost(0), By(1, Connecting), By(1, Locking),
     By(1, Starting(true))]

  /** Where that run ends, under either loop: worker 0 still believes in its lost session, worker 1 holds the lock. */
  lemma BothLeadEnds(probe: bool)
    ensures Run(probe, Boot(2), BOTH_LEAD) ==
              System(Server({1}, Some(1), 2),
                     [Worker(true, Some(0), true, false, 1, true), Worker(true, Some(1), true, false, 1, true)])
  {
    var leader := Worker(true, Some(0), true, false, 1, true);
    RunSeven(probe, Boot(2), BOTH_LEAD);
    var s1 := System(Server({0}, None, 1), [FRESH.(conn := Some(0)), FRESH]);
    assert Next(probe, Boot(2), BOTH_LEAD[0]) == s1;
    var s3 := System(Server({0}, Some(0), 1), [leader, FRESH]);
    assert Next(probe, Next(probe, s1, BOTH_LEAD[1]), BOTH_LEAD[2]) == s3;
    var s4 := System(Server({}, None, 1), [leader, FRESH]);
    assert Next(probe, s3, BOTH_LEAD[3]) == s4;
    var s5 := System(Server({1}, None, 2), [leader, FRESH.(conn := Some(1))]);
    assert Next(probe, s4, BOTH_LEAD[4]) == s5;
  }

  /** Losing the leader's session silently gives two live processes that run collectors for good. */
  lemma SessionLossBreaksIt()
    ensures var s := Run(false, Boot(2), BOTH_LEAD);
            |s.workers| == 2 && Leads(s, 0) && Leads(s, 1) && s.workers[0].started && s.workers[1].started
  {
    BothLeadEnds(false);
  }

  lemma RunSeven(probe: bool, s: System, es: seq<Event>)
    requires |es| == 7
    ensures var s3 := Next(probe, Next(probe, Next(probe, s, es[0]), es[1]), es[2]);
            var s6 := Next(probe, Next(probe, Next(probe, s3, es[3]), es[4]), es[5]);
            Run(probe, s, es) == Next(probe, s6, es[6])
  {
    var s1 := Next(probe, s, es[0]);
    var s2 := Next(probe, s1, es[1]);
    var s3 := Next(probe, s2, es[2]);
    var s4 := Next(probe, s3, es[3]);
    var s5 := Next(probe, s4, es[4]);
    var s6 := Next(probe, s5, es[5]);
    assert es[1..][1..] == es[2..] && es[2..][1..] == es[3..] && es[3..][1..] == es[4..] && es[4..][1..] == es[5..]
        && es[5..][1..] == es[6..] && es[6..][1..] == [];
    assert Run(probe, s6, es[6..]) == Next(probe, s6, es[6]);
    assert Run(probe, s5, es[5..]) == Run(probe, s6, es[6..]);
    assert Run(probe, s4, es[4..]) == Run(probe, s5, es[5..]);
    assert Run(probe, s3, es[3..]) == Run(probe, s4, es[4..]);
    assert Run(probe, s2, es[2..]) == Run(probe, s3, es[3..]);
    assert Run(probe, s1, es[1..]) == Run(probe, s2, es[2..]);
  }

  const STARTED_TWICE: seq<Event> :=
    [By(0, Connecting), By(0, Locking), By(0, Starting(false)), By(0, Connecting), By(0, Locking),
     By(0, Starting(true)), By(0, Probing)]

  /** A start_fn that raises after it has begun is called again by the same process. */
  lemma RaisingStartBreaksIt()
    ensures var s := Run(false, Boot(1), STARTED_TWICE);
            |s.workers| == 1 && s.workers[0].alive && s.workers[0].starts == 2
  {
    RunSeven(false, Boot(1), STARTED_TWICE);
    var s1 := Next(false, Boot(1), STARTED_TWICE[0]);
    var s2 := Next(false, s1, STARTED_TWICE[1]);
    var s3 := Next(false, s2, STARTED_TWICE[2]);
    var s4 := Next(false, s3, STARTED_TWICE[3]);
    var s5 := Next(false, s4, STARTED_TWICE[4]);
    var s6 := Next(false, s5, STARTED_TWICE[5]);
  }

  /** The same loss under the probing loop is over after the old leader's next poll. */
  lemma ProbeEndsTheOverlap()
    ensures var s := Run(true, Boot(2), BOTH_LEAD);
            && |s.workers| == 2 && Stale(s, 0) && s.workers[1].signal
            && !Next(true, s, By(0, Probing)).workers[0].signal && Next(true, s, By(0, Probing)).workers[1].signal
  {
    BothLeadEnds(true);
  }
}
