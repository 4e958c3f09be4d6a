/** The fingerprint cache in front of every alert rollup (app/alert_cache.py).

    `FingerprintCache` is the object itself: three fields, changed only inside its lock.
    `System` is what the fields live in: one database with a version history, any number of
    worker processes each with its own cache, and any number of threads whose calls of `get`
    interleave with each other, with writers, with `clear` and with the clock. */
module AlertCache {
  import opened Options

  datatype Entry<+V, +F> = Entry(data: Option<V>, fp: Option<F>, ts: int)

  function EmptyEntry<V, F>(): Entry<V, F> {
    Entry(None, None, 0)
  }

  /** What the first locked region of `get` answers: the cached value, or None for a miss. */
  function Lookup<V, F(==)>(e: Entry<V, F>, ttl: int, fp: Option<F>, now: int): Option<V> {
    if e.data.Some? && now - e.ts < ttl && (fp.None? || fp == e.fp) then e.data else None
  }

  class FingerprintCache<V, F(==)> {
    const ttl: int
    var data: Option<V>
    var fp: Option<F>
    var ts: int

    function Contents(): Entry<V, F>
      reads this
    {
      Entry(data, fp, ts)
    }

    constructor (ttl: int)
      ensures this.ttl == ttl && Contents() == EmptyEntry()
    {
      this.ttl := ttl;
      data, fp, ts := None, None, 0;
    }

    method Clear()
      modifies this
      ensures Contents() == EmptyEntry()
    {
      data, fp, ts := None, None, 0;
    }

    /** The locked check. */
    method Check(fpNow: Option<F>, now: int) returns (hit: Option<V>)
      ensures hit == Lookup(Contents(), ttl, fpNow, now)
    {
      if data.Some? && now - ts < ttl && (fpNow.None? || fpNow == fp) {
        return data;
      }
      return None;
    }

    /** The locked store. */
    method Store(v: V, fpRead: Option<F>, now: int)
      modifies this
      ensures Contents() == Entry(Some(v), fpRead, now)
    {
      data, fp, ts := Some(v), fpRead, now;
    }

    /** One uninterrupted call. `fpRead` is None when reading the fingerprint raised; `computed` is
        what compute() would answer (None when it raises) and `storedAt` the clock when it is stored. */
    method Get(fpRead: Option<F>, now: int, computed: Option<V>, storedAt: int) returns (r: Option<V>)
      modifies this
      ensures Lookup(old(Contents()), ttl, fpRead, now).Some? ==>
                r == Lookup(old(Contents()), ttl, fpRead, now) && Contents() == old(Contents())
      ensures Lookup(old(Contents()), ttl, fpRead, now).None? && computed.Some? ==>
                r == computed && Contents() == Entry(computed, fpRead, storedAt)
      ensures Lookup(old(Contents()), ttl, fpRead, now).None? && computed.None? ==>
                r == None && Contents() == old(Contents())
    {
      r := Check(fpRead, now);
      if r.None? && computed.Some? {
        Store(computed.value, fpRead, storedAt);
        r := computed;
      }
    }
  }

  // ---- the interleaved system ------------------------------------------------------------

  /** How a database version is fingerprinted and how it rolls up. */
  datatype Source<!D, !F, !V> = Source(fingerprint: D -> F, rollup: D -> V)

  /** A computed answer together with the clock at which it was read from the database. */
  datatype Snapshot<+V> = Snapshot(value: V, taken: int)

  /** Where a thread is inside `get`. `from` is the database version in force when it read (or failed
      to read) the fingerprint, `upto` the version in force when it got its answer. */
  datatype Phase<+V, +F> =
    | Idle
    | GotFingerprint(fp: Option<F>, from: nat)
    | GotClock(fp: Option<F>, from: nat, now: int)
    | Missed(fp: Option<F>, from: nat, now: int)
    | Computed(fp: Option<F>, from: nat, now: int, data: Snapshot<V>, at: nat)
    | Returned(fp: Option<F>, from: nat, now: int, data: Snapshot<V>, upto: nat, storedAt: int)

  datatype Thread<+V, +F> = Thread(worker: nat, phase: Phase<V, F>)

  datatype System<+D, +F, +V> = System(hist: seq<D>, clock: int,
                                       caches: seq<Entry<Snapshot<V>, F>>, threads: seq<Thread<V, F>>)

  datatype Event<+D> =
    | Write(d: D)
    | Tick(elapsed: nat)
    | Clear(worker: nat)
    | ReadFingerprint(t: nat, ok: bool)
    | ReadClock(t: nat)
    | Check(t: nat)
    | Compute(t: nat, ok: bool)
    | Store(t: nat)

  function SetPhase<D, F, V>(s: System<D, F, V>, t: nat, p: Phase<V, F>): System<D, F, V>
    requires t < |s.threads|
  {
    s.(threads := s.threads[t := s.threads[t].(phase := p)])
  }

  /** Thread t makes its next move; a move that is not the thread's next one changes nothing. */
  function Move<D, F(==), V>(src: Source<D, F, V>, ttl: int, s: System<D, F, V>, e: Event<D>, t: nat): System<D, F, V>
    requires t < |s.threads| && |s.hist| > 0
  {
    var w, last := s.threads[t].worker, |s.hist| - 1;
    if w >= |s.caches| then s else
    match (e, s.threads[t].phase)
    case (ReadFingerprint(_, ok), Idle) =>
      SetPhase(s, t, GotFingerprint(if ok then Some(src.fingerprint(s.hist[last])) else None, last))
    case (ReadFingerprint(_, ok), Returned(_, _, _, _, _, _)) =>
      SetPhase(s, t, GotFingerprint(if ok then Some(src.fingerprint(s.hist[last])) else None, last))
    case (ReadClock(_), GotFingerprint(fp, from)) =>
      SetPhase(s, t, GotClock(fp, from, s.clock))
    case (Check(_), GotClock(fp, from, now)) =>
      var hit := Lookup(s.caches[w], ttl, fp, now);
      SetPhase(s, t, if hit.Some? then Returned(fp, from, now, hit.value, last, s.caches[w].ts)
               else Missed(fp, from, now))
    case (Compute(_, ok), Missed(fp, from, now)) =>
      SetPhase(s, t, if ok then Computed(fp, from, now, Snapshot(src.rollup(s.hist[last]), s.clock), last) else Idle)
    case (Store(_), Computed(fp, from, now, data, at)) =>
      SetPhase(s.(caches := s.caches[w := Entry(Some(data), fp, s.clock)]), t,
               Returned(fp, from, now, data, last, s.clock))
    case _ => s
  }

  function Next<D, F(==), V>(src: Source<D, F, V>, ttl: int, s: System<D, F, V>, e: Event<D>): (r: System<D, F, V>)
    requires |s.hist| > 0
    ensures s.hist <= r.hist
  {
    match e
    case Write(d) => s.(hist := s.hist + [d])
    case Tick(elapsed) => s.(clock := s.clock + elapsed)
    case Clear(w) => if w < |s.caches| then s.(caches := s.caches[w := EmptyEntry()]) else s
    case ReadFingerprint(t, _) => if t < |s.threads| then Move(src, ttl, s, e, t) else s
    case ReadClock(t) => if t < |s.threads| then Move(src, ttl, s, e, t) else s
    case Check(t) => if t < |s.threads| then Move(src, ttl, s, e, t) else s
    case Compute(t, _) => if t < |s.threads| then Move(src, ttl, s, e, t) else s
    case Store(t) => if t < |s.threads| then Move(src, ttl, s, e, t) else s
  }

  function Run<D, F(==), V>(src: Source<D, F, V>, ttl: int, s: System<D, F, V>, es: seq<Event<D>>): (r: System<D, F, V>)
    requires |s.hist| > 0
    ensures s.hist <= r.hist
    decreases |es|
  {
    if es == [] then s else Run(src, ttl, Next(src, ttl, s, es[0]), es[1..])
  }

  /** Freshly started processes: one empty cache a worker, thread t belonging to worker owners[t]. */
  function Start<D, F, V>(d0: D, clock: int, workers: nat, owners: seq<nat>): System<D, F, V> {
    System([d0], clock, seq(workers, _ => EmptyEntry()),
           seq(|owners|, t requires 0 <= t < |owners| => Thread(owners[t], Idle)))
  }

  // ---- what a call promises --------------------------------------------------------------

  ghost predicate InWindow<D, F, V>(src: Source<D, F, V>, hist: seq<D>, from: nat, upto: nat, v: V) {
    exists x :: from <= x <= upto < |hist| && v == src.rollup(hist[x])
  }

  /** Every finished call that read the fingerprint answers with the rollup of a version that was in
      force at some moment between its fingerprint read and its return. */
  ghost predicate Linearizable<D, F, V>(src: Source<D, F, V>, s: System<D, F, V>) {
    forall t :: 0 <= t < |s.threads| && s.threads[t].phase.Returned? && s.threads[t].phase.fp.Some? ==>
      InWindow(src, s.hist, s.threads[t].phase.from, s.threads[t].phase.upto, s.threads[t].phase.data.value)
  }

  /** When a fingerprint value reappears, every version since its earlier appearance rolls up alike. In
      particular it holds when a changed fingerprint never comes back and equal fingerprints mean
      equal rollups. */
  ghost predicate Faithful<D, F, V>(src: Source<D, F, V>, hist: seq<D>) {
    forall i, j, k :: 0 <= i <= j <= k < |hist| && src.fingerprint(hist[i]) == src.fingerprint(hist[k]) ==>
      src.rollup(hist[j]) == src.rollup(hist[k])
  }

  // ---- the invariant of every run --------------------------------------------------------

  /** v was rolled up from a version no earlier than one that had fingerprint f. */
  ghost predicate Witnessed<D, F, V>(src: Source<D, F, V>, hist: seq<D>, f: F, v: V) {
    exists i, j :: 0 <= i <= j < |hist| && src.fingerprint(hist[i]) == f && v == src.rollup(hist[j])
  }

  ghost predicate EntryOk<D, F, V>(src: Source<D, F, V>, s: System<D, F, V>, e: Entry<Snapshot<V>, F>) {
    e.data.Some? ==>
      && e.data.value.taken <= e.ts <= s.clock
      && (e.fp.Some? ==> Witnessed(src, s.hist, e.fp.value, e.data.value.value))
  }

  ghost predicate PhaseOk<D, F, V>(src: Source<D, F, V>, ttl: int, s: System<D, F, V>, p: Phase<V, F>) {
    p.Idle? ||
    (&& p.from < |s.hist|
     && (p.fp.Some? ==> p.fp.value == src.fingerprint(s.hist[p.from]))
     && (!p.GotFingerprint? ==> p.now <= s.clock)
     && (p.Computed? ==>
           p.from <= p.at < |s.hist| && p.data.value == src.rollup(s.hist[p.at]) && p.data.taken <= s.clock)
     && (p.Returned? ==> p.from <= p.upto < |s.hist| && p.data.taken <= p.storedAt && p.now - p.storedAt < ttl))
  }

  ghost predicate Inv<D, F, V>(src: Source<D, F, V>, ttl: int, s: System<D, F, V>) {
    && |s.hist| > 0
    && (forall w :: 0 <= w < |s.caches| ==> EntryOk(src, s, s.caches[w]))
    && (forall t :: 0 <= t < |s.threads| ==> PhaseOk(src, ttl, s, s.threads[t].phase))
  }

  lemma LaterStateKeepsEntries<D, F, V>(src: Source<D, F, V>, ttl: int, s: System<D, F, V>, s': System<D, F, V>)
    requires Inv(src, ttl, s) && s.hist <= s'.hist && s.clock <= s'.clock
    ensures forall w :: 0 <= w < |s.caches| ==> EntryOk(src, s', s.caches[w])
    ensures forall t :: 0 <= t < |s.threads| ==> PhaseOk(src, ttl, s', s.threads[t].phase)
  {
    forall w | 0 <= w < |s.caches| ensures EntryOk(src, s', s.caches[w]) {
      var e := s.caches[w];
      if e.data.Some? && e.fp.Some? {
        var i, j :| 0 <= i <= j < |s.hist| && src.fingerprint(s.hist[i]) == e.fp.value
          && e.data.value.value == src.rollup(s.hist[j]);
        assert s'.hist[i] == s.hist[i] && s'.hist[j] == s.hist[j];
      }
    }
  }

  lemma LaterStateKeepsLinearizable<D, F, V>(src: Source<D, F, V>, s: System<D, F, V>, s': System<D, F, V>)
    requires Linearizable(src, s) && s.hist <= s'.hist && s.threads == s'.threads
    ensures Linearizable(src, s')
  {
    forall t | 0 <= t < |s'.threads| && s'.threads[t].phase.Returned? && s'.threads[t].phase.fp.Some?
      ensures InWindow(src, s'.hist, s'.threads[t].phase.from, s'.threads[t].phase.upto, s'.threads[t].phase.data.value)
    {
      var p := s.threads[t].phase;
      var x :| p.from <= x <= p.upto < |s.hist| && p.data.value == src.rollup(s.hist[x]);
      assert s'.hist[x] == s.hist[x];
    }
  }

  lemma MoveKeepsInv<D, F, V>(src: Source<D, F, V>, ttl: int, s: System<D, F, V>, e: Event<D>, t: nat)
    requires ttl > 0 && Inv(src, ttl, s) && t < |s.threads|
    ensures Inv(src, ttl, Move(src, ttl, s, e, t))
  {
    var w, p := s.threads[t].worker, s.threads[t].phase;
    var s' := Move(src, ttl, s, e, t);
    if w < |s.caches| && s' != s {
      assert PhaseOk(src, ttl, s, p) && EntryOk(src, s, s.caches[w]);
      LaterStateKeepsEntries(src, ttl, s, s');
      if e.Store? && p.Computed? {
        assert p.fp.Some? ==> Witnessed(src, s'.hist, p.fp.value, p.data.value);
        assert EntryOk(src, s', s'.caches[w]);
      }
      assert PhaseOk(src, ttl, s', s'.threads[t].phase);
    }
  }

  lemma NextKeepsInv<D, F, V>(src: Source<D, F, V>, ttl: int, s: System<D, F, V>, e: Event<D>)
    requires ttl > 0 && Inv(src, ttl, s)
    ensures Inv(src, ttl, Next(src, ttl, s, e))
  {
    match e
    case Write(_) => LaterStateKeepsEntries(src, ttl, s, Next(src, ttl, s, e));
    case Tick(_) => LaterStateKeepsEntries(src, ttl, s, Next(src, ttl, s, e));
    case Clear(_) => LaterStateKeepsEntries(src, ttl, s, Next(src, ttl, s, e));
    case ReadFingerprint(t, _) => if t < |s.threads| { MoveKeepsInv(src, ttl, s, e, t); }
    case ReadClock(t) => if t < |s.threads| { MoveKeepsInv(src, ttl, s, e, t); }
    case Check(t) => if t < |s.threads| { MoveKeepsInv(src, ttl, s, e, t); }
    case Compute(t, _) => if t < |s.threads| { MoveKeepsInv(src, ttl, s, e, t); }
    case Store(t) => if t < |s.threads| { MoveKeepsInv(src, ttl, s, e, t); }
  }

  /** The one place the hypothesis is used: a hit whose value may be older than the call's own fingerprint read. */
  lemma HitIsInWindow<D, F, V>(src: Source<D, F, V>, hist: seq<D>, f: F, from: nat, v: V)
    requires Faithful(src, hist) && from < |hist| && f == src.fingerprint(hist[from]) && Witnessed(src, hist, f, v)
    ensures InWindow(src, hist, from, |hist| - 1, v)
  {
    var i, j :| 0 <= i <= j < |hist| && src.fingerprint(hist[i]) == f && v == src.rollup(hist[j]);
    if j < from {
      assert src.rollup(hist[j]) == src.rollup(hist[from]);
      assert v == src.rollup(hist[from]);
    }
  }

  lemma MoveKeepsLinearizable<D, F, V>(src: Source<D, F, V>, ttl: int, s: System<D, F, V>, e: Event<D>, t: nat)
    requires Inv(src, ttl, s) && Linearizable(src, s) && Faithful(src, s.hist) && t < |s.threads|
    ensures Linearizable(src, Move(src, ttl, s, e, t))
  {
    var w, p := s.threads[t].worker, s.threads[t].phase;
    var s' := Move(src, ttl, s, e, t);
    if w < |s.caches| && s' != s {
      assert PhaseOk(src, ttl, s, p) && EntryOk(src, s, s.caches[w]);
      var q := s'.threads[t].phase;
      if e.Check? && p.GotClock? && q.Returned? && p.fp.Some? {
        HitIsInWindow(src, s.hist, p.fp.value, p.from, q.data.value);
      }
      if e.Store? && p.Computed? {
        assert InWindow(src, s.hist, q.from, q.upto, src.rollup(s.hist[p.at]));
      }
    }
  }

  lemma NextKeepsLinearizable<D, F, V>(src: Source<D, F, V>, ttl: int, s: System<D, F, V>, e: Event<D>)
    requires Inv(src, ttl, s) && Linearizable(src, s) && Faithful(src, s.hist)
    ensures Linearizable(src, Next(src, ttl, s, e))
  {
    match e
    case Write(_) => LaterStateKeepsLinearizable(src, s, Next(src, ttl, s, e));
    case Tick(_) => LaterStateKeepsLinearizable(src, s, Next(src, ttl, s, e));
    case Clear(_) => LaterStateKeepsLinearizable(src, s, Next(src, ttl, s, e));
    case ReadFingerprint(t, _) => if t < |s.threads| { MoveKeepsLinearizable(src, ttl, s, e, t); }
    case ReadClock(t) => if t < |s.threads| { MoveKeepsLinearizable(src, ttl, s, e, t); }
    case Check(t) => if t < |s.threads| { MoveKeepsLinearizable(src, ttl, s, e, t); }
    case Compute(t, _) => if t < |s.threads| { MoveKeepsLinearizable(src, ttl, s, e, t); }
    case Store(t) => if t < |s.threads| { MoveKeepsLinearizable(src, ttl, s, e, t); }
  }

  lemma FaithfulPrefix<D, F, V>(src: Source<D, F, V>, h: seq<D>, h': seq<D>)
    requires h <= h' && Faithful(src, h')
    ensures Faithful(src, h)
  {
    forall i, j, k | 0 <= i <= j <= k < |h| && src.fingerprint(h[i]) == src.fingerprint(h[k])
      ensures src.rollup(h[j]) == src.rollup(h[k])
    {
      assert h'[i] == h[i] && h'[j] == h[j] && h'[k] == h[k];
    }
  }

  lemma {:induction false} RunKeepsInv<D, F, V>(src: Source<D, F, V>, ttl: int, s: System<D, F, V>, es: seq<Event<D>>)
    requires ttl > 0 && Inv(src, ttl, s)
    ensures Inv(src, ttl, Run(src, ttl, s, es))
    ensures Linearizable(src, s) && Faithful(src, Run(src, ttl, s, es).hist) ==> Linearizable(src, Run(src, ttl, s, es))
    decreases |es|
  {
    if es != [] {
      NextKeepsInv(src, ttl, s, es[0]);
      if Linearizable(src, s) && Faithful(src, Run(src, ttl, s, es).hist) {
        FaithfulPrefix(src, s.hist, Run(src, ttl, s, es).hist);
        NextKeepsLinearizable(src, ttl, s, es[0]);
      }
      RunKeepsInv(src, ttl, Next(src, ttl, s, es[0]), es[1..]);
    }
  }

  // ---- main results ----------------------------------------------------------------------

  /** Every interleaving over a faithful history is linearizable. */
  lemma FaithfulRunsAreLinearizable<D, F, V>(src: Source<D, F, V>, ttl: int, d0: D, clock: int, workers: nat,
                                             owners: seq<nat>, es: seq<Event<D>>)
    requires ttl > 0 && Faithful(src, Run(src, ttl, Start(d0, clock, workers, owners), es).hist)
    ensures Linearizable(src, Run(src, ttl, Start(d0, clock, workers, owners), es))
  {
    RunKeepsInv(src, ttl, Start(d0, clock, workers, owners), es);
  }

  /** Whatever the history and even when the fingerprint could not be read: an answer was stored less than
      `ttl` before the call's own clock reading, and was read from the database no later than it was stored. */
  lemma AnswersAreYoungerThanTtl<D, F, V>(src: Source<D, F, V>, ttl: int, d0: D, clock: int, workers: nat,
                                          owners: seq<nat>, es: seq<Event<D>>, t: nat)
    requires ttl > 0
    requires t < |Run(src, ttl, Start(d0, clock, workers, owners), es).threads|
    ensures var p := Run(src, ttl, Start(d0, clock, workers, owners), es).threads[t].phase;
            p.Returned? ==> p.data.taken <= p.storedAt && p.now - p.storedAt < ttl
  {
    RunKeepsInv(src, ttl, Start(d0, clock, workers, owners), es);
  }

  /** Two finished calls, on any workers, whose windows saw no write give the same answer. */
  lemma QuietCallsAgree<D, F, V>(src: Source<D, F, V>, s: System<D, F, V>, t: nat, u: nat)
    requires Linearizable(src, s) && t < |s.threads| && u < |s.threads|
    requires s.threads[t].phase.Returned? && s.threads[t].phase.fp.Some?
    requires s.threads[u].phase.Returned? && s.threads[u].phase.fp.Some?
    requires s.threads[t].phase.from == s.threads[t].phase.upto == s.threads[u].phase.from == s.threads[u].phase.upto
    ensures s.threads[t].phase.data.value == s.threads[u].phase.data.value
  {
    var p, q := s.threads[t].phase, s.threads[u].phase;
    assert InWindow(src, s.hist, p.from, p.upto, p.data.value) && InWindow(src, s.hist, q.from, q.upto, q.data.value);
  }

  // ---- the hypothesis is exact: an unfaithful history has a run that answers wrongly --------

  function Writes<D>(ds: seq<D>): seq<Event<D>> {
    seq(|ds|, i requires 0 <= i < |ds| => Write(ds[i]))
  }

  lemma {:induction false} RunConcat<D, F, V>(src: Source<D, F, V>, ttl: int, s: System<D, F, V>, es: seq<Event<D>>,
                                              fs: seq<Event<D>>)
    requires |s.hist| > 0
    ensures Run(src, ttl, s, es + fs) == Run(src, ttl, Run(src, ttl, s, es), fs)
    decreases |es|
  {
    if es == [] {
      assert es + fs == fs;
    } else {
      assert (es + fs)[1..] == es[1..] + fs;
      RunConcat(src, ttl, Next(src, ttl, s, es[0]), es[1..], fs);
    }
  }

  lemma {:induction false} RunWrites<D, F, V>(src: Source<D, F, V>, ttl: int, s: System<D, F, V>, ds: seq<D>)
    requires |s.hist| > 0
    ensures Run(src, ttl, s, Writes(ds)) == s.(hist := s.hist + ds)
    decreases |ds|
  {
    if ds == [] {
      assert s.hist + ds == s.hist;
    } else {
      assert Writes(ds)[1..] == Writes(ds[1..]);
      RunWrites(src, ttl, s.(hist := s.hist + [ds[0]]), ds[1..]);
      assert s.hist + [ds[0]] + ds[1..] == s.hist + ds;
    }
  }

  /** Thread 0 reads its fingerprint at version i, computes and stores at version j; thread 1 makes its whole
      call at version k. */
  function ReadAt<D>(h: seq<D>, i: nat): seq<Event<D>>
    requires i < |h|
  {
    Writes(h[1..i + 1]) + [ReadFingerprint(0, true)]
  }

  function StoreMoves<D>(): seq<Event<D>> {
    [ReadClock(0), Check(0), Compute(0, true), Store(0)]
  }

  function HitMoves<D>(): seq<Event<D>> {
    [ReadFingerprint(1, true), ReadClock(1), Check(1)]
  }

  lemma AfterWrites<D, F, V>(src: Source<D, F, V>, ttl: int, s: System<D, F, V>, ds: seq<D>, hist: seq<D>,
                             moves: seq<Event<D>>)
    requires |s.hist| > 0 && hist == s.hist + ds
    ensures Run(src, ttl, s, Writes(ds) + moves) == Run(src, ttl, s.(hist := hist), moves)
  {
    RunConcat(src, ttl, s, Writes(ds), moves);
    RunWrites(src, ttl, s, ds);
  }

  lemma RunThree<D, F, V>(src: Source<D, F, V>, ttl: int, s: System<D, F, V>, a: seq<Event<D>>, b: seq<Event<D>>,
                          c: seq<Event<D>>)
    requires |s.hist| > 0
    ensures Run(src, ttl, s, a + (b + c)) == Run(src, ttl, Run(src, ttl, Run(src, ttl, s, a), b), c)
  {
    RunConcat(src, ttl, s, a, b + c);
    RunConcat(src, ttl, Run(src, ttl, s, a), b, c);
  }

  function StoreAt<D>(h: seq<D>, i: nat, j: nat): seq<Event<D>>
    requires i <= j < |h|
  {
    Writes(h[i + 1..j + 1]) + StoreMoves()
  }

  function HitAt<D>(h: seq<D>, j: nat, k: nat): seq<Event<D>>
    requires j <= k < |h|
  {
    Writes(h[j + 1..k + 1]) + HitMoves()
  }

  lemma ReadAtRuns<D, F, V>(src: Source<D, F, V>, ttl: int, h: seq<D>, i: nat)
    requires i < |h|
    ensures Run(src, ttl, Start(h[0], 0, 1, [0, 0]), ReadAt(h, i))
            == System(h[..i + 1], 0, [EmptyEntry()],
                      [Thread(0, GotFingerprint(Some(src.fingerprint(h[i])), i)), Thread(0, Idle)])
  {
    var s0: System<D, F, V> := Start(h[0], 0, 1, [0, 0]);
    RunConcat(src, ttl, s0, Writes(h[1..i + 1]), [ReadFingerprint(0, true)]);
    RunWrites(src, ttl, s0, h[1..i + 1]);
    var s1 := s0.(hist := s0.hist + h[1..i + 1]);
    assert s1.hist == h[..i + 1];
    assert Run(src, ttl, s1, [ReadFingerprint(0, true)]) == Next(src, ttl, s1, ReadFingerprint(0, true));
  }

  lemma StoreAtRuns<D, F, V>(src: Source<D, F, V>, ttl: int, h: seq<D>, i: nat, j: nat, s: System<D, F, V>,
                             f: Option<F>)
    requires i <= j < |h| && s ==
               System(h[..i + 1], 0, [EmptyEntry()], [Thread(0, GotFingerprint(f, i)), Thread(0, Idle)])
    ensures var s' := Run(src, ttl, s, StoreAt(h, i, j));
            && |s'.threads| == 2
            && s' == System(h[..j + 1], 0, [Entry(Some(Snapshot(src.rollup(h[j]), 0)), f, 0)],
                            [s'.threads[0], Thread(0, Idle)])
  {
    var now := s.(hist := h[..j + 1]);
    assert now.hist == s.hist + h[i + 1..j + 1] && now.hist[j] == h[j];
    assert Run(src, ttl, s, StoreAt(h, i, j)) == Run(src, ttl, now, StoreMoves()) by {
      AfterWrites(src, ttl, s, h[i + 1..j + 1], h[..j + 1], StoreMoves());
    }
    StoreAtOnce(src, ttl, now, f, i);
  }

  lemma HitAtRuns<D, F, V>(src: Source<D, F, V>, ttl: int, h: seq<D>, j: nat, k: nat, s: System<D, F, V>,
                           data: Snapshot<V>)
    requires ttl > 0 && j <= k < |h| && s.hist == h[..j + 1] && s.clock == 0 && |s.threads| == 2
             && s.threads[1] == Thread(0, Idle)
    requires s.caches == [Entry(Some(data), Some(src.fingerprint(h[k])), 0)]
    ensures var s' := Run(src, ttl, s, HitAt(h, j, k));
            && s'.hist == h[..k + 1] && |s'.threads| == 2
            && s'.threads[1].phase == Returned(Some(src.fingerprint(h[k])), k, 0, data, k, 0)
  {
    var now, f := s.(hist := h[..k + 1]), Some(src.fingerprint(h[k]));
    assert now.hist == s.hist + h[j + 1..k + 1] && now.hist[k] == h[k];
    assert Run(src, ttl, s, HitAt(h, j, k)) == Run(src, ttl, now, HitMoves()) by {
      AfterWrites(src, ttl, s, h[j + 1..k + 1], h[..k + 1], HitMoves());
    }
    HitAtOnce(src, ttl, now, f, data);
  }

  function StaleSchedule<D>(h: seq<D>, i: nat, j: nat, k: nat): seq<Event<D>>
    requires i <= j <= k < |h|
  {
    ReadAt(h, i) + (StoreAt(h, i, j) + HitAt(h, j, k))
  }

  lemma StaleScheduleAnswersWrongly<D, F, V>(src: Source<D, F, V>, ttl: int, h: seq<D>, i: nat, j: nat, k: nat)
    requires ttl > 0 && i <= j <= k < |h|
    requires src.fingerprint(h[i]) == src.fingerprint(h[k]) && src.rollup(h[j]) != src.rollup(h[k])
    ensures var s := Run(src, ttl, Start(h[0], 0, 1, [0, 0]), StaleSchedule(h, i, j, k));
            s.hist == h[..k + 1] && !Linearizable(src, s)
  {
    var s0: System<D, F, V> := Start(h[0], 0, 1, [0, 0]);
    ReadAtRuns(src, ttl, h, i);
    var s1 := Run(src, ttl, s0, ReadAt(h, i));
    StoreAtRuns(src, ttl, h, i, j, s1, Some(src.fingerprint(h[i])));
    var s2 := Run(src, ttl, s1, StoreAt(h, i, j));
    HitAtRuns(src, ttl, h, j, k, s2, Snapshot(src.rollup(h[j]), 0));
    var s3 := Run(src, ttl, s2, HitAt(h, j, k));
    RunThree(src, ttl, s0, ReadAt(h, i), StoreAt(h, i, j), HitAt(h, j, k));
    assert !InWindow(src, s3.hist, k, k, src.rollup(h[j]));
  }

  /** Thread 0 finishes a call that misses, with nothing in between. */
  lemma StoreAtOnce<D, F, V>(src: Source<D, F, V>, ttl: int, s: System<D, F, V>, f: Option<F>, i: nat)
    requires |s.hist| > 0 && |s.threads| == 2 && |s.caches| == 1 && s.caches[0].data.None?
    requires s.threads[0] == Thread(0, GotFingerprint(f, i))
    ensures var s' := Run(src, ttl, s, StoreMoves());
            var stored := Entry(Some(Snapshot(src.rollup(s.hist[|s.hist| - 1]), s.clock)), f, s.clock);
            |s'.threads| == 2 && s' == System(s.hist, s.clock, [stored], [s'.threads[0], s.threads[1]])
  {
    var e: seq<Event<D>> := StoreMoves();
    var s1 := Next(src, ttl, s, e[0]);
    var s2 := Next(src, ttl, s1, e[1]);
    var s3 := Next(src, ttl, s2, e[2]);
    var s4 := Next(src, ttl, s3, e[3]);
    assert e[1..] == [e[1], e[2], e[3]] && e[1..][1..] == [e[2], e[3]] && e[1..][1..][1..] == [e[3]]
        && e[1..][1..][1..][1..] == [];
    assert Run(src, ttl, s3, [e[3]]) == s4;
    assert Run(src, ttl, s2, [e[2], e[3]]) == s4;
  }

  /** Thread 1 makes a whole call that hits. */
  lemma HitAtOnce<D, F, V>(src: Source<D, F, V>, ttl: int, s: System<D, F, V>, f: Option<F>, data: Snapshot<V>)
    requires |s.hist| > 0 && |s.threads| == 2 && s.caches == [Entry(Some(data), f, s.clock)] && ttl > 0
    requires s.threads[1] == Thread(0, Idle) && f == Some(src.fingerprint(s.hist[|s.hist| - 1]))
    ensures var s' := Run(src, ttl, s, HitMoves());
            && s'.hist == s.hist && |s'.threads| == 2
            && s'.threads[1].phase == Returned(f, |s.hist| - 1, s.clock, data, |s.hist| - 1, s.clock)
  {
    var e: seq<Event<D>> := HitMoves();
    var s1 := Next(src, ttl, s, e[0]);
    var s2 := Next(src, ttl, s1, e[1]);
    assert e[1..] == [e[1], e[2]] && e[1..][1..] == [e[2]] && e[1..][1..][1..] == [];
    assert Run(src, ttl, s2, [e[2]]) == Next(src, ttl, s2, e[2]);
  }

  lemma TwoVersions<D, F, V>(src: Source<D, F, V>, d0: D, d1: D)
    ensures Faithful(src, [d0, d1]) <==> src.fingerprint(d0) != src.fingerprint(d1) || src.rollup(d0) == src.rollup(d1)
  {
    var h := [d0, d1];
    assert h[0] == d0 && h[1] == d1;
  }

  /** One write that keeps the fingerprint and changes the rollup is enough. */
  lemma UnseenWriteIsServedStale<D, F, V>(src: Source<D, F, V>, ttl: int, d0: D, d1: D)
    requires ttl > 0 && src.fingerprint(d0) == src.fingerprint(d1) && src.rollup(d0) != src.rollup(d1)
    ensures var s := Run(src, ttl, Start(d0, 0, 1, [0, 0]), StaleSchedule([d0, d1], 0, 0, 1));
            s.hist == [d0, d1] && !Linearizable(src, s)
  {
    StaleScheduleAnswersWrongly(src, ttl, [d0, d1], 0, 0, 1);
    assert [d0, d1][..2] == [d0, d1];
  }

  /** The exact condition on a database history: every schedule over it (and over every beginning of it) is
      linearizable if and only if the history is faithful. */
  lemma LinearizableExactlyWhenFaithful<D, F, V>(src: Source<D, F, V>, ttl: int, h: seq<D>)
    requires ttl > 0 && |h| > 0
    ensures Faithful(src, h) <==>
            (forall clock: int, workers: nat, owners: seq<nat>, es: seq<Event<D>> ::
               Run(src, ttl, Start(h[0], clock, workers, owners), es).hist <= h ==>
                 Linearizable(src, Run(src, ttl, Start(h[0], clock, workers, owners), es)))
  {
    if Faithful(src, h) {
      forall clock: int, workers: nat, owners: seq<nat>, es: seq<Event<D>> |
             Run(src, ttl, Start(h[0], clock, workers, owners), es).hist <= h
        ensures Linearizable(src, Run(src, ttl, Start(h[0], clock, workers, owners), es))
      {
        FaithfulPrefix(src, Run(src, ttl, Start(h[0], clock, workers, owners), es).hist, h);
        FaithfulRunsAreLinearizable(src, ttl, h[0], clock, workers, owners, es);
      }
    } else {
      var i, j, k :| 0 <= i <= j <= k < |h| && src.fingerprint(h[i]) == src.fingerprint(h[k])
        && src.rollup(h[j]) != src.rollup(h[k]);
      StaleScheduleAnswersWrongly(src, ttl, h, i, j, k);
      assert Run(src, ttl, Start(h[0], 0, 1, [0, 0]), StaleSchedule(h, i, j, k)).hist <= h;
    }
  }

  /** In the words of the cache's own documentation: a fingerprint value that changed never comes back, and
      versions with the same fingerprint roll up alike. */
  lemma NoReturnIsFaithful<D, F, V>(src: Source<D, F, V>, hist: seq<D>)
    requires forall i, j, k :: 0 <= i <= j <= k < |hist| && src.fingerprint(hist[i]) == src.fingerprint(hist[k]) ==>
               src.fingerprint(hist[j]) == src.fingerprint(hist[k])
    requires forall i, j ::
               0 <= i < |hist| && 0 <= j < |hist| && src.fingerprint(hist[i]) == src.fingerprint(hist[j]) ==>
                 src.rollup(hist[i]) == src.rollup(hist[j])
    ensures Faithful(src, hist)
  {
    forall i, j, k | 0 <= i <= j <= k < |hist| && src.fingerprint(hist[i]) == src.fingerprint(hist[k])
      ensures src.rollup(hist[j]) == src.rollup(hist[k])
    {
      assert src.fingerprint(hist[j]) == src.fingerprint(hist[k]);
    }
  }
}
