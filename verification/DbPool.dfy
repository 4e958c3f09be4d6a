/** The connection pool behind every query and the leak guard on each checkout (app/db.py). */
module DbPool {
  import opened Options

  /** One checkout: its `closed` flag, and whether a close that set the flag has still to make the real close.
      `dropped`: the holder has lost the object, so the finalizer may fire. */
  datatype Checkout = Checkout(slot: nat, closed: bool, pending: bool, dropped: bool, realCloses: nat)

  datatype Pool = Pool(size: nat, idle: set<nat>, checkouts: seq<Checkout>)

  datatype Event =
    | Get(slot: nat)
    | Close(c: nat)
    | Drop(c: nat)
    | Finalize(c: nat)
    | RealClose(c: nat)

  predicate Holding(c: Checkout) {
    !c.closed || c.pending
  }

  function SetCheckout(p: Pool, i: nat, c: Checkout): Pool
    requires i < |p.checkouts|
  {
    p.(checkouts := p.checkouts[i := c])
  }

  /** The guard: the first close or finalizer sets the flag and will make the real close, any other returns at once. */
  function Guard(c: Checkout): Checkout {
    if c.closed then c else c.(closed := true, pending := true)
  }

  function Next(p: Pool, e: Event): Pool {
    match e
    case Get(slot) =>
      if slot in p.idle then
        p.(idle := p.idle - {slot}, checkouts := p.checkouts + [Checkout(slot, false, false, false, 0)])
      else p
    case Close(i) =>
      if i < |p.checkouts| && !p.checkouts[i].dropped then SetCheckout(p, i, Guard(p.checkouts[i])) else p
    case Drop(i) =>
      if i < |p.checkouts| && !p.checkouts[i].pending then SetCheckout(p, i, p.checkouts[i].(dropped := true)) else p
    case Finalize(i) =>
      if i < |p.checkouts| && p.checkouts[i].dropped then SetCheckout(p, i, Guard(p.checkouts[i])) else p
    case RealClose(i) =>
      if i < |p.checkouts| && p.checkouts[i].pending then
        var c := p.checkouts[i];
        SetCheckout(p.(idle := p.idle + {c.slot}), i, c.(pending := false, realCloses := c.realCloses + 1))
      else p
  }

  function Run(p: Pool, es: seq<Event>): Pool
    decreases |es|
  {
    if es == [] then p else Run(Next(p, es[0]), es[1..])
  }

  function Slots(n: nat): (r: set<nat>)
    ensures |r| == n && forall i: int :: i in r <==> 0 <= i < n
  {
    if n == 0 then {} else Slots(n - 1) + {n - 1}
  }

  function Fresh(size: nat): Pool {
    Pool(size, Slots(size), [])
  }

  // ---- what every run keeps -----------------------------------------------------------------------------

  function CheckedOut(cs: seq<Checkout>): nat {
    if cs == [] then 0 else CheckedOut(cs[..|cs| - 1]) + if Holding(cs[|cs| - 1]) then 1 else 0
  }

  lemma {:induction false} CheckedOutAfter(cs: seq<Checkout>, i: nat, c: Checkout)
    requires i < |cs|
    ensures CheckedOut(cs[i := c]) == CheckedOut(cs) - (if Holding(cs[i]) then 1 else 0) + (if Holding(c) then 1 else 0)
    decreases |cs|
  {
    var n := |cs| - 1;
    if i < n {
      CheckedOutAfter(cs[..n], i, c);
      assert cs[i := c][..n] == cs[..n][i := c];
    } else {
      assert cs[i := c][..n] == cs[..n];
    }
  }

  lemma CheckedOutMore(cs: seq<Checkout>, c: Checkout)
    ensures CheckedOut(cs + [c]) == CheckedOut(cs) + if Holding(c) then 1 else 0
  {
    assert (cs + [c])[..|cs|] == cs;
  }

  ghost predicate Inv(p: Pool) {
    && |p.idle| + CheckedOut(p.checkouts) == p.size
    && (forall i :: 0 <= i < |p.checkouts| && Holding(p.checkouts[i]) ==> p.checkouts[i].slot !in p.idle)
    && (forall i, j :: 0 <= i < j < |p.checkouts| && Holding(p.checkouts[i]) && Holding(p.checkouts[j]) ==>
        p.checkouts[i].slot != p.checkouts[j].slot)
    && (forall i :: 0 <= i < |p.checkouts| ==>
          && (p.checkouts[i].pending ==> p.checkouts[i].closed)
          && p.checkouts[i].realCloses == if Holding(p.checkouts[i]) then 0 else 1)
  }

  lemma SetKeepsInv(p: Pool, i: nat, c: Checkout)
    requires Inv(p) && i < |p.checkouts|
    requires var b := p.checkouts[i];
             c.slot == b.slot && c.realCloses == b.realCloses && Holding(c) == Holding(b) && (c.pending ==> c.closed)
    ensures Inv(SetCheckout(p, i, c))
  {
    CheckedOutAfter(p.checkouts, i, c);
  }

  lemma ReleaseKeepsInv(p: Pool, i: nat)
    requires Inv(p) && i < |p.checkouts| && p.checkouts[i].pending
    ensures Inv(Next(p, RealClose(i)))
  {
    var c := p.checkouts[i];
    CheckedOutAfter(p.checkouts, i, c.(pending := false, realCloses := c.realCloses + 1));
  }

  lemma IssueKeepsInv(p: Pool, slot: nat)
    requires Inv(p) && slot in p.idle
    ensures Inv(Next(p, Get(slot)))
  {
    CheckedOutMore(p.checkouts, Checkout(slot, false, false, false, 0));
  }

  lemma NextKeepsInv(p: Pool, e: Event)
    requires Inv(p)
    ensures Inv(Next(p, e))
  {
    match e
    case Get(slot) => if slot in p.idle { IssueKeepsInv(p, slot); }
    case Close(i) => if i < |p.checkouts| { SetKeepsInv(p, i, Guard(p.checkouts[i])); }
    case Drop(i) => if i < |p.checkouts| { SetKeepsInv(p, i, p.checkouts[i].(dropped := true)); }
    case Finalize(i) => if i < |p.checkouts| { SetKeepsInv(p, i, Guard(p.checkouts[i])); }
    case RealClose(i) => if i < |p.checkouts| && p.checkouts[i].pending { ReleaseKeepsInv(p, i); }
  }

  lemma {:induction false} RunKeepsInv(p: Pool, es: seq<Event>)
    requires Inv(p)
    ensures Inv(Run(p, es))
    decreases |es|
  {
    if es != [] {
      NextKeepsInv(p, es[0]);
      RunKeepsInv(Next(p, es[0]), es[1..]);
    }
  }

  /** Over every run of checkouts, repeated closes and finalizers: idle and checked-out slots make up the pool, no two
      checkouts hold one slot, and each checkout makes at most one real close. */
  lemma SlotsAreConserved(size: nat, es: seq<Event>)
    ensures var p := Run(Fresh(size), es);
            && |p.idle| + CheckedOut(p.checkouts) == size
            && (forall i :: 0 <= i < |p.checkouts| ==> p.checkouts[i].realCloses <= 1)
            && (forall i, j :: 0 <= i < j < |p.checkouts| && Holding(p.checkouts[i]) && Holding(p.checkouts[j]) ==>
                p.checkouts[i].slot != p.checkouts[j].slot)
  {
    FreshInv(size);
    RunKeepsInv(Fresh(size), es);
    SizeStays(Fresh(size), es);
    var p := Run(Fresh(size), es);
    assert Inv(p);
  }

  lemma FreshInv(size: nat)
    ensures Inv(Fresh(size))
  {
    assert CheckedOut([]) == 0;
  }

  lemma {:induction false} SizeStays(p: Pool, es: seq<Event>)
    ensures Run(p, es).size == p.size
    decreases |es|
  {
    if es != [] { SizeStays(Next(p, es[0]), es[1..]); }
  }

  // ---- whose slot it is -------------------------------------------------------------------------------------

  predicate Touches(e: Event, i: nat) {
    (e.Close? && e.c == i) || (e.Finalize? && e.c == i)
  }

  predicate NeverTouches(es: seq<Event>, i: nat) {
    forall k :: 0 <= k < |es| ==> !Touches(es[k], i)
  }

  /** Once issued, a slot stays with its checkout through any run in which that checkout itself is neither closed nor
      finalized: late, repeated or concurrent closes of earlier holders of the same slot never release it. */
  lemma {:induction false} SlotStaysWithItsHolder(p: Pool, es: seq<Event>, i: nat)
    requires Inv(p) && i < |p.checkouts| && !p.checkouts[i].closed && NeverTouches(es, i)
    ensures var p' := Run(p, es);
            && i < |p'.checkouts| && !p'.checkouts[i].closed && p'.checkouts[i].slot == p.checkouts[i].slot
            && p.checkouts[i].slot !in p'.idle
            && forall j :: 0 <= j < |p'.checkouts| && j != i && Holding(p'.checkouts[j]) ==>
              p'.checkouts[j].slot != p.checkouts[i].slot
    decreases |es|
  {
    if es != [] {
      NextKeepsInv(p, es[0]);
      assert !Touches(es[0], i);
      assert forall k :: 0 <= k < |es[1..]| ==> es[1..][k] == es[k + 1];
      SlotStaysWithItsHolder(Next(p, es[0]), es[1..], i);
    } else {
      assert forall j :: 0 <= j < |p.checkouts| && j != i && Holding(p.checkouts[j]) ==>
          p.checkouts[j].slot != p.checkouts[i].slot;
    }
  }

  /** A dropped checkout gets its slot back through the finalizer. */
  lemma LeakIsRecovered(p: Pool, i: nat)
    requires Inv(p) && i < |p.checkouts| && p.checkouts[i].dropped && !p.checkouts[i].closed
    ensures var p' := Run(p, [Finalize(i), RealClose(i)]);
            p'.idle == p.idle + {p.checkouts[i].slot} && |p'.idle| == |p.idle| + 1
  {
    var p1 := Next(p, Finalize(i));
    var es: seq<Event> := [Finalize(i), RealClose(i)];
    assert es[1..] == [RealClose(i)] && [RealClose(i)][1..] == [];
    assert Run(p, es) == Run(p1, [RealClose(i)]) == Next(p1, RealClose(i));
  }

  /** The close without the guard. */
  function RawClose(p: Pool, i: nat): Pool
    requires i < |p.checkouts|
  {
    var c := p.checkouts[i];
    SetCheckout(p.(idle := p.idle + {c.slot}), i, c.(closed := true, realCloses := c.realCloses + 1))
  }

  /** Without it a second close puts a slot that was issued again back among the idle ones. */
  lemma UnguardedCloseReleasesAnothersSlot()
    ensures var p1 := RawClose(Next(Fresh(1), Get(0)), 0);
            var p2 := Next(p1, Get(0));
            |p2.checkouts| == 2 && var p3 := RawClose(p2, 0);
            Holding(p3.checkouts[1]) && p3.checkouts[1].slot in p3.idle
  {
    assert 0 in Fresh(1).idle;
  }

  lemma GetThenClose(p: Pool, slot: nat)
    requires Inv(p) && slot in p.idle
    ensures var i := |p.checkouts|; var p' := Next(Next(Next(p, Get(slot)), Close(i)), RealClose(i));
            p'.idle == p.idle && CheckedOut(p'.checkouts) == CheckedOut(p.checkouts)
  {
    var i := |p.checkouts|;
    var p1 := Next(p, Get(slot));
    var p2 := Next(p1, Close(i));
    var p3 := Next(p2, RealClose(i));
    NextKeepsInv(p, Get(slot));
    NextKeepsInv(p1, Close(i));
    NextKeepsInv(p2, RealClose(i));
    assert p3.idle == p.idle;
    assert p1.size == p.size && p2.size == p.size && p3.size == p.size;
  }

  // ---- the pool as its users call it ---------------------------------------------------------------------------

  datatype Ending = Returned | Raised

  class ConnectionPool {
    var state: Pool

    ghost predicate Valid()
      reads this
    {
      Inv(state)
    }

    constructor (size: nat)
      ensures Valid() && state == Fresh(size)
    {
      state := Fresh(size);
      FreshInv(size);
    }

    /** None: the pool is exhausted. */
    method GetConnection() returns (i: Option<nat>)
      requires Valid()
      modifies this
      ensures Valid() && (i.None? <==> old(state).idle == {})
      ensures i.None? ==> state == old(state)
      ensures i.Some? ==>
                && i.value == |old(state).checkouts|
                && exists slot :: slot in old(state).idle && state == Next(old(state), Get(slot))
    {
      if state.idle == {} { return None; }
      var slot :| slot in state.idle;
      NextKeepsInv(state, Get(slot));
      i := Some(|state.checkouts|);
      state := Next(state, Get(slot));
    }

    /** conn.close(), any number of times. */
    method GuardedClose(i: nat)
      requires Valid() && i < |state.checkouts| && !state.checkouts[i].dropped && !state.checkouts[i].pending
      modifies this
      ensures Valid()
      ensures old(state).checkouts[i].closed ==> state == old(state)
      ensures !old(state).checkouts[i].closed ==> state == Next(Next(old(state), Close(i)), RealClose(i))
      ensures state.checkouts[i].closed && !state.checkouts[i].pending
              && state.checkouts[i].slot == old(state).checkouts[i].slot
    {
      if state.checkouts[i].closed { return; }
      NextKeepsInv(state, Close(i));
      state := Next(state, Close(i));
      NextKeepsInv(state, RealClose(i));
      state := Next(state, RealClose(i));
    }

    /** get_db_cursor around a body that writes `writes` and may raise. Whatever happens, the slot comes back; the
        writes last exactly when the body returned, a commit was asked for and it succeeded, and any exception
        goes on. */
    method WithCursor<W>(stored: seq<W>, writes: seq<W>, bodyEnds: Ending, commit: bool, commitEnds: Ending)
      returns (after: seq<W>, ends: Ending)
      requires Valid()
      modifies this
      ensures Valid() && state.idle == old(state).idle
              && CheckedOut(state.checkouts) == CheckedOut(old(state).checkouts)
      ensures old(state).idle == {} ==> after == stored && ends == Raised
      ensures old(state).idle != {} ==>
                after == if bodyEnds == Returned && commit && commitEnds == Returned then stored + writes else stored
      ensures old(state).idle != {} ==>
                (ends == Returned <==> bodyEnds == Returned && (commit ==> commitEnds == Returned))
    {
      var conn := GetConnection();
      if conn.None? { return stored, Raised; }
      after, ends := stored, bodyEnds;
      if bodyEnds == Returned && commit {
        if commitEnds == Returned { after := stored + writes; }
        ends := commitEnds;
      }
      ghost var slot :| slot in old(state).idle && state == Next(old(state), Get(slot));
      GetThenClose(old(state), slot);
      GuardedClose(conn.value);
    }
  }
}
