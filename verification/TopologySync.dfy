/** Auto-detected edges of the dependency graph (app/topology_sync.py over
    db/migrations/021_resource_relationships.sql). */
module TopologySync {
  import opened Options

  /** Accounts are written as the database writes their number. */
  datatype Edge = Edge(account: string, src: string, tgt: string, kind: string, manual: bool)

  type Pair = (string, string)

  /** What the generated edge_hash column hashes; the hash itself is taken to be injective. */
  function HashInput(e: Edge): string {
    e.account + ":" + e.src + ":" + e.tgt + ":" + e.kind
  }

  /** Rows by the unique edge_hash. */
  type Table = map<string, Edge>

  ghost predicate Keyed(t: Table) {
    forall h :: h in t ==> HashInput(t[h]) == h
  }

  ghost predicate Holds(t: Table, e: Edge) {
    HashInput(e) in t && t[HashInput(e)] == e
  }

  // ---- one call ------------------------------------------------------------------------------------

  function Auto(account: string, kind: string, p: Pair): Edge {
    Edge(account, p.0, p.1, kind, false)
  }

  /** INSERT ... ON DUPLICATE KEY UPDATE source_resource_id. None: the updated row would repeat another row's key. */
  function Upsert(t: Table, e: Edge): Option<Table> {
    var h := HashInput(e);
    if h !in t then Some(t[h := e]) else
    var d := t[h].(src := e.src);
    var rest := t - {h};
    if HashInput(d) in rest then None else Some(rest[HashInput(d) := d])
  }

  function UpsertAll(t: Table, account: string, kind: string, pairs: seq<Pair>): Option<Table> {
    if pairs == [] then Some(t) else
    var n := |pairs| - 1;
    var before := UpsertAll(t, account, kind, pairs[..n]);
    if before.None? then None else Upsert(before.value, Auto(account, kind, pairs[n]))
  }

  predicate AutoInScope(e: Edge, account: string, kind: string) {
    e.account == account && e.kind == kind && !e.manual
  }

  function Prune(t: Table, account: string, kind: string, pairs: seq<Pair>): Table {
    map h | h in t && !(AutoInScope(t[h], account, kind) && (t[h].src, t[h].tgt) !in pairs) :: t[h]
  }

  function Dedup(pairs: seq<Pair>): (r: seq<Pair>)
    ensures (r == [] <==> pairs == []) && forall p :: p in r <==> p in pairs
    ensures forall i, j :: 0 <= i < j < |r| ==> r[i] != r[j]
  {
    if pairs == [] then [] else
    var n := |pairs| - 1;
    var r := Dedup(pairs[..n]);
    assert pairs == pairs[..n] + [pairs[n]];
    if pairs[n] in r then r else r + [pairs[n]]
  }

  /** A call in which no statement fails for a reason of its own. */
  function Sync(t: Table, account: string, kind: string, pairs: seq<Pair>): Option<Table> {
    var ps := Dedup(pairs);
    if ps == [] then Some(t) else
    var written := UpsertAll(t, account, kind, ps);
    if written.None? then None else Some(Prune(written.value, account, kind, ps))
  }

  class EdgeTable {
    var rows: Table

    /** `fails(i)`: the i-th statement raises. Whatever raises, everything is rolled back. */
    method SyncAutoEdges(account: string, kind: string, pairs: seq<Pair>, fails: nat -> bool) returns (written: nat)
      modifies this
      ensures written > 0 ==> Sync(old(rows), account, kind, pairs) == Some(rows) && written == |Dedup(pairs)|
      ensures written == 0 ==> rows == old(rows)
      ensures pairs != [] && (forall i :: !fails(i)) && Sync(old(rows), account, kind, pairs).Some? ==> written > 0
    {
      var ps := Dedup(pairs);
      if ps == [] { return 0; }
      var before := rows;
      for i := 0 to |ps|
        invariant UpsertAll(before, account, kind, ps[..i]) == Some(rows)
      {
        assert ps[..i + 1][..i] == ps[..i];
        var next := Upsert(rows, Auto(account, kind, ps[i]));
        if fails(i) || next.None? {
          rows := before;
          UpsertAllStops(before, account, kind, ps, i);
          return 0;
        }
        rows := next.value;
      }
      assert ps[..|ps|] == ps;
      var stale := set h | h in rows && AutoInScope(rows[h], account, kind) && (rows[h].src, rows[h].tgt) !in ps;
      if fails(|ps|) || (stale != {} && fails(|ps| + 1)) || fails(|ps| + 2) {
        rows := before;
        return 0;
      }
      assert rows - stale == Prune(rows, account, kind, ps);
      rows := rows - stale;
      return |ps|;
    }
  }

  /** A step that fails fails the whole. */
  lemma {:induction false} UpsertAllStops(t: Table, account: string, kind: string, ps: seq<Pair>, i: nat)
    requires i < |ps|
    ensures UpsertAll(t, account, kind, ps[..i + 1]).None? ==> UpsertAll(t, account, kind, ps).None?
    decreases |ps|
  {
    if i == |ps| - 1 {
      assert ps[..i + 1] == ps;
    } else {
      UpsertAllStops(t, account, kind, ps[..|ps| - 1], i);
      assert ps[..|ps| - 1][..i + 1] == ps[..i + 1];
    }
  }

  // ---- what a call leaves behind ------------------------------------------------------------------------

  predicate SameTuple(d: Edge, e: Edge) {
    d.(manual := false) == e.(manual := false)
  }

  /** No stored row that is not this very edge has the edge's key. */
  ghost predicate NoClash(t: Table, e: Edge) {
    forall h :: h in t && h == HashInput(e) ==> SameTuple(t[h], e)
  }

  lemma SameLengthSplit(a: string, b: string, c: string, d: string)
    requires a + b == c + d && |a| == |c|
    ensures a == c && b == d
  {
    assert (a + b)[..|a|] == (c + d)[..|c|];
    assert (a + b)[|a|..] == (c + d)[|c|..];
  }

  /** Writing an edge keeps every other row, and leaves the edge or the manual row it repeats, exactly when no different
      row has its key. When one has, that row's source is overwritten. */
  lemma UpsertExactly(t: Table, e: Edge)
    requires Keyed(t)
    ensures NoClash(t, e) <==>
              && Upsert(t, e).Some?
              && (forall d :: Holds(t, d) ==> Holds(Upsert(t, e).value, d))
              && (Holds(Upsert(t, e).value, e) || Holds(Upsert(t, e).value, e.(manual := !e.manual)))
  {
    var h := HashInput(e);
    if NoClash(t, e) {
      if h in t {
        var d := t[h];
        assert d.(src := e.src) == d;
        assert (t - {h})[h := d] == t;
      }
    } else {
      var d := t[h];
      assert HashInput(d) == h && Holds(t, d);
      if Upsert(t, e).Some? {
        var t' := Upsert(t, e).value;
        var d' := d.(src := e.src);
        assert h in t' ==> t'[h] == d';
        if d' != d { assert !Holds(t', d); }
      }
    }
  }

  /** The stored rows and the given pairs all have keys of their own. */
  ghost predicate Unambiguous(t: Table, account: string, kind: string, pairs: seq<Pair>) {
    && Keyed(t)
    && (forall p :: p in pairs ==> NoClash(t, Auto(account, kind, p)))
    && (forall p, q ::
          p in pairs && q in pairs && HashInput(Auto(account, kind, p)) == HashInput(Auto(account, kind, q)) ==> p == q)
  }

  ghost predicate KeyOfPair(h: string, account: string, kind: string, pairs: seq<Pair>, p: Pair) {
    p in pairs && HashInput(Auto(account, kind, p)) == h
  }

  /** What the writing loop has made of the table. */
  ghost predicate Added(t: Table, account: string, kind: string, pairs: seq<Pair>, t': Table) {
    && (forall h :: h in t ==> h in t' && t'[h] == t[h])
    && (forall h :: h in t' && h !in t ==>
        t'[h] == Auto(account, kind, (t'[h].src, t'[h].tgt))
          && KeyOfPair(h, account, kind, pairs, (t'[h].src, t'[h].tgt)))
    && (forall p :: p in pairs ==> HashInput(Auto(account, kind, p)) in t')
  }

  lemma AddedMore(t: Table, account: string, kind: string, pairs: seq<Pair>, p: Pair, t': Table)
    requires Unambiguous(t, account, kind, pairs + [p]) && Added(t, account, kind, pairs, t')
    ensures var u := Upsert(t', Auto(account, kind, p)); u.Some? && Added(t, account, kind, pairs + [p], u.value)
  {
    var e := Auto(account, kind, p);
    var h := HashInput(e);
    assert p in pairs + [p] && forall q :: q in pairs ==> q in pairs + [p];
    if h in t' {
      if h in t { assert NoClash(t, e); } else { assert KeyOfPair(h, account, kind, pairs, (t'[h].src, t'[h].tgt)); }
      assert t'[h].(src := e.src) == t'[h] && HashInput(t'[h]) == h;
      assert (t' - {h})[h := t'[h]] == t';
    }
  }

  lemma {:induction false} UpsertAllAdds(t: Table, account: string, kind: string, pairs: seq<Pair>)
    requires Unambiguous(t, account, kind, pairs)
    ensures UpsertAll(t, account, kind, pairs).Some?
            && Added(t, account, kind, pairs, UpsertAll(t, account, kind, pairs).value)
    decreases |pairs|
  {
    if pairs != [] {
      var n := |pairs| - 1;
      assert pairs == pairs[..n] + [pairs[n]];
      UpsertAllAdds(t, account, kind, pairs[..n]);
      AddedMore(t, account, kind, pairs[..n], pairs[n], UpsertAll(t, account, kind, pairs[..n]).value);
    }
  }

  /** After a successful call the scope's auto edges are exactly the pairs that are not manual edges; every other row is
      as it was. */
  lemma SyncExactly(t: Table, account: string, kind: string, pairs: seq<Pair>, e: Edge)
    requires pairs != [] && Unambiguous(t, account, kind, pairs)
    ensures Sync(t, account, kind, pairs).Some?
    ensures Holds(Sync(t, account, kind, pairs).value, e) <==>
              if AutoInScope(e, account, kind) then (e.src, e.tgt) in pairs && !Holds(t, e.(manual := true))
              else Holds(t, e)
  {
    var ps := Dedup(pairs);
    assert pairs[0] in ps;
    UpsertAllAdds(t, account, kind, ps);
    var h := HashInput(e);
    assert HashInput(e.(manual := true)) == h;
    if AutoInScope(e, account, kind) && (e.src, e.tgt) in pairs {
      assert e == Auto(account, kind, (e.src, e.tgt)) && NoClash(t, e);
      if h in t { assert t[h] == e || t[h] == e.(manual := true); }
    }
  }

  /** A row of the pair's own tuple, auto or manual, is stored. */
  ghost predicate Present(t: Table, account: string, kind: string, p: Pair) {
    HashInput(Auto(account, kind, p)) in t && SameTuple(t[HashInput(Auto(account, kind, p))], Auto(account, kind, p))
  }

  /** What a call promises of every row: the scope's auto edges are exactly the pairs that are not manual edges, and
      every other row, of this scope or another, is as it was. */
  ghost predicate Promised(t: Table, account: string, kind: string, pairs: seq<Pair>, t': Table, e: Edge) {
    Holds(t', e) <==>
      if AutoInScope(e, account, kind) then (e.src, e.tgt) in pairs && !Holds(t, e.(manual := true)) else Holds(t, e)
  }

  ghost predicate SyncedAsPromised(t: Table, account: string, kind: string, pairs: seq<Pair>) {
    && Sync(t, account, kind, pairs).Some?
    && forall e :: Promised(t, account, kind, pairs, Sync(t, account, kind, pairs).value, e)
  }

  lemma AddedArePresent(t: Table, account: string, kind: string, pairs: seq<Pair>, t': Table, p: Pair)
    requires Unambiguous(t, account, kind, pairs) && Added(t, account, kind, pairs, t') && p in pairs
    ensures Present(t', account, kind, p)
  {
    var e := Auto(account, kind, p);
    var h := HashInput(e);
    if h in t {
      assert NoClash(t, e) && t'[h] == t[h];
    } else {
      assert KeyOfPair(h, account, kind, pairs, (t'[h].src, t'[h].tgt));
    }
  }

  /** One step of the loop on a pair that has not been written yet: another pair that is missing stays missing; a
      different row under the pair's key leaves the pair itself missing. */
  lemma StepLosesNoLoss(t: Table, account: string, kind: string, p: Pair, q: Pair)
    requires p != q && Upsert(t, Auto(account, kind, q)).Some?
    ensures var t' := Upsert(t, Auto(account, kind, q)).value;
            || !Present(t', account, kind, q)
            || (Present(t', account, kind, p) ==> Present(t, account, kind, p))
  {
    var e := Auto(account, kind, q);
    var h := HashInput(e);
    if h in t && Present(t, account, kind, q) {
      assert (t - {h})[HashInput(t[h].(src := e.src)) := t[h].(src := e.src)] == t by {
        assert t[h].(src := e.src) == t[h] && SameTuple(t[h], e) && HashInput(t[h]) == h;
      }
    }
  }

  /** A step that meets a different row under its pair's key leaves the pair missing. */
  lemma ClashLosesThePair(t: Table, e: Edge)
    requires Keyed(t) && !NoClash(t, e) && Upsert(t, e).Some?
    ensures var t' := Upsert(t, e).value; HashInput(e) in t' ==> !SameTuple(t'[HashInput(e)], e)
  {
    var h := HashInput(e);
    var d := t[h];
    var d' := d.(src := e.src);
    assert HashInput(d) == h;
    if HashInput(d') == h { SourceOfKey(d, e.src); }
  }

  /** Changing only the source of an edge changes its key. */
  lemma SourceOfKey(d: Edge, src: string)
    requires HashInput(d.(src := src)) == HashInput(d)
    ensures src == d.src
  {
    var head, tail := d.account + ":", ":" + d.tgt + ":" + d.kind;
    assert HashInput(d) == head + (d.src + tail) && HashInput(d.(src := src)) == head + (src + tail);
    SameLengthSplit(head, d.src + tail, head, src + tail);
    SameLengthSplit(d.src, tail, src, tail);
  }

  lemma {:induction false} UpsertAllKeepsKeyed(t: Table, account: string, kind: string, pairs: seq<Pair>)
    requires Keyed(t) && UpsertAll(t, account, kind, pairs).Some?
    ensures Keyed(UpsertAll(t, account, kind, pairs).value)
    decreases |pairs|
  {
    if pairs != [] { UpsertAllKeepsKeyed(t, account, kind, pairs[..|pairs| - 1]); }
  }

  ghost predicate SomeMissing(t: Table, account: string, kind: string, pairs: seq<Pair>) {
    exists p :: p in pairs && !Present(t, account, kind, p)
  }

  /** After any loop over distinct pairs: nothing was ambiguous, or some pair is missing. */
  lemma {:induction false} AmbiguityLosesAPair(t: Table, account: string, kind: string, pairs: seq<Pair>)
    requires Keyed(t) && UpsertAll(t, account, kind, pairs).Some?
    requires forall i, j :: 0 <= i < j < |pairs| ==> pairs[i] != pairs[j]
    ensures Unambiguous(t, account, kind, pairs)
              || SomeMissing(UpsertAll(t, account, kind, pairs).value, account, kind, pairs)
    decreases |pairs|
  {
    if pairs != [] {
      var n := |pairs| - 1;
      var before, q := pairs[..n], pairs[n];
      assert pairs == before + [q] && q !in before;
      AmbiguityLosesAPair(t, account, kind, before);
      var u := UpsertAll(t, account, kind, before).value;
      UpsertAllKeepsKeyed(t, account, kind, before);
      var e := Auto(account, kind, q);
      if !NoClash(u, e) {
        ClashLosesThePair(u, e);
        assert q in pairs;
      } else if SomeMissing(u, account, kind, before) {
        var p :| p in before && !Present(u, account, kind, p);
        StepLosesNoLoss(u, account, kind, p, q);
        assert p in pairs && q in pairs;
      } else {
        UpsertAllAdds(t, account, kind, before);
        OneMoreUnambiguous(t, account, kind, before, q, u);
      }
    }
  }

  lemma OneMoreUnambiguous(t: Table, account: string, kind: string, before: seq<Pair>, q: Pair, u: Table)
    requires Unambiguous(t, account, kind, before) && Added(t, account, kind, before, u)
    requires NoClash(u, Auto(account, kind, q)) && q !in before
    ensures Unambiguous(t, account, kind, before + [q])
  {
    var e := Auto(account, kind, q);
    assert forall p :: p in before + [q] <==> p in before || p == q;
    assert NoClash(t, e) by { assert HashInput(e) in t ==> u[HashInput(e)] == t[HashInput(e)]; }
    forall p | p in before ensures HashInput(Auto(account, kind, p)) != HashInput(e) {
      AddedArePresent(t, account, kind, before, u, p);
    }
  }

  /** The exact theorem for a whole call: in any table, whatever scopes it holds, the call leaves what it promises if
      and only if the stored rows and the pairs all have keys of their own. */
  lemma SyncedExactlyWhenUnambiguous(t: Table, account: string, kind: string, pairs: seq<Pair>)
    requires pairs != [] && Keyed(t)
    ensures SyncedAsPromised(t, account, kind, pairs) <==> Unambiguous(t, account, kind, pairs)
  {
    var ps := Dedup(pairs);
    assert Unambiguous(t, account, kind, ps) <==> Unambiguous(t, account, kind, pairs);
    if Unambiguous(t, account, kind, pairs) {
      SyncExactly(t, account, kind, pairs, Auto(account, kind, pairs[0]));
      forall e ensures Promised(t, account, kind, pairs, Sync(t, account, kind, pairs).value, e) {
        SyncExactly(t, account, kind, pairs, e);
      }
    } else if SyncedAsPromised(t, account, kind, pairs) {
      AmbiguityLosesAPair(t, account, kind, ps);
      var u := UpsertAll(t, account, kind, ps).value;
      var p :| p in ps && !Present(u, account, kind, p);
      MissingIsBroken(t, account, kind, pairs, p);
      assert false;
    }
  }

  lemma MissingIsBroken(t: Table, account: string, kind: string, pairs: seq<Pair>, p: Pair)
    requires p in pairs && Sync(t, account, kind, pairs).Some?
    requires !Present(UpsertAll(t, account, kind, Dedup(pairs)).value, account, kind, p)
    ensures !SyncedAsPromised(t, account, kind, pairs)
  {
    var t' := Sync(t, account, kind, pairs).value;
    var e := Auto(account, kind, p);
    assert HashInput(e.(manual := true)) == HashInput(e);
    assert !Present(t', account, kind, p);
    assert !Holds(t', e) && !Holds(t', e.(manual := true));
    assert !Promised(t, account, kind, pairs, t', e) || !Promised(t, account, kind, pairs, t', e.(manual := true));
  }

  lemma {:induction false} NothingToWrite(t: Table, account: string, kind: string, pairs: seq<Pair>)
    requires Keyed(t) && forall p :: p in pairs ==> Present(t, account, kind, p)
    ensures UpsertAll(t, account, kind, pairs) == Some(t)
    decreases |pairs|
  {
    if pairs != [] {
      var n := |pairs| - 1;
      assert forall p :: p in pairs[..n] ==> p in pairs;
      NothingToWrite(t, account, kind, pairs[..n]);
      assert pairs[n] in pairs && Present(t, account, kind, pairs[n]);
      var e := Auto(account, kind, pairs[n]);
      var h := HashInput(e);
      assert t[h].(src := e.src) == t[h] && HashInput(t[h]) == h;
      assert (t - {h})[h := t[h]] == t;
    }
  }

  lemma PruneKeeps(t: Table, account: string, kind: string, pairs: seq<Pair>, p: Pair)
    requires Present(t, account, kind, p) && p in pairs
    ensures Present(Prune(t, account, kind, pairs), account, kind, p)
  {
  }

  lemma PruneTwice(t: Table, account: string, kind: string, pairs: seq<Pair>)
    ensures Prune(Prune(t, account, kind, pairs), account, kind, pairs) == Prune(t, account, kind, pairs)
  {
  }

  /** Repeating the call changes nothing. */
  lemma SyncTwice(t: Table, account: string, kind: string, pairs: seq<Pair>)
    requires pairs != [] && Unambiguous(t, account, kind, pairs)
    ensures Sync(t, account, kind, pairs).Some?
    ensures var t' := Sync(t, account, kind, pairs).value; Sync(t', account, kind, pairs) == Some(t')
  {
    var ps := Dedup(pairs);
    UpsertAllAdds(t, account, kind, ps);
    var u, t' := UpsertAll(t, account, kind, ps).value, Sync(t, account, kind, pairs).value;
    assert Keyed(t') by { UpsertAllKeepsKeyed(t, account, kind, ps); }
    forall p | p in ps ensures Present(t', account, kind, p) {
      AddedArePresent(t, account, kind, ps, u, p);
      PruneKeeps(u, account, kind, ps, p);
    }
    NothingToWrite(t', account, kind, ps);
    PruneTwice(u, account, kind, ps);
  }

  lemma FirstColonSplits(a: string, b: string, c: string, d: string)
    requires ':' !in a && ':' !in c && a + ":" + b == c + ":" + d
    ensures a == c && b == d
  {
    var x, y := a + ":" + b, c + ":" + d;
    assert x[|a|] == ':' && y[|c|] == ':';
    assert |a| == |c|;
    assert x == a + (":" + b) && y == c + (":" + d);
    SameLengthSplit(a, ":" + b, c, ":" + d);
    SameLengthSplit(":", b, ":", d);
  }

  lemma LastColonSplits(a: string, b: string, c: string, d: string)
    requires ':' !in b && ':' !in d && a + ":" + b == c + ":" + d
    ensures a == c && b == d
  {
    var x, y := a + ":" + b, c + ":" + d;
    assert x[|x| - |b| - 1] == ':' && y[|y| - |d| - 1] == ':';
    assert |b| == |d|;
    assert x == a + (":" + b) && y == c + (":" + d);
    SameLengthSplit(a, ":" + b, c, ":" + d);
    SameLengthSplit(":", b, ":", d);
  }

  predicate ColonFree(e: Edge) {
    ':' !in e.account && ':' !in e.src && ':' !in e.kind
  }

  /** Keys are unambiguous among edges whose source identifiers hold no ':'; targets may. */
  lemma ColonFreeSourcesAreUnambiguous(d: Edge, e: Edge)
    requires ColonFree(d) && ColonFree(e) && HashInput(d) == HashInput(e)
    ensures SameTuple(d, e)
  {
    assert HashInput(d) == d.account + ":" + (d.src + ":" + (d.tgt + ":" + d.kind));
    assert HashInput(e) == e.account + ":" + (e.src + ":" + (e.tgt + ":" + e.kind));
    FirstColonSplits(d.account, d.src + ":" + (d.tgt + ":" + d.kind), e.account, e.src + ":" + (e.tgt + ":" + e.kind));
    FirstColonSplits(d.src, d.tgt + ":" + d.kind, e.src, e.tgt + ":" + e.kind);
    LastColonSplits(d.tgt, d.kind, e.tgt, e.kind);
  }

  /** So a call keeps its promise in every table of such edges. */
  lemma ColonFreeCallsAreSynced(t: Table, account: string, kind: string, pairs: seq<Pair>)
    requires pairs != [] && Keyed(t) && (forall h :: h in t ==> ColonFree(t[h]))
    requires forall p :: p in pairs ==> ColonFree(Auto(account, kind, p))
    ensures SyncedAsPromised(t, account, kind, pairs)
  {
    forall p | p in pairs ensures NoClash(t, Auto(account, kind, p)) {
      var h := HashInput(Auto(account, kind, p));
      if h in t { ColonFreeSourcesAreUnambiguous(t[h], Auto(account, kind, p)); }
    }
    forall p, q | p in pairs && q in pairs && HashInput(Auto(account, kind, p)) == HashInput(Auto(account, kind, q))
      ensures p == q
    {
      ColonFreeSourcesAreUnambiguous(Auto(account, kind, p), Auto(account, kind, q));
    }
    SyncedExactlyWhenUnambiguous(t, account, kind, pairs);
  }

  /** The caveat is real: the key joins its parts with ':', which identifiers may contain. Here a call for one pair
      overwrites the source of a different, manual edge, and neither edge is left. */
  lemma KeysCanCoincide()
    ensures var manual := Edge("1", "a", "b:c", "invokes", true);
            var t: Table := map[HashInput(manual) := manual];
            var after := Sync(t, "1", "invokes", [("a:b", "c")]);
            && Keyed(t) && !NoClash(t, Auto("1", "invokes", ("a:b", "c")))
            && after.Some? && !Holds(after.value, manual) && !Holds(after.value, Auto("1", "invokes", ("a:b", "c")))
  {
    var manual := Edge("1", "a", "b:c", "invokes", true);
    var e := Auto("1", "invokes", ("a:b", "c"));
    var d := manual.(src := "a:b");
    assert HashInput(manual) == "1:a:b:c:invokes" && HashInput(e) == "1:a:b:c:invokes"
        && HashInput(d) == "1:a:b:b:c:invokes";
    assert |"1:a:b:b:c:invokes"| == 17 && |"1:a:b:c:invokes"| == 15;
    assert |"a"| == 1 && |"a:b"| == 3;
    SyncOnePair(manual, e, d);
  }

  /** One pair against one row that has its key. */
  lemma SyncOnePair(row: Edge, e: Edge, d: Edge)
    requires row.manual && !e.manual && row.account == e.account && row.kind == e.kind
    requires HashInput(row) == HashInput(e) && d == row.(src := e.src) && HashInput(d) != HashInput(row)
    ensures Sync(map[HashInput(row) := row], e.account, e.kind, [(e.src, e.tgt)]) == Some(map[HashInput(d) := d])
  {
    var t: Table := map[HashInput(row) := row];
    var pairs := [(e.src, e.tgt)];
    assert pairs[..0] == [];
    assert Dedup(pairs[..0]) == [] && pairs[0] == (e.src, e.tgt);
    assert Dedup(pairs) == pairs;
    assert Auto(e.account, e.kind, pairs[0]) == e;
    assert t - {HashInput(e)} == map[];
    assert Upsert(t, e) == Some(map[HashInput(d) := d]);
    assert UpsertAll(t, e.account, e.kind, pairs[..0]) == Some(t);
    assert UpsertAll(t, e.account, e.kind, pairs) == Upsert(t, e);
    var left: Table := map[HashInput(d) := d];
    assert Prune(left, e.account, e.kind, pairs) == left;
  }
}
