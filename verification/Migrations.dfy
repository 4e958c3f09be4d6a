/** The migration tracker (migrate.py): what is executed, what is recorded, and what a run that is cut short leaves
    behind. S is everything the migrations change (schema and data), V the variables and prepared statements of one
    session, T one statement. A statement may fail. DDL commits itself and whatever came before it; everything else is
    undone when the run dies before its commit. The session is lost with the process. */
module Migrations {
  import opened Options

  /** What a session sees: the database, its own uncommitted changes included, and its variables. */
  datatype Session<+S, +V> = Session(db: S, vars: V)

  /** `blank`: the variables of a new session. Whether a statement commits itself may depend on where it is executed:
      EXECUTE of a prepared text does when that text is DDL, and not when it is the SELECT of a skipped change. */
  datatype Engine<!S, !V, !T> = Engine(blank: V, exec: (Session<S, V>, T) -> Option<Session<S, V>>,
                                       commits: (Session<S, V>, T) -> bool)

  datatype Via = Script | Baseline

  /** One statement executed: the file and the statement's position in it. */
  datatype Executed = Executed(file: string, index: nat)

  datatype Db<+S> = Db(schema: S, recorded: map<string, Via>, log: seq<Executed>)

  // ---- one file --------------------------------------------------------------------------

  /** Where the statement loop of cmd_apply is: `working` is what the session sees, `durable` what a rollback returns
      to. */
  datatype Attempt<+S, +V> = Attempt(working: Session<S, V>, durable: S, executed: nat, left: nat, failed: bool)

  /** `left` counts the steps the process still lives: it is cut off when they are used up. */
  function Execute<S, V, T>(eng: Engine<S, V, T>, stmts: seq<T>, i: nat, working: Session<S, V>, durable: S,
                            left: nat): Attempt<S, V>
    requires i <= |stmts|
    decreases |stmts| - i
  {
    if i == |stmts| then Attempt(working, durable, i, left, false)
    else if left == 0 then Attempt(working, durable, i, 0, true)
    else
      var commits := eng.commits(working, stmts[i]);
      match eng.exec(working, stmts[i])
      case None => Attempt(working, if commits then working.db else durable, i, left - 1, true)
      case Some(w) => Execute(eng, stmts, i + 1, w, if commits then w.db else durable, left - 1)
  }

  function Entries(file: string, n: nat): seq<Executed> {
    seq(n, i requires 0 <= i < n => Executed(file, i))
  }

  datatype Outcome<+S> = Outcome(db: Db<S>, left: nat, ok: bool)

  /** `vars`: the session's variables, left by the files that the same run has applied before. */
  function ApplyFile<S, V, T>(eng: Engine<S, V, T>, files: map<string, seq<T>>, db: Db<S>, f: string, vars: V,
                              budget: nat): Outcome<S> {
    if f in db.recorded then Outcome(db, budget, true)
    else if f !in files then Outcome(db, budget, false)
    else
      var a := Execute(eng, files[f], 0, Session(db.schema, vars), db.schema, budget);
      var log := db.log + Entries(f, a.executed);
      if a.failed || a.left == 0 then Outcome(Db(a.durable, db.recorded, log), a.left, false)
      else Outcome(Db(a.working.db, db.recorded[f := Script], log), a.left - 1, true)
  }

  function VarsAfter<S, V, T>(eng: Engine<S, V, T>, files: map<string, seq<T>>, db: Db<S>, f: string, vars: V,
                              budget: nat): V {
    if f in db.recorded || f !in files then vars
    else Execute(eng, files[f], 0, Session(db.schema, vars), db.schema, budget).working.vars
  }

  // ---- a whole run -----------------------------------------------------------------------

  function Pending<S>(db: Db<S>, names: seq<string>): seq<string> {
    if names == [] then []
    else (if names[0] in db.recorded then [] else [names[0]]) + Pending(db, names[1..])
  }

  function ApplyEach<S, V, T>(eng: Engine<S, V, T>, files: map<string, seq<T>>, db: Db<S>, names: seq<string>, vars: V,
                              budget: nat): Outcome<S>
    decreases |names|
  {
    if names == [] then Outcome(db, budget, true)
    else
      var one := ApplyFile(eng, files, db, names[0], vars, budget);
      if !one.ok then one
      else ApplyEach(eng, files, one.db, names[1..], VarsAfter(eng, files, db, names[0], vars, budget), one.left)
  }

  /** The part of a file name before its first underscore. */
  function Prefix(name: string): string {
    if name == "" || name[0] == '_' then "" else [name[0]] + Prefix(name[1..])
  }

  predicate IsNumber(s: string) {
    s != "" && forall i :: 0 <= i < |s| ==> '0' <= s[i] <= '9'
  }

  function Numbered(names: seq<string>, prefix: string): seq<string> {
    if names == [] then [] else
    var last := names[|names| - 1];
    Numbered(names[..|names| - 1], prefix) + (if Prefix(last) == prefix then [last] else [])
  }

  /** The numbers used by more than one file, each with its files in listing order. */
  function Collisions(names: seq<string>): map<string, seq<string>> {
    map p | p in Numbers(names) && |Numbered(names, p)| > 1 :: Numbered(names, p)
  }

  function Numbers(names: seq<string>): set<string> {
    set f | f in names && IsNumber(Prefix(f)) :: Prefix(f)
  }

  function Groups(names: seq<string>): map<string, seq<string>> {
    map p | p in Numbers(names) :: Numbered(names, p)
  }

  function ApplyAllPending<S, V, T>(eng: Engine<S, V, T>, files: map<string, seq<T>>, names: seq<string>, db: Db<S>,
                                    budget: nat): Outcome<S> {
    if Collisions(names) != map[] then Outcome(db, budget, false)
    else ApplyEach(eng, files, db, Pending(db, names), eng.blank, budget)
  }

  /** Marking files as applied is one transaction: an unknown name or one listed twice leaves nothing marked. */
  function MarkBaseline<S>(db: Db<S>, names: seq<string>, marked: map<string, Via>,
                           listing: seq<string>): Option<map<string, Via>> {
    if names == [] then Some(marked)
    else if names[0] !in listing then None
    else if names[0] in db.recorded then MarkBaseline(db, names[1..], marked, listing)
    else if names[0] in marked then None
    else MarkBaseline(db, names[1..], marked[names[0] := Baseline], listing)
  }

  function BaselineFiles<S>(db: Db<S>, names: seq<string>, listing: seq<string>): Outcome<S> {
    match MarkBaseline(db, names, db.recorded, listing)
    case None => Outcome(db, 0, false)
    case Some(marked) => Outcome(db.(recorded := marked), 0, true)
  }

  const BOOTSTRAP_COVERED: seq<string> := [
    "002_resources_region_instance_state.sql",
    "003_metric_catalog_full.sql",
    "009_multi_cloud_provider_columns.sql"
  ]

  function Among(names: seq<string>, listing: seq<string>): seq<string> {
    if names == [] then [] else (if names[0] in listing then [names[0]] else []) + Among(names[1..], listing)
  }

  function Bootstrap<S, V, T>(eng: Engine<S, V, T>, files: map<string, seq<T>>, names: seq<string>, db: Db<S>,
                              budget: nat): Outcome<S> {
    var marked := BaselineFiles(db, Among(BOOTSTRAP_COVERED, names), names);
    if marked.ok then ApplyAllPending(eng, files, names, marked.db, budget) else marked
  }

  // ---- the commands as they run ----------------------------------------------------------

  function WithName(groups: map<string, seq<string>>, f: string): map<string, seq<string>> {
    var p := Prefix(f);
    if !IsNumber(p) then groups else groups[p := (if p in groups then groups[p] else []) + [f]]
  }

  lemma {:induction false} NumberedNone(names: seq<string>, p: string)
    requires forall f :: f in names ==> Prefix(f) != p
    ensures Numbered(names, p) == []
  {
    if names != [] { NumberedNone(names[..|names| - 1], p); }
  }

  lemma NumbersStep(names: seq<string>, f: string)
    ensures Numbers(names + [f]) == if IsNumber(Prefix(f)) then Numbers(names) + {Prefix(f)} else Numbers(names)
  {
    var all, want := names + [f], if IsNumber(Prefix(f)) then Numbers(names) + {Prefix(f)} else Numbers(names);
    assert all[|names|] == f;
    forall p | p in want ensures p in Numbers(all) {
      if p in Numbers(names) {
        var g :| g in names && IsNumber(Prefix(g)) && Prefix(g) == p;
        assert g in all;
      }
    }
    forall p | p in Numbers(all) ensures p in want {
      var g :| g in all && IsNumber(Prefix(g)) && Prefix(g) == p;
      assert g in names || g == f;
    }
  }

  lemma NumberedStep(names: seq<string>, f: string, q: string)
    ensures Numbered(names + [f], q) == Numbered(names, q) + if Prefix(f) == q then [f] else []
  {
    assert (names + [f])[..|names|] == names;
  }

  lemma SameMap<K, V>(x: map<K, V>, y: map<K, V>)
    requires x.Keys == y.Keys && forall k :: k in x ==> x[k] == y[k]
    ensures x == y
  {
  }

  lemma GroupAt(names: seq<string>, f: string, q: string)
    requires q in Numbers(names + [f])
    ensures q in WithName(Groups(names), f) && Groups(names + [f])[q] == WithName(Groups(names), f)[q]
  {
    NumbersStep(names, f);
    NumberedStep(names, f, q);
    assert Groups(names + [f])[q] == Numbered(names + [f], q);
    if q != Prefix(f) {
      assert Numbered(names, q) + [] == Numbered(names, q);
    } else if q !in Numbers(names) {
      NumberedNone(names, q);
    }
  }

  lemma GroupsStep(names: seq<string>, f: string)
    ensures Groups(names + [f]) == WithName(Groups(names), f)
  {
    NumbersStep(names, f);
    assert Groups(names + [f]).Keys == Numbers(names + [f]) && Groups(names).Keys == Numbers(names);
    forall q | q in Numbers(names + [f])
      ensures Groups(names + [f])[q] == WithName(Groups(names), f)[q]
    {
      GroupAt(names, f, q);
    }
    SameMap(Groups(names + [f]), WithName(Groups(names), f));
  }

  method FindNumberCollisions(names: seq<string>) returns (collisions: map<string, seq<string>>)
    ensures collisions == Collisions(names)
  {
    var prefixes: map<string, seq<string>> := map[];
    for n := 0 to |names|
      invariant prefixes == Groups(names[..n])
    {
      var f, p := names[n], Prefix(names[n]);
      assert names[..n] + [f] == names[..n + 1];
      GroupsStep(names[..n], f);
      if IsNumber(p) {
        if p !in prefixes { prefixes := prefixes[p := []]; }
        prefixes := prefixes[p := prefixes[p] + [f]];
      }
    }
    assert names[..|names|] == names;
    collisions := map p | p in prefixes && |prefixes[p]| > 1 :: prefixes[p];
  }

  predicate HasNumberAt(names: seq<string>, i: int, p: string) {
    0 <= i < |names| && Prefix(names[i]) == p
  }

  lemma HasNumberStep(names: seq<string>, i: int, p: string)
    requires names != []
    ensures var n := |names| - 1;
            HasNumberAt(names, i, p) <==> HasNumberAt(names[..n], i, p) || (i == n && Prefix(names[n]) == p)
  {
  }

  lemma {:induction false} SomeNumbered(names: seq<string>, p: string)
    ensures |Numbered(names, p)| > 0 <==> exists i :: HasNumberAt(names, i, p)
  {
    if names != [] {
      var n := |names| - 1;
      SomeNumbered(names[..n], p);
      HasNumberStep(names, n, p);
      if i :| HasNumberAt(names, i, p) { HasNumberStep(names, i, p); }
      if i :| HasNumberAt(names[..n], i, p) { HasNumberStep(names, i, p); }
    }
  }

  lemma {:induction false} TwoNumbered(names: seq<string>, p: string)
    ensures |Numbered(names, p)| > 1 <==> exists i, j :: i < j && HasNumberAt(names, i, p) && HasNumberAt(names, j, p)
  {
    if names != [] {
      var n := |names| - 1;
      TwoNumbered(names[..n], p);
      SomeNumbered(names[..n], p);
      HasNumberStep(names, n, p);
      if i :| HasNumberAt(names[..n], i, p) && Prefix(names[n]) == p { HasNumberStep(names, i, p); }
      if i, j :| i < j && HasNumberAt(names[..n], i, p) && HasNumberAt(names[..n], j, p) {
        HasNumberStep(names, i, p);
        HasNumberStep(names, j, p);
      }
      if i, j :| i < j && HasNumberAt(names, i, p) && HasNumberAt(names, j, p) {
        HasNumberStep(names, i, p);
        HasNumberStep(names, j, p);
      }
    }
  }

  /** `apply --all-pending` is refused exactly when two listed files carry the same number. */
  lemma RefusedExactlyOnCollision(names: seq<string>)
    ensures Collisions(names) != map[] <==>
            exists p, i, j :: IsNumber(p) && i < j && HasNumberAt(names, i, p) && HasNumberAt(names, j, p)
  {
    if p :| p in Collisions(names) {
      TwoNumbered(names, p);
    }
    if p, i, j :| IsNumber(p) && i < j && HasNumberAt(names, i, p) && HasNumberAt(names, j, p) {
      TwoNumbered(names, p);
      assert names[i] in names;
      assert p in Collisions(names);
    }
  }

  class Database<S> {
    var schema: S
    var recorded: map<string, Via>
    ghost var log: seq<Executed>

    ghost function Contents(): Db<S>
      reads this
    {
      Db(schema, recorded, log)
    }

    constructor (schema: S)
      ensures Contents() == Db(schema, map[], [])
    {
      this.schema, recorded, log := schema, map[], [];
    }

    /** On a connection whose session holds `vars`, and `after` when the file has been applied. */
    method Apply<V, T>(eng: Engine<S, V, T>, files: map<string, seq<T>>, f: string, vars: V, budget: nat)
      returns (left: nat, ok: bool, after: V)
      modifies this
      ensures Outcome(Contents(), left, ok) == ApplyFile(eng, files, old(Contents()), f, vars, budget)
      ensures after == VarsAfter(eng, files, old(Contents()), f, vars, budget)
    {
      if f in recorded { return budget, true, vars; }
      if f !in files { return budget, false, vars; }
      var stmts, working, durable, i := files[f], Session(schema, vars), schema, 0;
      ghost var first := working;
      left, ok := budget, true;
      while ok && i < |stmts|
        invariant i <= |stmts| && schema == old(schema) && recorded == old(recorded) && log == old(log)
        invariant ok ==>
                    Execute(eng, stmts, 0, first, schema, budget) == Execute(eng, stmts, i, working, durable, left)
        invariant !ok ==> Execute(eng, stmts, 0, first, schema, budget) == Attempt(working, durable, i, left, true)
        decreases ok, |stmts| - i
      {
        if left == 0 {
          ok := false;
        } else {
          var next, commits := eng.exec(working, stmts[i]), eng.commits(working, stmts[i]);
          left := left - 1;
          if next.None? {
            durable := if commits then working.db else durable;
            ok := false;
          } else {
            working := next.value;
            durable := if commits then working.db else durable;
            i := i + 1;
          }
        }
      }
      after := working.vars;
      log := log + Entries(f, i);
      if !ok || left == 0 {
        schema := durable;                    // rollback
        ok := false;
      } else {
        schema, recorded := working.db, recorded[f := Script];
        left := left - 1;
      }
    }

    method ApplyAll<V, T>(eng: Engine<S, V, T>, files: map<string, seq<T>>, names: seq<string>, budget: nat)
      returns (left: nat, ok: bool)
      modifies this
      ensures Outcome(Contents(), left, ok) == ApplyAllPending(eng, files, names, old(Contents()), budget)
    {
      var dupes := FindNumberCollisions(names);
      if dupes != map[] { return budget, false; }
      ghost var pending := Pending(Contents(), names);
      var todo := ListPending(names);
      var vars := eng.blank;
      left, ok := budget, true;
      while ok && todo != []
        invariant ok ==>
                    ApplyEach(eng, files, old(Contents()), pending, eng.blank, budget) ==
                    ApplyEach(eng, files, Contents(), todo, vars, left)
        invariant !ok ==>
                    ApplyEach(eng, files, old(Contents()), pending, eng.blank, budget) ==
                    Outcome(Contents(), left, false)
        decreases ok, |todo|
      {
        left, ok, vars := Apply(eng, files, todo[0], vars, left);
        if ok { todo := todo[1..]; }
      }
    }

    method ListPending(names: seq<string>) returns (pending: seq<string>)
      ensures pending == Pending(Contents(), names)
    {
      pending := [];
      ghost var db := Contents();
      for n := 0 to |names|
        invariant Pending(db, names) == pending + Pending(db, names[n..])
      {
        ghost var rest := Pending(db, names[n + 1..]);
        assert names[n..][0] == names[n] && names[n..][1..] == names[n + 1..];
        if names[n] !in recorded {
          assert Pending(db, names[n..]) == [names[n]] + rest;
          assert pending + ([names[n]] + rest) == (pending + [names[n]]) + rest;
          pending := pending + [names[n]];
        } else {
          assert Pending(db, names[n..]) == rest;
        }
      }
    }

    method BaselineAll(names: seq<string>, listing: seq<string>) returns (ok: bool)
      modifies this
      ensures Outcome(Contents(), 0, ok) == BaselineFiles(old(Contents()), names, listing)
    {
      var marked := recorded;
      for n := 0 to |names|
        invariant Contents() == old(Contents())
        invariant MarkBaseline(Contents(), names, recorded, listing) ==
                    MarkBaseline(Contents(), names[n..], marked, listing)
      {
        assert names[n..][1..] == names[n + 1..];
        if names[n] !in listing { return false; }
        if names[n] !in recorded {
          if names[n] in marked { return false; }
          marked := marked[names[n] := Baseline];
        }
      }
      recorded := marked;
      ok := true;
    }

    method BootstrapAll<V, T>(eng: Engine<S, V, T>, files: map<string, seq<T>>, names: seq<string>, budget: nat)
      returns (left: nat, ok: bool)
      modifies this
      ensures Bootstrap(eng, files, names, old(Contents()), budget).db == Contents()
      ensures Bootstrap(eng, files, names, old(Contents()), budget).ok == ok
    {
      ok := BaselineAll(Among(BOOTSTRAP_COVERED, names), names);
      left := budget;
      if ok { left, ok := ApplyAll(eng, files, names, budget); }
    }
  }
}
