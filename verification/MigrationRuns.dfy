/** What holds over whole histories of migrate.py commands, however often they are cut short. */
module MigrationRuns {
  import opened Options
  import opened Migrations

  // ---- executing statements --------------------------------------------------------------

  function ExecSeq<S, V, T>(eng: Engine<S, V, T>, w: Session<S, V>, stmts: seq<T>): Option<Session<S, V>> {
    if stmts == [] then Some(w) else
    match ExecSeq(eng, w, stmts[..|stmts| - 1])
    case None => None
    case Some(m) => eng.exec(m, stmts[|stmts| - 1])
  }

  /** A new session on a database. */
  function Blank<S, V, T>(eng: Engine<S, V, T>, s: S): Session<S, V> {
    Session(s, eng.blank)
  }

  /** What the whole file makes of a database in a session of its own. */
  function RunFile<S, V, T>(eng: Engine<S, V, T>, s: S, stmts: seq<T>): Option<S> {
    match ExecSeq(eng, Blank(eng, s), stmts)
    case None => None
    case Some(w) => Some(w.db)
  }

  /** A file that is not on disk stops the run. */
  function ExecFiles<S, V, T>(eng: Engine<S, V, T>, files: map<string, seq<T>>, s: S, names: seq<string>): Option<S> {
    if names == [] then Some(s) else
    if names[0] !in files then None else
    match RunFile(eng, s, files[names[0]])
    case None => None
    case Some(m) => ExecFiles(eng, files, m, names[1..])
  }

  /** Running the file again, in a new session, after any beginning of it has already run ends where running it once
      would have. */
  ghost predicate Absorbs<S(!new), V(!new), T>(eng: Engine<S, V, T>, stmts: seq<T>) {
    forall s, k, m :: 0 <= k <= |stmts| && ExecSeq(eng, Blank(eng, s), stmts[..k]) == Some(m) ==>
      RunFile(eng, m.db, stmts) == RunFile(eng, s, stmts)
  }

  /** On this database the file does the same in a session where others ran before as in a new one, wherever it is cut:
      it sets its variables before it reads them. */
  ghost predicate Tidy<S, V(!new), T>(eng: Engine<S, V, T>, stmts: seq<T>, s: S) {
    forall vars: V, budget: nat ::
      SameEffect(Execute(eng, stmts, 0, Session(s, vars), s, budget), Execute(eng, stmts, 0, Blank(eng, s), s, budget))
  }

  ghost predicate SameEffect<S, V>(a: Attempt<S, V>, b: Attempt<S, V>) {
    a.(working := b.working) == b && a.working.db == b.working.db
  }

  lemma {:induction false} FailedPrefixFails<S, V, T>(eng: Engine<S, V, T>, w: Session<S, V>, stmts: seq<T>, i: nat)
    requires i <= |stmts| && ExecSeq(eng, w, stmts[..i]) == None
    ensures ExecSeq(eng, w, stmts) == None
  {
    if i < |stmts| {
      var front := stmts[..|stmts| - 1];
      assert front[..i] == stmts[..i];
      FailedPrefixFails(eng, w, front, i);
    } else {
      assert stmts[..i] == stmts;
    }
  }

  /** What the first k statements did can outlast the process: the last of them committed, or the one after them failed
      and committed what came before it. */
  predicate KeptAt<S, V, T>(eng: Engine<S, V, T>, w: Session<S, V>, stmts: seq<T>, k: nat) {
    && k <= |stmts| && ExecSeq(eng, w, stmts[..k]).Some?
    && (|| CommitsAt(eng, w, stmts, k - 1)
        || (CommitsAt(eng, w, stmts, k) && ExecSeq(eng, w, stmts[..k + 1]).None?))
  }

  /** Statement i is reached, and commits itself there. */
  predicate CommitsAt<S, V, T>(eng: Engine<S, V, T>, w: Session<S, V>, stmts: seq<T>, i: int) {
    0 <= i < |stmts| && ExecSeq(eng, w, stmts[..i]).Some? && eng.commits(ExecSeq(eng, w, stmts[..i]).value, stmts[i])
  }

  lemma ExecOneMore<S, V, T>(eng: Engine<S, V, T>, w: Session<S, V>, stmts: seq<T>, i: nat)
    requires i < |stmts| && ExecSeq(eng, w, stmts[..i]).Some?
    ensures ExecSeq(eng, w, stmts[..i + 1]) == eng.exec(ExecSeq(eng, w, stmts[..i]).value, stmts[i])
  {
    assert stmts[..i + 1][..|stmts[..i + 1]| - 1] == stmts[..i];
  }

  /** However the loop of cmd_apply ends, what stays in the database is what some beginning of the file produced, one
      that can outlast the process, and all of the file was executed if it did not fail. */
  lemma {:induction false} ExecuteKeepsAPrefix<S, V, T>(eng: Engine<S, V, T>, w: Session<S, V>, stmts: seq<T>, i: nat,
                                                        working: Session<S, V>, durable: S, left: nat, kept: nat)
    returns (k: nat)
    requires kept <= i <= |stmts| && ExecSeq(eng, w, stmts[..i]) == Some(working)
    requires ExecSeq(eng, w, stmts[..kept]).Some? && ExecSeq(eng, w, stmts[..kept]).value.db == durable
    requires kept == 0 || KeptAt(eng, w, stmts, kept)
    ensures var a := Execute(eng, stmts, i, working, durable, left);
            && k <= a.executed <= |stmts| && (k == 0 || KeptAt(eng, w, stmts, k))
            && ExecSeq(eng, w, stmts[..k]).Some? && ExecSeq(eng, w, stmts[..k]).value.db == a.durable
            && (!a.failed ==>
                  && a.executed == |stmts| && ExecSeq(eng, w, stmts) == Some(a.working)
                  && left == (|stmts| - i) + a.left)
            && (a.failed && left >= |stmts| - i ==> ExecSeq(eng, w, stmts) == None)
    decreases |stmts| - i
  {
    k := kept;
    if i == |stmts| {
      assert stmts[..i] == stmts;
    } else {
      ExecOneMore(eng, w, stmts, i);
      if left > 0 {
        var commits := eng.commits(working, stmts[i]);
        assert commits ==> CommitsAt(eng, w, stmts, i);
        match eng.exec(working, stmts[i])
        case None =>
          if commits { k := i; }
          FailedPrefixFails(eng, w, stmts, i + 1);
        case Some(m) =>
          k := ExecuteKeepsAPrefix(eng, w, stmts, i + 1, m, if commits then m.db else durable, left - 1,
                                   if commits then i + 1 else kept);
      }
    }
  }

  // ---- runs of apply --all-pending ---------------------------------------------------------

  ghost predicate Distinct(names: seq<string>) {
    forall i, j :: 0 <= i < j < |names| ==> names[i] != names[j]
  }

  function Mark(recorded: map<string, Via>, names: seq<string>): map<string, Via>
    decreases |names|
  {
    if names == [] then recorded else Mark(recorded[names[0] := Script], names[1..])
  }

  /** What one apply that does not finish leaves of the schema; one that would finish is no cut. */
  function Cut<S, V, T>(eng: Engine<S, V, T>, stmts: seq<T>, s: S, budget: nat): S {
    var a := Execute(eng, stmts, 0, Blank(eng, s), s, budget);
    if a.failed || a.left == 0 then a.durable else s
  }

  function CutAll<S, V, T>(eng: Engine<S, V, T>, stmts: seq<T>, s: S, budgets: seq<nat>): S
    decreases |budgets|
  {
    if budgets == [] then s else CutAll(eng, stmts, Cut(eng, stmts, s, budgets[0]), budgets[1..])
  }

  /** However often applying the file to s is cut short, running it in full still ends where running it once on s would
      have, in whatever session. Only states that the cuts reach are asked about. */
  ghost predicate Resumes<S, V(!new), T>(eng: Engine<S, V, T>, stmts: seq<T>, s: S) {
    forall budgets: seq<nat> :: ResumesAfter(eng, stmts, s, budgets)
  }

  ghost predicate ResumesAfter<S, V(!new), T>(eng: Engine<S, V, T>, stmts: seq<T>, s: S, budgets: seq<nat>) {
    var m := CutAll(eng, stmts, s, budgets);
    Tidy(eng, stmts, m) && RunFile(eng, m, stmts) == RunFile(eng, s, stmts)
  }

  /** Every file is on disk, and resumes on the schema that a clean run of the files before it would give it. */
  ghost predicate Replayable<S, V(!new), T>(eng: Engine<S, V, T>, files: map<string, seq<T>>, s: S, todo: seq<string>)
    decreases |todo|
  {
    todo != [] ==>
      && todo[0] in files && Resumes(eng, files[todo[0]], s)
      && (RunFile(eng, s, files[todo[0]]).Some? ==>
            Replayable(eng, files, RunFile(eng, s, files[todo[0]]).value, todo[1..]))
  }

  lemma {:induction false} AbsorbingCuts<S(!new), V(!new), T>(eng: Engine<S, V, T>, stmts: seq<T>, s: S,
                                                              budgets: seq<nat>)
    requires Absorbs(eng, stmts) && forall m: S :: Tidy(eng, stmts, m)
    ensures ResumesAfter(eng, stmts, s, budgets)
    decreases |budgets|
  {
    if budgets != [] {
      var w := Blank(eng, s);
      assert stmts[..0] == [];
      var k := ExecuteKeepsAPrefix(eng, w, stmts, 0, w, s, budgets[0], 0);
      var m := ExecSeq(eng, w, stmts[..k]).value;
      assert RunFile(eng, m.db, stmts) == RunFile(eng, s, stmts);
      AbsorbingCuts(eng, stmts, Cut(eng, stmts, s, budgets[0]), budgets[1..]);
    }
  }

  /** Files that absorb replay of their own beginnings and do not read variables of others, on every database, are
      replayable on every database. */
  lemma {:induction false} AbsorbingFilesAreReplayable<S(!new), V(!new), T>(eng: Engine<S, V, T>,
                                                                            files: map<string, seq<T>>, s: S,
                                                                            todo: seq<string>)
    requires forall f :: f in todo ==> f in files && Absorbs(eng, files[f]) && forall m: S :: Tidy(eng, files[f], m)
    ensures Replayable(eng, files, s, todo)
    decreases |todo|
  {
    if todo != [] {
      var stmts := files[todo[0]];
      forall budgets: seq<nat> ensures ResumesAfter(eng, stmts, s, budgets) {
        AbsorbingCuts(eng, stmts, s, budgets);
      }
      if RunFile(eng, s, stmts).Some? {
        assert forall f :: f in todo[1..] ==> f in todo;
        AbsorbingFilesAreReplayable(eng, files, RunFile(eng, s, stmts).value, todo[1..]);
      }
    }
  }

  /** A cut leaves a schema on which the same files are still replayable, to the same end. */
  lemma CutStaysReplayable<S, V(!new), T>(eng: Engine<S, V, T>, files: map<string, seq<T>>, s: S, todo: seq<string>,
                                          budget: nat)
    requires todo != [] && Replayable(eng, files, s, todo)
    ensures var m := Cut(eng, files[todo[0]], s, budget);
            Replayable(eng, files, m, todo) && RunFile(eng, m, files[todo[0]]) == RunFile(eng, s, files[todo[0]])
  {
    var stmts := files[todo[0]];
    var m := Cut(eng, stmts, s, budget);
    assert ResumesAfter(eng, stmts, s, [budget]);
    assert [budget][1..] == [] && CutAll(eng, stmts, s, [budget]) == CutAll(eng, stmts, m, []) == m;
    forall budgets: seq<nat> ensures ResumesAfter(eng, stmts, m, budgets) {
      var all := [budget] + budgets;
      assert all[1..] == budgets && CutAll(eng, stmts, s, all) == CutAll(eng, stmts, m, budgets);
      assert ResumesAfter(eng, stmts, s, all);
    }
  }

  /** Where the remaining files would take the database: the quantity every run keeps. */
  ghost function Destination<S, V, T>(eng: Engine<S, V, T>, files: map<string, seq<T>>, db: Db<S>,
                                      todo: seq<string>): (Option<S>, map<string, Via>)
  {
    (ExecFiles(eng, files, db.schema, todo), Mark(db.recorded, todo))
  }

  /** One apply in a session where others ran before: it finishes with the whole file done, or is a cut. */
  lemma ApplyOne<S, V(!new), T>(eng: Engine<S, V, T>, files: map<string, seq<T>>, db: Db<S>, f: string, vars: V,
                                budget: nat)
    requires f in files && f !in db.recorded && Tidy(eng, files[f], db.schema)
    ensures var one := ApplyFile(eng, files, db, f, vars, budget);
            && (one.ok ==> RunFile(eng, db.schema, files[f]) == Some(one.db.schema)
                           && one.db.recorded == db.recorded[f := Script] && budget == |files[f]| + 1 + one.left)
            && (!one.ok ==> one.db.schema == Cut(eng, files[f], db.schema, budget) && one.db.recorded == db.recorded)
            && (budget > |files[f]| && RunFile(eng, db.schema, files[f]).Some? ==> one.ok)
  {
    var w := Blank(eng, db.schema);
    assert files[f][..0] == [];
    var _ := ExecuteKeepsAPrefix(eng, w, files[f], 0, w, db.schema, budget, 0);
    assert SameEffect(Execute(eng, files[f], 0, Session(db.schema, vars), db.schema, budget),
                      Execute(eng, files[f], 0, Blank(eng, db.schema), db.schema, budget));
  }

  lemma {:induction false} ApplyEachKeepsDestination<S, V(!new), T>(eng: Engine<S, V, T>, files: map<string, seq<T>>,
                                                                    db: Db<S>, todo: seq<string>, vars: V, budget: nat)
    returns (done: nat)
    requires Distinct(todo) && Replayable(eng, files, db.schema, todo) && forall f :: f in todo ==> f !in db.recorded
    ensures var out := ApplyEach(eng, files, db, todo, vars, budget);
            && done <= |todo| && (out.ok ==> done == |todo|)
            && out.db.recorded == Mark(db.recorded, todo[..done])
            && Replayable(eng, files, out.db.schema, todo[done..])
            && Destination(eng, files, out.db, todo[done..]) == Destination(eng, files, db, todo)
    decreases |todo|
  {
    if todo == [] {
      done := 0;
    } else {
      var f := todo[0];
      var one := ApplyFile(eng, files, db, f, vars, budget);
      assert Tidy(eng, files[f], db.schema) by { assert ResumesAfter(eng, files[f], db.schema, []); }
      ApplyOne(eng, files, db, f, vars, budget);
      if one.ok {
        forall g | g in todo[1..] ensures g != f && g !in one.db.recorded {
          var j :| 0 <= j < |todo[1..]| && todo[1..][j] == g;
          assert todo[j + 1] == g;
        }
        var rest := todo[1..];
        assert Destination(eng, files, one.db, rest) == Destination(eng, files, db, todo);
        var more := ApplyEachKeepsDestination(eng, files, one.db, rest, VarsAfter(eng, files, db, f, vars, budget),
                                              one.left);
        done := more + 1;
        assert todo[done..] == rest[more..];
        assert todo[..done][0] == f && todo[..done][1..] == rest[..more];
        assert Mark(db.recorded, todo[..done]) == Mark(one.db.recorded, rest[..more]);
      } else {
        done := 0;
        CutStaysReplayable(eng, files, db.schema, todo, budget);
        assert todo[0..] == todo;
      }
    }
  }

  lemma {:induction false} PendingDependsOnRecorded<S>(db: Db<S>, db': Db<S>, names: seq<string>)
    requires forall f :: f in names ==> (f in db.recorded <==> f in db'.recorded)
    ensures Pending(db, names) == Pending(db', names)
  {
    if names != [] { PendingDependsOnRecorded(db, db', names[1..]); }
  }

  lemma {:induction false} MarkedKeys(recorded: map<string, Via>, names: seq<string>)
    ensures Mark(recorded, names).Keys == recorded.Keys + set f | f in names
    decreases |names|
  {
    if names != [] {
      MarkedKeys(recorded[names[0] := Script], names[1..]);
      assert forall f :: f in names <==> f == names[0] || f in names[1..];
    }
  }

  lemma {:induction false} PendingArePending<S>(db: Db<S>, names: seq<string>)
    requires Distinct(names)
    ensures forall f :: f in Pending(db, names) <==> f in names && f !in db.recorded
    ensures Distinct(Pending(db, names))
  {
    if names != [] {
      assert forall f :: f in names <==> f == names[0] || f in names[1..];
      PendingArePending(db, names[1..]);
      assert names[0] !in names[1..];
    }
  }

  lemma {:induction false} PendingShrinks<S>(db: Db<S>, db': Db<S>, names: seq<string>, done: nat)
    requires Distinct(names) && done <= |Pending(db, names)|
    requires db'.recorded.Keys == db.recorded.Keys + set f | f in Pending(db, names)[..done]
    ensures Pending(db', names) == Pending(db, names)[done..]
    decreases |names|
  {
    if names != [] {
      var h, t, todo := names[0], names[1..], Pending(db, names);
      assert h !in t;
      if h in db.recorded {
        assert todo == Pending(db, t);
        PendingShrinks(db, db', t, done);
      } else if done == 0 {
        PendingDependsOnRecorded(db, db', names);
      } else {
        var rest := Pending(db, t);
        assert todo == [h] + rest;
        assert todo[..done] == [h] + rest[..done - 1] && todo[done..] == rest[done - 1..];
        var mid := db.(recorded := Mark(db.recorded, rest[..done - 1]));
        MarkedKeys(db.recorded, rest[..done - 1]);
        PendingShrinks(db, mid, t, done - 1);
        assert forall f :: f in todo[..done] <==> f == h || f in rest[..done - 1];
        PendingDependsOnRecorded(mid, db', t);
      }
    }
  }

  lemma {:induction false} MarkTwice(recorded: map<string, Via>, names: seq<string>, done: nat)
    requires done <= |names|
    ensures Mark(Mark(recorded, names[..done]), names[done..]) == Mark(recorded, names)
    decreases |names|
  {
    if done > 0 {
      assert names[..done][1..] == names[1..][..done - 1] && names[done..] == names[1..][done - 1..];
      MarkTwice(recorded[names[0] := Script], names[1..], done - 1);
    } else {
      assert names[0..] == names;
    }
  }

  /** Any run, complete or cut short anywhere, leaves the database headed for the same place. */
  lemma RunKeepsDestination<S, V(!new), T>(eng: Engine<S, V, T>, files: map<string, seq<T>>, names: seq<string>,
                                           db: Db<S>, budget: nat)
    requires Distinct(names) && Replayable(eng, files, db.schema, Pending(db, names))
    ensures var out := ApplyAllPending(eng, files, names, db, budget);
            && Replayable(eng, files, out.db.schema, Pending(out.db, names))
            && Destination(eng, files, out.db, Pending(out.db, names)) ==
              Destination(eng, files, db, Pending(db, names))
            && (out.ok ==> Pending(out.db, names) == [])
  {
    var todo := Pending(db, names);
    PendingArePending(db, names);
    if Collisions(names) == map[] {
      var done := ApplyEachKeepsDestination(eng, files, db, todo, eng.blank, budget);
      var out := ApplyEach(eng, files, db, todo, eng.blank, budget);
      MarkedKeys(db.recorded, todo[..done]);
      PendingShrinks(db, out.db, names, done);
      MarkTwice(db.recorded, todo, done);
    }
  }

  function RunAll<S, V, T>(eng: Engine<S, V, T>, files: map<string, seq<T>>, names: seq<string>, db: Db<S>,
                        budgets: seq<nat>): Db<S>
    decreases |budgets|
  {
    if budgets == [] then db
    else RunAll(eng, files, names, ApplyAllPending(eng, files, names, db, budgets[0]).db, budgets[1..])
  }

  lemma {:induction false} RunsKeepDestination<S, V(!new), T>(eng: Engine<S, V, T>, files: map<string, seq<T>>,
                                                              names: seq<string>, db: Db<S>, budgets: seq<nat>)
    requires Distinct(names) && Replayable(eng, files, db.schema, Pending(db, names))
    ensures var end := RunAll(eng, files, names, db, budgets);
            && Replayable(eng, files, end.schema, Pending(end, names))
            && Destination(eng, files, end, Pending(end, names)) == Destination(eng, files, db, Pending(db, names))
    decreases |budgets|
  {
    PendingArePending(db, names);
    if budgets != [] {
      RunKeepsDestination(eng, files, names, db, budgets[0]);
      RunsKeepDestination(eng, files, names, ApplyAllPending(eng, files, names, db, budgets[0]).db, budgets[1..]);
    }
  }

  /** Any number of runs of `apply --all-pending`, each cut short wherever it may be, followed by one that completes,
      leave the same schema and the same records as one clean run. */
  lemma InterruptedRunsReachTheCleanState<S, V(!new), T>(eng: Engine<S, V, T>, files: map<string, seq<T>>,
                                                         names: seq<string>, db: Db<S>, budgets: seq<nat>, last: nat,
                                                         clean: nat)
    requires Distinct(names) && Replayable(eng, files, db.schema, Pending(db, names))
    requires ApplyAllPending(eng, files, names, RunAll(eng, files, names, db, budgets), last).ok
    requires ApplyAllPending(eng, files, names, db, clean).ok
    ensures var resumed, once := ApplyAllPending(eng, files, names, RunAll(eng, files, names, db, budgets), last).db,
                                 ApplyAllPending(eng, files, names, db, clean).db;
            resumed.schema == once.schema && resumed.recorded == once.recorded
  {
    RunsKeepDestination(eng, files, names, db, budgets);
    RunKeepsDestination(eng, files, names, RunAll(eng, files, names, db, budgets), last);
    RunKeepsDestination(eng, files, names, db, clean);
  }

  /** The steps a run needs: one a statement and one to record each file. */
  function Cost<T>(files: map<string, seq<T>>, todo: seq<string>): nat {
    if todo == [] then 0 else (if todo[0] in files then |files[todo[0]]| + 1 else 1) + Cost(files, todo[1..])
  }

  lemma {:induction false} ApplyEachCompletes<S, V(!new), T>(eng: Engine<S, V, T>, files: map<string, seq<T>>,
                                                             db: Db<S>, todo: seq<string>, vars: V, budget: nat)
    requires Distinct(todo) && forall f :: f in todo ==> f !in db.recorded
    requires Replayable(eng, files, db.schema, todo)
    requires ExecFiles(eng, files, db.schema, todo).Some? && budget >= Cost(files, todo)
    ensures ApplyEach(eng, files, db, todo, vars, budget).ok
    decreases |todo|
  {
    if todo != [] {
      var f := todo[0];
      var one := ApplyFile(eng, files, db, f, vars, budget);
      assert Tidy(eng, files[f], db.schema) by { assert ResumesAfter(eng, files[f], db.schema, []); }
      ApplyOne(eng, files, db, f, vars, budget);
      forall g | g in todo[1..] ensures g != f && g !in one.db.recorded {
        var j :| 0 <= j < |todo[1..]| && todo[1..][j] == g;
        assert todo[j + 1] == g;
      }
      ApplyEachCompletes(eng, files, one.db, todo[1..], VarsAfter(eng, files, db, f, vars, budget), one.left);
    }
  }

  /** And nothing gets stuck: if a clean run would complete, then after any interrupted runs a run that is given enough
      time completes. */
  lemma InterruptedRunsCanFinish<S, V(!new), T>(eng: Engine<S, V, T>, files: map<string, seq<T>>, names: seq<string>,
                                                db: Db<S>, budgets: seq<nat>, clean: nat)
    requires Distinct(names) && Replayable(eng, files, db.schema, Pending(db, names))
    requires ApplyAllPending(eng, files, names, db, clean).ok
    ensures var end := RunAll(eng, files, names, db, budgets);
            ApplyAllPending(eng, files, names, end, Cost(files, Pending(end, names))).ok
  {
    var end := RunAll(eng, files, names, db, budgets);
    RunsKeepDestination(eng, files, names, db, budgets);
    RunKeepsDestination(eng, files, names, db, clean);
    PendingArePending(end, names);
    ApplyEachCompletes(eng, files, end, Pending(end, names), eng.blank, Cost(files, Pending(end, names)));
  }

  // ---- the hypothesis is exact -------------------------------------------------------------

  /** Running the file again after a beginning that can outlast the process ends where running it once would have. */
  ghost predicate AbsorbsKept<S, V, T>(eng: Engine<S, V, T>, stmts: seq<T>, s: S) {
    forall k :: 0 <= k <= |stmts| && KeptAt(eng, Blank(eng, s), stmts, k) ==> AbsorbsAt(eng, stmts, s, k)
  }

  predicate AbsorbsAt<S(==), V, T>(eng: Engine<S, V, T>, stmts: seq<T>, s: S, k: nat) {
    k <= |stmts| && ExecSeq(eng, Blank(eng, s), stmts[..k]).Some? ==>
      RunFile(eng, ExecSeq(eng, Blank(eng, s), stmts[..k]).value.db, stmts) == RunFile(eng, s, stmts)
  }

  /** How long the process must live to leave the beginning of length k behind. */
  function Life<S, V, T>(eng: Engine<S, V, T>, w: Session<S, V>, stmts: seq<T>, k: nat): nat {
    if CommitsAt(eng, w, stmts, k - 1) then k else k + 1
  }

  /** Each beginning that can outlast the process does, when the process dies just then. */
  lemma {:induction false} KeptIsReached<S, V, T>(eng: Engine<S, V, T>, w: Session<S, V>, stmts: seq<T>, i: nat,
                                                  working: Session<S, V>, durable: S, k: nat)
    requires KeptAt(eng, w, stmts, k) && i <= k && ExecSeq(eng, w, stmts[..i]) == Some(working)
    requires i == k && CommitsAt(eng, w, stmts, k - 1) ==> durable == working.db
    ensures var a := Execute(eng, stmts, i, working, durable, Life(eng, w, stmts, k) - i);
            (a.failed || a.left == 0) && a.durable == ExecSeq(eng, w, stmts[..k]).value.db
    decreases k - i
  {
    if i < |stmts| { ExecOneMore(eng, w, stmts, i); }
    if i < k {
      if eng.exec(working, stmts[i]).None? {
        assert stmts[..k][..i + 1] == stmts[..i + 1];
        FailedPrefixFails(eng, w, stmts[..k], i + 1);
      }
      var m := eng.exec(working, stmts[i]).value;
      KeptIsReached(eng, w, stmts, i + 1, m, if eng.commits(working, stmts[i]) then m.db else durable, k);
    }
  }

  /** For any file in a given database: every way of cutting `apply` short can be made good by applying the file again
      exactly when the file absorbs, there, those of its beginnings that can outlast the process. */
  lemma ResumableExactlyWhenAbsorbed<S, V, T>(eng: Engine<S, V, T>, files: map<string, seq<T>>, f: string, db: Db<S>)
    requires f in files && f !in db.recorded
    ensures AbsorbsKept(eng, files[f], db.schema) <==>
            forall budget: nat :: !ApplyFile(eng, files, db, f, eng.blank, budget).ok ==>
              RunFile(eng, ApplyFile(eng, files, db, f, eng.blank, budget).db.schema, files[f]) ==
                RunFile(eng, db.schema, files[f])
  {
    var s, stmts := db.schema, files[f];
    if AbsorbsKept(eng, stmts, s) {
      forall budget: nat | !ApplyFile(eng, files, db, f, eng.blank, budget).ok
        ensures RunFile(eng, ApplyFile(eng, files, db, f, eng.blank, budget).db.schema, stmts) == RunFile(eng, s, stmts)
      {
        assert stmts[..0] == [];
        var k := ExecuteKeepsAPrefix(eng, Blank(eng, s), stmts, 0, Blank(eng, s), s, budget, 0);
        assert AbsorbsAt(eng, stmts, s, k);
      }
    } else {
      var k :| 0 <= k <= |stmts| && KeptAt(eng, Blank(eng, s), stmts, k) && !AbsorbsAt(eng, stmts, s, k);
      var w := Blank(eng, s);
      assert stmts[..0] == [];
      KeptIsReached(eng, w, stmts, 0, w, s, k);
      assert !ApplyFile(eng, files, db, f, eng.blank, Life(eng, w, stmts, k)).ok;
    }
  }

  /** In a file of statements that all commit, every beginning can outlast the process. */
  lemma DdlKeepsEveryBeginning<S, V(!new), T>(eng: Engine<S, V, T>, stmts: seq<T>, s: S)
    requires forall i :: 0 <= i < |stmts| && ExecSeq(eng, Blank(eng, s), stmts[..i]).Some? ==>
               CommitsAt(eng, Blank(eng, s), stmts, i)
    ensures AbsorbsKept(eng, stmts, s) <==> forall k :: 0 <= k <= |stmts| ==> AbsorbsAt(eng, stmts, s, k)
  {
    var w := Blank(eng, s);
    if AbsorbsKept(eng, stmts, s) {
      forall k | 0 <= k <= |stmts| ensures AbsorbsAt(eng, stmts, s, k) {
        if k == 0 {
          assert stmts[..0] == [];
        } else if ExecSeq(eng, w, stmts[..k]).Some? {
          assert stmts[..k][..k - 1] == stmts[..k - 1];
          assert CommitsAt(eng, w, stmts, k - 1);
          assert KeptAt(eng, w, stmts, k);
        }
      }
    }
  }

  // ---- every history of commands -----------------------------------------------------------

  datatype Command =
    | Status
    | ApplyFresh(file: string, budget: nat)
    | ApplyPending(budget: nat)
    | BaselineSome(names: seq<string>)
    | BootstrapFresh(budget: nat)

  function Perform<S, V, T>(eng: Engine<S, V, T>, files: map<string, seq<T>>, names: seq<string>, db: Db<S>,
                         c: Command): Db<S> {
    match c
    case Status => db
    case ApplyFresh(f, budget) => ApplyFile(eng, files, db, f, eng.blank, budget).db
    case ApplyPending(budget) => ApplyAllPending(eng, files, names, db, budget).db
    case BaselineSome(chosen) => BaselineFiles(db, chosen, names).db
    case BootstrapFresh(budget) => Bootstrap(eng, files, names, db, budget).db
  }

  function PerformAll<S, V, T>(eng: Engine<S, V, T>, files: map<string, seq<T>>, names: seq<string>, db: Db<S>,
                            cs: seq<Command>): Db<S>
    decreases |cs|
  {
    if cs == [] then db else PerformAll(eng, files, names, Perform(eng, files, names, db, cs[0]), cs[1..])
  }

  /** The whole file appears in the log, each statement once and in order, with nothing in between. */
  ghost predicate RanInFull(log: seq<Executed>, f: string, n: nat) {
    exists p :: 0 <= p <= |log| && Entries(f, n) <= log[p..]
  }

  ghost predicate ScriptsRan<S, T>(files: map<string, seq<T>>, db: Db<S>) {
    forall f :: f in db.recorded && db.recorded[f] == Script ==> f in files && RanInFull(db.log, f, |files[f]|)
  }

  /** Records are never dropped or rewritten, and the log only grows. */
  ghost predicate Extends<S>(db: Db<S>, db': Db<S>) {
    && db.log <= db'.log
    && forall f :: f in db.recorded ==> f in db'.recorded && db'.recorded[f] == db.recorded[f]
  }

  lemma LongerLogKeepsRuns(log: seq<Executed>, more: seq<Executed>, f: string, n: nat)
    requires RanInFull(log, f, n)
    ensures RanInFull(log + more, f, n)
  {
    var p :| 0 <= p <= |log| && Entries(f, n) <= log[p..];
    assert (log + more)[p..] == log[p..] + more;
  }

  lemma ApplyFileKeepsScriptsRan<S, V, T>(eng: Engine<S, V, T>, files: map<string, seq<T>>, db: Db<S>, f: string,
                                          vars: V, budget: nat)
    requires ScriptsRan(files, db)
    ensures ScriptsRan(files, ApplyFile(eng, files, db, f, vars, budget).db)
            && Extends(db, ApplyFile(eng, files, db, f, vars, budget).db)
  {
    if f !in db.recorded && f in files {
      var a := Execute(eng, files[f], 0, Session(db.schema, vars), db.schema, budget);
      var more := Entries(f, a.executed);
      var w := Session(db.schema, vars);
      assert ExecSeq(eng, w, files[f][..0]) == Some(w);
      var _ := ExecuteKeepsAPrefix(eng, w, files[f], 0, w, db.schema, budget, 0);
      var out := ApplyFile(eng, files, db, f, vars, budget).db;
      forall g | g in out.recorded && out.recorded[g] == Script
        ensures g in files && RanInFull(out.log, g, |files[g]|)
      {
        if g in db.recorded {
          LongerLogKeepsRuns(db.log, more, g, |files[g]|);
        } else {
          assert out.log[|db.log|..] == Entries(f, |files[f]|);
        }
      }
    }
  }

  lemma {:induction false} ApplyEachKeepsScriptsRan<S, V, T>(eng: Engine<S, V, T>, files: map<string, seq<T>>,
                                                             db: Db<S>, todo: seq<string>, vars: V, budget: nat)
    requires ScriptsRan(files, db)
    ensures ScriptsRan(files, ApplyEach(eng, files, db, todo, vars, budget).db)
            && Extends(db, ApplyEach(eng, files, db, todo, vars, budget).db)
    decreases |todo|
  {
    if todo != [] {
      ApplyFileKeepsScriptsRan(eng, files, db, todo[0], vars, budget);
      var one := ApplyFile(eng, files, db, todo[0], vars, budget);
      if one.ok {
        ApplyEachKeepsScriptsRan(eng, files, one.db, todo[1..], VarsAfter(eng, files, db, todo[0], vars, budget),
                                 one.left);
      }
    }
  }

  lemma {:induction false} MarkBaselineMarks<S>(db: Db<S>, chosen: seq<string>, marked: map<string, Via>,
                                                names: seq<string>)
    ensures var r := MarkBaseline(db, chosen, marked, names);
            r.Some? ==>
              && (forall f :: f in r.value <==> f in marked || (f in chosen && f !in db.recorded))
              && (forall f :: f in r.value ==> r.value[f] == if f in marked then marked[f] else Baseline)
  {
    if chosen != [] && chosen[0] in names {
      assert forall f :: f in chosen <==> f == chosen[0] || f in chosen[1..];
      if chosen[0] in db.recorded {
        MarkBaselineMarks(db, chosen[1..], marked, names);
      } else if chosen[0] !in marked {
        MarkBaselineMarks(db, chosen[1..], marked[chosen[0] := Baseline], names);
      }
    }
  }

  lemma PerformKeepsScriptsRan<S, V, T>(eng: Engine<S, V, T>, files: map<string, seq<T>>, names: seq<string>, db: Db<S>,
                                     c: Command)
    requires ScriptsRan(files, db)
    ensures ScriptsRan(files, Perform(eng, files, names, db, c)) && Extends(db, Perform(eng, files, names, db, c))
  {
    match c {
      case Status =>
      case ApplyFresh(f, budget) => ApplyFileKeepsScriptsRan(eng, files, db, f, eng.blank, budget);
      case ApplyPending(budget) => ApplyEachKeepsScriptsRan(eng, files, db, Pending(db, names), eng.blank, budget);
      case BaselineSome(chosen) => MarkBaselineMarks(db, chosen, db.recorded, names);
      case BootstrapFresh(budget) =>
        MarkBaselineMarks(db, Among(BOOTSTRAP_COVERED, names), db.recorded, names);
        var marked := BaselineFiles(db, Among(BOOTSTRAP_COVERED, names), names).db;
        ApplyEachKeepsScriptsRan(eng, files, marked, Pending(marked, names), eng.blank, budget);
    }
  }

  /** Over every sequence of commands, each cut short anywhere: a file recorded as `script` has had all its statements
      executed in order, and a record once made is never dropped or changed. */
  lemma {:induction false} ScriptRecordsAreTrue<S, V, T>(eng: Engine<S, V, T>, files: map<string, seq<T>>,
                                                         names: seq<string>, db: Db<S>, cs: seq<Command>)
    requires ScriptsRan(files, db)
    ensures ScriptsRan(files, PerformAll(eng, files, names, db, cs))
            && Extends(db, PerformAll(eng, files, names, db, cs))
    decreases |cs|
  {
    if cs != [] {
      PerformKeepsScriptsRan(eng, files, names, db, cs[0]);
      ScriptRecordsAreTrue(eng, files, names, Perform(eng, files, names, db, cs[0]), cs[1..]);
    }
  }

  lemma {:induction false} AmongListed(names: seq<string>, listing: seq<string>)
    ensures forall f :: f in Among(names, listing) <==> f in names && f in listing
  {
    if names != [] {
      AmongListed(names[1..], listing);
      assert forall f :: f in names <==> f == names[0] || f in names[1..];
    }
  }

  lemma {:induction false} MarkVia(recorded: map<string, Via>, names: seq<string>)
    ensures forall f :: f in Mark(recorded, names) ==>
              Mark(recorded, names)[f] == if f in names then Script else if f in recorded then recorded[f] else Script
    decreases |names|
  {
    MarkedKeys(recorded, names);
    if names != [] {
      MarkVia(recorded[names[0] := Script], names[1..]);
      assert forall f :: f in names <==> f == names[0] || f in names[1..];
    }
  }

  /** A completed run has marked every file it set out to apply. */
  lemma {:induction false} CompletedMarksAll<S, V, T>(eng: Engine<S, V, T>, files: map<string, seq<T>>, db: Db<S>,
                                                      todo: seq<string>, vars: V, budget: nat)
    requires Distinct(todo) && (forall f :: f in todo ==> f !in db.recorded)
             && ApplyEach(eng, files, db, todo, vars, budget).ok
    ensures ApplyEach(eng, files, db, todo, vars, budget).db.recorded == Mark(db.recorded, todo)
    decreases |todo|
  {
    if todo != [] {
      var one := ApplyFile(eng, files, db, todo[0], vars, budget);
      forall g | g in todo[1..] ensures g !in one.db.recorded {
        var j :| 0 <= j < |todo[1..]| && todo[1..][j] == g;
        assert todo[j + 1] == g;
      }
      CompletedMarksAll(eng, files, one.db, todo[1..], VarsAfter(eng, files, db, todo[0], vars, budget), one.left);
    }
  }

  /** The records that a completed bootstrap makes. */
  lemma BootstrapRecords<S, V, T>(eng: Engine<S, V, T>, files: map<string, seq<T>>, names: seq<string>, db: Db<S>,
                                  budget: nat)
    returns (marked: map<string, Via>, todo: seq<string>)
    requires Distinct(names) && Bootstrap(eng, files, names, db, budget).ok
    ensures forall f :: f in marked <==> f in db.recorded || (f in BOOTSTRAP_COVERED && f in names)
    ensures forall f :: f in marked ==> marked[f] == if f in db.recorded then db.recorded[f] else Baseline
    ensures forall f :: f in todo <==> f in names && f !in marked
    ensures Bootstrap(eng, files, names, db, budget).db.recorded == Mark(marked, todo)
  {
    var chosen := Among(BOOTSTRAP_COVERED, names);
    AmongListed(BOOTSTRAP_COVERED, names);
    MarkBaselineMarks(db, chosen, db.recorded, names);
    var baselined := BaselineFiles(db, chosen, names).db;
    marked, todo := baselined.recorded, Pending(baselined, names);
    PendingArePending(baselined, names);
    CompletedMarksAll(eng, files, baselined, todo, eng.blank, budget);
  }

  lemma {:induction false} NothingPending<S>(db: Db<S>, names: seq<string>)
    requires forall f :: f in names ==> f in db.recorded
    ensures Pending(db, names) == []
  {
    if names != [] { NothingPending(db, names[1..]); }
  }

  /** A completed bootstrap, of a fresh database or again, leaves nothing pending and keeps every earlier record; of the
      files it records, only the covered ones have not been executed. */
  lemma BootstrapExecutesTheRest<S, V, T>(eng: Engine<S, V, T>, files: map<string, seq<T>>, names: seq<string>,
                                          db: Db<S>, budget: nat)
    requires Distinct(names) && Bootstrap(eng, files, names, db, budget).ok
    ensures var out := Bootstrap(eng, files, names, db, budget).db;
            && out.recorded.Keys == db.recorded.Keys + (set f | f in names)
            && Pending(out, names) == []
            && (forall f :: f in db.recorded ==> out.recorded[f] == db.recorded[f])
            && forall f :: f in names && f !in db.recorded ==>
                 out.recorded[f] == if f in BOOTSTRAP_COVERED then Baseline else Script
  {
    var marked, todo := BootstrapRecords(eng, files, names, db, budget);
    MarkedKeys(marked, todo);
    MarkVia(marked, todo);
    NothingPending(Bootstrap(eng, files, names, db, budget).db, names);
  }
}
