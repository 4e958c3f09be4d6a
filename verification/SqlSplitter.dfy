/** Splitting a migration file into statements (migrate.py, _split_sql_statements). */
module SqlSplitter {
  import opened Options
  import opened Text

  function DropLine(s: string): string {
    if s == "" || s[0] == '\n' then s else DropLine(s[1..])
  }

  function StripComments(s: string): string
    decreases |s|
  {
    if s == "" then ""
    else if |s| >= 2 && s[0] == '-' && s[1] == '-' then StripLine(s) else [s[0]] + StripComments(s[1..])
  }

  function StripLine(s: string): string
    requires s != "" && s[0] == '-'
    decreases |s|, 0
  {
    DropLineIsShorter(s);
    StripComments(DropLine(s))
  }

  lemma DropLineIsShorter(s: string)
    ensures |DropLine(s)| <= |s| && (s != "" && s[0] != '\n' ==> |DropLine(s)| < |s|)
    ensures DropLine(s) != "" ==> DropLine(s)[0] == '\n'
  {
  }

  function Split(s: string): (parts: seq<string>)
    ensures |parts| >= 1
  {
    if s == "" then [""]
    else if s[0] == ';' then [""] + Split(s[1..])
    else var rest := Split(s[1..]); [[s[0]] + rest[0]] + rest[1..]
  }

  /** [p.strip() for p in parts if p.strip()] */
  function Keep(parts: seq<string>): seq<string> {
    if parts == [] then [] else (if Trim(parts[0]) == "" then [] else [Trim(parts[0])]) + Keep(parts[1..])
  }

  function Statements(sql: string): seq<string> {
    Keep(Split(StripComments(sql)))
  }

  // ---- which lists of statements survive printing and splitting ----------------------------

  predicate NoDashes(s: string) {
    forall i :: 0 <= i < |s| - 1 && s[i] == '-' ==> s[i + 1] != '-'
  }

  predicate Plain(s: string) {
    s != "" && Trim(s) == s && ';' !in s && NoDashes(s)
  }

  function Join(parts: seq<string>): string {
    if parts == [] then "" else if |parts| == 1 then parts[0] else parts[0] + ";" + Join(parts[1..])
  }

  lemma {:induction false} StrippedHasNoDashes(s: string)
    ensures NoDashes(StripComments(s))
    ensures s != "" && !(|s| >= 2 && s[0] == '-' && s[1] == '-') ==>
              StripComments(s) != "" && StripComments(s)[0] == s[0]
    decreases |s|
  {
    if s == "" {
    } else if |s| >= 2 && s[0] == '-' && s[1] == '-' {
      DropLineIsShorter(s);
      StrippedHasNoDashes(DropLine(s));
    } else {
      StrippedHasNoDashes(s[1..]);
      if s[0] == '-' && StripComments(s[1..]) != "" {
        assert s[1..] != "" && s[1] != '-';
        assert StripComments(s[1..])[0] == s[1];
      }
    }
  }

  lemma {:induction false} PartsAreClean(s: string)
    requires NoDashes(s)
    ensures Split(s)[0] <= s
    ensures forall p :: p in Split(s) ==> ';' !in p && NoDashes(p)
  {
    if s != "" {
      PartsAreClean(s[1..]);
      var parts, rest := Split(s), Split(s[1..]);
      if s[0] == ';' {
        assert parts[0] == "";
        forall p | p in parts ensures ';' !in p && NoDashes(p) {
          if p != "" { assert p in rest; }
        }
      } else {
        assert parts[0] <= s;
        assert rest[0] in rest;
        forall p | p in parts ensures ';' !in p && NoDashes(p) {
          if p != parts[0] { assert p in rest[1..]; assert p in rest; }
        }
      }
    }
  }

  lemma {:induction false} TrimIsSlice(s: string)
    ensures exists i, j :: 0 <= i <= j <= |s| && Trim(s) == s[i..j]
    ensures Trim(Trim(s)) == Trim(s)
  {
    TrimLeftIsSlice(s);
    var i, j := |s| - |TrimLeft(s)|, |Trim(s)|;
    TrimRightIsSlice(s[i..]);
    assert Trim(s) == s[i..][..j] == s[i..i + j];
    var t := Trim(s);
    if t != "" {
      assert !IsSpace(t[0]) && !IsSpace(t[|t| - 1]);
      assert TrimLeft(t) == t;
    }
  }

  lemma {:induction false} TrimLeftIsSlice(s: string)
    ensures |TrimLeft(s)| <= |s| && TrimLeft(s) == s[|s| - |TrimLeft(s)|..]
    ensures TrimLeft(s) != "" ==> !IsSpace(TrimLeft(s)[0])
  {
    if s != "" && IsSpace(s[0]) { TrimLeftIsSlice(s[1..]); }
  }

  lemma {:induction false} TrimRightIsSlice(s: string)
    ensures TrimRight(s) <= s
    ensures TrimRight(s) != "" ==> !IsSpace(TrimRight(s)[|TrimRight(s)| - 1])
  {
    if s != "" && IsSpace(s[|s| - 1]) { TrimRightIsSlice(s[..|s| - 1]); }
  }

  lemma {:induction false} KeptArePlain(parts: seq<string>)
    requires forall p :: p in parts ==> ';' !in p && NoDashes(p)
    ensures forall p :: p in Keep(parts) ==> Plain(p)
  {
    if parts != [] {
      KeptArePlain(parts[1..]);
      TrimIsSlice(parts[0]);
      var i, j :| 0 <= i <= j <= |parts[0]| && Trim(parts[0]) == parts[0][i..j];
      assert parts[0] in parts;
    }
  }

  /** Whatever the file holds, every statement executed is trimmed, non-empty and free of `;` and of comments. */
  lemma StatementsArePlain(sql: string)
    ensures forall p :: p in Statements(sql) ==> Plain(p)
  {
    StrippedHasNoDashes(sql);
    PartsAreClean(StripComments(sql));
    KeptArePlain(Split(StripComments(sql)));
  }

  lemma {:induction false} SplitFirst(p: string, rest: string)
    requires ';' !in p
    ensures Split(p + ";" + rest) == [p] + Split(rest)
  {
    var s := p + ";" + rest;
    if p == "" {
      assert s[1..] == rest;
    } else {
      assert s[1..] == p[1..] + ";" + rest;
      SplitFirst(p[1..], rest);
      assert [p[0]] + p[1..] == p;
    }
  }

  lemma {:induction false} SplitOne(p: string)
    requires ';' !in p
    ensures Split(p) == [p]
  {
    if p != "" {
      SplitOne(p[1..]);
      assert [p[0]] + p[1..] == p;
    }
  }

  lemma {:induction false} SplitUndoesJoin(parts: seq<string>)
    requires parts != [] && forall p :: p in parts ==> ';' !in p
    ensures Split(Join(parts)) == parts
  {
    if |parts| == 1 {
      SplitOne(parts[0]);
    } else {
      SplitUndoesJoin(parts[1..]);
      SplitFirst(parts[0], Join(parts[1..]));
    }
  }

  /** A prefix without comments is copied, provided the seam does not create one. */
  lemma {:induction false} StripSkips(a: string, b: string)
    requires NoDashes(a) && (a != "" && b != "" && a[|a| - 1] == '-' ==> b[0] != '-')
    ensures StripComments(a + b) == a + StripComments(b)
  {
    if a == "" {
      assert a + b == b;
    } else {
      assert (a + b)[1..] == a[1..] + b;
      if |a + b| >= 2 && a[0] == '-' {
        assert (a + b)[1] == if |a| > 1 then a[1] else b[0];
      }
      StripSkips(a[1..], b);
    }
  }

  lemma NoDashesConcat(a: string, b: string)
    requires NoDashes(a) && NoDashes(b) && (a != "" && b != "" && a[|a| - 1] == '-' ==> b[0] != '-')
    ensures NoDashes(a + b)
  {
    var s := a + b;
    forall i | 0 <= i < |s| - 1 && s[i] == '-' ensures s[i + 1] != '-' {
      if i < |a| - 1 {
        assert a[i] == '-';
      } else if i >= |a| {
        assert b[i - |a|] == '-' && b[i - |a| + 1] != '-';
      }
    }
  }

  lemma {:induction false} JoinHasNoDashes(parts: seq<string>)
    requires forall p :: p in parts ==> NoDashes(p)
    ensures NoDashes(Join(parts))
  {
    if |parts| == 1 {
      assert parts[0] in parts;
    } else if |parts| > 1 {
      JoinHasNoDashes(parts[1..]);
      assert parts[0] in parts;
      NoDashesConcat(parts[0], ";");
      NoDashesConcat(parts[0] + ";", Join(parts[1..]));
    }
  }

  lemma {:induction false} KeepKeepsPlain(parts: seq<string>)
    requires forall p :: p in parts ==> Plain(p)
    ensures Keep(parts) == parts
  {
    if parts != [] {
      KeepKeepsPlain(parts[1..]);
      assert parts[0] in parts && parts == [parts[0]] + parts[1..];
    }
  }

  /** Splitting undoes joining with `;` for exactly the lists of plain statements. In particular a statement with a `;`
      or a `--` inside a string literal does not survive. */
  lemma SplitUndoesJoinExactly(stmts: seq<string>)
    ensures Statements(Join(stmts)) == stmts <==> forall p :: p in stmts ==> Plain(p)
  {
    if forall p :: p in stmts ==> Plain(p) {
      if stmts != [] {
        JoinHasNoDashes(stmts);
        StripSkips(Join(stmts), "");
        assert Join(stmts) + "" == Join(stmts);
        SplitUndoesJoin(stmts);
        KeepKeepsPlain(stmts);
      } else {
        assert Split("") == [""] && Keep([""]) == [];
      }
    }
    if Statements(Join(stmts)) == stmts {
      StatementsArePlain(Join(stmts));
    }
  }

  // ---- comments, blank lines and blank statements around them ------------------------------

  datatype Trivia = Blank(space: string) | Comment(body: string)

  predicate ValidTrivia(t: Trivia) {
    match t
    case Blank(space) => forall i :: 0 <= i < |space| ==> IsSpace(space[i])
    case Comment(body) => '\n' !in body
  }

  function RenderOne(t: Trivia): string {
    match t case Blank(space) => space case Comment(body) => "--" + body + "\n"
  }

  function CleanOne(t: Trivia): string {
    match t case Blank(space) => space case Comment(_) => "\n"
  }

  function Render(ts: seq<Trivia>): string {
    if ts == [] then "" else RenderOne(ts[0]) + Render(ts[1..])
  }

  /** What is left of trivia once the comments are gone. */
  function Clean(ts: seq<Trivia>): string {
    if ts == [] then "" else CleanOne(ts[0]) + Clean(ts[1..])
  }

  /** One slot between two `;`: a plain statement, or nothing, between two runs of trivia. */
  datatype Slot = Slot(before: seq<Trivia>, stmt: string, after: seq<Trivia>)

  predicate ValidSlot(s: Slot) {
    && (s.stmt == "" || Plain(s.stmt))
    && (forall t :: t in s.before + s.after ==> ValidTrivia(t))
    // "x-" directly followed by a comment would read as "x" followed by a comment one dash earlier
    && (s.stmt != "" && s.stmt[|s.stmt| - 1] == '-' ==> s.after == [] || (s.after[0].Blank? && s.after[0].space != ""))
  }

  function RenderSlot(s: Slot): string {
    Render(s.before) + (s.stmt + Render(s.after))
  }

  function CleanSlot(s: Slot): string {
    Clean(s.before) + s.stmt + Clean(s.after)
  }

  function Print(slots: seq<Slot>, tail: Option<string>): string {
    if slots == [] then End(tail)
    else if |slots| == 1 then RenderSlot(slots[0]) + End(tail)
    else RenderSlot(slots[0]) + (";" + Print(slots[1..], tail))
  }

  function StatementsIn(slots: seq<Slot>): seq<string> {
    if slots == [] then [] else (if slots[0].stmt == "" then [] else [slots[0].stmt]) + StatementsIn(slots[1..])
  }

  lemma {:induction false} DropLineStops(body: string, rest: string)
    requires '\n' !in body
    ensures DropLine(body + "\n" + rest) == "\n" + rest && DropLine(body) == ""
  {
    var s := body + "\n" + rest;
    if body != "" {
      assert s[1..] == body[1..] + "\n" + rest;
      DropLineStops(body[1..], rest);
    }
  }

  lemma StripOneComment(body: string, rest: string)
    requires '\n' !in body
    ensures StripComments("--" + body + "\n" + rest) == "\n" + StripComments(rest)
    ensures StripComments("--" + body) == ""
  {
    DropLineStops("--" + body, rest);
    var s := "--" + body;
    assert s[0] == '-' && s[1] == '-' && DropLine(s) == "" && StripComments("") == "";
    assert "--" + body + "\n" + rest == s + "\n" + rest;
    assert ("\n" + rest)[1..] == rest;
    assert StripComments("\n" + rest) == "\n" + StripComments(rest);
  }

  lemma StripOne(t: Trivia, more: string)
    requires ValidTrivia(t)
    ensures StripComments(RenderOne(t) + more) == CleanOne(t) + StripComments(more)
  {
    match t
    case Blank(space) => StripSkips(space, more);
    case Comment(body) => StripOneComment(body, more);
  }

  lemma {:induction false} StripTrivia(ts: seq<Trivia>, rest: string)
    requires forall t :: t in ts ==> ValidTrivia(t)
    ensures StripComments(Render(ts) + rest) == Clean(ts) + StripComments(rest)
  {
    if ts == [] {
      assert Render(ts) + rest == rest;
    } else {
      var more := Render(ts[1..]) + rest;
      StripTrivia(ts[1..], rest);
      StripOne(ts[0], more);
      assert Render(ts) + rest == RenderOne(ts[0]) + more;
      assert Clean(ts) + StripComments(rest) == CleanOne(ts[0]) + (Clean(ts[1..]) + StripComments(rest));
    }
  }

  lemma StripStatement(s: Slot, rest: string)
    requires ValidSlot(s) && (rest != "" ==> rest[0] != '-')
    ensures StripComments(s.stmt + (Render(s.after) + rest)) == s.stmt + (Clean(s.after) + StripComments(rest))
  {
    var r := Render(s.after) + rest;
    if s.stmt != "" && s.stmt[|s.stmt| - 1] == '-' && s.after != [] {
      assert s.after[0] in s.before + s.after;
      assert r[0] == s.after[0].space[0];
    }
    StripSkips(s.stmt, r);
    forall t | t in s.after ensures ValidTrivia(t) { assert t in s.before + s.after; }
    StripTrivia(s.after, rest);
  }

  lemma StripSlot(s: Slot, rest: string)
    requires ValidSlot(s) && (rest != "" ==> rest[0] != '-')
    ensures StripComments(RenderSlot(s) + rest) == CleanSlot(s) + StripComments(rest)
  {
    var b, m, a := Render(s.before), s.stmt, Render(s.after);
    Regroup(b, m, a, rest);
    forall t | t in s.before ensures ValidTrivia(t) { assert t in s.before + s.after; }
    StripTrivia(s.before, m + (a + rest));
    StripStatement(s, rest);
    Regroup(Clean(s.before), m, Clean(s.after), StripComments(rest));
  }

  lemma Regroup(a: string, b: string, c: string, d: string)
    ensures a + (b + c) + d == a + (b + (c + d)) == a + b + c + d
  {
  }

  lemma {:induction false} CleanIsSpace(ts: seq<Trivia>)
    requires forall t :: t in ts ==> ValidTrivia(t)
    ensures forall i :: 0 <= i < |Clean(ts)| ==> IsSpace(Clean(ts)[i])
  {
    if ts != [] {
      assert ValidTrivia(ts[0]);
      CleanIsSpace(ts[1..]);
    }
  }

  lemma {:induction false} TrimLeftDrops(space: string, s: string)
    requires forall i :: 0 <= i < |space| ==> IsSpace(space[i])
    ensures TrimLeft(space + s) == TrimLeft(s)
  {
    if space == "" { assert space + s == s; }
    else { assert (space + s)[1..] == space[1..] + s; TrimLeftDrops(space[1..], s); }
  }

  lemma {:induction false} TrimRightDrops(s: string, space: string)
    requires forall i :: 0 <= i < |space| ==> IsSpace(space[i])
    ensures TrimRight(s + space) == TrimRight(s)
  {
    if space == "" { assert s + space == s; }
    else { assert (s + space)[..|s + space| - 1] == s + space[..|space| - 1]; TrimRightDrops(s, space[..|space| - 1]); }
  }

  lemma TrimDropsSpace(a: string, s: string, b: string)
    requires forall i :: 0 <= i < |a| ==> IsSpace(a[i])
    requires forall i :: 0 <= i < |b| ==> IsSpace(b[i])
    requires s == "" || Trim(s) == s
    ensures Trim(a + s + b) == s
  {
    assert a + s + b == a + (s + b);
    TrimLeftDrops(a, s + b);
    if s == "" {
      assert s + b == b + "";
      TrimLeftDrops(b, "");
    } else {
      TrimLeftIsSlice(s);
      TrimRightIsSlice(TrimLeft(s));
      assert |TrimLeft(s)| == |s|;
      assert TrimLeft(s + b) == s + b;
      TrimRightDrops(s, b);
      assert s[0..] == s;
    }
  }

  lemma SlotTriviaIsSpace(s: Slot)
    requires ValidSlot(s)
    ensures forall i :: 0 <= i < |Clean(s.before)| ==> IsSpace(Clean(s.before)[i])
    ensures forall i :: 0 <= i < |Clean(s.after)| ==> IsSpace(Clean(s.after)[i])
  {
    forall t | t in s.before ensures ValidTrivia(t) { assert t in s.before + s.after; }
    forall t | t in s.after ensures ValidTrivia(t) { assert t in s.before + s.after; }
    CleanIsSpace(s.before);
    CleanIsSpace(s.after);
  }

  lemma CleanSlotTrims(s: Slot)
    requires ValidSlot(s)
    ensures Trim(CleanSlot(s)) == s.stmt && ';' !in CleanSlot(s)
  {
    SlotTriviaIsSpace(s);
    TrimDropsSpace(Clean(s.before), s.stmt, Clean(s.after));
  }

  function End(tail: Option<string>): string {
    if tail.Some? then "\n--" + tail.value else ""
  }

  function CleanEnd(tail: Option<string>): string {
    if tail.Some? then "\n" else ""
  }

  lemma EndStrips(tail: Option<string>)
    requires tail.Some? ==> '\n' !in tail.value
    ensures StripComments(End(tail)) == CleanEnd(tail)
  {
    if tail.Some? {
      StripOneComment(tail.value, "");
      assert End(tail)[1..] == "--" + tail.value;
    }
  }

  lemma OnlyTheEnd(tail: Option<string>)
    requires tail.Some? ==> '\n' !in tail.value
    ensures Statements(End(tail)) == []
  {
    EndStrips(tail);
    SplitOne(CleanEnd(tail));
    TrimDropsSpace(CleanEnd(tail), "", "");
    var parts := [CleanEnd(tail)];
    assert CleanEnd(tail) == CleanEnd(tail) + "" + "";
    assert Split(StripComments(End(tail))) == parts && Trim(parts[0]) == "";
    assert parts[1..] == [] && Keep(parts) == [] + Keep(parts[1..]);
  }

  lemma LastSlot(s: Slot, tail: Option<string>)
    requires ValidSlot(s) && (tail.Some? ==> '\n' !in tail.value)
    ensures Statements(RenderSlot(s) + End(tail)) == if s.stmt == "" then [] else [s.stmt]
  {
    var text := CleanSlot(s) + CleanEnd(tail);
    assert StripComments(RenderSlot(s) + End(tail)) == text by {
      EndStrips(tail);
      StripSlot(s, End(tail));
    }
    assert Split(text) == [text] by {
      CleanSlotTrims(s);
      SplitOne(text);
    }
    LastSlotTrims(s, tail);
    KeepOne(text);
  }

  lemma KeepOne(part: string)
    ensures Keep([part]) == if Trim(part) == "" then [] else [Trim(part)]
  {
    assert [part][1..] == [];
  }

  lemma LastSlotTrims(s: Slot, tail: Option<string>)
    requires ValidSlot(s)
    ensures Trim(CleanSlot(s) + CleanEnd(tail)) == s.stmt
  {
    var b, m, a, e := Clean(s.before), s.stmt, Clean(s.after), CleanEnd(tail);
    SlotTriviaIsSpace(s);
    assert b + m + a + e == b + m + (a + e);
    TrimDropsSpace(b, m, a + e);
  }

  lemma NextSlot(s: Slot, rest: string)
    requires ValidSlot(s)
    ensures Statements(RenderSlot(s) + (";" + rest)) == (if s.stmt == "" then [] else [s.stmt]) + Statements(rest)
  {
    var more := ";" + rest;
    StripSlot(s, more);
    assert more[1..] == rest && StripComments(more) == ";" + StripComments(rest);
    CleanSlotTrims(s);
    SplitFirst(CleanSlot(s), StripComments(rest));
    assert CleanSlot(s) + (";" + StripComments(rest)) == CleanSlot(s) + ";" + StripComments(rest);
    var parts := [CleanSlot(s)] + Split(StripComments(rest));
    assert parts[1..] == Split(StripComments(rest));
  }

  /** Splitting undoes printing: line comments (whatever they contain, `;` included), white space, blank statements and
      a last comment without a newline all disappear, and exactly the statements come back in order. */
  lemma {:induction false} SplitUndoesPrint(slots: seq<Slot>, tail: Option<string>)
    requires forall s :: s in slots ==> ValidSlot(s)
    requires tail.Some? ==> '\n' !in tail.value
    ensures Statements(Print(slots, tail)) == StatementsIn(slots)
  {
    if slots == [] {
      OnlyTheEnd(tail);
    } else {
      assert slots[0] in slots;
      if |slots| == 1 {
        LastSlot(slots[0], tail);
        assert StatementsIn(slots[1..]) == [];
      } else {
        NextSlot(slots[0], Print(slots[1..], tail));
        SplitUndoesPrint(slots[1..], tail);
      }
    }
  }
}
