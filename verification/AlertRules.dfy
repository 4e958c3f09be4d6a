/** What state an alert row is in (app/alert_rules.py), in SQL's three-valued logic. */
module AlertRules {
  import opened Options

  datatype Truth = True | False | Unknown

  function Not(a: Truth): Truth {
    match a case True => False case False => True case Unknown => Unknown
  }

  function And(a: Truth, b: Truth): Truth {
    if a.False? || b.False? then False else if a.Unknown? || b.Unknown? then Unknown else True
  }

  function Or(a: Truth, b: Truth): Truth {
    if a.True? || b.True? then True else if a.Unknown? || b.Unknown? then Unknown else False
  }

  function Is(b: bool): Truth {
    if b then True else False
  }

  function Equals<T(==)>(a: Option<T>, b: T): Truth {
    if a.None? then Unknown else Is(a.value == b)
  }

  function Less(a: Option<int>, b: int): Truth {
    if a.None? then Unknown else Is(a.value < b)
  }

  function Greater(a: Option<int>, b: int): Truth {
    if a.None? then Unknown else Is(a.value > b)
  }

  function Coalesce(a: Option<int>, b: Option<int>): Option<int> {
    if a.Some? then a else b
  }

  /** The columns the state is derived from; every one of them may be NULL. Times are in seconds. */
  datatype Columns = Columns(status: Option<string>, silenced: Option<int>, mutedUntil: Option<int>,
                             lastSeenAt: Option<int>, triggeredAt: Option<int>)

  datatype State = Resolved | Acknowledged | Suppressed | Stale | Firing

  function IsStale(c: Columns, now: int, staleMinutes: int): Truth {
    And(Equals(c.status, "active"), Less(Coalesce(c.lastSeenAt, c.triggeredAt), now - 60 * staleMinutes))
  }

  function IsSuppressed(c: Columns, now: int): Truth {
    Or(Equals(c.silenced, 1), And(Is(c.mutedUntil.Some?), Greater(c.mutedUntil, now)))
  }

  /** The CASE expression: a WHEN is taken only when its condition is TRUE. */
  function StateOf(c: Columns, now: int, staleMinutes: int): State {
    if Equals(c.status, "resolved").True? then Resolved
    else if Equals(c.status, "acknowledged").True? then Acknowledged
    else if IsSuppressed(c, now).True? then Suppressed
    else if IsStale(c, now, staleMinutes).True? then Stale
    else Firing
  }

  function FiringWhere(c: Columns, now: int, staleMinutes: int): Truth {
    And(And(Equals(c.status, "active"), Not(IsSuppressed(c, now))), Not(IsStale(c, now, staleMinutes)))
  }

  /** The WHERE fragment selects a row exactly when the CASE calls it firing and the row is an active one with a
      silenced flag and at least one of its two timestamps. Every other row the CASE calls firing by default is
      missed. */
  lemma FiringWhereExactly(c: Columns, now: int, staleMinutes: int)
    ensures FiringWhere(c, now, staleMinutes).True? <==>
            && StateOf(c, now, staleMinutes) == Firing
            && c.status == Some("active") && c.silenced.Some? && (c.lastSeenAt.Some? || c.triggeredAt.Some?)
  {
  }

  /** On the rows the application writes, the two definitions agree. */
  lemma FiringWhereIsFiring(c: Columns, now: int, staleMinutes: int)
    requires c.status in {Some("active"), Some("acknowledged"), Some("resolved")}
    requires c.silenced.Some? && (c.lastSeenAt.Some? || c.triggeredAt.Some?)
    ensures FiringWhere(c, now, staleMinutes).True? <==> StateOf(c, now, staleMinutes) == Firing
  {
    FiringWhereExactly(c, now, staleMinutes);
  }

  /** What the table's NOT NULL columns leave: status, silenced and triggered_at are always there. */
  predicate Storable(c: Columns) {
    c.status.Some? && c.silenced.Some? && c.triggeredAt.Some?
  }

  /** On every row that the table can hold the two definitions agree exactly when the status is one of the three that
      the application writes, or the row is suppressed: any other status the CASE calls firing by default. */
  lemma FiringWhereOnStoredRows(c: Columns, now: int, staleMinutes: int)
    requires Storable(c)
    ensures (FiringWhere(c, now, staleMinutes).True? <==> StateOf(c, now, staleMinutes) == Firing) <==>
              c.status.value in {"active", "acknowledged", "resolved"} || IsSuppressed(c, now).True?
  {
    FiringWhereExactly(c, now, staleMinutes);
  }

  function Age(s: State): nat {
    match s
    case Suppressed => 0
    case Firing => 1
    case Stale => 2
    case _ => 3
  }

  /** While its row is unchanged an alert only ages: suppressed, then firing, then stale. These are the transitions
      no fingerprint of the rows can see. */
  lemma UnchangedRowOnlyAges(c: Columns, now: int, later: int, staleMinutes: int)
    requires now <= later
    ensures Age(StateOf(c, now, staleMinutes)) <= Age(StateOf(c, later, staleMinutes))
    ensures Age(StateOf(c, now, staleMinutes)) == 3 ==> StateOf(c, now, staleMinutes) == StateOf(c, later, staleMinutes)
  {
  }
}
