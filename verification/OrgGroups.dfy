/** The three-level group hierarchy (the authorization and groups modules embedded in apply_org_group_rbac.py) and the
    effective scope that is drawn from it. */
module OrgGroups {
  import opened Options
  import opened AccessScope

  datatype Level = L1 | L2 | L3

  datatype Group = Group(name: string, level: Level, parent: Option<nat>)

  type Tree = map<nat, Group>

  datatype Error =
    | NameRequired | InvalidLevel | HasParent | NeedsParent | NoSuchParent | WrongParentLevel
    | NameTaken | NoSuchGroup | HasChildren

  datatype Outcome = Done(id: nat) | Refused(error: Error)

  function ParseLevel(s: string): Option<Level> {
    if s == "L1" then Some(L1) else if s == "L2" then Some(L2) else if s == "L3" then Some(L3) else None
  }

  function ParentLevel(l: Level): Option<Level> {
    match l case L1 => None case L2 => Some(L1) case L3 => Some(L2)
  }

  /** validate_group_level_and_parent. */
  function Validate(t: Tree, level: string, parent: Option<nat>): Option<Error> {
    if ParseLevel(level).None? then Some(InvalidLevel) else
    var expected := ParentLevel(ParseLevel(level).value);
    if expected.None? then (if parent.Some? then Some(HasParent) else None)
    else if parent.None? then Some(NeedsParent)
    else if parent.value !in t then Some(NoSuchParent)
    else if Some(t[parent.value].level) != expected then Some(WrongParentLevel)
    else None
  }

  // ---- the chain of a group ----------------------------------------------------------------------

  function Walk(t: Tree, at: Option<nat>, seen: set<nat>): (chain: seq<nat>)
    decreases t.Keys - seen
  {
    if at.None? || at.value in seen || at.value !in t then []
    else [at.value] + Walk(t, t[at.value].parent, seen + {at.value})
  }

  function GroupChain(t: Tree, id: nat): seq<nat> {
    Walk(t, Some(id), {})
  }

  /** Ends on any parent links, cyclic ones included. */
  method GetGroupChain(t: Tree, id: nat) returns (chain: seq<nat>)
    ensures chain == GroupChain(t, id)
  {
    chain := [];
    var current := Some(id);
    var seen: set<nat> := {};
    while current.Some? && current.value !in seen
      invariant chain + Walk(t, current, seen) == GroupChain(t, id)
      decreases t.Keys - seen, current.Some? && current.value in t
    {
      if current.value !in t { break; }
      chain := chain + [current.value];
      seen := seen + {current.value};
      current := t[current.value].parent;
    }
  }

  /** On arbitrary parent links: no group twice, each followed by its parent, and the walk stops only at a group without
      a known parent or at one whose parent it has passed. */
  lemma {:induction false} WalkFollowsParents(t: Tree, at: Option<nat>, seen: set<nat>)
    ensures var c := Walk(t, at, seen);
            && (forall i :: 0 <= i < |c| ==> c[i] in t && c[i] !in seen)
            && (forall i, j :: 0 <= i < j < |c| ==> c[i] != c[j])
            && (forall i :: 0 <= i < |c| - 1 ==> t[c[i]].parent == Some(c[i + 1]))
            && (c != [] ==> var p := t[c[|c| - 1]].parent; p.None? || p.value !in t || p.value in seen || p.value in c)
    decreases t.Keys - seen
  {
    if at.Some? && at.value !in seen && at.value in t {
      var rest := Walk(t, t[at.value].parent, seen + {at.value});
      WalkFollowsParents(t, t[at.value].parent, seen + {at.value});
      var c := Walk(t, at, seen);
      assert c == [at.value] + rest;
      if rest == [] {
        assert c[|c| - 1] == at.value;
      } else {
        assert c[|c| - 1] == rest[|rest| - 1] && rest[0] == t[at.value].parent.value;
      }
    }
  }

  // ---- the hierarchy ---------------------------------------------------------------------------

  /** Each parent is known and exactly one level up; only L1 groups have none. */
  ghost predicate WellFormed(t: Tree, id: nat)
    requires id in t
  {
    match ParentLevel(t[id].level)
    case None => t[id].parent == None
    case Some(l) => t[id].parent.Some? && t[id].parent.value in t && t[t[id].parent.value].level == l
  }

  ghost predicate Forest(t: Tree) {
    forall id :: id in t ==> WellFormed(t, id)
  }

  /** A request is accepted exactly when the group it asks for would have its place in the hierarchy. */
  lemma ValidatedExactly(t: Tree, level: string, parent: Option<nat>, id: nat, name: string)
    requires id !in t && parent != Some(id)
    ensures Validate(t, level, parent).None? <==>
              ParseLevel(level).Some? && WellFormed(t[id := Group(name, ParseLevel(level).value, parent)], id)
  {
  }

  function Rank(l: Level): nat {
    match l case L1 => 1 case L2 => 2 case L3 => 3
  }

  lemma {:induction false} WalkInForest(t: Tree, id: nat, seen: set<nat>)
    requires Forest(t) && id in t && forall s :: s in seen && s in t ==> Rank(t[s].level) > Rank(t[id].level)
    ensures var c := Walk(t, Some(id), seen);
            && |c| == Rank(t[id].level)
            && (forall i :: 0 <= i < |c| ==> c[i] in t && Rank(t[c[i]].level) == |c| - i)
            && (t[id].parent.Some? ==> c == [id] + Walk(t, t[id].parent, {}))
    decreases Rank(t[id].level)
  {
    assert WellFormed(t, id);
    if t[id].parent.Some? {
      WalkInForest(t, t[id].parent.value, seen + {id});
      WalkInForest(t, t[id].parent.value, {});
      WalkIgnoresLower(t, t[id].parent.value, seen + {id});
    }
  }

  lemma {:induction false} WalkIgnoresLower(t: Tree, id: nat, seen: set<nat>)
    requires Forest(t) && id in t && forall s :: s in seen && s in t ==> Rank(t[s].level) > Rank(t[id].level)
    ensures Walk(t, Some(id), seen) == Walk(t, Some(id), {})
    decreases Rank(t[id].level)
  {
    assert WellFormed(t, id);
    if t[id].parent.Some? {
      WalkIgnoresLower(t, t[id].parent.value, seen + {id});
      WalkIgnoresLower(t, t[id].parent.value, {id});
      assert {} + {id} == {id};
    }
  }

  /** The chain of an L1, L2 or L3 group has exactly one, two or three groups, one of each level up to its L1. */
  lemma ChainExactly(t: Tree, id: nat)
    requires Forest(t) && id in t
    ensures var c := GroupChain(t, id);
            && |c| == Rank(t[id].level) && c[0] == id
            && (forall i :: 0 <= i < |c| ==> c[i] in t && Rank(t[c[i]].level) == |c| - i)
            && t[c[|c| - 1]].level == L1
            && (t[id].parent.Some? ==> c[1..] == GroupChain(t, t[id].parent.value))
  {
    WalkInForest(t, id, {});
    var c := GroupChain(t, id);
    assert Rank(t[c[|c| - 1]].level) == 1;
  }

  // ---- requests, interleaved ---------------------------------------------------------------------

  /** Where a request is: a create between its validation and its INSERT, a delete between its check and its DELETE. */
  datatype Request = Idle | Creating(name: string, level: Level, parent: Option<nat>) | Deleting(id: nat)

  /** The database numbers new groups upwards and enforces the parent foreign key and the unique name. */
  datatype System = System(tree: Tree, nextId: nat, requests: seq<Request>)

  datatype Event =
    | StartCreate(r: nat, name: string, level: string, parent: Option<nat>)
    | Insert(r: nat)
    | StartDelete(r: nat, id: nat)
    | Delete(r: nat)

  predicate Childless(t: Tree, id: nat) {
    forall c :: c in t ==> t[c].parent != Some(id)
  }

  predicate Insertable(t: Tree, name: string, parent: Option<nat>) {
    (parent.Some? ==> parent.value in t) && forall id :: id in t ==> t[id].name != name
  }

  function SetRequest(s: System, r: nat, q: Request): System
    requires r < |s.requests|
  {
    s.(requests := s.requests[r := q])
  }

  function Next(s: System, e: Event): System {
    if e.r >= |s.requests| then s else
    match (e, s.requests[e.r])
    case (StartCreate(r, name, level, parent), Idle) =>
      if name == "" || Validate(s.tree, level, parent).Some? then s
      else SetRequest(s, r, Creating(name, ParseLevel(level).value, parent))
    case (Insert(r), Creating(name, level, parent)) =>
      if Insertable(s.tree, name, parent)
      then SetRequest(s.(tree := s.tree[s.nextId := Group(name, level, parent)], nextId := s.nextId + 1), r, Idle)
      else SetRequest(s, r, Idle)
    case (StartDelete(r, id), Idle) =>
      if id !in s.tree || !Childless(s.tree, id) then s else SetRequest(s, r, Deleting(id))
    case (Delete(r), Deleting(id)) =>
      if Childless(s.tree, id) then SetRequest(s.(tree := s.tree - {id}), r, Idle) else SetRequest(s, r, Idle)
    case _ => s
  }

  function Run(s: System, es: seq<Event>): System
    decreases |es|
  {
    if es == [] then s else Run(Next(s, es[0]), es[1..])
  }

  ghost predicate PendingOk(s: System, q: Request) {
    q.Creating? ==>
      match ParentLevel(q.level)
      case None => q.parent == None
      case Some(l) =>
        q.parent.Some? && q.parent.value < s.nextId && (q.parent.value in s.tree ==> s.tree[q.parent.value].level == l)
  }

  ghost predicate Inv(s: System) {
    && Forest(s.tree)
    && (forall id :: id in s.tree ==> id < s.nextId)
    && forall i :: 0 <= i < |s.requests| ==> PendingOk(s, s.requests[i])
  }

  lemma InsertKeepsInv(s: System, r: nat)
    requires Inv(s) && r < |s.requests| && s.requests[r].Creating?
    ensures Inv(Next(s, Insert(r)))
  {
    var s' := Next(s, Insert(r));
    assert PendingOk(s, s.requests[r]);
    forall id | id in s'.tree ensures WellFormed(s'.tree, id) {
      if id in s.tree { assert WellFormed(s.tree, id); }
    }
    forall i | 0 <= i < |s'.requests| ensures PendingOk(s', s'.requests[i]) { assert PendingOk(s, s.requests[i]); }
  }

  lemma DeleteKeepsInv(s: System, r: nat)
    requires Inv(s) && r < |s.requests| && s.requests[r].Deleting?
    ensures Inv(Next(s, Delete(r)))
  {
    var s' := Next(s, Delete(r));
    forall id | id in s'.tree ensures WellFormed(s'.tree, id) { assert WellFormed(s.tree, id); }
    forall i | 0 <= i < |s'.requests| ensures PendingOk(s', s'.requests[i]) { assert PendingOk(s, s.requests[i]); }
  }

  lemma NextKeepsInv(s: System, e: Event)
    requires Inv(s)
    ensures Inv(Next(s, e))
  {
    if e.r < |s.requests| {
      var q := s.requests[e.r];
      if e.Insert? && q.Creating? {
        InsertKeepsInv(s, e.r);
      } else if e.Delete? && q.Deleting? {
        DeleteKeepsInv(s, e.r);
      } else {
        var s' := Next(s, e);
        forall i | 0 <= i < |s'.requests| ensures PendingOk(s', s'.requests[i]) { assert PendingOk(s, s.requests[i]); }
      }
    }
  }

  lemma {:induction false} RunKeepsInv(s: System, es: seq<Event>)
    requires Inv(s)
    ensures Inv(Run(s, es))
    decreases |es|
  {
    if es != [] {
      NextKeepsInv(s, es[0]);
      RunKeepsInv(Next(s, es[0]), es[1..]);
    }
  }

  /** Over every interleaving of creations and deletions, from the empty table: a forest whose chains are complete. */
  lemma HierarchyStaysAForest(idle: seq<Request>, es: seq<Event>, id: nat)
    requires (forall q :: q in idle ==> q == Idle) && id in Run(System(map[], 1, idle), es).tree
    ensures var t := Run(System(map[], 1, idle), es).tree; var c := GroupChain(t, id);
            Forest(t) && |c| == Rank(t[id].level) && c[|c| - 1] in t && t[c[|c| - 1]].level == L1
  {
    assert forall i :: 0 <= i < |idle| ==> idle[i] in idle;
    RunKeepsInv(System(map[], 1, idle), es);
    ChainExactly(Run(System(map[], 1, idle), es).tree, id);
  }

  // ---- the table, one request at a time --------------------------------------------------------------

  class GroupTable {
    var tree: Tree
    var nextId: nat
    var policies: seq<(nat, Grant)>
    var members: set<(nat, nat)>

    ghost predicate Valid()
      reads this
    {
      Forest(tree) && forall id :: id in tree ==> id < nextId
    }

    constructor ()
      ensures Valid() && tree == map[] && policies == [] && members == {}
    {
      tree, nextId, policies, members := map[], 1, [], {};
    }

    method CreateGroup(name: string, level: string, parent: Option<nat>) returns (r: Outcome)
      requires Valid()
      modifies this
      ensures Valid() && policies == old(policies) && members == old(members)
      ensures r.Done? <==> name != "" && Validate(old(tree), level, parent).None? && Insertable(old(tree), name, parent)
      ensures r.Done? ==>
                && r.id == old(nextId) && nextId == r.id + 1
                && tree == old(tree)[r.id := Group(name, ParseLevel(level).value, parent)]
      ensures r.Refused? ==> tree == old(tree) && nextId == old(nextId)
    {
      if name == "" { return Refused(NameRequired); }
      var err := Validate(tree, level, parent);
      if err.Some? { return Refused(err.value); }
      if !Insertable(tree, name, parent) { return Refused(NameTaken); }
      ghost var s := System(tree, nextId, [Creating(name, ParseLevel(level).value, parent)]);
      InsertKeepsInv(s, 0);
      tree := tree[nextId := Group(name, ParseLevel(level).value, parent)];
      nextId := nextId + 1;
      r := Done(nextId - 1);
    }

    /** Policies and memberships of the group go with it. */
    method DeleteGroup(id: nat) returns (r: Outcome)
      requires Valid()
      modifies this
      ensures Valid() && nextId == old(nextId)
      ensures r ==
                if id !in old(tree) then Refused(NoSuchGroup)
                else if !Childless(old(tree), id) then Refused(HasChildren) else Done(id)
      ensures r.Done? ==>
                && tree == old(tree) - {id} && policies == Without(old(policies), id)
                && members == set m | m in old(members) && m.1 != id
      ensures r.Refused? ==> tree == old(tree) && policies == old(policies) && members == old(members)
    {
      if id !in tree { return Refused(NoSuchGroup); }
      if !Childless(tree, id) { return Refused(HasChildren); }
      ghost var s := System(tree, nextId, [Deleting(id)]);
      DeleteKeepsInv(s, 0);
      tree := tree - {id};
      policies := Without(policies, id);
      members := set m | m in members && m.1 != id;
      r := Done(id);
    }

    /** The groups a set of memberships draws on, then their policies beside the user's own grants. */
    method GetEffectiveScope(admin: bool, own: seq<Grant>, direct: seq<nat>) returns (scope: Scope)
      ensures scope == if admin then FullAccess else Grants(EffectiveGrants(tree, policies, own, direct))
    {
      if admin { return FullAccess; }
      var inherited: set<nat> := {};
      for i := 0 to |direct|
        invariant inherited == Inherited(tree, direct[..i])
      {
        var chain := GetGroupChain(tree, direct[i]);
        assert direct[..i + 1] == direct[..i] + [direct[i]];
        InheritedMore(tree, direct[..i], direct[i]);
        inherited := inherited + (set g | g in chain);
      }
      assert direct[..|direct|] == direct;
      var grants := own;
      for i := 0 to |policies|
        invariant grants == own + PoliciesOf(policies[..i], inherited)
      {
        assert policies[..i + 1][..i] == policies[..i];
        if policies[i].0 in inherited { grants := grants + [policies[i].1]; }
      }
      assert policies[..|policies|] == policies;
      scope := Grants(grants);
    }
  }

  function Without(policies: seq<(nat, Grant)>, id: nat): (r: seq<(nat, Grant)>)
    ensures forall p :: p in r <==> p in policies && p.0 != id
  {
    if policies == [] then [] else (if policies[0].0 != id then [policies[0]] else []) + Without(policies[1..], id)
  }

  function Inherited(t: Tree, direct: seq<nat>): set<nat> {
    set d, g | d in direct && g in GroupChain(t, d) :: g
  }

  lemma InheritedMore(t: Tree, direct: seq<nat>, d: nat)
    ensures Inherited(t, direct + [d]) == Inherited(t, direct) + (set g | g in GroupChain(t, d))
  {
    var more := direct + [d];
    assert d in more && forall x :: x in more <==> x in direct || x == d;
  }

  function PoliciesOf(policies: seq<(nat, Grant)>, groups: set<nat>): (r: seq<Grant>)
    ensures forall g :: g in r <==> exists p :: p in policies && p.0 in groups && p.1 == g
  {
    if policies == [] then [] else
    var n := |policies| - 1;
    var r := PoliciesOf(policies[..n], groups) + if policies[n].0 in groups then [policies[n].1] else [];
    assert policies == policies[..n] + [policies[n]];
    r
  }

  function EffectiveGrants(t: Tree, policies: seq<(nat, Grant)>, own: seq<Grant>, direct: seq<nat>): seq<Grant> {
    own + PoliciesOf(policies, Inherited(t, direct))
  }

  /** Exactly the own grants and the policies of the direct groups and of everything above them. */
  lemma EffectiveGrantsExactly(t: Tree, policies: seq<(nat, Grant)>, own: seq<Grant>, direct: seq<nat>, g: Grant)
    ensures g in EffectiveGrants(t, policies, own, direct) <==>
              g in own || exists p, d :: p in policies && d in direct && p.0 in GroupChain(t, d) && p.1 == g
  {
    var r := PoliciesOf(policies, Inherited(t, direct));
    assert g in own + r <==> g in own || g in r;
    if p, d :| p in policies && d in direct && p.0 in GroupChain(t, d) && p.1 == g {
      assert p.0 in Inherited(t, direct);
    }
  }

  /** A member of a child group has every group grant that a member of its parent has. */
  lemma ChildHasParentsGrants(t: Tree, policies: seq<(nat, Grant)>, own: seq<Grant>, child: nat, g: Grant)
    requires Forest(t) && child in t && t[child].parent.Some?
    requires g in EffectiveGrants(t, policies, own, [t[child].parent.value])
    ensures g in EffectiveGrants(t, policies, own, [child])
  {
    var parent := t[child].parent.value;
    ChainExactly(t, child);
    var c := GroupChain(t, child);
    assert forall x :: x in GroupChain(t, parent) ==> x in c;
    EffectiveGrantsExactly(t, policies, own, [parent], g);
    EffectiveGrantsExactly(t, policies, own, [child], g);
    if g !in own {
      var p, d :| p in policies && d in [parent] && p.0 in GroupChain(t, d) && p.1 == g;
      assert child in [child] && p.0 in c;
    }
  }
}
