/** Every run in which administrators and other users hand scopes on (app/api/admin/users.py:109-150 uses the gate of
    the authorization module embedded in apply_org_group_rbac.py). */
module Delegation {
  import opened AccessScope
  import opened OrgGroups

  /** `given` records every grant an administrator ever made, to a user or to a group. */
  datatype State = State(tree: Tree, policies: seq<(nat, Grant)>, members: map<nat, seq<nat>>,
                         own: map<nat, seq<Grant>>, given: set<Grant>)

  /** A non-administrator's request carries the actor; memberships and the hierarchy may change in any way. */
  datatype Step =
    | AdminGrants(user: nat, scopes: seq<Grant>)
    | AdminAttaches(group: nat, scopes: seq<Grant>)
    | UserGrants(actor: nat, user: nat, scopes: seq<Grant>)
    | Reorganize(tree: Tree, members: map<nat, seq<nat>>)
    | Revoke(user: nat, keep: set<Grant>)
    | Detach(policies: seq<(nat, Grant)>)

  function Own(s: State, user: nat): seq<Grant> {
    if user in s.own then s.own[user] else []
  }

  function ScopeOf(s: State, user: nat): seq<Grant> {
    EffectiveGrants(s.tree, s.policies, Own(s, user), if user in s.members then s.members[user] else [])
  }

  function Kept(gs: seq<Grant>, keep: set<Grant>): (r: seq<Grant>)
    ensures forall g :: g in r <==> g in gs && g in keep
  {
    if gs == [] then [] else (if gs[0] in keep then [gs[0]] else []) + Kept(gs[1..], keep)
  }

  function Attached(group: nat, scopes: seq<Grant>): (r: seq<(nat, Grant)>)
    ensures forall p :: p in r ==> p.1 in scopes
  {
    if scopes == [] then [] else [(group, scopes[0])] + Attached(group, scopes[1..])
  }

  function GivenWith(given: set<Grant>, scopes: seq<Grant>): set<Grant> {
    given + set g | g in scopes
  }

  /** A refused request changes nothing. */
  ghost function Next(s: State, e: Step): State {
    match e
    case AdminGrants(u, scopes) => s.(own := s.own[u := Own(s, u) + scopes], given := GivenWith(s.given, scopes))
    case AdminAttaches(g, scopes) =>
      s.(policies := s.policies + Attached(g, scopes), given := GivenWith(s.given, scopes))
    case UserGrants(actor, u, scopes) =>
      if scopes == [] || !ScopeWithin(scopes, Grants(ScopeOf(s, actor))) then s
      else s.(own := s.own[u := Own(s, u) + scopes])
    case Reorganize(tree, members) => s.(tree := tree, members := members)
    case Revoke(u, keep) => s.(own := s.own[u := Kept(Own(s, u), keep)])
    case Detach(policies) => if forall p :: p in policies ==> p in s.policies then s.(policies := policies) else s
  }

  ghost function RunAll(s: State, es: seq<Step>): State
    decreases |es|
  {
    if es == [] then s else RunAll(Next(s, es[0]), es[1..])
  }

  ghost predicate Backed(given: set<Grant>, g: Grant) {
    exists r :: r in given && GrantCovers(r, g)
  }

  ghost predicate Inv(s: State) {
    && (forall u, g :: u in s.own && g in s.own[u] ==> Backed(s.given, g))
    && (forall p :: p in s.policies ==> Backed(s.given, p.1))
  }

  lemma ScopeIsBacked(s: State, user: nat, g: Grant)
    requires Inv(s) && g in ScopeOf(s, user)
    ensures Backed(s.given, g)
  {
    var direct := if user in s.members then s.members[user] else [];
    EffectiveGrantsExactly(s.tree, s.policies, Own(s, user), direct, g);
    if g !in Own(s, user) {
      var p, d :| p in s.policies && d in direct && p.0 in GroupChain(s.tree, d) && p.1 == g;
    }
  }

  lemma GivenBacks(given: set<Grant>, scopes: seq<Grant>)
    ensures forall g :: g in scopes ==> Backed(GivenWith(given, scopes), g)
    ensures forall g :: Backed(given, g) ==> Backed(GivenWith(given, scopes), g)
  {
    var more := GivenWith(given, scopes);
    forall g | g in scopes ensures Backed(more, g) {
      CoveringIsContainment(g, g);
      assert g in more && GrantCovers(g, g);
    }
    forall g | Backed(given, g) ensures Backed(more, g) {
      var r :| r in given && GrantCovers(r, g);
      assert r in more;
    }
  }

  lemma NextKeepsInv(s: State, e: Step)
    requires Inv(s)
    ensures Inv(Next(s, e)) && s.given <= Next(s, e).given
  {
    match e
    case AdminGrants(u, scopes) => GivenBacks(s.given, scopes);
    case AdminAttaches(g, scopes) => GivenBacks(s.given, scopes);
    case UserGrants(actor, u, scopes) =>
      if scopes != [] && ScopeWithin(scopes, Grants(ScopeOf(s, actor))) {
        forall g | g in scopes ensures Backed(s.given, g) {
          var h :| h in ScopeOf(s, actor) && GrantCovers(h, g);
          ScopeIsBacked(s, actor, h);
          var r :| r in s.given && GrantCovers(r, h);
          CoveringIsTransitive(r, h, g);
        }
      }
    case Reorganize(tree, members) =>
    case Revoke(u, keep) =>
    case Detach(policies) =>
  }

  lemma {:induction false} RunKeepsInv(s: State, es: seq<Step>)
    requires Inv(s)
    ensures Inv(RunAll(s, es))
    decreases |es|
  {
    if es != [] {
      NextKeepsInv(s, es[0]);
      RunKeepsInv(Next(s, es[0]), es[1..]);
    }
  }

  const START := State(map[], [], map[], map[], {})

  /** However often scopes are handed on, and however groups, memberships and grants change meanwhile, every grant a
      user ends up with lies inside one single grant that an administrator made; so nobody reaches anything no
      administrator granted. */
  lemma NothingIsGainedByDelegation(es: seq<Step>, user: nat, g: Grant, a: Access)
    requires g in ScopeOf(RunAll(START, es), user) && Permits(g, a)
    ensures exists r :: r in RunAll(START, es).given && GrantCovers(r, g) && Permits(r, a)
  {
    RunKeepsInv(START, es);
    ScopeIsBacked(RunAll(START, es), user, g);
    var r :| r in RunAll(START, es).given && GrantCovers(r, g);
    CoveringIsContainment(r, g);
  }
}
