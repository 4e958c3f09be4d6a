/** What a scope lets a user reach, and the gate on handing scopes on (the authorization module embedded in
    apply_org_group_rbac.py). A grant means a set of accesses; the gate compares lists, never accesses. */
module AccessScope {
  import opened Options

  /** None and [] both mean no restriction. */
  type Restriction = Option<seq<string>>

  datatype Grant = Grant(cloud: string, account: Option<nat>, regions: Restriction, groups: Restriction,
                         types: Restriction, ids: Restriction)

  datatype Access = Access(cloud: string, account: nat, region: string, group: string, kind: string, id: string)

  datatype Scope = FullAccess | Grants(grants: seq<Grant>)

  // ---- what grants mean ----------------------------------------------------------------------

  predicate Restricts(r: Restriction) {
    r.Some? && r.value != []
  }

  predicate Allows(r: Restriction, x: string) {
    Restricts(r) ==> x in r.value
  }

  predicate Permits(g: Grant, a: Access) {
    && g.cloud == a.cloud && (g.account.Some? ==> g.account.value == a.account)
    && Allows(g.regions, a.region) && Allows(g.groups, a.group) && Allows(g.types, a.kind) && Allows(g.ids, a.id)
  }

  predicate Permitted(s: Scope, a: Access) {
    s.FullAccess? || exists g :: g in s.grants && Permits(g, a)
  }

  // ---- the gate --------------------------------------------------------------------------------

  predicate Covers(actor: Restriction, requested: Restriction) {
    if !Restricts(actor) then true
    else if !Restricts(requested) then false
    else forall x :: x in requested.value ==> x in actor.value
  }

  predicate GrantCovers(g: Grant, req: Grant) {
    && g.cloud == req.cloud
    && (g.account.Some? ==> g.account == req.account)
    && Covers(g.regions, req.regions) && Covers(g.groups, req.groups) && Covers(g.types, req.types)
    && Covers(g.ids, req.ids)
  }

  predicate SingleScopeWithin(req: Grant, actor: seq<Grant>) {
    exists g :: g in actor && GrantCovers(g, req)
  }

  predicate ScopeWithin(requested: seq<Grant>, actor: Scope) {
    actor.FullAccess? || (requested != [] && forall req :: req in requested ==> SingleScopeWithin(req, actor.grants))
  }

  // ---- the gate means containment ----------------------------------------------------------------

  /** A string that is not in the list. */
  function Fresh(xs: seq<string>): (x: string)
    ensures x !in xs
  {
    Longest(xs) + "*"
  }

  function Longest(xs: seq<string>): (x: string)
    ensures forall y :: y in xs ==> |y| <= |x|
  {
    if xs == [] then "" else if |xs[0]| >= |Longest(xs[1..])| then xs[0] else Longest(xs[1..])
  }

  /** Something `requested` allows, outside `actor` when it does not cover `requested`. */
  function Sample(actor: Restriction, requested: Restriction): (x: string)
    ensures Allows(requested, x)
    ensures !Covers(actor, requested) ==> !Allows(actor, x)
  {
    if !Restricts(requested) then (if Restricts(actor) then Fresh(actor.value) else "")
    else if Covers(actor, requested) then requested.value[0]
    else FirstOutside(requested.value, actor.value)
  }

  function FirstOutside(xs: seq<string>, ys: seq<string>): (x: string)
    requires exists x :: x in xs && x !in ys
    ensures x in xs && x !in ys
  {
    if xs[0] !in ys then xs[0] else FirstOutside(xs[1..], ys)
  }

  /** One grant covers a request exactly when it permits every access that the request permits. */
  lemma CoveringIsContainment(g: Grant, req: Grant)
    ensures GrantCovers(g, req) <==> forall a :: Permits(req, a) ==> Permits(g, a)
  {
    var account := if req.account.Some? then req.account.value else if g.account.Some? then g.account.value + 1 else 0;
    var a := Access(req.cloud, account, Sample(g.regions, req.regions), Sample(g.groups, req.groups),
                    Sample(g.types, req.types), Sample(g.ids, req.ids));
    assert Permits(req, a);
  }

  /** The gate accepts exactly the non-empty lists of requests each of which lies inside one grant. */
  lemma GateExactly(requested: seq<Grant>, actor: seq<Grant>)
    ensures ScopeWithin(requested, Grants(actor)) <==>
              requested != [] && forall req :: req in requested ==> exists g :: g in actor && forall a ::
                Permits(req, a) ==> Permits(g, a)
  {
    forall g, req ensures GrantCovers(g, req) <==> forall a :: Permits(req, a) ==> Permits(g, a) {
      CoveringIsContainment(g, req);
    }
    if ScopeWithin(requested, Grants(actor)) {
      forall req | req in requested ensures exists g :: g in actor && forall a :: Permits(req, a) ==> Permits(g, a) {
        var g :| g in actor && GrantCovers(g, req);
      }
    }
  }

  /** What passes the gate permits nothing that the actor's own scope does not. */
  lemma GateIsSound(requested: seq<Grant>, actor: Scope, a: Access)
    requires ScopeWithin(requested, actor) && Permitted(Grants(requested), a)
    ensures Permitted(actor, a)
  {
    if actor.Grants? {
      var req :| req in requested && Permits(req, a);
      var g :| g in actor.grants && GrantCovers(g, req);
      CoveringIsContainment(g, req);
    }
  }

  /** The converse fails: two grants that only together contain a request do not pass it. */
  lemma GateIsNotComplete()
    ensures var us := Grant("aws", None, Some(["us-east-1"]), None, None, None);
            var eu := us.(regions := Some(["eu-west-1"]));
            var both := us.(regions := Some(["us-east-1", "eu-west-1"]));
            && (forall a :: Permitted(Grants([both]), a) ==> Permitted(Grants([us, eu]), a))
            && !ScopeWithin([both], Grants([us, eu]))
  {
    var us := Grant("aws", None, Some(["us-east-1"]), None, None, None);
    var eu := us.(regions := Some(["eu-west-1"]));
    var both := us.(regions := Some(["us-east-1", "eu-west-1"]));
    forall a | Permitted(Grants([both]), a) ensures Permitted(Grants([us, eu]), a) {
      assert Permits(us, a) || Permits(eu, a);
    }
    assert "us-east-1" in both.regions.value && "eu-west-1" in both.regions.value;
    assert |"us-east-1"| == 9 && |"eu-west-1"| == 9 && "us-east-1"[0] != "eu-west-1"[0];
    assert both in [both];
  }

  lemma CoveringIsTransitive(f: Grant, g: Grant, h: Grant)
    requires GrantCovers(f, g) && GrantCovers(g, h)
    ensures GrantCovers(f, h)
  {
    CoveringIsContainment(f, g);
    CoveringIsContainment(g, h);
    CoveringIsContainment(f, h);
  }

  lemma GateIsTransitive(requested: seq<Grant>, middle: seq<Grant>, actor: Scope)
    requires ScopeWithin(requested, Grants(middle)) && ScopeWithin(middle, actor)
    ensures ScopeWithin(requested, actor)
  {
    if actor.Grants? {
      forall req | req in requested ensures SingleScopeWithin(req, actor.grants) {
        var g :| g in middle && GrantCovers(g, req);
        var f :| f in actor.grants && GrantCovers(f, g);
        CoveringIsTransitive(f, g, req);
      }
    }
  }

  /** Each list of grants of the chain passes the gate of the scope before it. */
  predicate Chain(first: Scope, links: seq<seq<Grant>>)
    decreases links
  {
    links == [] || (ScopeWithin(links[0], first) && Chain(Grants(links[0]), links[1..]))
  }

  lemma {:induction false} ChainStaysInside(first: Scope, links: seq<seq<Grant>>, i: nat)
    requires Chain(first, links) && i < |links|
    ensures ScopeWithin(links[i], first)
    ensures forall a :: Permitted(Grants(links[i]), a) ==> Permitted(first, a)
    decreases links
  {
    if i > 0 {
      ChainStaysInside(Grants(links[0]), links[1..], i - 1);
      GateIsTransitive(links[i], links[0], first);
    }
    forall a | Permitted(Grants(links[i]), a) ensures Permitted(first, a) { GateIsSound(links[i], first, a); }
  }

  // ---- which accounts and regions a scope shows ------------------------------------------------------

  datatype CloudAccount = CloudAccount(id: nat, provider: string)

  /** A grant that names an account names one of its own cloud; validate_scope_shape refuses any other. */
  predicate Placed(g: Grant, accounts: set<CloudAccount>) {
    g.account.Some? ==> CloudAccount(g.account.value, g.cloud) in accounts
  }

  ghost predicate UniqueIds(accounts: set<CloudAccount>) {
    forall x, y :: x in accounts && y in accounts && x.id == y.id ==> x == y
  }

  /** None: no filter. */
  function AccessibleAccountIds(scope: Scope, accounts: set<CloudAccount>): Option<set<nat>> {
    if scope.FullAccess? then None else
    var explicit := set g | g in scope.grants && g.account.Some? :: g.account.value;
    var wildcard := set g | g in scope.grants && g.account.None? :: g.cloud;
    Some(set acc | acc in accounts && (acc.id in explicit || acc.provider in wildcard) :: acc.id)
  }

  predicate AppliesTo(g: Grant, account: nat) {
    g.account.None? || g.account.value == account
  }

  predicate ShowsAccount(scope: Scope, accounts: set<CloudAccount>, acc: CloudAccount) {
    var shown := AccessibleAccountIds(scope, accounts);
    shown.None? || acc.id in shown.value
  }

  ghost predicate ReachesAccount(scope: Scope, acc: CloudAccount) {
    exists a: Access :: a.cloud == acc.provider && a.account == acc.id && Permitted(scope, a)
  }

  /** Some grant names the account under another cloud, and none of its own cloud applies to it. */
  predicate OnlyMisplaced(scope: Scope, acc: CloudAccount) {
    && scope.Grants?
    && (exists f :: f in scope.grants && f.account == Some(acc.id) && f.cloud != acc.provider)
    && forall g :: g in scope.grants && AppliesTo(g, acc.id) ==> g.cloud != acc.provider
  }

  /** No account is hidden in which the scope permits something. An account in which it permits nothing is shown exactly
      when only misplaced grants name it, so the answer is exact exactly when that is not so. */
  lemma AccountIdsExactly(scope: Scope, accounts: set<CloudAccount>, acc: CloudAccount)
    requires acc in accounts && UniqueIds(accounts)
    ensures ReachesAccount(scope, acc) ==> ShowsAccount(scope, accounts, acc)
    ensures (ShowsAccount(scope, accounts, acc) <==> ReachesAccount(scope, acc)) <==> !OnlyMisplaced(scope, acc)
  {
    if scope.FullAccess? {
      assert Permitted(scope, Access(acc.provider, acc.id, "", "", "", ""));
    } else {
      ReachesAccountExactly(scope.grants, acc);
      if ShowsAccount(scope, accounts, acc) {
        var g :| g in scope.grants && (g.account == Some(acc.id) || (g.account.None? && g.cloud == acc.provider));
      }
    }
  }

  lemma ReachesAccountExactly(grants: seq<Grant>, acc: CloudAccount)
    ensures ReachesAccount(Grants(grants), acc) <==>
              exists g :: g in grants && g.cloud == acc.provider && AppliesTo(g, acc.id)
  {
    if g :| g in grants && g.cloud == acc.provider && AppliesTo(g, acc.id) {
      var a := Access(acc.provider, acc.id, Sample(None, g.regions), Sample(None, g.groups), Sample(None, g.types),
                      Sample(None, g.ids));
      assert Permits(g, a);
    }
  }

  /** Grants that validate_scope_shape lets be stored show exactly the accounts in which they permit something. */
  lemma PlacedGrantsShowWhatTheyReach(scope: Scope, accounts: set<CloudAccount>, acc: CloudAccount)
    requires acc in accounts && UniqueIds(accounts)
    requires scope.Grants? ==> forall g :: g in scope.grants ==> Placed(g, accounts)
    ensures ShowsAccount(scope, accounts, acc) <==> ReachesAccount(scope, acc)
  {
    AccountIdsExactly(scope, accounts, acc);
    if scope.Grants? {
      forall g | g in scope.grants && g.account == Some(acc.id) ensures g.cloud == acc.provider {
        assert Placed(g, accounts);
      }
    }
  }

  function RegionSet(g: Grant): set<string> {
    if Restricts(g.regions) then set x | x in g.regions.value else {}
  }

  /** What get_accessible_regions_for_account answers; its loop is `AccessibleRegions`. None: all regions. */
  function RegionsFor(grants: seq<Grant>, account: nat): Option<set<string>> {
    if exists g :: g in grants && AppliesTo(g, account) && !Restricts(g.regions) then None
    else Some(set g, x | g in grants && AppliesTo(g, account) && x in RegionSet(g) :: x)
  }

  method AccessibleRegions(scope: Scope, account: nat) returns (shown: Option<set<string>>)
    ensures shown == if scope.FullAccess? then None else RegionsFor(scope.grants, account)
  {
    if scope.FullAccess? { return None; }
    var regions: set<string> := {};
    for i := 0 to |scope.grants|
      invariant forall g :: g in scope.grants[..i] && AppliesTo(g, account) ==> Restricts(g.regions)
      invariant forall x :: x in regions <==>
                  exists g :: g in scope.grants[..i] && AppliesTo(g, account) && x in RegionSet(g)
    {
      var g := scope.grants[i];
      assert scope.grants[..i + 1] == scope.grants[..i] + [g];
      if AppliesTo(g, account) {
        if !Restricts(g.regions) { return None; }
        regions := regions + RegionSet(g);
      }
    }
    assert scope.grants[..|scope.grants|] == scope.grants;
    assert regions == RegionsFor(scope.grants, account).value;
    return Some(regions);
  }

  predicate Shows(shown: Option<set<string>>, region: string) {
    shown.None? || region in shown.value
  }

  ghost predicate Reaches(grants: seq<Grant>, acc: CloudAccount, region: string) {
    exists a: Access :: a.cloud == acc.provider && a.account == acc.id && a.region == region
      && Permitted(Grants(grants), a)
  }

  lemma ReachesExactly(grants: seq<Grant>, acc: CloudAccount, region: string)
    ensures Reaches(grants, acc, region) <==>
              exists g :: g in grants && g.cloud == acc.provider && AppliesTo(g, acc.id) && Allows(g.regions, region)
  {
    if g :| g in grants && g.cloud == acc.provider && AppliesTo(g, acc.id) && Allows(g.regions, region) {
      var a := Access(acc.provider, acc.id, region, Sample(None, g.groups), Sample(None, g.types), Sample(None, g.ids));
      assert Permits(g, a);
    }
  }

  /** No region that the scope reaches in the account is hidden. */
  lemma RegionsNeverHide(grants: seq<Grant>, acc: CloudAccount, region: string)
    requires Reaches(grants, acc, region)
    ensures Shows(RegionsFor(grants, acc.id), region)
  {
    ReachesExactly(grants, acc, region);
    var g :| g in grants && g.cloud == acc.provider && AppliesTo(g, acc.id) && Allows(g.regions, region);
    if Restricts(g.regions) { assert region in RegionSet(g); }
  }

  /** Every grant of another cloud that the account picks up is matched by the account's own cloud. */
  predicate ForeignGrantsAddNothing(grants: seq<Grant>, acc: CloudAccount) {
    || (exists g :: g in grants && g.cloud == acc.provider && AppliesTo(g, acc.id) && !Restricts(g.regions))
    || forall f :: f in grants && f.cloud != acc.provider && AppliesTo(f, acc.id) ==>
         && Restricts(f.regions)
         && forall x :: x in f.regions.value ==> exists g ::
           g in grants && g.cloud == acc.provider && AppliesTo(g, acc.id) && Restricts(g.regions)
           && x in g.regions.value
  }

  function AllRegions(grants: seq<Grant>): seq<string> {
    if grants == [] then []
    else (if Restricts(grants[0].regions) then grants[0].regions.value else []) + AllRegions(grants[1..])
  }

  lemma {:induction false} AllRegionsHolds(grants: seq<Grant>, g: Grant, x: string)
    requires g in grants && Restricts(g.regions) && x in g.regions.value
    ensures x in AllRegions(grants)
  {
    if g != grants[0] { AllRegionsHolds(grants[1..], g, x); }
  }

  /** The answer ignores the cloud, so it is exact for an account exactly when the grants of other clouds that it picks
      up add nothing. */
  lemma RegionsExactlyWhen(grants: seq<Grant>, acc: CloudAccount)
    ensures (forall region :: Shows(RegionsFor(grants, acc.id), region) <==> Reaches(grants, acc, region)) <==>
              ForeignGrantsAddNothing(grants, acc)
  {
    if ForeignGrantsAddNothing(grants, acc) {
      forall region ensures Shows(RegionsFor(grants, acc.id), region) <==> Reaches(grants, acc, region) {
        ReachesExactly(grants, acc, region);
        if Reaches(grants, acc, region) { RegionsNeverHide(grants, acc, region); }
        if Shows(RegionsFor(grants, acc.id), region) { ShownIsReached(grants, acc, region); }
      }
    } else {
      HiddenFlaw(grants, acc);
    }
  }

  /** At an input: beside an AWS grant for one region, an Azure grant for all of them opens every region of the AWS
      account, where the scope reaches the one. */
  lemma AzureWildcardShowsAwsRegions(acc: CloudAccount, region: string)
    requires acc.provider == "aws"
    ensures var grants := [Grant("aws", Some(acc.id), Some(["us-east-1"]), None, None, None),
                           Grant("azure", None, None, None, None, None)];
            && Shows(RegionsFor(grants, acc.id), region)
            && (Reaches(grants, acc, region) <==> region == "us-east-1")
            && ReachesAccount(Grants(grants), acc)
  {
    var aws := Grant("aws", Some(acc.id), Some(["us-east-1"]), None, None, None);
    var azure := Grant("azure", None, None, None, None, None);
    var grants := [aws, azure];
    assert grants[0] == aws && grants[1] == azure;
    ReachesExactly(grants, acc, region);
    ReachesAccountExactly(grants, acc);
    assert "aws"[1] == 'w' && "azure"[1] == 'z';
    assert Allows(aws.regions, region) <==> region == "us-east-1";
  }

  lemma ShownIsReached(grants: seq<Grant>, acc: CloudAccount, region: string)
    requires ForeignGrantsAddNothing(grants, acc) && Shows(RegionsFor(grants, acc.id), region)
    ensures exists g :: g in grants && g.cloud == acc.provider && AppliesTo(g, acc.id) && Allows(g.regions, region)
  {
    if g :| g in grants && g.cloud == acc.provider && AppliesTo(g, acc.id) && !Restricts(g.regions) {
    } else {
      assert forall g :: g in grants && AppliesTo(g, acc.id) ==> Restricts(g.regions);
      var f :| f in grants && AppliesTo(f, acc.id) && region in RegionSet(f);
      assert Allows(f.regions, region);
    }
  }

  /** A region shown but out of reach. */
  lemma HiddenFlaw(grants: seq<Grant>, acc: CloudAccount)
    requires !ForeignGrantsAddNothing(grants, acc)
    ensures exists region :: Shows(RegionsFor(grants, acc.id), region) && !Reaches(grants, acc, region)
  {
    var region: string;
    var f :| f in grants && f.cloud != acc.provider && AppliesTo(f, acc.id) &&
      !(&& Restricts(f.regions)
        && forall x :: x in f.regions.value ==> exists g ::
          g in grants && g.cloud == acc.provider && AppliesTo(g, acc.id) && Restricts(g.regions)
          && x in g.regions.value);
    if !Restricts(f.regions) {
      region := Fresh(AllRegions(grants));
      forall g | g in grants && g.cloud == acc.provider && AppliesTo(g, acc.id) ensures !Allows(g.regions, region) {
        if Allows(g.regions, region) { AllRegionsHolds(grants, g, region); }
      }
    } else {
      region :| region in f.regions.value && !exists g ::
        g in grants && g.cloud == acc.provider && AppliesTo(g, acc.id) && Restricts(g.regions)
        && region in g.regions.value;
      assert region in RegionSet(f);
    }
    ReachesExactly(grants, acc, region);
    assert Shows(RegionsFor(grants, acc.id), region) && !Reaches(grants, acc, region);
  }
}
