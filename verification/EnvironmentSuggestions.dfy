/** Proposals for unplaced resources (app/environment_classifier.py): the index over an account's siblings, and the
    direct scan it stands for. */
module EnvironmentSuggestions {
  import opened Options
  import opened EnvironmentClassifier

  /** `application` and `stack` are the values of the first such tag, trimmed and lower-cased, when not blank; `env` is
      None for anything but the two environments. */
  datatype Sibling = Sibling(id: string, resourceId: Option<string>, name: Option<string>, parentEc2: Option<string>,
                             application: Option<string>, stack: Option<string>, env: Option<Tier>, source: Source)

  datatype Confidence = Low | Medium | High

  datatype Basis = Application | Stack | Prefix

  datatype Suggestion = Suggestion(env: Tier, confidence: Confidence, basis: Basis, evidence: nat)

  datatype Found = Found(basis: Basis, env: Tier, n: nat, confidence: Confidence)

  const MIN_PREFIX_CHARS := 5

  predicate Present(text: Option<string>) {
    text.Some? && text.value != ""
  }

  function NameOrId(s: Sibling): Option<string> {
    if Present(s.name) then s.name else s.resourceId
  }

  function Tokens(lex: Lexicon, s: Sibling): seq<string> {
    if Present(NameOrId(s)) then lex.tokens(NameOrId(s).value) else []
  }

  /** An attached volume is the same piece of evidence as its instance. */
  function Unit(s: Sibling): string {
    if Present(s.parentEc2) then s.parentEc2.value else if Present(s.resourceId) then s.resourceId.value else s.id
  }

  predicate Evident(s: Sibling) {
    s.env.Some? && Lends(Resolution(Prod, s.source))
  }

  // ---- the direct scan -------------------------------------------------------------------------

  function SharingApplication(siblings: seq<Sibling>, v: string): set<Sibling> {
    set s | s in siblings && Evident(s) && s.application == Some(v)
  }

  function SharingStack(siblings: seq<Sibling>, v: string): set<Sibling> {
    set s | s in siblings && Evident(s) && s.stack == Some(v)
  }

  function SharingPrefix(lex: Lexicon, siblings: seq<Sibling>, head: seq<string>): set<Sibling> {
    set s | s in siblings && Evident(s) && head <= Tokens(lex, s)
  }

  function Others(cs: set<Sibling>, target: Sibling): set<Sibling> {
    set c | c in cs && c.resourceId != target.resourceId
  }

  function Units(cs: set<Sibling>): set<string> {
    set c | c in cs :: Unit(c)
  }

  /** The environment all candidates name, when there is a candidate and they agree. */
  function Verdict(cs: set<Sibling>): (r: Option<Tier>)
    ensures r.Some? ==> cs != {} && forall c :: c in cs ==> c.env == r
  {
    if cs == {} then None
    else if forall c :: c in cs ==> c.env == Some(Prod) then Some(Prod)
    else if forall c :: c in cs ==> c.env == Some(NonProd) then Some(NonProd)
    else None
  }

  lemma AgreementIsFound(cs: set<Sibling>, t: Tier)
    requires cs != {} && forall c :: c in cs ==> c.env == Some(t)
    ensures Verdict(cs) == Some(t)
  {
    var c :| c in cs;
    assert c.env == Some(t);
    match t case Prod => case NonProd =>
  }

  function ApplicationCandidates(siblings: seq<Sibling>, target: Sibling): set<Sibling> {
    if !Present(target.application) then {} else Others(SharingApplication(siblings, target.application.value), target)
  }

  function StackCandidates(siblings: seq<Sibling>, target: Sibling): set<Sibling> {
    if !Present(target.stack) then {} else Others(SharingStack(siblings, target.stack.value), target)
  }

  function Chars(tokens: seq<string>): nat {
    if tokens == [] then 0 else |tokens[0]| + Chars(tokens[1..])
  }

  function PrefixMates(lex: Lexicon, siblings: seq<Sibling>, target: Sibling, length: nat): set<Sibling> {
    var toks := Tokens(lex, target);
    if length > |toks| || Chars(toks[..length]) < MIN_PREFIX_CHARS then {}
    else Others(SharingPrefix(lex, siblings, toks[..length]), target)
  }

  /** The longest shared prefix, of three tokens or of two, decides. */
  function PrefixCandidates(lex: Lexicon, siblings: seq<Sibling>, target: Sibling): set<Sibling> {
    if PrefixMates(lex, siblings, target, 3) != {} then PrefixMates(lex, siblings, target, 3)
    else PrefixMates(lex, siblings, target, 2)
  }

  function Candidates(lex: Lexicon, siblings: seq<Sibling>, target: Sibling, b: Basis): set<Sibling> {
    match b
    case Application => ApplicationCandidates(siblings, target)
    case Stack => StackCandidates(siblings, target)
    case Prefix => PrefixCandidates(lex, siblings, target)
  }

  function Grade(b: Basis, n: nat): Confidence {
    match b
    case Application => if n >= 3 then High else if n == 2 then Medium else Low
    case Stack => if n >= 2 then High else Medium
    case Prefix => if n >= 3 then Medium else Low
  }

  /** What one basis finds; a shared prefix needs two pieces of evidence. */
  function Find(cs: set<Sibling>, b: Basis): seq<Found> {
    var n := |Units(cs)|;
    if Verdict(cs).Some? && (b == Prefix ==> n >= 2) then [Found(b, Verdict(cs).value, n, Grade(b, n))] else []
  }

  function AllFound(lex: Lexicon, siblings: seq<Sibling>, target: Sibling): seq<Found> {
    Find(Candidates(lex, siblings, target, Application), Application) +
      Find(Candidates(lex, siblings, target, Stack), Stack)
      + Find(Candidates(lex, siblings, target, Prefix), Prefix)
  }

  function Rank(c: Confidence): nat {
    match c case Low => 0 case Medium => 1 case High => 2
  }

  predicate Stronger(f: Found, g: Found) {
    Rank(f.confidence) > Rank(g.confidence) || (f.confidence == g.confidence && f.n > g.n)
  }

  /** The first of the strongest. */
  function Strongest(found: seq<Found>): (r: Found)
    requires found != []
    ensures r in found && forall f :: f in found ==> !Stronger(f, r)
  {
    if |found| == 1 then found[0] else
    var best := Strongest(found[..|found| - 1]);
    assert found == found[..|found| - 1] + [found[|found| - 1]];
    if Stronger(found[|found| - 1], best) then found[|found| - 1] else best
  }

  function Bump(c: Confidence): Confidence {
    if c == Low then Medium else High
  }

  function OwnTiers(lex: Lexicon, target: Sibling): seq<Tier> {
    Scan(lex, target.name) + Scan(lex, target.resourceId)
  }

  function Concluded(lex: Lexicon, target: Sibling, found: seq<Found>): Option<Suggestion> {
    if found == [] || exists f :: f in found && f.env != found[0].env then None else
    var best := Strongest(found);
    if OwnTiers(lex, target) != [] && best.env !in OwnTiers(lex, target) then None
    else Some(Suggestion(best.env, if |found| > 1 then Bump(best.confidence) else best.confidence, best.basis, best.n))
  }

  function DirectSuggestion(lex: Lexicon, siblings: seq<Sibling>, target: Sibling): Option<Suggestion> {
    Concluded(lex, target, AllFound(lex, siblings, target))
  }

  // ---- what a suggestion promises ----------------------------------------------------------------

  lemma FoundByItsBasis(lex: Lexicon, siblings: seq<Sibling>, target: Sibling)
    ensures forall f :: f in AllFound(lex, siblings, target) ==>
              f in Find(Candidates(lex, siblings, target, f.basis), f.basis)
    ensures forall b, f :: f in Find(Candidates(lex, siblings, target, b), b) ==> f in AllFound(lex, siblings, target)
  {
    forall b, f | f in Find(Candidates(lex, siblings, target, b), b) ensures f in AllFound(lex, siblings, target) {
      match b case Application => case Stack => case Prefix =>
    }
  }

  lemma CandidatesAreOthers(lex: Lexicon, siblings: seq<Sibling>, target: Sibling, b: Basis, c: Sibling)
    requires c in Candidates(lex, siblings, target, b)
    ensures c in siblings && Evident(c) && c.resourceId != target.resourceId
  {
  }

  /** Everything behind the winning basis has the suggested environment, all of it decided by its own evidence and none
      of it the target; and the target's own name does not name only the other environment. */
  lemma SuggestionIsUnanimous(lex: Lexicon, siblings: seq<Sibling>, target: Sibling)
    requires DirectSuggestion(lex, siblings, target).Some?
    ensures var g := DirectSuggestion(lex, siblings, target).value;
            var cs := Candidates(lex, siblings, target, g.basis);
            && cs != {} && g.evidence == |Units(cs)| && g.evidence > 0
            && (forall c :: c in cs ==>
                c in siblings && Evident(c) && c.resourceId != target.resourceId && c.env == Some(g.env))
            && (OwnTiers(lex, target) != [] ==> g.env in OwnTiers(lex, target))
  {
    FoundByItsBasis(lex, siblings, target);
    var best := Strongest(AllFound(lex, siblings, target));
    var cs := Candidates(lex, siblings, target, best.basis);
    assert best in Find(cs, best.basis);
    var x :| x in cs;
    assert Unit(x) in Units(cs);
    forall c | c in cs
      ensures c in siblings && Evident(c) && c.resourceId != target.resourceId && c.env == Some(best.env)
    {
      CandidatesAreOthers(lex, siblings, target, best.basis, c);
    }
  }

  /** The basis has candidates that agree on e, with at least two pieces of evidence when it is a shared prefix. */
  ghost predicate PointsAt(lex: Lexicon, siblings: seq<Sibling>, target: Sibling, b: Basis, e: Tier) {
    var cs := Candidates(lex, siblings, target, b);
    cs != {} && (forall c :: c in cs ==> c.env == Some(e)) && (b == Prefix ==> |Units(cs)| >= 2)
  }

  /** e is suggested exactly when some basis points at e, none points elsewhere, and the target's own name does not
      speak only for the other environment. A basis whose candidates disagree points nowhere and blocks nothing. */
  lemma SuggestedExactlyWhen(lex: Lexicon, siblings: seq<Sibling>, target: Sibling, e: Tier)
    ensures (DirectSuggestion(lex, siblings, target).Some?
             && DirectSuggestion(lex, siblings, target).value.env == e) <==>
              && (exists b :: PointsAt(lex, siblings, target, b, e))
              && (forall b, t :: PointsAt(lex, siblings, target, b, t) ==> t == e)
              && (OwnTiers(lex, target) != [] ==> e in OwnTiers(lex, target))
  {
    var found := AllFound(lex, siblings, target);
    forall b, t
      ensures PointsAt(lex, siblings, target, b, t) <==> exists f :: f in found && f.basis == b && f.env == t
    {
      PointingIsFound(lex, siblings, target, b, t);
    }
    if found != [] {
      var best := Strongest(found);
      assert PointsAt(lex, siblings, target, best.basis, best.env);
      assert PointsAt(lex, siblings, target, found[0].basis, found[0].env);
    }
    forall f | f in found ensures PointsAt(lex, siblings, target, f.basis, f.env) {}
  }

  lemma PointingIsFound(lex: Lexicon, siblings: seq<Sibling>, target: Sibling, b: Basis, t: Tier)
    ensures PointsAt(lex, siblings, target, b, t) <==>
              exists f :: f in AllFound(lex, siblings, target) && f.basis == b && f.env == t
  {
    FoundByItsBasis(lex, siblings, target);
    var found, cs := AllFound(lex, siblings, target), Candidates(lex, siblings, target, b);
    if PointsAt(lex, siblings, target, b, t) {
      AgreementIsFound(cs, t);
      assert Find(cs, b)[0] in found;
    }
    if f :| f in found && f.basis == b && f.env == t { assert f in Find(cs, b); }
  }

  /** So siblings that disagree do not always give no suggestion, as the comment above the source's rules has it: here
      the application's siblings are split, and the environment of the stack's one is still proposed. */
  lemma SplitSiblingsStillSuggest()
    ensures var lex := Lexicon(t => [], t => None, t => []);
            var target := Sibling("9", Some("i-9"), None, None, Some("crm"), Some("blue"), None, Unknown);
            var siblings := [Sibling("1", Some("i-1"), None, None, Some("crm"), None, Some(Prod), Manual),
                             Sibling("2", Some("i-2"), None, None, Some("crm"), None, Some(NonProd), Manual),
                             Sibling("3", Some("i-3"), None, None, None, Some("blue"), Some(NonProd), Tag)];
            DirectSuggestion(lex, siblings, target).Some?
              && DirectSuggestion(lex, siblings, target).value.env == NonProd
  {
    var lex := Lexicon(t => [], t => None, t => []);
    var target := Sibling("9", Some("i-9"), None, None, Some("crm"), Some("blue"), None, Unknown);
    var a := Sibling("1", Some("i-1"), None, None, Some("crm"), None, Some(Prod), Manual);
    var b := Sibling("2", Some("i-2"), None, None, Some("crm"), None, Some(NonProd), Manual);
    var c := Sibling("3", Some("i-3"), None, None, None, Some("blue"), Some(NonProd), Tag);
    var siblings := [a, b, c];
    assert a in siblings && b in siblings && c in siblings;
    assert a in Candidates(lex, siblings, target, Application) && b in Candidates(lex, siblings, target, Application);
    assert Candidates(lex, siblings, target, Stack) == {c};
    assert Tokens(lex, target) == [] && PrefixCandidates(lex, siblings, target) == {};
    assert PointsAt(lex, siblings, target, Stack, NonProd);
    forall basis, t | PointsAt(lex, siblings, target, basis, t) ensures t == NonProd {
      match basis case Application => case Stack => case Prefix =>
    }
    SuggestedExactlyWhen(lex, siblings, target, NonProd);
  }

  /** High confidence never rests on one piece of evidence from a single basis. */
  lemma HighNeedsTwoPieces(lex: Lexicon, siblings: seq<Sibling>, target: Sibling)
    requires DirectSuggestion(lex, siblings, target).Some?
             && DirectSuggestion(lex, siblings, target).value.confidence == High
    ensures DirectSuggestion(lex, siblings, target).value.evidence >= 2 || |AllFound(lex, siblings, target)| >= 2
  {
    FoundByItsBasis(lex, siblings, target);
    var best := Strongest(AllFound(lex, siblings, target));
    assert best in Find(Candidates(lex, siblings, target, best.basis), best.basis);
  }

  /** The order of the siblings and repetitions of one are irrelevant. */
  lemma OrderOfSiblingsIsIrrelevant(lex: Lexicon, siblings: seq<Sibling>, siblings': seq<Sibling>, target: Sibling)
    requires forall s :: s in siblings <==> s in siblings'
    ensures DirectSuggestion(lex, siblings, target) == DirectSuggestion(lex, siblings', target)
  {
    forall b ensures Candidates(lex, siblings, target, b) == Candidates(lex, siblings', target, b) {
      SameCandidates(lex, siblings, siblings', target);
    }
    assert AllFound(lex, siblings, target) == AllFound(lex, siblings', target);
  }

  lemma SameCandidates(lex: Lexicon, siblings: seq<Sibling>, siblings': seq<Sibling>, target: Sibling)
    requires forall s :: s in siblings <==> s in siblings'
    ensures forall b :: Candidates(lex, siblings, target, b) == Candidates(lex, siblings', target, b)
  {
    forall v: string ensures SharingApplication(siblings, v) == SharingApplication(siblings', v) {}
    forall v: string ensures SharingStack(siblings, v) == SharingStack(siblings', v) {}
    forall head: seq<string> ensures SharingPrefix(lex, siblings, head) == SharingPrefix(lex, siblings', head) {}
    forall b ensures Candidates(lex, siblings, target, b) == Candidates(lex, siblings', target, b) {
      match b case Application => case Stack => case Prefix =>
    }
  }

  /** A volume is no second vote: beside a candidate of the same unit and environment it changes nothing a basis
      finds. */
  lemma VolumeIsNoSecondVote(cs: set<Sibling>, instance: Sibling, volume: Sibling, b: Basis)
    requires instance in cs && Unit(volume) == Unit(instance) && volume.env == instance.env
    ensures Find(cs + {volume}, b) == Find(cs, b)
  {
    var more := cs + {volume};
    forall u ensures u in Units(more) <==> u in Units(cs) {
      if u in Units(more) { var c :| c in more && Unit(c) == u; if c == volume { assert Unit(instance) == u; } }
    }
    assert Units(more) == Units(cs);
    assert forall c :: c in more ==> c in cs || c.env == instance.env;
    assert forall c :: c in cs ==> c in more;
    assert Verdict(more) == Verdict(cs);
  }

  // ---- the index -------------------------------------------------------------------------------

  function Listed<K(==)>(m: map<K, seq<Sibling>>, k: K): seq<Sibling> {
    if k in m then m[k] else []
  }

  function Append<K(==)>(m: map<K, seq<Sibling>>, k: K, s: Sibling): map<K, seq<Sibling>> {
    m[k := Listed(m, k) + [s]]
  }

  ghost predicate CoversApplications(m: map<string, seq<Sibling>>, siblings: seq<Sibling>) {
    forall v, s :: v != "" ==> (s in Listed(m, v) <==> s in SharingApplication(siblings, v))
  }

  ghost predicate CoversStacks(m: map<string, seq<Sibling>>, siblings: seq<Sibling>) {
    forall v, s :: v != "" ==> (s in Listed(m, v) <==> s in SharingStack(siblings, v))
  }

  ghost predicate CoversPrefixes(lex: Lexicon, m: map<seq<string>, seq<Sibling>>, siblings: seq<Sibling>) {
    forall head: seq<string>, s ::
      2 <= |head| <= 3 ==> (s in Listed(m, head) <==> s in SharingPrefix(lex, siblings, head))
  }

  function AddApplication(m: map<string, seq<Sibling>>, s: Sibling): map<string, seq<Sibling>> {
    if Present(s.application) then Append(m, s.application.value, s) else m
  }

  function AddStack(m: map<string, seq<Sibling>>, s: Sibling): map<string, seq<Sibling>> {
    if Present(s.stack) then Append(m, s.stack.value, s) else m
  }

  function AddPrefix(lex: Lexicon, m: map<seq<string>, seq<Sibling>>, s: Sibling,
                     length: nat): map<seq<string>, seq<Sibling>> {
    if |Tokens(lex, s)| >= length then Append(m, Tokens(lex, s)[..length], s) else m
  }

  lemma ApplicationStep(m: map<string, seq<Sibling>>, before: seq<Sibling>, s: Sibling)
    requires CoversApplications(m, before) && Evident(s)
    ensures CoversApplications(AddApplication(m, s), before + [s])
  {
    forall v, x | v != "" ensures x in Listed(AddApplication(m, s), v) <==> x in SharingApplication(before + [s], v) {
      assert x in before + [s] <==> x in before || x == s;
      assert x in Listed(m, v) <==> x in SharingApplication(before, v);
    }
  }

  lemma StackStep(m: map<string, seq<Sibling>>, before: seq<Sibling>, s: Sibling)
    requires CoversStacks(m, before) && Evident(s)
    ensures CoversStacks(AddStack(m, s), before + [s])
  {
    forall v, x | v != "" ensures x in Listed(AddStack(m, s), v) <==> x in SharingStack(before + [s], v) {
      assert x in before + [s] <==> x in before || x == s;
      assert x in Listed(m, v) <==> x in SharingStack(before, v);
    }
  }

  lemma PrefixStep(lex: Lexicon, m: map<seq<string>, seq<Sibling>>, before: seq<Sibling>, s: Sibling)
    requires CoversPrefixes(lex, m, before) && Evident(s)
    ensures CoversPrefixes(lex, AddPrefix(lex, AddPrefix(lex, m, s, 2), s, 3), before + [s])
  {
    var m2 := AddPrefix(lex, m, s, 2);
    var m3 := AddPrefix(lex, m2, s, 3);
    var toks := Tokens(lex, s);
    assert forall x :: x in before + [s] <==> x in before || x == s;
    forall head: seq<string>, x | 2 <= |head| <= 3
      ensures x in Listed(m3, head) <==> x in SharingPrefix(lex, before + [s], head)
    {
      assert head <= toks <==> |head| <= |toks| && toks[..|head|] == head;
      assert x in Listed(m2, head) <==> x in Listed(m, head) || (x == s && |head| == 2 && head <= toks);
      assert x in Listed(m3, head) <==> x in Listed(m2, head) || (x == s && |head| == 3 && head <= toks);
    }
  }

  lemma NoEvidenceStep(lex: Lexicon, apps: map<string, seq<Sibling>>, stacks: map<string, seq<Sibling>>,
                       prefixes: map<seq<string>, seq<Sibling>>, before: seq<Sibling>, s: Sibling)
    requires CoversApplications(apps, before) && CoversStacks(stacks, before) && CoversPrefixes(lex, prefixes, before)
             && !Evident(s)
    ensures CoversApplications(apps, before + [s]) && CoversStacks(stacks, before + [s])
            && CoversPrefixes(lex, prefixes, before + [s])
  {
    assert forall x :: x in before + [s] <==> x in before || x == s;
  }

  class SuggestionIndex {
    const lex: Lexicon
    var byApplication: map<string, seq<Sibling>>
    var byStack: map<string, seq<Sibling>>
    var byPrefix: map<seq<string>, seq<Sibling>>
    var size: nat

    /** The three dictionaries hold exactly the siblings with evidence of their own, under each of their keys. */
    ghost predicate Covers(siblings: seq<Sibling>)
      reads this
    {
      && CoversApplications(byApplication, siblings)
      && CoversStacks(byStack, siblings)
      && CoversPrefixes(lex, byPrefix, siblings)
      && (size == 0 <==> forall s :: s in siblings ==> !Evident(s))
    }

    constructor (lex: Lexicon, siblings: seq<Sibling>)
      ensures this.lex == lex && Covers(siblings)
    {
      this.lex := lex;
      byApplication, byStack, byPrefix, size := map[], map[], map[], 0;
      new;
      for i := 0 to |siblings|
        invariant this.lex == lex && Covers(siblings[..i])
      {
        Add(siblings[..i], siblings[i]);
        assert siblings[..i + 1] == siblings[..i] + [siblings[i]];
      }
      assert siblings[..|siblings|] == siblings;
    }

    /** One pass of the constructor's loop. */
    method Add(ghost before: seq<Sibling>, s: Sibling)
      requires Covers(before)
      modifies this
      ensures Covers(before + [s])
    {
      assert s in before + [s] && forall x :: x in before + [s] <==> x in before || x == s;
      if s.env.None? || !Lends(Resolution(Prod, s.source)) {
        NoEvidenceStep(lex, byApplication, byStack, byPrefix, before, s);
        return;
      }
      ApplicationStep(byApplication, before, s);
      StackStep(byStack, before, s);
      PrefixStep(lex, byPrefix, before, s);
      size := size + 1;
      byApplication := AddApplication(byApplication, s);
      byStack := AddStack(byStack, s);
      byPrefix := AddPrefix(lex, byPrefix, s, 2);
      byPrefix := AddPrefix(lex, byPrefix, s, 3);
    }

    method Suggest(ghost siblings: seq<Sibling>, target: Sibling) returns (r: Option<Suggestion>)
      requires Covers(siblings)
      ensures r == DirectSuggestion(lex, siblings, target)
    {
      if size == 0 {
        forall b ensures Candidates(lex, siblings, target, b) == {} {
          NoEvidenceNoCandidates(lex, siblings, target, b);
        }
        assert AllFound(lex, siblings, target) == [];
        return None;
      }
      var byApp, byGroup: seq<Found> := [], [];
      if Present(target.application) {
        byApp := FindIn(Listed(byApplication, target.application.value), target, Application,
                        SharingApplication(siblings, target.application.value));
      }
      if Present(target.stack) {
        byGroup := FindIn(Listed(byStack, target.stack.value), target, Stack,
                          SharingStack(siblings, target.stack.value));
      }
      var byName := FindByPrefix(siblings, target);
      assert byApp == Find(ApplicationCandidates(siblings, target), Application);
      assert byGroup == Find(StackCandidates(siblings, target), Stack);
      r := Concluded(lex, target, byApp + byGroup + byName);
    }

    method FindByPrefix(ghost siblings: seq<Sibling>, target: Sibling) returns (found: seq<Found>)
      requires Covers(siblings)
      ensures found == Find(PrefixCandidates(lex, siblings, target), Prefix)
    {
      found := [];
      var toks := Tokens(lex, target);
      var length := if |toks| < 3 then |toks| else 3;
      while length > 1
        invariant length <= |toks| && length <= 3
        invariant NoLongerPrefix(lex, siblings, target, length)
      {
        var head := toks[..length];
        if Chars(head) >= MIN_PREFIX_CHARS {
          var cands := KeepOthers(Listed(byPrefix, head), target);
          KeptAreOthers(Listed(byPrefix, head), target, SharingPrefix(lex, siblings, head));
          assert PrefixMates(lex, siblings, target, length) == AsSet(cands);
          if cands != [] {
            assert cands[0] in AsSet(cands);
            LongestPrefixDecides(lex, siblings, target, length);
            var env, n := Vote(cands);
            return if env.Some? && n >= 2 then [Found(Prefix, env.value, n, Grade(Prefix, n))] else [];
          }
        }
        length := length - 1;
      }
      NoPrefixFindsNothing(lex, siblings, target);
    }
  }

  /** No shared prefix longer than this has a candidate. */
  predicate NoLongerPrefix(lex: Lexicon, siblings: seq<Sibling>, target: Sibling, length: int) {
    && (length < 3 ==> PrefixMates(lex, siblings, target, 3) == {})
    && (length < 2 ==> PrefixMates(lex, siblings, target, 2) == {})
  }

  lemma LongestPrefixDecides(lex: Lexicon, siblings: seq<Sibling>, target: Sibling, length: nat)
    requires 2 <= length <= 3 && NoLongerPrefix(lex, siblings, target, length)
    requires PrefixMates(lex, siblings, target, length) != {}
    ensures PrefixCandidates(lex, siblings, target) == PrefixMates(lex, siblings, target, length)
  {
  }

  lemma NoPrefixFindsNothing(lex: Lexicon, siblings: seq<Sibling>, target: Sibling)
    requires NoLongerPrefix(lex, siblings, target, 1)
    ensures Find(PrefixCandidates(lex, siblings, target), Prefix) == []
  {
  }

  lemma NoEvidenceNoCandidates(lex: Lexicon, siblings: seq<Sibling>, target: Sibling, b: Basis)
    requires forall s :: s in siblings ==> !Evident(s)
    ensures Candidates(lex, siblings, target, b) == {}
  {
    if c :| c in Candidates(lex, siblings, target, b) {
      CandidatesAreOthers(lex, siblings, target, b, c);
    }
  }

  function AsSet(cs: seq<Sibling>): set<Sibling> {
    set c | c in cs
  }

  function KeepOthers(cs: seq<Sibling>, target: Sibling): (r: seq<Sibling>)
    ensures forall c :: c in r <==> c in cs && c.resourceId != target.resourceId
  {
    if cs == [] then []
    else (if cs[0].resourceId != target.resourceId then [cs[0]] else []) + KeepOthers(cs[1..], target)
  }

  lemma KeptAreOthers(cs: seq<Sibling>, target: Sibling, all: set<Sibling>)
    requires forall c :: c in cs <==> c in all
    ensures AsSet(KeepOthers(cs, target)) == Others(all, target)
  {
  }

  /** One of the first two bases of `suggest`. */
  method FindIn(listed: seq<Sibling>, target: Sibling, b: Basis, ghost all: set<Sibling>) returns (found: seq<Found>)
    requires b != Prefix && forall c :: c in listed <==> c in all
    ensures found == Find(Others(all, target), b)
  {
    KeptAreOthers(listed, target, all);
    var env, n := Vote(KeepOthers(listed, target));
    return if env.Some? then [Found(b, env.value, n, Grade(b, n))] else [];
  }

  lemma SingletonHas<T>(s: set<T>, x: T)
    requires |s| == 1 && x in s
    ensures s == {x}
  {
    assert |s - {x}| == 0;
  }

  function Envs(cs: seq<Sibling>): set<Option<Tier>> {
    set c | c in cs :: c.env
  }

  ghost predicate Holds(candidates: seq<Sibling>, byUnit: map<string, set<Option<Tier>>>) {
    forall c :: c in candidates ==> Unit(c) in byUnit && c.env in byUnit[Unit(c)]
  }

  ghost predicate Within(byUnit: map<string, set<Option<Tier>>>, units: set<string>, envs: set<Option<Tier>>) {
    byUnit.Keys == units && forall u :: u in byUnit ==> byUnit[u] <= envs
  }

  ghost predicate Grouped(candidates: seq<Sibling>, byUnit: map<string, set<Option<Tier>>>) {
    Holds(candidates, byUnit) && Within(byUnit, Units(AsSet(candidates)), Envs(candidates))
  }

  lemma EnvsOfMore(candidates: seq<Sibling>, c: Sibling)
    ensures Envs(candidates + [c]) == Envs(candidates) + {c.env}
    ensures AsSet(candidates + [c]) == AsSet(candidates) + {c}
  {
    var all := candidates + [c];
    assert c in all;
    forall d ensures d in all <==> d in candidates || d == c {}
    forall t | t in Envs(candidates) ensures t in Envs(all) { var d :| d in candidates && d.env == t; assert d in all; }
  }

  lemma GroupStep(candidates: seq<Sibling>, byUnit: map<string, set<Option<Tier>>>, c: Sibling, own: set<Option<Tier>>)
    requires Grouped(candidates, byUnit) && own == if Unit(c) in byUnit then byUnit[Unit(c)] else {}
    ensures Grouped(candidates + [c], byUnit[Unit(c) := own + {c.env}])
  {
    EnvsOfMore(candidates, c);
    UnitsOfMore(AsSet(candidates), c);
    HoldsMore(candidates, byUnit, c, own);
    WithinMore(byUnit, Units(AsSet(candidates)), Envs(candidates), Unit(c), own, c.env);
  }

  lemma HoldsMore(candidates: seq<Sibling>, byUnit: map<string, set<Option<Tier>>>, c: Sibling, own: set<Option<Tier>>)
    requires Holds(candidates, byUnit) && own == if Unit(c) in byUnit then byUnit[Unit(c)] else {}
    ensures Holds(candidates + [c], byUnit[Unit(c) := own + {c.env}])
  {
  }

  lemma WithinMore(byUnit: map<string, set<Option<Tier>>>, units: set<string>, envs: set<Option<Tier>>, u: string,
                   own: set<Option<Tier>>, e: Option<Tier>)
    requires Within(byUnit, units, envs) && own == if u in byUnit then byUnit[u] else {}
    ensures Within(byUnit[u := own + {e}], units + {u}, envs + {e})
  {
  }

  /** Environments by unit of evidence, then all environments together. */
  method Vote(candidates: seq<Sibling>) returns (env: Option<Tier>, n: nat)
    ensures env == Verdict(AsSet(candidates)) && n == |Units(AsSet(candidates))|
  {
    var byUnit := GroupByUnit(candidates);
    n := |byUnit.Keys|;
    var envs := EnvsOf(candidates, byUnit);
    VerdictOfEnvs(candidates);
    if |envs| != 1 {
      env := None;
    } else {
      var t :| t in envs;
      SingletonHas(envs, t);
      env := t;
    }
  }

  method GroupByUnit(candidates: seq<Sibling>) returns (byUnit: map<string, set<Option<Tier>>>)
    ensures Grouped(candidates, byUnit)
  {
    byUnit := map[];
    ghost var done: seq<Sibling> := [];
    for i := 0 to |candidates|
      invariant done == candidates[..i] && Grouped(done, byUnit)
    {
      byUnit := AddVote(done, byUnit, candidates[i]);
      done := done + [candidates[i]];
    }
  }

  function AddVote(ghost done: seq<Sibling>, byUnit: map<string, set<Option<Tier>>>,
                   c: Sibling): (m: map<string, set<Option<Tier>>>)
    requires Grouped(done, byUnit)
    ensures Grouped(done + [c], m)
  {
    var own := if Unit(c) in byUnit then byUnit[Unit(c)] else {};
    GroupStep(done, byUnit, c, own);
    byUnit[Unit(c) := own + {c.env}]
  }

  function Union(byUnit: map<string, set<Option<Tier>>>, units: set<string>): set<Option<Tier>>
    requires units <= byUnit.Keys
  {
    set u, e | u in units && e in byUnit[u] :: e
  }

  lemma UnionIsEnvs(candidates: seq<Sibling>, byUnit: map<string, set<Option<Tier>>>)
    requires Grouped(candidates, byUnit)
    ensures Union(byUnit, byUnit.Keys) == Envs(candidates)
  {
  }

  method UnionOf(byUnit: map<string, set<Option<Tier>>>) returns (envs: set<Option<Tier>>)
    ensures envs == Union(byUnit, byUnit.Keys)
  {
    envs := {};
    var rest := byUnit.Keys;
    while rest != {}
      invariant rest <= byUnit.Keys
      invariant forall e :: e in envs <==> exists u :: u in byUnit && u !in rest && e in byUnit[u]
      decreases |rest|
    {
      var u :| u in rest;
      envs := envs + byUnit[u];
      rest := rest - {u};
    }
  }

  method EnvsOf(ghost candidates: seq<Sibling>, byUnit: map<string, set<Option<Tier>>>)
    returns (envs: set<Option<Tier>>)
    requires Grouped(candidates, byUnit)
    ensures envs == Envs(candidates)
  {
    envs := UnionOf(byUnit);
    UnionIsEnvs(candidates, byUnit);
  }

  lemma UnitsOfMore(cs: set<Sibling>, c: Sibling)
    ensures Units(cs + {c}) == Units(cs) + {Unit(c)}
  {
    assert c in cs + {c};
    forall u | u in Units(cs) ensures u in Units(cs + {c}) { var d :| d in cs && Unit(d) == u; assert d in cs + {c}; }
  }

  lemma VerdictOfEnvs(candidates: seq<Sibling>)
    ensures |Envs(candidates)| != 1 ==> Verdict(AsSet(candidates)) == None
    ensures forall t :: Envs(candidates) == {t} ==> Verdict(AsSet(candidates)) == t
  {
    var cs, envs := AsSet(candidates), Envs(candidates);
    if Verdict(cs).Some? {
      var c :| c in cs;
      assert c.env in envs;
      assert envs == {c.env};
    }
    forall t | envs == {t} ensures Verdict(cs) == t {
      assert t in envs;
      var c :| c in candidates && c.env == t;
      assert c in cs;
      forall d | d in cs ensures d.env == t { assert d.env in envs; }
      if t.Some? { AgreementIsFound(cs, t.value); }
    }
  }
}
