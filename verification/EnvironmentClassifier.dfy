/** Where a resource belongs (app/environment_classifier.py): the resolver, and the two-pass classification of a whole
    attachment graph (app/collector/env_sync.py). Splitting text into words is a parameter, the `Lexicon`. */
module EnvironmentClassifier {
  import opened Options
  import opened Text

  datatype Tier = Prod | NonProd

  datatype Source = Manual | Tag | Name | Related | Account | Unknown

  datatype Resolution = Resolution(env: Tier, source: Source)

  /** `scan`: the environment words of a text, in order. `recognized`: the environment a stored value or label means.
      `tokens`: the leading name tokens that are not environment words. */
  datatype Lexicon = Lexicon(scan: string -> seq<Tier>, recognized: string -> Option<Tier>,
                             tokens: string -> seq<string>)

  /** Tag keys are already folded; the list keeps the order of the tag dictionary. */
  datatype Row = Row(id: nat, account: nat, resourceId: string, name: Option<string>, tags: seq<(string, string)>,
                     override: Option<string>, accountDefault: Option<string>)

  datatype Edge = Edge(account: nat, parent: string, child: string)

  const TAG_KEYS := ["environment", "env", "stage", "deployment_environment", "app_env", "appenv", "env_type",
                     "environment_type", "envtype"]

  // ---- one resource --------------------------------------------------------------------------

  function Unanimous(tiers: seq<Tier>): Option<Tier> {
    if tiers != [] && forall t :: t in tiers ==> t == tiers[0] then Some(tiers[0]) else None
  }

  function Scan(lex: Lexicon, text: Option<string>): seq<Tier> {
    if text.None? then [] else lex.scan(text.value)
  }

  function FirstValue(tags: seq<(string, string)>, key: string): Option<string> {
    if tags == [] then None else if tags[0].0 == key then Some(tags[0].1) else FirstValue(tags[1..], key)
  }

  function FromTags(lex: Lexicon, tags: seq<(string, string)>, keys: seq<string>): Option<Resolution> {
    if keys == [] then None else
    var t := Unanimous(Scan(lex, FirstValue(tags, keys[0])));
    if t.Some? then Some(Resolution(t.value, Tag)) else FromTags(lex, tags, keys[1..])
  }

  /** The name, then the id; the first of the two that names exactly one environment decides. */
  function FromName(lex: Lexicon, name: Option<string>, resourceId: string): Option<Resolution> {
    var (a, b) := (Scan(lex, name), lex.scan(resourceId));
    if Unanimous(a).Some? then Some(Resolution(Unanimous(a).value, Name))
    else if Unanimous(b).Some? then Some(Resolution(Unanimous(b).value, Name))
    else if a != [] || b != [] then Some(Resolution(Prod, Unknown))
    else None
  }

  predicate Lends(r: Resolution) {
    r.source == Manual || r.source == Tag || r.source == Name
  }

  function Usable(related: seq<Resolution>): (u: seq<Resolution>)
    ensures forall r :: r in u <==> r in related && Lends(r)
  {
    if related == [] then [] else (if Lends(related[0]) then [related[0]] else []) + Usable(related[1..])
  }

  function FromRelated(related: seq<Resolution>): Option<Resolution> {
    var usable := Usable(related);
    if usable == [] then None
    else if forall r :: r in usable ==> r.env == usable[0].env then Some(Resolution(usable[0].env, Related))
    else Some(Resolution(Prod, Unknown))
  }

  function ManualChoice(lex: Lexicon, override: Option<string>): Option<Tier> {
    if override.None? || override.value == "" then None else
    var choice := Lower(Trim(override.value));
    if lex.recognized(choice).Some? then lex.recognized(choice)
    else if choice == "ignore" then Some(Prod)
    else None
  }

  function Resolve(lex: Lexicon, row: Row, related: seq<Resolution>): Resolution {
    var manual, tag, named, rel :=
      ManualChoice(lex, row.override), FromTags(lex, row.tags, TAG_KEYS), FromName(lex, row.name, row.resourceId),
      FromRelated(related);
    if manual.Some? then Resolution(manual.value, Manual)
    else if tag.Some? then tag.value
    else if named.Some? && named.value.source != Unknown then named.value
    else if rel.Some? then rel.value
    else if named.Some? then named.value
    else if row.accountDefault.Some? && row.accountDefault.value != ""
      && lex.recognized(row.accountDefault.value).Some? then
      Resolution(lex.recognized(row.accountDefault.value).value, Account)
    else Resolution(Prod, Unknown)
  }

  // ---- what a resolution means -----------------------------------------------------------------

  lemma {:induction false} TagsDecideAsTags(lex: Lexicon, tags: seq<(string, string)>, keys: seq<string>)
    ensures FromTags(lex, tags, keys).Some? ==> FromTags(lex, tags, keys).value.source == Tag
  {
    if keys != [] { TagsDecideAsTags(lex, tags, keys[1..]); }
  }

  /** The tag with this key names exactly the environment t. */
  predicate TagNames(lex: Lexicon, tags: seq<(string, string)>, key: string, t: Tier) {
    Unanimous(Scan(lex, FirstValue(tags, key))) == Some(t)
  }

  predicate Silent(lex: Lexicon, tags: seq<(string, string)>, key: string) {
    Unanimous(Scan(lex, FirstValue(tags, key))).None?
  }

  /** The i-th listed key names t and no key before it names anything. */
  ghost predicate TagSaysAt(lex: Lexicon, tags: seq<(string, string)>, keys: seq<string>, i: int, t: Tier) {
    0 <= i < |keys| && TagNames(lex, tags, keys[i], t) && forall j :: 0 <= j < i ==> Silent(lex, tags, keys[j])
  }

  ghost predicate TagsSay(lex: Lexicon, tags: seq<(string, string)>, keys: seq<string>, t: Tier) {
    exists i :: TagSaysAt(lex, tags, keys, i, t)
  }

  lemma {:induction false} TagsSayExactly(lex: Lexicon, tags: seq<(string, string)>, keys: seq<string>, t: Tier)
    ensures FromTags(lex, tags, keys) == Some(Resolution(t, Tag)) <==> TagsSay(lex, tags, keys, t)
  {
    if keys == [] {
    } else if Silent(lex, tags, keys[0]) {
      var rest := keys[1..];
      TagsSayExactly(lex, tags, rest, t);
      if i :| TagSaysAt(lex, tags, keys, i, t) {
        assert forall j :: 0 <= j < |rest| ==> rest[j] == keys[j + 1];
        assert TagSaysAt(lex, tags, rest, i - 1, t);
      }
      if i :| TagSaysAt(lex, tags, rest, i, t) {
        forall j | 0 <= j < i + 1 ensures Silent(lex, tags, keys[j]) { if j > 0 { assert keys[j] == rest[j - 1]; } }
        assert TagSaysAt(lex, tags, keys, i + 1, t);
      }
    } else {
      if TagNames(lex, tags, keys[0], t) { assert TagSaysAt(lex, tags, keys, 0, t); }
      if i :| TagSaysAt(lex, tags, keys, i, t) { assert i == 0; }
    }
  }

  /** The name, or failing that the id, names exactly the environment t. */
  predicate NameSays(lex: Lexicon, row: Row, t: Tier) {
    || Unanimous(Scan(lex, row.name)) == Some(t)
    || (Unanimous(Scan(lex, row.name)).None? && Unanimous(lex.scan(row.resourceId)) == Some(t))
  }

  ghost predicate ParentsSay(related: seq<Resolution>, t: Tier) {
    (exists r :: r in related && Lends(r)) && forall r :: r in related && Lends(r) ==> r.env == t
  }

  ghost predicate HasTag(lex: Lexicon, row: Row) {
    exists t :: TagsSay(lex, row.tags, TAG_KEYS, t)
  }

  /** The account's default is set and is an environment. */
  predicate DefaultSays(lex: Lexicon, row: Row, t: Tier) {
    && row.accountDefault.Some? && row.accountDefault.value != ""
    && lex.recognized(row.accountDefault.value) == Some(t)
  }

  /** Neither the name nor the id holds an environment word, and no attachment has evidence of its own. */
  ghost predicate NothingSpeaks(lex: Lexicon, row: Row, related: seq<Resolution>) {
    Scan(lex, row.name) == [] && lex.scan(row.resourceId) == [] && forall p :: p in related ==> !Lends(p)
  }

  /** A person outranks a tag, a tag the name, the name the attachments, and these the account default, which
      counts only for a resource whose name says nothing at all and whose attachments decide nothing. What is left
      is unplaced. */
  lemma PriorityExactly(lex: Lexicon, row: Row, related: seq<Resolution>, t: Tier)
    ensures var r := Resolve(lex, row, related);
            var noManual := ManualChoice(lex, row.override).None?;
            var noName := !NameSays(lex, row, Prod) && !NameSays(lex, row, NonProd);
            && (r == Resolution(t, Manual) <==> ManualChoice(lex, row.override) == Some(t))
            && (r == Resolution(t, Tag) <==> noManual && TagsSay(lex, row.tags, TAG_KEYS, t))
            && (r == Resolution(t, Name) <==> noManual && !HasTag(lex, row) && NameSays(lex, row, t))
            && (r == Resolution(t, Related) <==> noManual && !HasTag(lex, row) && noName && ParentsSay(related, t))
            && (r == Resolution(t, Account) <==>
                  noManual && !HasTag(lex, row) && NothingSpeaks(lex, row, related) && DefaultSays(lex, row, t))
            && (r == Resolution(Prod, Unknown) <==>
                  && noManual && !HasTag(lex, row) && noName
                  && !ParentsSay(related, Prod) && !ParentsSay(related, NonProd)
                  && !(NothingSpeaks(lex, row, related)
                       && (DefaultSays(lex, row, Prod) || DefaultSays(lex, row, NonProd))))
  {
    TagsSayExactly(lex, row.tags, TAG_KEYS, t);
    HasTagExactly(lex, row);
    NameSaysExactly(lex, row, t);
    ParentsSayExactly(related, t);
    ParentsSayExactly(related, Prod);
    ParentsSayExactly(related, NonProd);
  }

  lemma HasTagExactly(lex: Lexicon, row: Row)
    ensures HasTag(lex, row) <==> FromTags(lex, row.tags, TAG_KEYS).Some?
    ensures FromTags(lex, row.tags, TAG_KEYS).Some? ==> FromTags(lex, row.tags, TAG_KEYS).value.source == Tag
  {
    TagsDecideAsTags(lex, row.tags, TAG_KEYS);
    var tag := FromTags(lex, row.tags, TAG_KEYS);
    if tag.Some? {
      assert tag == Some(Resolution(tag.value.env, Tag));
      TagsSayExactly(lex, row.tags, TAG_KEYS, tag.value.env);
    }
    if u :| TagsSay(lex, row.tags, TAG_KEYS, u) { TagsSayExactly(lex, row.tags, TAG_KEYS, u); }
  }

  lemma NameSaysExactly(lex: Lexicon, row: Row, t: Tier)
    ensures var named := FromName(lex, row.name, row.resourceId);
            && (named == Some(Resolution(t, Name)) <==> NameSays(lex, row, t))
            && (named.Some? && named.value.source == Name <==> NameSays(lex, row, Prod) || NameSays(lex, row, NonProd))
            && (named.Some? && named.value.source != Name ==> named == Some(Resolution(Prod, Unknown)))
            && (named.None? <==> Scan(lex, row.name) == [] && lex.scan(row.resourceId) == [])
  {
    var named := FromName(lex, row.name, row.resourceId);
    if named.Some? && named.value.source == Name {
      assert NameSays(lex, row, named.value.env);
      match named.value.env case Prod => case NonProd =>
    }
  }

  lemma ParentsSayExactly(related: seq<Resolution>, t: Tier)
    ensures FromRelated(related) == Some(Resolution(t, Related)) <==> ParentsSay(related, t)
    ensures FromRelated(related).None? <==> forall p :: p in related ==> !Lends(p)
  {
    var usable := Usable(related);
    assert usable != [] ==> usable[0] in usable;
  }

  /** An unplaced resource is PROD, whatever it is attached to. */
  lemma UnplacedIsProd(lex: Lexicon, row: Row, related: seq<Resolution>)
    ensures Resolve(lex, row, related).source == Unknown ==> Resolve(lex, row, related).env == Prod
  {
    TagsDecideAsTags(lex, row.tags, TAG_KEYS);
  }

  /** A decision that is passed on never depended on what the resource is attached to, and a resource has such a
      decision with its attachments exactly when it has one without them. */
  lemma OwnEvidenceIgnoresRelated(lex: Lexicon, row: Row, related: seq<Resolution>, related': seq<Resolution>)
    ensures Lends(Resolve(lex, row, related)) <==> Lends(Resolve(lex, row, related'))
    ensures Lends(Resolve(lex, row, related)) ==> Resolve(lex, row, related) == Resolve(lex, row, related')
  {
    TagsDecideAsTags(lex, row.tags, TAG_KEYS);
  }

  /** An inherited environment is the environment of every parent that has evidence of its own, and there is one. */
  lemma InheritedIsUnanimous(lex: Lexicon, row: Row, related: seq<Resolution>)
    requires Resolve(lex, row, related).source == Related
    ensures exists r :: r in related && Lends(r)
    ensures forall r :: r in related && Lends(r) ==> r.env == Resolve(lex, row, related).env
  {
    TagsDecideAsTags(lex, row.tags, TAG_KEYS);
    assert Usable(related)[0] in related;
  }

  /** A resource whose name and id name both environments is never placed by the account default: it is inherited, or
      unplaced. */
  lemma ConflictNeverTakesTheDefault(lex: Lexicon, row: Row, related: seq<Resolution>)
    requires ManualChoice(lex, row.override).None? && FromTags(lex, row.tags, TAG_KEYS).None?
    requires Scan(lex, row.name) != [] || lex.scan(row.resourceId) != []
    requires Unanimous(Scan(lex, row.name)).None? && Unanimous(lex.scan(row.resourceId)).None?
    ensures var r := Resolve(lex, row, related);
            r.source == Related || r == Resolution(Prod, Unknown)
  {
  }

  /** Only which decisions the usable parents carry matters: neither their order nor how many carry the same one. */
  lemma OrderOfParentsIsIrrelevant(lex: Lexicon, row: Row, related: seq<Resolution>, related': seq<Resolution>)
    requires forall r :: Lends(r) ==> (r in related <==> r in related')
    ensures Resolve(lex, row, related) == Resolve(lex, row, related')
  {
    var u, u' := Usable(related), Usable(related');
    assert forall r :: r in u <==> r in u';
    assert u != [] ==> u[0] in u';
    assert u' != [] ==> u'[0] in u;
  }

  // ---- the attachment graph --------------------------------------------------------------------

  function KeyOf(r: Row): (nat, string) {
    (r.account, r.resourceId)
  }

  /** A later row with the same key replaces an earlier one. */
  function ByKey(rows: seq<Row>): (m: map<(nat, string), Row>)
    ensures forall k :: k in m ==> m[k] in rows && KeyOf(m[k]) == k
  {
    if rows == [] then map[] else ByKey(rows[..|rows| - 1])[KeyOf(rows[|rows| - 1]) := rows[|rows| - 1]]
  }

  /** The edge attaches `child` to a known row other than itself. */
  predicate Attaches(rows: seq<Row>, e: Edge, child: nat) {
    var m := ByKey(rows);
    && (e.account, e.parent) in m && (e.account, e.child) in m
    && m[(e.account, e.child)].id == child && m[(e.account, e.parent)].id != child
  }

  function Parents(rows: seq<Row>, edges: seq<Edge>, child: nat): (ps: seq<Row>)
    ensures forall p :: p in ps ==> p in rows && p.id != child
    decreases |edges|
  {
    if edges == [] then [] else
    var n := |edges| - 1;
    Parents(rows, edges[..n], child) +
    if Attaches(rows, edges[n], child) then [ByKey(rows)[(edges[n].account, edges[n].parent)]] else []
  }

  ghost predicate Distinct(rows: seq<Row>) {
    forall i, j :: 0 <= i < j < |rows| ==> rows[i].id != rows[j].id
  }

  type Labelling = map<nat, Resolution>

  function Labels(l: Labelling, ps: seq<Row>): (r: seq<Resolution>)
    requires forall p :: p in ps ==> p.id in l
    ensures |r| == |ps| && forall i :: 0 <= i < |ps| ==> r[i] == l[ps[i].id]
  {
    seq(|ps|, i requires 0 <= i < |ps| => assert ps[i] in ps; l[ps[i].id])
  }

  lemma LabelsExactly(l: Labelling, ps: seq<Row>, x: Resolution)
    requires forall p :: p in ps ==> p.id in l
    ensures x in Labels(l, ps) <==> exists p :: p in ps && l[p.id] == x
  {
    if x in Labels(l, ps) {
      var i :| 0 <= i < |ps| && Labels(l, ps)[i] == x;
      assert ps[i] in ps;
    }
    if p :| p in ps && l[p.id] == x {
      var i :| 0 <= i < |ps| && ps[i] == p;
      assert Labels(l, ps)[i] == x;
    }
  }

  /** Parents whose own evidence is the same under both labellings carry the same usable decisions. */
  lemma SameLent(l: Labelling, l': Labelling, ps: seq<Row>)
    requires forall p :: p in ps ==> p.id in l && p.id in l'
    requires forall p :: p in ps && (Lends(l[p.id]) || Lends(l'[p.id])) ==> l[p.id] == l'[p.id]
    ensures forall x :: Lends(x) ==> (x in Labels(l, ps) <==> x in Labels(l', ps))
  {
    forall x | Lends(x) ensures x in Labels(l, ps) <==> x in Labels(l', ps) {
      LabelsExactly(l, ps, x);
      LabelsExactly(l', ps, x);
    }
  }

  ghost predicate LabelsEvery(rows: seq<Row>, l: Labelling) {
    forall id :: id in l <==> exists r :: r in rows && r.id == id
  }

  /** Every resource carries the label that the resolver gives it from the labels of the resources it is attached to. */
  ghost predicate Consistent(lex: Lexicon, rows: seq<Row>, edges: seq<Edge>, l: Labelling) {
    && LabelsEvery(rows, l)
    && forall r :: r in rows ==> l[r.id] == Resolve(lex, r, Labels(l, Parents(rows, edges, r.id)))
  }

  /** First pass: every resource on its own. Second pass: each again, with the first-pass labels of its parents. */
  ghost predicate TwoPass(lex: Lexicon, rows: seq<Row>, edges: seq<Edge>, base: Labelling, l: Labelling) {
    && LabelsEvery(rows, base) && (forall r :: r in rows ==> base[r.id] == Resolve(lex, r, []))
    && LabelsEvery(rows, l)
    && forall r :: r in rows ==> l[r.id] == Resolve(lex, r, Labels(base, Parents(rows, edges, r.id)))
  }

  /** A row sees the same whether its parents carry their first-pass labels or labels that are consistent with each
      other. */
  lemma ParentsLookAlike(lex: Lexicon, rows: seq<Row>, edges: seq<Edge>, base: Labelling, l: Labelling, ps: seq<Row>,
                         row: Row)
    requires LabelsEvery(rows, base) && LabelsEvery(rows, l)
    requires forall r :: r in rows ==> base[r.id] == Resolve(lex, r, [])
    requires forall r :: r in rows ==> exists related :: l[r.id] == Resolve(lex, r, related)
    requires forall p :: p in ps ==> p in rows
    ensures Resolve(lex, row, Labels(base, ps)) == Resolve(lex, row, Labels(l, ps))
  {
    forall p | p in ps ensures Lends(base[p.id]) || Lends(l[p.id]) ==> base[p.id] == l[p.id] {
      var related :| l[p.id] == Resolve(lex, p, related);
      OwnEvidenceIgnoresRelated(lex, p, [], related);
    }
    SameLent(base, l, ps);
    OrderOfParentsIsIrrelevant(lex, row, Labels(base, ps), Labels(l, ps));
  }

  /** For an arbitrary attachment graph, cycles and self-attachments included, the two-pass result is consistent and
      nothing else is. */
  lemma ExactlyOneConsistentLabelling(lex: Lexicon, rows: seq<Row>, edges: seq<Edge>, base: Labelling,
                                      twoPass: Labelling, l: Labelling)
    requires TwoPass(lex, rows, edges, base, twoPass)
    ensures Consistent(lex, rows, edges, l) <==> l == twoPass
  {
    if Consistent(lex, rows, edges, l) {
      forall r | r in rows ensures l[r.id] == twoPass[r.id] {
        ParentsLookAlike(lex, rows, edges, base, l, Parents(rows, edges, r.id), r);
      }
      assert forall id :: id in l <==> id in twoPass;
      assert forall id :: id in l ==> l[id] == twoPass[id];
    }
    forall r | r in rows ensures twoPass[r.id] == Resolve(lex, r, Labels(twoPass, Parents(rows, edges, r.id))) {
      ParentsLookAlike(lex, rows, edges, base, twoPass, Parents(rows, edges, r.id), r);
    }
  }

  /** An environment travels along one attachment only: the label of a row is settled by the row itself and its parents'
      own evidence, whatever else the two graphs contain. */
  lemma InheritanceIsOneStep(lex: Lexicon, rows: seq<Row>, edges: seq<Edge>, l: Labelling, rows': seq<Row>,
                             edges': seq<Edge>, l': Labelling, r: Row)
    requires Consistent(lex, rows, edges, l) && Consistent(lex, rows', edges', l')
    requires r in rows && r in rows' && Parents(rows, edges, r.id) == Parents(rows', edges', r.id)
    ensures l[r.id] == l'[r.id]
  {
    var ps := Parents(rows, edges, r.id);
    forall p | p in ps ensures Lends(l[p.id]) || Lends(l'[p.id]) ==> l[p.id] == l'[p.id] {
      OwnEvidenceIgnoresRelated(lex, p, Labels(l, Parents(rows, edges, p.id)),
                                Labels(l', Parents(rows', edges', p.id)));
    }
    SameLent(l, l', ps);
    OrderOfParentsIsIrrelevant(lex, r, Labels(l, ps), Labels(l', ps));
  }

  /** The rows that the edges attach `child` to, itself included. */
  function ParentsAndSelf(rows: seq<Row>, edges: seq<Edge>, child: nat): (ps: seq<Row>)
    ensures forall p :: p in ps ==> p in rows
    decreases |edges|
  {
    if edges == [] then [] else
    var n := |edges| - 1;
    var m, e := ByKey(rows), edges[n];
    ParentsAndSelf(rows, edges[..n], child) +
    if (e.account, e.parent) in m && (e.account, e.child) in m && m[(e.account, e.child)].id == child
    then [m[(e.account, e.parent)]] else []
  }

  lemma {:induction false} SelfIsAllThatIsDropped(rows: seq<Row>, edges: seq<Edge>, child: nat, p: Row)
    ensures p in Parents(rows, edges, child) <==> p in ParentsAndSelf(rows, edges, child) && p.id != child
  {
    if edges != [] { SelfIsAllThatIsDropped(rows, edges[..|edges| - 1], child, p); }
  }

  /** `Consistent`, were self-attachments kept. */
  ghost predicate ConsistentKeepingSelf(lex: Lexicon, rows: seq<Row>, edges: seq<Edge>, l: Labelling) {
    && LabelsEvery(rows, l)
    && forall r :: r in rows ==> l[r.id] == Resolve(lex, r, Labels(l, ParentsAndSelf(rows, edges, r.id)))
  }

  /** A label among its own attachments' labels never decides whether it is the right one. */
  lemma OwnLabelAddsNothing(lex: Lexicon, row: Row, related: seq<Resolution>, more: seq<Resolution>, own: Resolution)
    requires forall x :: x in related ==> x in more
    requires forall x :: x in more ==> x in related || x == own
    ensures own == Resolve(lex, row, related) <==> own == Resolve(lex, row, more)
  {
    if Lends(own) {
      OwnEvidenceIgnoresRelated(lex, row, related, more);
    } else {
      OrderOfParentsIsIrrelevant(lex, row, related, more);
    }
  }

  /** Dropping self-attachments changes no label: a labelling is consistent without them exactly when it is with
      them. */
  lemma SelfAttachmentAddsNothing(lex: Lexicon, rows: seq<Row>, edges: seq<Edge>, l: Labelling)
    ensures Consistent(lex, rows, edges, l) <==> ConsistentKeepingSelf(lex, rows, edges, l)
  {
    if LabelsEvery(rows, l) {
      forall r | r in rows
        ensures l[r.id] == Resolve(lex, r, Labels(l, Parents(rows, edges, r.id))) <==>
                  l[r.id] == Resolve(lex, r, Labels(l, ParentsAndSelf(rows, edges, r.id)))
      {
        SelfLabelAddsNothing(lex, rows, edges, l, r);
      }
    }
  }

  lemma SelfLabelAddsNothing(lex: Lexicon, rows: seq<Row>, edges: seq<Edge>, l: Labelling, r: Row)
    requires LabelsEvery(rows, l) && r in rows
    ensures l[r.id] == Resolve(lex, r, Labels(l, Parents(rows, edges, r.id))) <==>
              l[r.id] == Resolve(lex, r, Labels(l, ParentsAndSelf(rows, edges, r.id)))
  {
    var ps, qs := Parents(rows, edges, r.id), ParentsAndSelf(rows, edges, r.id);
    forall p ensures p in ps <==> p in qs && p.id != r.id { SelfIsAllThatIsDropped(rows, edges, r.id, p); }
    var b, c := Labels(l, ps), Labels(l, qs);
    forall x | x in b ensures x in c {
      LabelsExactly(l, ps, x);
      LabelsExactly(l, qs, x);
    }
    forall x | x in c ensures x in b || x == l[r.id] {
      LabelsExactly(l, ps, x);
      LabelsExactly(l, qs, x);
    }
    OwnLabelAddsNothing(lex, r, b, c, l[r.id]);
  }

  // ---- the classification loop -----------------------------------------------------------------

  function GroupOf(groups: map<nat, seq<Row>>, child: nat): seq<Row> {
    if child in groups then groups[child] else []
  }

  /** The labels of the first n rows, each resolved with the `base` labels of its parents. */
  ghost predicate PassDone(lex: Lexicon, rows: seq<Row>, edges: seq<Edge>, base: Labelling, n: nat, l: Labelling)
    requires n <= |rows| && (edges == [] || LabelsEvery(rows, base))
  {
    && LabelsEvery(rows[..n], l)
    && forall r :: r in rows[..n] ==> l[r.id] == Resolve(lex, r, Labels(base, Parents(rows, edges, r.id)))
  }

  lemma LabelsOneMore(rows: seq<Row>, n: nat, l: Labelling, x: Resolution)
    requires n < |rows| && LabelsEvery(rows[..n], l)
    ensures LabelsEvery(rows[..n + 1], l[rows[n].id := x])
  {
    var l' := l[rows[n].id := x];
    assert rows[..n + 1] == rows[..n] + [rows[n]];
    forall id ensures id in l' <==> exists r :: r in rows[..n + 1] && r.id == id {
      if id in l { var r :| r in rows[..n] && r.id == id; assert r in rows[..n + 1]; }
      if id == rows[n].id { assert rows[n] in rows[..n + 1]; }
    }
  }

  lemma PassStep(lex: Lexicon, rows: seq<Row>, edges: seq<Edge>, base: Labelling, n: nat, l: Labelling, x: Resolution)
    requires Distinct(rows) && n < |rows| && (edges == [] || LabelsEvery(rows, base))
             && PassDone(lex, rows, edges, base, n, l)
    requires x == Resolve(lex, rows[n], Labels(base, Parents(rows, edges, rows[n].id)))
    ensures PassDone(lex, rows, edges, base, n + 1, l[rows[n].id := x])
  {
    var l' := l[rows[n].id := x];
    LabelsOneMore(rows, n, l, x);
    forall r | r in rows[..n + 1] ensures l'[r.id] == Resolve(lex, r, Labels(base, Parents(rows, edges, r.id))) {
      if r != rows[n] {
        assert r in rows[..n] && r.id in l;
        var i :| 0 <= i < n && rows[i] == r;
        assert r.id != rows[n].id;
      }
    }
  }

  method FirstPass(lex: Lexicon, rows: seq<Row>) returns (byKey: map<(nat, string), Row>, first: Labelling)
    requires Distinct(rows)
    ensures byKey == ByKey(rows)
    ensures PassDone(lex, rows, [], map[], |rows|, first)
  {
    byKey, first := map[], map[];
    for i := 0 to |rows|
      invariant byKey == ByKey(rows[..i])
      invariant PassDone(lex, rows, [], map[], i, first)
    {
      PassStep(lex, rows, [], map[], i, first, Resolve(lex, rows[i], []));
      byKey := byKey[KeyOf(rows[i]) := rows[i]];
      first := first[rows[i].id := Resolve(lex, rows[i], [])];
      assert rows[..i + 1][..i] == rows[..i];
    }
    assert rows[..|rows|] == rows;
  }

  method SecondPass(lex: Lexicon, rows: seq<Row>, ghost edges: seq<Edge>, parentsOf: map<nat, seq<Row>>,
                    first: Labelling) returns (out: Labelling)
    requires Distinct(rows) && LabelsEvery(rows, first) && forall r :: r in rows ==> first[r.id] == Resolve(lex, r, [])
    requires forall child :: GroupOf(parentsOf, child) == Parents(rows, edges, child)
    ensures PassDone(lex, rows, edges, first, |rows|, out)
  {
    out := map[];
    for i := 0 to |rows|
      invariant PassDone(lex, rows, edges, first, i, out)
    {
      var r, ps := rows[i], GroupOf(parentsOf, rows[i].id);
      assert r in rows && ps == Parents(rows, edges, r.id);
      var x := if ps == [] then first[r.id] else Resolve(lex, r, Labels(first, ps));
      assert ps == [] ==> Labels(first, ps) == [];
      PassStep(lex, rows, edges, first, i, out, x);
      out := out[r.id := x];
    }
  }

  method ClassifyRows(lex: Lexicon, rows: seq<Row>, edges: seq<Edge>) returns (out: Labelling)
    requires Distinct(rows)
    ensures exists base :: TwoPass(lex, rows, edges, base, out)
    ensures forall l :: Consistent(lex, rows, edges, l) <==> l == out
  {
    var byKey, first := FirstPass(lex, rows);
    assert rows[..|rows|] == rows;
    forall r | r in rows
      ensures first[r.id] == Resolve(lex, r, [])
    {
      assert Labels(map[], Parents(rows, [], r.id)) == [];
    }
    var parentsOf := GroupParents(rows, edges, byKey);
    out := SecondPass(lex, rows, edges, parentsOf, first);
    assert TwoPass(lex, rows, edges, first, out);
    forall l ensures Consistent(lex, rows, edges, l) <==> l == out {
      ExactlyOneConsistentLabelling(lex, rows, edges, first, out, l);
    }
  }

  method GroupParents(rows: seq<Row>, edges: seq<Edge>, byKey: map<(nat, string), Row>)
    returns (parentsOf: map<nat, seq<Row>>)
    requires byKey == ByKey(rows)
    ensures forall child :: GroupOf(parentsOf, child) == Parents(rows, edges, child)
  {
    parentsOf := map[];
    for i := 0 to |edges|
      invariant forall child :: GroupOf(parentsOf, child) == Parents(rows, edges[..i], child)
    {
      var e := edges[i];
      assert edges[..i + 1][..i] == edges[..i];
      if (e.account, e.parent) in byKey && (e.account, e.child) in byKey
          && byKey[(e.account, e.parent)].id != byKey[(e.account, e.child)].id {
        var c := byKey[(e.account, e.child)].id;
        parentsOf := parentsOf[c := GroupOf(parentsOf, c) + [byKey[(e.account, e.parent)]]];
      }
    }
    assert edges[..|edges|] == edges;
  }
}
