/** Chart series cut into time buckets (app/metric_display.py). Readings are reals; the rounding of the answers to six
    decimals is left out. */
module MetricDisplay {
  import opened Options

  // ---- sizes and windows -------------------------------------------------------------------------

  const NICE: seq<int> := [60, 300, 900, 3600, 10800, 21600, 43200, 86400]
  const TARGET_POINTS := 500
  const RETENTION_DAYS := 30
  const RANGE_LADDER_HOURS: seq<int> := [1, 3, 6, 24, 168, 720]

  function FirstAtLeast(steps: seq<int>, raw: real): int {
    if steps == [] then NICE[|NICE| - 1] else if steps[0] as real >= raw then steps[0]
    else FirstAtLeast(steps[1..], raw)
  }

  function BucketSeconds(hours: int, target: int): int {
    FirstAtLeast(NICE, hours as real * 3600.0 / (if target > 1 then target else 1) as real)
  }

  function EffectiveHours(hours: int): int {
    if hours < RETENTION_DAYS * 24 then hours else RETENTION_DAYS * 24
  }

  /** A window is cut into at most `target` whole buckets exactly when it is no longer than `target` days. */
  lemma BucketSecondsSuffices(hours: int, target: int)
    requires target >= 1
    ensures BucketSeconds(hours, target) in NICE
    ensures hours * 3600 <= BucketSeconds(hours, target) * target <==> hours <= 24 * target
    ensures forall n :: n in NICE && n < BucketSeconds(hours, target) ==> n * target < hours * 3600
  {
    var raw := hours as real * 3600.0 / target as real;
    assert raw * target as real == hours as real * 3600.0;
    forall n: int ensures n as real >= raw <==> n * target >= hours * 3600 {
      MulKeepsOrder(n as real, raw, target as real);
    }
    assert NICE[0..] == NICE;
    FirstAtLeastIsLeast(0, raw);
  }

  lemma MulKeepsOrder(x: real, y: real, k: real)
    requires k > 0.0
    ensures x >= y <==> x * k >= y * k
  {
  }

  ghost predicate IsFirstAtLeast(b: int, i: nat, raw: real)
    requires i <= |NICE|
  {
    && b in NICE
    && (b as real >= raw || (b == 86400 && raw > 86400.0))
    && (forall j :: i <= j < |NICE| && NICE[j] < b ==> (NICE[j] as real) < raw)
  }

  lemma {:induction false} FirstAtLeastIsLeast(i: nat, raw: real)
    requires i <= |NICE| && (i == |NICE| ==> raw > 86400.0)
    ensures IsFirstAtLeast(FirstAtLeast(NICE[i..], raw), i, raw)
    decreases |NICE| - i
  {
    if i == |NICE| {
      assert NICE[i..] == [] && NICE[7] == 86400;
    } else if NICE[i] as real >= raw {
      assert NICE[i..][0] == NICE[i] && NICE[i] in NICE;
    } else {
      assert NICE[i..][1..] == NICE[i + 1..];
      FirstAtLeastIsLeast(i + 1, raw);
    }
  }

  // ---- bucketize -----------------------------------------------------------------------------------

  datatype Reading = Missing | Junk | Number(value: real)

  /** ts is None when it does not parse. */
  datatype Item = Item(ts: Option<real>, v: Reading)

  datatype Stat = Average | Sum | Minimum | Maximum

  datatype Config = Config(step: nat, stat: Stat, scale: real, rate: bool, legacyScale: Option<real>,
                           cutover: Option<real>)

  datatype Bucket = Bucket(key: int, v: real, a: real, mn: real, mx: real, s: real, n: nat)

  function Truncate(x: real): int {
    if x >= 0.0 then x.Floor else -((-x).Floor)
  }

  function KeyOf(c: Config, ts: real): int {
    if c.step != 0 then (ts / c.step as real).Floor * c.step else Truncate(ts)
  }

  function Scale(c: Config, ts: real): real {
    if c.legacyScale.Some? && c.cutover.Some? && ts < c.cutover.value then c.legacyScale.value else c.scale
  }

  predicate Malformed(items: seq<Item>) {
    exists p :: p in items && !p.v.Missing? && (p.ts.None? || p.v.Junk?)
  }

  predicate Counted(p: Item) {
    p.v.Number? && p.ts.Some?
  }

  function Scaled1(c: Config, p: Item): real
    requires Counted(p)
  {
    p.v.value * Scale(c, p.ts.value)
  }

  /** The scaled readings of one bucket, in order. */
  function ValuesOf(c: Config, items: seq<Item>, key: int): seq<real> {
    if items == [] then [] else
    var p := items[|items| - 1];
    ValuesOf(c, items[..|items| - 1], key) + if Counted(p) && KeyOf(c, p.ts.value) == key then [Scaled1(c, p)] else []
  }

  /** All scaled readings. */
  function AllValues(c: Config, items: seq<Item>): seq<real> {
    if items == [] then [] else
    var p := items[|items| - 1];
    AllValues(c, items[..|items| - 1]) + if Counted(p) then [Scaled1(c, p)] else []
  }

  /** Bucket keys in order of first appearance. */
  function Keys(c: Config, items: seq<Item>): seq<int> {
    if items == [] then [] else
    var p := items[|items| - 1];
    var rest := Keys(c, items[..|items| - 1]);
    if Counted(p) && KeyOf(c, p.ts.value) !in rest then rest + [KeyOf(c, p.ts.value)] else rest
  }

  function Total(xs: seq<real>): real {
    if xs == [] then 0.0 else Total(xs[..|xs| - 1]) + xs[|xs| - 1]
  }

  function Least(xs: seq<real>): (m: real)
    requires xs != []
    ensures m in xs && forall x :: x in xs ==> m <= x
  {
    if |xs| == 1 then xs[0] else
    var m := Least(xs[1..]);
    assert forall x :: x in xs ==> x == xs[0] || x in xs[1..];
    if xs[0] <= m then xs[0] else m
  }

  function Greatest(xs: seq<real>): (m: real)
    requires xs != []
    ensures m in xs && forall x :: x in xs ==> x <= m
  {
    if |xs| == 1 then xs[0] else
    var m := Greatest(xs[1..]);
    assert forall x :: x in xs ==> x == xs[0] || x in xs[1..];
    if xs[0] >= m then xs[0] else m
  }

  function Summary(c: Config, key: int, vals: seq<real>): Bucket
    requires vals != []
  {
    var s, mn, mx := Total(vals), Least(vals), Greatest(vals);
    var a := s / |vals| as real;
    var own := match c.stat case Sum => s case Minimum => mn case Maximum => mx case Average => a;
    var native := if c.rate then a else own;
    Bucket(key, native, a, mn, mx, s, |vals|)
  }

  function Insert(k: int, sorted: seq<int>): seq<int> {
    if sorted == [] || k <= sorted[0] then [k] + sorted else [sorted[0]] + Insert(k, sorted[1..])
  }

  function Sorted(ks: seq<int>): seq<int> {
    if ks == [] then [] else Insert(ks[0], Sorted(ks[1..]))
  }

  ghost predicate Increasing(ks: seq<int>) {
    forall i, j :: 0 <= i < j < |ks| ==> ks[i] < ks[j]
  }

  lemma {:induction false} InsertSorts(k: int, sorted: seq<int>)
    requires Increasing(sorted) && k !in sorted
    ensures Increasing(Insert(k, sorted)) && forall x :: x in Insert(k, sorted) <==> x == k || x in sorted
  {
    if sorted != [] && k > sorted[0] {
      InsertSorts(k, sorted[1..]);
      assert forall x :: x in sorted <==> x == sorted[0] || x in sorted[1..];
      var r := Insert(k, sorted[1..]);
      forall i | 0 <= i < |r| ensures sorted[0] < r[i] { assert r[i] in r; }
    }
  }

  ghost predicate Distinct(ks: seq<int>) {
    forall i, j :: 0 <= i < j < |ks| ==> ks[i] != ks[j]
  }

  lemma {:induction false} SortedSorts(ks: seq<int>)
    requires Distinct(ks)
    ensures Increasing(Sorted(ks)) && forall x :: x in Sorted(ks) <==> x in ks
  {
    if ks != [] {
      SortedSorts(ks[1..]);
      assert forall x :: x in ks <==> x == ks[0] || x in ks[1..];
      InsertSorts(ks[0], Sorted(ks[1..]));
    }
  }

  lemma {:induction false} KeysAreTheBuckets(c: Config, items: seq<Item>)
    ensures Distinct(Keys(c, items)) && forall k :: k in Keys(c, items) <==> ValuesOf(c, items, k) != []
  {
    if items != [] { KeysAreTheBuckets(c, items[..|items| - 1]); }
  }

  function Summaries(c: Config, items: seq<Item>, ks: seq<int>): (r: seq<Bucket>)
    requires forall k :: k in ks ==> ValuesOf(c, items, k) != []
    ensures |r| == |ks| && forall i ::
              0 <= i < |ks| ==> ks[i] in ks && r[i] == Summary(c, ks[i], ValuesOf(c, items, ks[i]))
  {
    seq(|ks|, i requires 0 <= i < |ks| => assert ks[i] in ks; Summary(c, ks[i], ValuesOf(c, items, ks[i])))
  }

  /** None: the series is handed back as it came. */
  function Buckets(c: Config, items: seq<Item>): Option<seq<Bucket>> {
    if Malformed(items) then None else
    KeysAreTheBuckets(c, items);
    SortedSorts(Keys(c, items));
    Some(Summaries(c, items, Sorted(Keys(c, items))))
  }

  function Bin(buckets: map<int, seq<real>>, k: int): seq<real> {
    if k in buckets then buckets[k] else []
  }

  ghost predicate Filled(c: Config, items: seq<Item>, buckets: map<int, seq<real>>, order: seq<int>) {
    && order == Keys(c, items)
    && (forall k :: k in buckets <==> k in order)
    && forall k :: Bin(buckets, k) == ValuesOf(c, items, k)
  }

  lemma SkipStep(c: Config, items: seq<Item>, p: Item, buckets: map<int, seq<real>>, order: seq<int>)
    requires Filled(c, items, buckets, order) && !Counted(p)
    ensures Filled(c, items + [p], buckets, order)
  {
    KeysOfMore(c, items, p);
    forall k ensures Bin(buckets, k) == ValuesOf(c, items + [p], k) {
      ValuesOfMore(c, items, p, k);
      assert ValuesOf(c, items, k) + [] == ValuesOf(c, items, k);
    }
  }

  lemma FillStep(c: Config, items: seq<Item>, p: Item, buckets: map<int, seq<real>>, order: seq<int>, key: int, x: real)
    requires Filled(c, items, buckets, order) && Counted(p) && key == KeyOf(c, p.ts.value) && x == Scaled1(c, p)
    ensures Filled(c, items + [p], buckets[key := Bin(buckets, key) + [x]],
                   if key in order then order else order + [key])
  {
    var buckets' := buckets[key := Bin(buckets, key) + [x]];
    KeysOfMore(c, items, p);
    forall k ensures Bin(buckets', k) == ValuesOf(c, items + [p], k) {
      ValuesOfMore(c, items, p, k);
      assert Bin(buckets, k) == ValuesOf(c, items, k);
      if k != key { assert ValuesOf(c, items, k) + [] == ValuesOf(c, items, k); }
    }
  }

  lemma KeysOfMore(c: Config, items: seq<Item>, p: Item)
    ensures Keys(c, items + [p]) ==
              if Counted(p) && KeyOf(c, p.ts.value) !in Keys(c, items) then Keys(c, items) + [KeyOf(c, p.ts.value)]
              else Keys(c, items)
  {
    assert (items + [p])[..|items|] == items;
  }

  /** The filling loop; it gives up at the first malformed item. */
  method Fill(c: Config, items: seq<Item>) returns (ok: bool, buckets: map<int, seq<real>>, order: seq<int>)
    ensures ok <==> !Malformed(items)
    ensures ok ==> Filled(c, items, buckets, order)
  {
    buckets, order := map[], [];
    for i := 0 to |items|
      invariant !Malformed(items[..i])
      invariant Filled(c, items[..i], buckets, order)
    {
      var p := items[i];
      assert items[..i + 1] == items[..i] + [p] && p in items;
      if p.v.Missing? {
        SkipStep(c, items[..i], p, buckets, order);
        continue;
      }
      if p.ts.None? || p.v.Junk? { return false, buckets, order; }
      var key := KeyOf(c, p.ts.value);
      FillStep(c, items[..i], p, buckets, order, key, Scaled1(c, p));
      if key !in buckets { order := order + [key]; }
      buckets := buckets[key := Bin(buckets, key) + [Scaled1(c, p)]];
    }
    assert items[..|items|] == items;
    ok := true;
  }

  method Bucketize(c: Config, items: seq<Item>) returns (out: Option<seq<Bucket>>)
    ensures out == Buckets(c, items)
  {
    var ok, buckets, order := Fill(c, items);
    if !ok { return None; }
    KeysAreTheBuckets(c, items);
    SortedSorts(order);
    assert forall k :: k in order ==> Bin(buckets, k) == ValuesOf(c, items, k);
    var cut := Summarize(c, items, buckets, Sorted(order));
    return Some(cut);
  }

  lemma PrefixOneMore<X>(xs: seq<X>, i: nat, x: X)
    requires i < |xs| && xs[i] == x
    ensures xs[..i + 1] == xs[..i] + [x]
  {
  }

  method Summarize(c: Config, ghost items: seq<Item>, buckets: map<int, seq<real>>, ks: seq<int>)
    returns (out: seq<Bucket>)
    requires forall k :: k in ks ==> k in buckets && buckets[k] != [] && buckets[k] == ValuesOf(c, items, k)
    ensures out == Summaries(c, items, ks)
  {
    out := [];
    ghost var want := Summaries(c, items, ks);
    for i := 0 to |ks|
      invariant out == want[..i]
    {
      assert ks[i] in ks;
      var b := Summary(c, ks[i], buckets[ks[i]]);
      PrefixOneMore(want, i, b);
      out := out + [b];
    }
  }

  // ---- what the buckets say ---------------------------------------------------------------------------

  /** Keys strictly increase, and a bucket stands for exactly the readings whose time has its key. */
  lemma BucketsPartition(c: Config, items: seq<Item>)
    requires Buckets(c, items).Some?
    ensures var out := Buckets(c, items).value;
            && (forall i, j :: 0 <= i < j < |out| ==> out[i].key < out[j].key)
            && (forall i :: 0 <= i < |out| ==>
                ValuesOf(c, items, out[i].key) != []
                  && out[i] == Summary(c, out[i].key, ValuesOf(c, items, out[i].key)))
            && (forall k :: ValuesOf(c, items, k) != [] ==> exists i :: 0 <= i < |out| && out[i].key == k)
  {
    KeysAreTheBuckets(c, items);
    SortedSorts(Keys(c, items));
    var ks := Sorted(Keys(c, items));
    forall k | ValuesOf(c, items, k) != [] ensures exists i :: 0 <= i < |ks| && Buckets(c, items).value[i].key == k {
      var i :| 0 <= i < |ks| && ks[i] == k;
    }
  }

  /** Every time lies in its own bucket. */
  lemma KeyIsItsInterval(c: Config, ts: real)
    ensures c.step > 0 ==> KeyOf(c, ts) as real <= ts < (KeyOf(c, ts) + c.step) as real && KeyOf(c, ts) % c.step == 0
    ensures c.step == 0 ==> -1.0 < ts - KeyOf(c, ts) as real < 1.0
  {
    if c.step > 0 {
      var k := c.step as real;
      var q := ts / k;
      assert q * k == ts;
      MulKeepsOrder(q, q.Floor as real, k);
      MulKeepsOrder(q, (q.Floor + 1) as real, k);
      CastOfProduct(q.Floor, c.step);
      CastOfProduct(q.Floor + 1, c.step);
      assert (q.Floor + 1) * c.step == q.Floor * c.step + c.step;
      MultipleLeavesNothing(q.Floor, c.step);
    }
  }

  lemma {:induction false} CastOfProduct(x: int, n: nat)
    ensures (x * n) as real == x as real * n as real
    decreases n
  {
    if n > 0 {
      CastOfProduct(x, n - 1);
      assert x * n == x * (n - 1) + x;
      assert n as real == (n - 1) as real + 1.0;
    }
  }

  lemma MultipleLeavesNothing(x: int, n: int)
    requires n > 0
    ensures (x * n) % n == 0
  {
    var r := (x * n) % n;
    var d := (x * n) / n;
    assert x * n == d * n + r;
    assert (x - d) * n == r;
    assert x - d >= 1 ==> (x - d) * n >= n;
    assert x - d <= -1 ==> (d - x) * n >= n;
  }

  // counts and sums

  function CountTotal(out: seq<Bucket>): nat {
    if out == [] then 0 else CountTotal(out[..|out| - 1]) + out[|out| - 1].n
  }

  function SumTotal(out: seq<Bucket>): real {
    if out == [] then 0.0 else SumTotal(out[..|out| - 1]) + out[|out| - 1].s
  }

  function CountOver(c: Config, items: seq<Item>, ks: seq<int>): nat {
    if ks == [] then 0 else CountOver(c, items, ks[..|ks| - 1]) + |ValuesOf(c, items, ks[|ks| - 1])|
  }

  function SumOver(c: Config, items: seq<Item>, ks: seq<int>): real {
    if ks == [] then 0.0 else SumOver(c, items, ks[..|ks| - 1]) + Total(ValuesOf(c, items, ks[|ks| - 1]))
  }

  lemma {:induction false} TotalsOverKeys(c: Config, items: seq<Item>, ks: seq<int>)
    requires forall k :: k in ks ==> ValuesOf(c, items, k) != []
    ensures CountTotal(Summaries(c, items, ks)) == CountOver(c, items, ks)
            && SumTotal(Summaries(c, items, ks)) == SumOver(c, items, ks)
  {
    if ks != [] {
      var n := |ks| - 1;
      var all, front := Summaries(c, items, ks), Summaries(c, items, ks[..n]);
      TotalsOverKeys(c, items, ks[..n]);
      forall i | 0 <= i < n ensures all[i] == front[i] {
        assert all[i] == Summary(c, ks[i], ValuesOf(c, items, ks[i])) && front[i].key == ks[..n][i];
      }
      assert all[..n] == front;
      assert all[n] == Summary(c, ks[n], ValuesOf(c, items, ks[n]));
    }
  }

  lemma TotalOfMore(xs: seq<real>, x: real)
    ensures Total(xs + [x]) == Total(xs) + x
  {
    assert (xs + [x])[..|xs|] == xs;
  }

  lemma ValuesOfMore(c: Config, items: seq<Item>, p: Item, key: int)
    ensures ValuesOf(c, items + [p], key) ==
              ValuesOf(c, items, key) + (if Counted(p) && KeyOf(c, p.ts.value) == key then [Scaled1(c, p)] else [])
    ensures AllValues(c, items + [p]) == AllValues(c, items) + (if Counted(p) then [Scaled1(c, p)] else [])
  {
    assert (items + [p])[..|items|] == items;
  }

  /** One more reading adds to the one bucket of its key. */
  lemma {:induction false} OneMoreReading(c: Config, items: seq<Item>, p: Item, ks: seq<int>)
    requires Distinct(ks)
    ensures var here := Counted(p) && KeyOf(c, p.ts.value) in ks;
            && CountOver(c, items + [p], ks) == CountOver(c, items, ks) + (if here then 1 else 0)
            && SumOver(c, items + [p], ks) == SumOver(c, items, ks) + (if here then Scaled1(c, p) else 0.0)
  {
    if ks != [] {
      var n := |ks| - 1;
      OneMoreReading(c, items, p, ks[..n]);
      ValuesOfMore(c, items, p, ks[n]);
      assert ks == ks[..n] + [ks[n]] && ks[n] !in ks[..n];
      var vals := ValuesOf(c, items, ks[n]);
      if Counted(p) { TotalOfMore(vals, Scaled1(c, p)); }
      assert vals + [] == vals;
    }
  }

  lemma {:induction false} EmptyTotals(c: Config, ks: seq<int>)
    ensures CountOver(c, [], ks) == 0 && SumOver(c, [], ks) == 0.0
  {
    if ks != [] { EmptyTotals(c, ks[..|ks| - 1]); }
  }

  lemma {:induction false} NothingIsLost(c: Config, items: seq<Item>, ks: seq<int>)
    requires Distinct(ks) && forall k :: ValuesOf(c, items, k) != [] ==> k in ks
    ensures CountOver(c, items, ks) == |AllValues(c, items)| && SumOver(c, items, ks) == Total(AllValues(c, items))
  {
    if items == [] {
      EmptyTotals(c, ks);
    } else {
      var n := |items| - 1;
      var p := items[n];
      assert items == items[..n] + [p];
      forall k | ValuesOf(c, items[..n], k) != [] ensures k in ks { assert ValuesOf(c, items, k) != []; }
      NothingIsLost(c, items[..n], ks);
      OneMoreReading(c, items[..n], p, ks);
      if Counted(p) {
        ValuesOfMore(c, items[..n], p, KeyOf(c, p.ts.value));
        assert ValuesOf(c, items, KeyOf(c, p.ts.value)) != [];
        TotalOfMore(AllValues(c, items[..n]), Scaled1(c, p));
      } else {
        assert AllValues(c, items[..n]) + [] == AllValues(c, items[..n]);
      }
    }
  }

  /** Counts and scaled sums are conserved; a reading before the cutover counts at the legacy scale. */
  lemma BucketsConserve(c: Config, items: seq<Item>)
    requires Buckets(c, items).Some?
    ensures CountTotal(Buckets(c, items).value) == |AllValues(c, items)|
            && SumTotal(Buckets(c, items).value) == Total(AllValues(c, items))
  {
    KeysAreTheBuckets(c, items);
    SortedSorts(Keys(c, items));
    var ks := Sorted(Keys(c, items));
    TotalsOverKeys(c, items, ks);
    NothingIsLost(c, items, ks);
  }

  function AtScale(c: Config, scale: real): Config {
    c.(scale := scale, legacyScale := None, cutover := None)
  }

  lemma OneSideOneReading(c: Config, p: Item)
    requires Counted(p) && c.legacyScale.Some? && c.cutover.Some?
    ensures var scale := if p.ts.value < c.cutover.value then c.legacyScale.value else c.scale;
            Scaled1(c, p) == Scaled1(AtScale(c, scale), p)
  {
  }

  /** On either side of the cutover a series reads as if it had one scale throughout: the legacy one before it. */
  lemma {:induction false} OneSideOneScale(c: Config, items: seq<Item>, before: bool)
    requires c.legacyScale.Some? && c.cutover.Some?
    requires forall p :: p in items && Counted(p) ==> (p.ts.value < c.cutover.value) == before
    ensures AllValues(c, items) == AllValues(AtScale(c, if before then c.legacyScale.value else c.scale), items)
    decreases |items|
  {
    if items != [] {
      var n := |items| - 1;
      assert forall p :: p in items[..n] ==> p in items;
      OneSideOneScale(c, items[..n], before);
      assert items[n] in items;
      if Counted(items[n]) { OneSideOneReading(c, items[n]); }
    }
  }

  // minimum, average, maximum

  lemma {:induction false} TotalBetween(xs: seq<real>, lo: real, hi: real)
    requires forall x :: x in xs ==> lo <= x <= hi
    ensures lo * |xs| as real <= Total(xs) <= hi * |xs| as real
  {
    if xs != [] {
      var n := |xs| - 1;
      assert forall x :: x in xs[..n] ==> x in xs;
      TotalBetween(xs[..n], lo, hi);
      assert xs[n] in xs;
      assert |xs| as real == n as real + 1.0;
      assert lo * |xs| as real == lo * n as real + lo && hi * |xs| as real == hi * n as real + hi;
    }
  }

  /** Minimum and maximum are readings of the bucket that bound all the others, and the average lies between them. The
      value displayed is the metric's own statistic, so it lies there too unless that is the sum; a rate shows the
      average whatever its statistic. */
  lemma AverageIsBetween(c: Config, key: int, vals: seq<real>)
    requires vals != []
    ensures var b := Summary(c, key, vals);
            && b.mn in vals && b.mx in vals && (forall x :: x in vals ==> b.mn <= x <= b.mx)
            && b.mn <= b.a <= b.mx
            && (c.rate || c.stat != Sum ==> b.mn <= b.v <= b.mx)
            && (!c.rate && c.stat == Sum ==> b.v == Total(vals))
            && (!c.rate && c.stat == Minimum ==> b.v in vals && forall x :: x in vals ==> b.v <= x)
            && (!c.rate && c.stat == Maximum ==> b.v in vals && forall x :: x in vals ==> x <= b.v)
            && (c.rate || c.stat == Average ==> b.v == b.a)
  {
    MeanIsBetween(c, key, vals);
  }

  lemma MeanIsBetween(c: Config, key: int, vals: seq<real>)
    requires vals != []
    ensures var b := Summary(c, key, vals);
            b.mn <= b.a <= b.mx
  {
    TotalBetween(vals, Least(vals), Greatest(vals));
    QuotientBetween(Least(vals), Total(vals), Greatest(vals), |vals| as real);
  }

  lemma QuotientBetween(lo: real, s: real, hi: real, n: real)
    requires n > 0.0 && lo * n <= s <= hi * n
    ensures lo <= s / n <= hi
  {
    var a := s / n;
    assert a * n == s;
    MulKeepsOrder(a, lo, n);
    MulKeepsOrder(hi, a, n);
  }

  // how many buckets

  lemma {:induction false} SpacedKeysAreFew(ks: seq<int>, step: int, lo: int, hi: int)
    requires step > 0 && Increasing(ks) && forall k :: k in ks ==> lo * step <= k <= hi * step && k % step == 0
    ensures |ks| == 0 || |ks| <= hi - lo + 1
  {
    if ks != [] {
      var n := |ks| - 1;
      var last := ks[n];
      assert last in ks;
      var q := last / step;
      assert last == q * step;
      QuotientOrder(lo, q, step);
      QuotientOrder(q, hi, step);
      forall k | k in ks[..n] ensures lo * step <= k <= (q - 1) * step && k % step == 0 {
        assert k in ks && k < last;
        PreviousMultiple(k, q, step);
      }
      SpacedKeysAreFew(ks[..n], step, lo, q - 1);
    }
  }

  lemma QuotientOrder(x: int, y: int, step: int)
    requires step > 0 && x * step <= y * step
    ensures x <= y
  {
  }

  lemma PreviousMultiple(k: int, q: int, step: int)
    requires step > 0 && k % step == 0 && k < q * step
    ensures k <= (q - 1) * step
  {
    var j := k / step;
    assert k == j * step;
    StrictQuotient(j, q, step);
    Multiples(j, q - 1, q - 1, step);
  }

  lemma {:induction false} ValuesHaveATime(c: Config, items: seq<Item>, key: int)
    requires ValuesOf(c, items, key) != []
    ensures exists p :: p in items && Counted(p) && KeyOf(c, p.ts.value) == key
  {
    var p := items[|items| - 1];
    if Counted(p) && KeyOf(c, p.ts.value) == key {
      assert p in items;
    } else {
      ValuesHaveATime(c, items[..|items| - 1], key);
      var q :| q in items[..|items| - 1] && Counted(q) && KeyOf(c, q.ts.value) == key;
      assert q in items;
    }
  }

  /** Whole steps below a time. */
  function Steps(x: real, step: nat): int
    requires step > 0
  {
    (x / step as real).Floor
  }

  lemma StepsBound(x: real, step: nat)
    requires step > 0
    ensures (Steps(x, step) * step) as real <= x < ((Steps(x, step) + 1) * step) as real
  {
    KeyIsItsInterval(Config(step, Average, 1.0, false, None, None), x);
    assert (Steps(x, step) + 1) * step == Steps(x, step) * step + step;
  }

  lemma StepsGap(x: real, y: real, step: nat, d: int)
    requires step > 0 && x <= y <= x + (d * step) as real
    ensures Steps(x, step) <= Steps(y, step) <= Steps(x, step) + d
  {
    var p, q := Steps(x, step), Steps(y, step);
    StepsBound(x, step);
    StepsBound(y, step);
    assert (q + 1) * step > p * step && (p + 1) * step + d * step > q * step;
    assert (p + 1 + d) * step == (p + 1) * step + d * step;
    StrictQuotient(p, q + 1, step);
    StrictQuotient(q, p + 1 + d, step);
  }

  lemma StrictQuotient(x: int, y: int, step: int)
    requires step > 0 && x * step < y * step
    ensures x < y
  {
  }

  /** A chart of the last `hours` hours has at most 501 points: every reading inside the window that is effectively
      shown, buckets of the size chosen for that window. */
  lemma AtMost501Buckets(c: Config, items: seq<Item>, hours: int, now: real)
    requires hours >= 0 && Buckets(c, items).Some?
    requires c.step == BucketSeconds(EffectiveHours(hours), TARGET_POINTS)
    requires forall p :: p in items && Counted(p) ==> now - (EffectiveHours(hours) * 3600) as real <= p.ts.value <= now
    ensures |Buckets(c, items).value| <= 501
  {
    var span := EffectiveHours(hours) * 3600;
    BucketSecondsSuffices(EffectiveHours(hours), TARGET_POINTS);
    var step := c.step;
    var first := now - span as real;
    var lo, hi := Steps(first, step), Steps(now, step);
    assert (500 * step) as real >= span as real;
    StepsGap(first, now, step, 500);
    KeysAreTheBuckets(c, items);
    SortedSorts(Keys(c, items));
    var ks := Sorted(Keys(c, items));
    forall k | k in ks ensures lo * step <= k <= hi * step && k % step == 0 {
      ValuesHaveATime(c, items, k);
      var p :| p in items && Counted(p) && KeyOf(c, p.ts.value) == k;
      StepsGap(first, p.ts.value, step, 500);
      StepsGap(p.ts.value, now, step, 500);
      KeyIsItsInterval(c, p.ts.value);
      Multiples(lo, Steps(p.ts.value, step), hi, step);
    }
    SpacedKeysAreFew(ks, step, lo, hi);
  }

  lemma Multiples(x: int, y: int, z: int, step: int)
    requires step > 0 && x <= y <= z
    ensures x * step <= y * step <= z * step
  {
  }

  // ---- a whole response -------------------------------------------------------------------------------------

  datatype Payload = Series(items: seq<Item>) | Other

  datatype Shaped = Cut(buckets: seq<Bucket>) | AsGiven(payload: Payload) | Meta(number: int)

  function ShapedPayload(c: Config, p: Payload): Shaped {
    if p.Other? || p.items == [] || Buckets(c, p.items).None? then AsGiven(p) else Cut(Buckets(c, p.items).value)
  }

  ghost predicate InsideWindow(items: seq<Item>, hours: int, now: real) {
    forall p :: p in items && Counted(p) ==> now - (EffectiveHours(hours) * 3600) as real <= p.ts.value <= now
  }

  function WithStep(c: Config, hours: int): Config {
    var size := BucketSeconds(EffectiveHours(hours), TARGET_POINTS);
    c.(step := if size >= 0 then size else 0)
  }

  /** What a response says about its own window; a payload under one of these keys gives way to it. */
  function About(hours: int): map<string, Shaped> {
    map["bucket_secs" := Meta(BucketSeconds(EffectiveHours(hours), TARGET_POINTS)),
        "effective_hours" := Meta(EffectiveHours(hours)),
        "requested_hours" := Meta(hours),
        "retention_days" := Meta(RETENTION_DAYS)]
  }

  /** Cuts every series of a response for the same window, drops nothing and adds what `About` says. `configOf` is each
      metric's statistic and scale. */
  method ShapeResponse(configOf: string -> Config, result: map<string, Payload>, hours: int)
    returns (out: map<string, Shaped>)
    ensures out.Keys == result.Keys + About(hours).Keys
    ensures forall k :: k in About(hours) ==> out[k] == About(hours)[k]
    ensures forall k :: k in result && k !in About(hours) ==>
              out[k] == ShapedPayload(WithStep(configOf(k), hours), result[k])
    ensures forall k, now ::
              k in result && out[k].Cut? && result[k].Series? && hours >= 0
                && InsideWindow(result[k].items, hours, now) ==>
                |out[k].buckets| <= 501
  {
    var shaped := ShapeSeries(configOf, result, hours);
    out := shaped["bucket_secs" := Meta(BucketSeconds(EffectiveHours(hours), TARGET_POINTS))];
    out := out["effective_hours" := Meta(EffectiveHours(hours))];
    out := out["requested_hours" := Meta(hours)];
    out := out["retention_days" := Meta(RETENTION_DAYS)];
    assert out == shaped + About(hours);
    forall k, now | k in result && out[k].Cut? && result[k].Series? && hours >= 0
      && InsideWindow(result[k].items, hours, now)
      ensures |out[k].buckets| <= 501
    {
      ShapedIsShort(configOf(k), result[k], hours, now);
    }
  }

  lemma ShapedIsShort(c: Config, p: Payload, hours: int, now: real)
    requires hours >= 0 && p.Series? && InsideWindow(p.items, hours, now) && ShapedPayload(WithStep(c, hours), p).Cut?
    ensures |ShapedPayload(WithStep(c, hours), p).buckets| <= 501
  {
    BucketSecondsSuffices(EffectiveHours(hours), TARGET_POINTS);
    AtMost501Buckets(WithStep(c, hours), p.items, hours, now);
  }

  method ShapeSeries(configOf: string -> Config, result: map<string, Payload>, hours: int)
    returns (out: map<string, Shaped>)
    ensures out.Keys == result.Keys
    ensures forall k :: k in out ==> out[k] == ShapedPayload(WithStep(configOf(k), hours), result[k])
  {
    out := map[];
    var rest := result.Keys;
    while rest != {}
      invariant rest <= result.Keys && out.Keys == result.Keys - rest
      invariant forall k :: k in out ==> out[k] == ShapedPayload(WithStep(configOf(k), hours), result[k])
      decreases |rest|
    {
      var k :| k in rest;
      var payload := result[k];
      if payload.Series? && payload.items != [] {
        var cut := Bucketize(WithStep(configOf(k), hours), payload.items);
        out := out[k := if cut.Some? then Cut(cut.value) else AsGiven(payload)];
      } else {
        out := out[k := AsGiven(payload)];
      }
      rest := rest - {k};
    }
  }

  // ---- widening an empty window ---------------------------------------------------------------------------

  function InWindow(points: seq<real>, now: real, hours: int): nat {
    if points == [] then 0 else
    (if now - (hours * 3600) as real <= points[0] <= now then 1 else 0) + InWindow(points[1..], now, hours)
  }

  function Presets(ladder: seq<int>, requested: int, max: int): seq<int> {
    if ladder == [] then []
    else (if requested < ladder[0] <= max then [ladder[0]] else []) + Presets(ladder[1..], requested, max)
  }

  function Ladder(requested: int, max: int): seq<int> {
    var l := Presets(RANGE_LADDER_HOURS, requested, max);
    if max !in l && max > requested then l + [max] else l
  }

  function FirstHolding(ladder: seq<int>, points: seq<real>, now: real, need: nat): Option<int> {
    if ladder == [] then None
    else if InWindow(points, now, ladder[0]) >= need then Some(ladder[0])
    else FirstHolding(ladder[1..], points, now, need)
  }

  function WidenWindowHours(points: seq<real>, now: real, requested: int, max: int): Option<int> {
    var two := FirstHolding(Ladder(requested, max), points, now, 2);
    if two.Some? then two else FirstHolding(Ladder(requested, max), points, now, 1)
  }

  lemma {:induction false} WiderHoldsMore(points: seq<real>, now: real, h: int, h': int)
    requires h <= h'
    ensures InWindow(points, now, h) <= InWindow(points, now, h')
  {
    if points != [] { WiderHoldsMore(points[1..], now, h, h'); }
  }

  lemma {:induction false} PresetsClimb(ladder: seq<int>, requested: int, max: int)
    requires Increasing(ladder)
    ensures var l := Presets(ladder, requested, max);
            Increasing(l) && forall h :: h in l <==> h in ladder && requested < h <= max
  {
    if ladder != [] {
      PresetsClimb(ladder[1..], requested, max);
      var rest := Presets(ladder[1..], requested, max);
      forall i | 0 <= i < |rest| ensures ladder[0] < rest[i] { assert rest[i] in rest; }
    }
  }

  lemma LadderClimbs(requested: int, max: int)
    ensures var l := Ladder(requested, max);
            Increasing(l) && forall h :: h in l <==> requested < h <= max && (h in RANGE_LADDER_HOURS || h == max)
  {
    PresetsClimb(RANGE_LADDER_HOURS, requested, max);
    var l := Presets(RANGE_LADDER_HOURS, requested, max);
    forall i | 0 <= i < |l| ensures max !in l ==> l[i] < max { assert l[i] in l; }
  }

  lemma {:induction false} FirstHoldingIsLeast(ladder: seq<int>, points: seq<real>, now: real, need: nat)
    requires Increasing(ladder)
    ensures var r := FirstHolding(ladder, points, now, need);
            && (r.Some? ==> r.value in ladder && InWindow(points, now, r.value) >= need)
            && forall h :: h in ladder && InWindow(points, now, h) >= need ==> r.Some? && r.value <= h
  {
    if ladder != [] {
      FirstHoldingIsLeast(ladder[1..], points, now, need);
      assert forall h :: h in ladder ==> h == ladder[0] || h in ladder[1..];
    }
  }

  /** The window offered is the smallest preset with two readings if any preset has two, else the smallest with one. */
  lemma WidenedWindowIsLeast(points: seq<real>, now: real, requested: int, max: int)
    ensures var r := WidenWindowHours(points, now, requested, max); var l := Ladder(requested, max);
            && (r.Some? ==> r.value in l && InWindow(points, now, r.value) >= 1)
            && (forall h :: h in l && InWindow(points, now, h) >= 2 ==>
                r.Some? && r.value <= h && InWindow(points, now, r.value) >= 2)
            && ((forall h :: h in l ==> InWindow(points, now, h) < 2) ==>
                  forall h :: h in l && InWindow(points, now, h) >= 1 ==> r.Some? && r.value <= h)
  {
    LadderClimbs(requested, max);
    FirstHoldingIsLeast(Ladder(requested, max), points, now, 2);
    FirstHoldingIsLeast(Ladder(requested, max), points, now, 1);
  }

  /** Nothing is offered exactly when the longest window has no reading, or when there is no longer window than the one
      asked for: then nothing is offered even for a metric that has readings. */
  lemma NoWindowExactlyWhen(points: seq<real>, now: real, requested: int, max: int)
    ensures WidenWindowHours(points, now, requested, max).None? <==> max <= requested || InWindow(points, now, max) == 0
  {
    WidenedWindowIsLeast(points, now, requested, max);
    LadderClimbs(requested, max);
    var r := WidenWindowHours(points, now, requested, max);
    if r.Some? { WiderHoldsMore(points, now, r.value, max); }
    if max > requested { assert max in Ladder(requested, max); }
  }
}
