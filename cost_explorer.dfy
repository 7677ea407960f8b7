/** Cost, forecast and rightsizing reductions (lib/aws/cost-explorer.ts).
    Each Cost Explorer call is an input: a function from the requested time
    period to the settled outcome of the call. Amounts arrive already parsed;
    `None` stands for an absent or empty amount string, which the source
    replaces by "0". */
module CostExplorer {
  import opened Wrappers
  import opened JsStrings
  import opened JsErrors
  import opened Sums
  import opened AwsTypes

  const OthersName := "Others"
  const TopServices := 10
  const CostErrorPrefix := "Failed to fetch cost data: "
  const ForecastErrorPrefix := "Failed to fetch forecast: "

  /** `s || d` on an optional string: absent and empty both give `d`. */
  function OrElse(s: Option<string>, d: string): (r: string)
    ensures s.Some? && s.value != "" ==> r == s.value
    ensures (s.None? || s.value == "") ==> r == d
  {
    if s.Some? && s.value != "" then s.value else d
  }

  /** An optional string inside a template literal: `undefined` when absent. */
  function Render(s: Option<string>): string {
    if s.Some? then s.value else "undefined"
  }

  // ---------------------------------------------------------------------
  // Provider responses

  /** `{Start, End}` of a request. */
  datatype TimePeriod = TimePeriod(start: string, end: string)

  /** One group of a bucket: its `Keys` (absent is the empty list) and its
      `UnblendedCost` amount. */
  datatype Group = Group(keys: seq<string>, amount: Option<real>)

  /** One entry of `ResultsByTime`: its start date, its total amount and unit,
      and its groups (absent is the empty list). */
  datatype ResultByTime = ResultByTime(
    start: Option<string>,
    totalAmount: Option<real>,
    totalUnit: Option<string>,
    groups: seq<Group>)

  /** One entry of `ForecastResultsByTime`. */
  datatype ForecastResult = ForecastResult(start: Option<string>, meanValue: Option<string>)

  datatype CurrentInstance = CurrentInstance(
    monthlyCost: Option<real>,
    instanceName: Option<string>,
    instanceType: Option<string>)

  datatype TargetInstance = TargetInstance(monthlyCost: Option<real>, instanceType: Option<string>)

  /** One entry of `RightsizingRecommendations`. */
  datatype RightsizingRec = RightsizingRec(
    accountId: Option<string>,
    current: Option<CurrentInstance>,
    targets: seq<TargetInstance>)

  // ---------------------------------------------------------------------
  // The service map: a JavaScript `Map<string, number>`

  /** A JavaScript `Map<string, number>`: the keys in insertion order and the
      value of each key. */
  datatype ServiceMap = ServiceMap(keys: seq<string>, totals: map<string, real>)

  const EmptyMap := ServiceMap([], map[])

  /** The keys are distinct and are exactly the keys that have a value. */
  ghost predicate ValidMap(m: ServiceMap) {
    && (forall i, j :: 0 <= i < j < |m.keys| ==> m.keys[i] != m.keys[j])
    && (forall s :: s in m.totals <==> s in m.keys)
  }

  /** `map.get(s) || 0`. */
  function Get(m: ServiceMap, s: string): real {
    if s in m.totals then m.totals[s] else 0.0
  }

  /** `map.set(s, v)`: an existing key keeps its position, a new key goes
      last; a later `get` sees exactly what was set. */
  function Set(m: ServiceMap, s: string, v: real): (r: ServiceMap)
    requires ValidMap(m)
    ensures ValidMap(r)
    ensures s in m.totals ==> r.keys == m.keys
    ensures s !in m.totals ==> r.keys == m.keys + [s]
    ensures forall t :: Get(r, t) == if t == s then v else Get(m, t)
  {
    ServiceMap(if s in m.totals then m.keys else m.keys + [s], m.totals[s := v])
  }

  /** `Array.from(map.values())`. */
  function Amounts(m: ServiceMap): (a: seq<real>)
    requires ValidMap(m)
    ensures |a| == |m.keys|
  {
    seq(|m.keys|, i requires 0 <= i < |m.keys| && ValidMap(m) => m.totals[m.keys[i]])
  }

  /** The service of a group: its first key, `"Unknown"` when that is absent
      or empty. */
  function GroupService(g: Group): (s: string)
    ensures |g.keys| > 0 && g.keys[0] != "" ==> s == g.keys[0]
    ensures s != ""
  {
    if |g.keys| > 0 && g.keys[0] != "" then g.keys[0] else "Unknown"
  }

  function GroupCost(g: Group): real {
    g.amount.GetOr(0.0)
  }

  /** `map.set(s, (map.get(s) || 0) + cost)`. */
  function AddCost(m: ServiceMap, s: string, cost: real): (r: ServiceMap)
    requires ValidMap(m)
    ensures ValidMap(r)
  {
    Set(m, s, Get(m, s) + cost)
  }

  /** One step of the inner loop: add the group's cost to its service. */
  function AddGroup(m: ServiceMap, g: Group): (r: ServiceMap)
    requires ValidMap(m)
    ensures ValidMap(r)
  {
    AddCost(m, GroupService(g), GroupCost(g))
  }

  /** The service map after adding the groups `gs` to `m`, in order. */
  function AddGroups(m: ServiceMap, gs: seq<Group>): (r: ServiceMap)
    requires ValidMap(m)
    ensures ValidMap(r)
    decreases |gs|
  {
    if gs == [] then m else AddGroups(AddGroup(m, gs[0]), gs[1..])
  }

  /** The service map built from the groups `gs`, starting empty. */
  function Accumulate(gs: seq<Group>): (m: ServiceMap)
    ensures ValidMap(m)
  {
    AddGroups(EmptyMap, gs)
  }

  /** All groups of all buckets, bucket by bucket. */
  function AllGroups(results: seq<ResultByTime>): seq<Group>
    decreases |results|
  {
    if results == [] then [] else results[0].groups + AllGroups(results[1..])
  }

  /** The costs of the groups that belong to service `s`, in order. */
  function CostsOf(gs: seq<Group>, s: string): seq<real> {
    if gs == [] then []
    else (if GroupService(gs[0]) == s then [GroupCost(gs[0])] else []) + CostsOf(gs[1..], s)
  }

  function GroupCosts(gs: seq<Group>): seq<real> {
    seq(|gs|, i requires 0 <= i < |gs| => GroupCost(gs[i]))
  }

  /** Some group of `gs` belongs to service `s`. */
  predicate Names(gs: seq<Group>, s: string) {
    exists k :: 0 <= k < |gs| && GroupService(gs[k]) == s
  }

  lemma NamesCons(gs: seq<Group>, s: string)
    requires gs != []
    ensures Names(gs, s) <==> GroupService(gs[0]) == s || Names(gs[1..], s)
  {
    if Names(gs, s) && GroupService(gs[0]) != s {
      var k :| 0 <= k < |gs| && GroupService(gs[k]) == s;
      assert gs[1..][k - 1] == gs[k];
    }
    if Names(gs[1..], s) {
      var k :| 0 <= k < |gs| - 1 && GroupService(gs[1..][k]) == s;
      assert gs[k + 1] == gs[1..][k];
    }
  }

  /** Adding groups to a map: a service gains an entry exactly when some group
      names it, and its value grows by the sum of that service's group costs. */
  lemma {:induction false} AddGroupsTotals(m: ServiceMap, gs: seq<Group>, s: string)
    requires ValidMap(m)
    ensures s in AddGroups(m, gs).totals <==> s in m.totals || Names(gs, s)
    ensures Get(AddGroups(m, gs), s) == Get(m, s) + Sum(CostsOf(gs, s))
    decreases |gs|
  {
    if gs == [] {
      assert Sum([]) == 0.0;
    } else {
      var g := gs[0];
      var m' := AddGroup(m, g);
      AddGroupsTotals(m', gs[1..], s);
      NamesCons(gs, s);
      assert AddGroups(m, gs) == AddGroups(m', gs[1..]);
      if GroupService(g) == s {
        SumPrepend(GroupCost(g), CostsOf(gs[1..], s));
      } else {
        assert CostsOf(gs, s) == CostsOf(gs[1..], s);
      }
    }
  }

  /** The service map of `gs`: a service has an entry exactly when some group
      names it, and its total is the sum of that service's group costs. */
  lemma AccumulateTotals(gs: seq<Group>, s: string)
    ensures s in Accumulate(gs).keys <==> Names(gs, s)
    ensures Get(Accumulate(gs), s) == Sum(CostsOf(gs, s))
  {
    AddGroupsTotals(EmptyMap, gs, s);
  }

  /** Setting a key changes one value in place, or appends one value. */
  lemma AmountsAfterSet(m: ServiceMap, s: string, v: real)
    requires ValidMap(m)
    ensures s !in m.totals ==> Amounts(Set(m, s, v)) == Amounts(m) + [v]
    ensures s in m.totals ==> exists i :: (0 <= i < |m.keys| && m.keys[i] == s
      && Amounts(Set(m, s, v)) == Amounts(m)[i := v] && Amounts(m)[i] == Get(m, s))
  {
    var r := Set(m, s, v);
    if s in m.totals {
      var i :| 0 <= i < |m.keys| && m.keys[i] == s;
      assert Amounts(r) == Amounts(m)[i := v];
    } else {
      assert Amounts(r) == Amounts(m) + [v];
    }
  }

  /** Adding a group adds its cost to the sum of the map's values. */
  lemma AddGroupSum(m: ServiceMap, g: Group)
    requires ValidMap(m)
    ensures Sum(Amounts(AddGroup(m, g))) == Sum(Amounts(m)) + GroupCost(g)
  {
    var s := GroupService(g);
    var v := Get(m, s) + GroupCost(g);
    assert AddGroup(m, g) == Set(m, s, v);
    AmountsAfterSet(m, s, v);
    if s in m.totals {
      var i :| 0 <= i < |m.keys| && m.keys[i] == s
        && Amounts(Set(m, s, v)) == Amounts(m)[i := v] && Amounts(m)[i] == Get(m, s);
      SumUpdate(Amounts(m), i, v);
    } else {
      SumAppend(Amounts(m), [v]);
      SumSingleton(v);
    }
  }

  lemma GroupCostsCons(gs: seq<Group>)
    requires gs != []
    ensures GroupCosts(gs) == [GroupCost(gs[0])] + GroupCosts(gs[1..])
  {
  }

  lemma {:induction false} AddGroupsSum(m: ServiceMap, gs: seq<Group>)
    requires ValidMap(m)
    ensures Sum(Amounts(AddGroups(m, gs))) == Sum(Amounts(m)) + Sum(GroupCosts(gs))
    decreases |gs|
  {
    if gs == [] {
      assert Sum(GroupCosts(gs)) == 0.0;
    } else {
      var g := gs[0];
      var m' := AddGroup(m, g);
      AddGroupSum(m, g);
      AddGroupsSum(m', gs[1..]);
      GroupCostsCons(gs);
      SumPrepend(GroupCost(g), GroupCosts(gs[1..]));
    }
  }

  /** The sum of the map's values is the sum of every group's cost. */
  lemma AccumulateSum(gs: seq<Group>)
    ensures Sum(Amounts(Accumulate(gs))) == Sum(GroupCosts(gs))
  {
    AddGroupsSum(EmptyMap, gs);
    assert Amounts(EmptyMap) == [];
  }

  /** The monthly entry of one bucket: start date (or ""), total (or 0) and
      unit (or "USD"). */
  function ToMonthlyCost(r: ResultByTime): (c: MonthlyCost)
    ensures c.month == OrElse(r.start, "") && c.currency == OrElse(r.totalUnit, "USD")
    ensures c.amount == if r.totalAmount.Some? then r.totalAmount.value else 0.0
    ensures c.currency != ""
  {
    MonthlyCost(OrElse(r.start, ""), r.totalAmount.GetOr(0.0), OrElse(r.totalUnit, "USD"))
  }

  function MonthlyCostsOf(results: seq<ResultByTime>): seq<MonthlyCost> {
    seq(|results|, i requires 0 <= i < |results| => ToMonthlyCost(results[i]))
  }

  lemma MonthlyCostsSnoc(results: seq<ResultByTime>, i: nat)
    requires i < |results|
    ensures MonthlyCostsOf(results[..i + 1]) == MonthlyCostsOf(results[..i]) + [ToMonthlyCost(results[i])]
  {
  }

  /** Adding the remaining groups is adding the next one, then the rest. */
  lemma AddGroupsStep(m: ServiceMap, groups: seq<Group>, j: nat)
    requires ValidMap(m) && j < |groups|
    ensures AddGroups(m, groups[j..]) == AddGroups(AddGroup(m, groups[j]), groups[j + 1..])
  {
    assert groups[j..][1..] == groups[j + 1..];
  }

  /** Adding `a` and then `b` is adding `a + b`. */
  lemma {:induction false} AddGroupsAppend(m: ServiceMap, a: seq<Group>, b: seq<Group>)
    requires ValidMap(m)
    ensures AddGroups(m, a + b) == AddGroups(AddGroups(m, a), b)
    decreases |a|
  {
    if a == [] {
      assert a + b == b;
    } else {
      assert (a + b)[1..] == a[1..] + b;
      AddGroupsAppend(AddGroup(m, a[0]), a[1..], b);
    }
  }

  /** The groups from bucket `i` on are bucket `i`'s groups, then the rest. */
  lemma AllGroupsFrom(results: seq<ResultByTime>, i: nat)
    requires i < |results|
    ensures AllGroups(results[i..]) == results[i].groups + AllGroups(results[i + 1..])
  {
    assert results[i..][1..] == results[i + 1..];
  }

  /** The group loop of one bucket: each group's cost is added to its
      service, in order. */
  method AddBucketGroups(m: ServiceMap, groups: seq<Group>) returns (r: ServiceMap)
    requires ValidMap(m)
    ensures r == AddGroups(m, groups)
  {
    r := m;
    var j := 0;
    while j < |groups|
      invariant 0 <= j <= |groups|
      invariant ValidMap(r)
      invariant AddGroups(r, groups[j..]) == AddGroups(m, groups)
    {
      var group := groups[j];
      var service := GroupService(group);
      var cost := GroupCost(group);
      AddGroupsStep(r, groups, j);
      r := AddCost(r, service, cost);
      j := j + 1;
    }
    assert groups[j..] == [];
  }

  /** The bucket loop: one monthly entry per bucket, in bucket order, and the
      service map after every group of every bucket. */
  method AccumulateBuckets(results: seq<ResultByTime>) returns (monthlyCosts: seq<MonthlyCost>, serviceMap: ServiceMap)
    ensures monthlyCosts == MonthlyCostsOf(results)
    ensures serviceMap == Accumulate(AllGroups(results))
  {
    monthlyCosts := [];
    serviceMap := EmptyMap;
    var i := 0;
    while i < |results|
      invariant 0 <= i <= |results|
      invariant monthlyCosts == MonthlyCostsOf(results[..i])
      invariant ValidMap(serviceMap)
      invariant AddGroups(serviceMap, AllGroups(results[i..])) == Accumulate(AllGroups(results))
    {
      var result := results[i];
      MonthlyCostsSnoc(results, i);
      monthlyCosts := monthlyCosts + [ToMonthlyCost(result)];
      AllGroupsFrom(results, i);
      AddGroupsAppend(serviceMap, result.groups, AllGroups(results[i + 1..]));
      serviceMap := AddBucketGroups(serviceMap, result.groups);
      i := i + 1;
    }
  }

  // ---------------------------------------------------------------------
  // Totals, percentages and the top-10 breakdown

  /** A service's share of the total, in percent: `(amount / totalCost) * 100`
      when the total is positive, 0 otherwise. */
  function Percentage(amount: real, total: real): (p: real)
    ensures total > 0.0 ==> p * total == amount * 100.0
    ensures total <= 0.0 ==> p == 0.0
  {
    if total > 0.0 then (amount / total) * 100.0 else 0.0
  }

  /** The map's entries with their percentages, in insertion order. */
  function WithPercentages(m: ServiceMap, total: real): (w: seq<ServiceCost>)
    requires ValidMap(m)
    ensures |w| == |m.keys|
  {
    seq(|m.keys|, i requires 0 <= i < |m.keys| && ValidMap(m) =>
      ServiceCost(m.keys[i], m.totals[m.keys[i]], Percentage(m.totals[m.keys[i]], total)))
  }

  predicate NonIncreasing(s: seq<ServiceCost>) {
    forall i, j :: 0 <= i < j < |s| ==> s[i].amount >= s[j].amount
  }

  /** Inserts `x` into `t` before the first entry whose amount is not larger. */
  function InsertDesc(x: ServiceCost, t: seq<ServiceCost>): (r: seq<ServiceCost>)
    ensures |r| == |t| + 1
    ensures multiset(r) == multiset(t) + multiset{x}
  {
    if t == [] || x.amount >= t[0].amount then
      [x] + t
    else
      assert t == [t[0]] + t[1..];
      [t[0]] + InsertDesc(x, t[1..])
  }

  /** Insertion keeps a non-increasing list non-increasing. */
  lemma {:induction false} InsertDescSorted(x: ServiceCost, t: seq<ServiceCost>)
    requires NonIncreasing(t)
    ensures NonIncreasing(InsertDesc(x, t))
    decreases |t|
  {
    if t != [] && x.amount < t[0].amount {
      var r' := InsertDesc(x, t[1..]);
      InsertDescSorted(x, t[1..]);
      InsertDescBounded(x, t[1..], t[0].amount);
      assert InsertDesc(x, t) == [t[0]] + r';
    }
  }

  /** Insertion adds no amount above a bound that `x` and `t` respect. */
  lemma {:induction false} InsertDescBounded(x: ServiceCost, t: seq<ServiceCost>, b: real)
    requires x.amount <= b && forall k :: 0 <= k < |t| ==> t[k].amount <= b
    ensures forall k :: 0 <= k < |t| + 1 ==> InsertDesc(x, t)[k].amount <= b
    decreases |t|
  {
    if t != [] && x.amount < t[0].amount {
      InsertDescBounded(x, t[1..], b);
    }
  }

  /** Where `InsertDesc` puts `x`: before the first entry whose amount is not
      larger. */
  function InsertPos(x: ServiceCost, t: seq<ServiceCost>): (p: nat)
    ensures p <= |t|
  {
    if t == [] || x.amount >= t[0].amount then 0 else 1 + InsertPos(x, t[1..])
  }

  /** Insertion keeps `t` in order and puts `x` after exactly the entries
      that are strictly larger. */
  lemma InsertDescAt(x: ServiceCost, t: seq<ServiceCost>)
    ensures InsertDesc(x, t)[InsertPos(x, t)] == x
    ensures forall k :: 0 <= k < InsertPos(x, t) ==> InsertDesc(x, t)[k] == t[k] && t[k].amount > x.amount
    ensures forall k :: InsertPos(x, t) <= k < |t| ==> InsertDesc(x, t)[k + 1] == t[k]
  {
    InsertDescAtPos(x, t);
    InsertDescBefore(x, t);
    InsertDescAfter(x, t);
  }

  lemma {:induction false} InsertDescAtPos(x: ServiceCost, t: seq<ServiceCost>)
    ensures InsertDesc(x, t)[InsertPos(x, t)] == x
    decreases |t|
  {
    if t != [] && x.amount < t[0].amount {
      InsertDescAtPos(x, t[1..]);
    }
  }

  lemma {:induction false} InsertDescBefore(x: ServiceCost, t: seq<ServiceCost>)
    ensures forall k :: 0 <= k < InsertPos(x, t) ==> InsertDesc(x, t)[k] == t[k] && t[k].amount > x.amount
    decreases |t|
  {
    if t != [] && x.amount < t[0].amount {
      InsertDescBefore(x, t[1..]);
      assert forall k :: 1 <= k < |t| ==> t[k] == t[1..][k - 1];
    }
  }

  lemma {:induction false} InsertDescAfter(x: ServiceCost, t: seq<ServiceCost>)
    ensures forall k :: InsertPos(x, t) <= k < |t| ==> InsertDesc(x, t)[k + 1] == t[k]
    decreases |t|
  {
    if t != [] && x.amount < t[0].amount {
      InsertDescAfter(x, t[1..]);
      assert forall k :: 1 <= k < |t| ==> t[k] == t[1..][k - 1];
    }
  }

  /** `a` occurs in `r` before some occurrence of `b`. */
  predicate Precedes(r: seq<ServiceCost>, a: ServiceCost, b: ServiceCost) {
    exists p, q :: 0 <= p < q < |r| && r[p] == a && r[q] == b
  }

  /** Two entries of `t` keep their relative order after an insertion. */
  lemma InsertKeepsOrder(x: ServiceCost, t: seq<ServiceCost>, a: ServiceCost, b: ServiceCost)
    requires Precedes(t, a, b)
    ensures Precedes(InsertDesc(x, t), a, b)
  {
    var i, j :| 0 <= i < j < |t| && t[i] == a && t[j] == b;
    InsertDescAt(x, t);
    var pos := InsertPos(x, t);
    var p := if i < pos then i else i + 1;
    var q := if j < pos then j else j + 1;
    assert InsertDesc(x, t)[p] == a && InsertDesc(x, t)[q] == b;
  }

  /** An inserted entry goes before every entry of `t` with the same amount. */
  lemma InsertBeforeEqual(x: ServiceCost, t: seq<ServiceCost>, b: ServiceCost)
    requires b in multiset(t) && b.amount == x.amount
    ensures Precedes(InsertDesc(x, t), x, b)
  {
    var j :| 0 <= j < |t| && t[j] == b;
    InsertDescAt(x, t);
    var pos := InsertPos(x, t);
    assert pos <= j;
    assert InsertDesc(x, t)[pos] == x && InsertDesc(x, t)[j + 1] == b;
  }

  /** `sort((a, b) => b.amount - a.amount)`: a stable sort by non-increasing
      amount. */
  function SortDesc(s: seq<ServiceCost>): (r: seq<ServiceCost>)
    ensures |r| == |s|
    ensures multiset(r) == multiset(s)
    ensures NonIncreasing(r)
  {
    if s == [] then []
    else
      assert s == [s[0]] + s[1..];
      InsertDescSorted(s[0], SortDesc(s[1..]));
      InsertDesc(s[0], SortDesc(s[1..]))
  }

  /** A list already in non-increasing order is left as it is: the sort is
      stable, so equal amounts keep their order. */
  lemma {:induction false} SortDescOfSorted(s: seq<ServiceCost>)
    requires NonIncreasing(s)
    ensures SortDesc(s) == s
    decreases |s|
  {
    if s != [] {
      SortDescOfSorted(s[1..]);
      assert s == [s[0]] + s[1..];
    }
  }

  /** The sort is stable: two entries with equal amounts come out in the
      order they went in. */
  lemma {:induction false} SortDescStable(s: seq<ServiceCost>)
    ensures forall i, j :: 0 <= i < j < |s| && s[i].amount == s[j].amount ==> Precedes(SortDesc(s), s[i], s[j])
    decreases |s|
  {
    if s != [] {
      var x, t := s[0], SortDesc(s[1..]);
      assert SortDesc(s) == InsertDesc(x, t);
      SortDescStable(s[1..]);
      forall i, j | 0 <= i < j < |s| && s[i].amount == s[j].amount
        ensures Precedes(InsertDesc(x, t), s[i], s[j])
      {
        assert s[j] == s[1..][j - 1];
        if i == 0 {
          assert s[j] in multiset(s[1..]);
          InsertBeforeEqual(x, t, s[j]);
        } else {
          assert s[i] == s[1..][i - 1];
          InsertKeepsOrder(x, t, s[i], s[j]);
        }
      }
    }
  }

  /** How many named entries the breakdown keeps: `slice(0, 10)`. */
  function NamedCount(m: ServiceMap): nat {
    if |m.keys| < TopServices then |m.keys| else TopServices
  }

  /** `Array.from(serviceMap.values()).slice(10)` summed: the values from
      insertion position 10 on. */
  function OthersAmount(m: ServiceMap): real
    requires ValidMap(m)
  {
    if |m.keys| > TopServices then Sum(Amounts(m)[TopServices..]) else 0.0
  }

  /** The named part of the breakdown: the map's entries sorted by amount,
      the first ten kept. */
  function Named(m: ServiceMap): (named: seq<ServiceCost>)
    requires ValidMap(m)
    ensures |named| == NamedCount(m)
    ensures forall i :: 0 <= i < |named| ==> named[i] in WithPercentages(m, Sum(Amounts(m)))
    ensures NonIncreasing(named)
  {
    var w := WithPercentages(m, Sum(Amounts(m)));
    var sorted := SortDesc(w);
    PrefixDrawnFrom(sorted, w, NamedCount(m));
    sorted[..NamedCount(m)]
  }

  /** Every entry of a prefix of a permutation of `w` is an entry of `w`. */
  lemma PrefixDrawnFrom(sorted: seq<ServiceCost>, w: seq<ServiceCost>, n: nat)
    requires multiset(sorted) == multiset(w) && n <= |sorted|
    ensures forall i :: 0 <= i < n ==> sorted[..n][i] in w
  {
    forall i | 0 <= i < n ensures sorted[..n][i] in w {
      assert sorted[..n][i] == sorted[i] && sorted[i] in multiset(sorted);
    }
  }

  /** The service breakdown: the ten largest services by amount, then an
      "Others" entry when the values at insertion positions 10 and later sum
      to more than 0. The "Others" percentage uses the same guard as the named
      entries (see `OthersPercentageAsWritten`). */
  function Breakdown(m: ServiceMap): (b: seq<ServiceCost>)
    requires ValidMap(m)
    ensures |b| == NamedCount(m) + (if OthersAmount(m) > 0.0 then 1 else 0)
    ensures |b| <= 11
    ensures |m.keys| <= 10 ==> |b| == |m.keys|
    ensures b[..NamedCount(m)] == Named(m)
    ensures OthersAmount(m) > 0.0 ==>
      b[|b| - 1] == ServiceCost(OthersName, OthersAmount(m), Percentage(OthersAmount(m), Sum(Amounts(m))))
  {
    var named := Named(m);
    var others := OthersAmount(m);
    if others > 0.0 then
      var b := named + [ServiceCost(OthersName, others, Percentage(others, Sum(Amounts(m))))];
      assert b[..|named|] == named;
      b
    else
      assert named[..|named|] == named;
      named
  }

  /** The named entries are the largest services: every service of the map is
      either named or no larger than the smallest named entry. */
  lemma NamedAreLargest(m: ServiceMap, e: ServiceCost)
    requires ValidMap(m) && |m.keys| > 0
    requires e in WithPercentages(m, Sum(Amounts(m)))
    ensures e in Breakdown(m)[..NamedCount(m)] || e.amount <= Breakdown(m)[NamedCount(m) - 1].amount
  {
    var w := WithPercentages(m, Sum(Amounts(m)));
    var sorted := SortDesc(w);
    var n := NamedCount(m);
    assert Breakdown(m)[..n] == sorted[..n];
    assert Breakdown(m)[n - 1] == sorted[n - 1];
    assert e in multiset(sorted);
    var k :| 0 <= k < |sorted| && sorted[k] == e;
    if k < n {
      assert sorted[..n][k] == e;
    }
  }

  /** Sum of the percentages of a list of entries. */
  function TotalPercentage(s: seq<ServiceCost>): real {
    if s == [] then 0.0 else s[0].percentage + TotalPercentage(s[1..])
  }

  lemma {:induction false} TotalPercentageAppend(a: seq<ServiceCost>, b: seq<ServiceCost>)
    ensures TotalPercentage(a + b) == TotalPercentage(a) + TotalPercentage(b)
    decreases |a|
  {
    if a != [] {
      assert (a + b)[1..] == a[1..] + b;
      TotalPercentageAppend(a[1..], b);
    } else {
      assert a + b == b;
    }
  }

  lemma TotalPercentageSplit(s: seq<ServiceCost>, n: nat)
    requires n <= |s|
    ensures TotalPercentage(s) == TotalPercentage(s[..n]) + TotalPercentage(s[n..])
  {
    assert s == s[..n] + s[n..];
    TotalPercentageAppend(s[..n], s[n..]);
  }

  lemma {:induction false} TotalPercentageInsert(x: ServiceCost, t: seq<ServiceCost>)
    ensures TotalPercentage(InsertDesc(x, t)) == x.percentage + TotalPercentage(t)
    decreases |t|
  {
    if t != [] && x.amount < t[0].amount {
      TotalPercentageInsert(x, t[1..]);
    }
  }

  /** Sorting does not change the sum of the percentages. */
  lemma {:induction false} TotalPercentageSorted(s: seq<ServiceCost>)
    ensures TotalPercentage(SortDesc(s)) == TotalPercentage(s)
    decreases |s|
  {
    if s != [] {
      TotalPercentageSorted(s[1..]);
      TotalPercentageInsert(s[0], SortDesc(s[1..]));
    }
  }

  /** With a positive total, a percentage is the amount scaled by
      `100 / total`. */
  lemma PercentageAsFactor(amount: real, total: real)
    requires total > 0.0
    ensures Percentage(amount, total) == amount * (100.0 / total)
  {
  }

  /** Every entry's percentage is its amount scaled by `c`. */
  predicate ScaledBy(w: seq<ServiceCost>, a: seq<real>, c: real) {
    |w| == |a| && forall i :: 0 <= i < |w| ==> w[i].percentage == a[i] * c
  }

  /** With a positive total, every service's percentage is its amount
      scaled by `100 / total`. */
  lemma PercentagesAsFactor(m: ServiceMap, total: real)
    requires ValidMap(m) && total > 0.0
    ensures ScaledBy(WithPercentages(m, total), Amounts(m), 100.0 / total)
  {
    var a := Amounts(m);
    var w := WithPercentages(m, total);
    forall i | 0 <= i < |m.keys| ensures w[i].percentage == a[i] * (100.0 / total) {
      PercentageAsFactor(a[i], total);
    }
  }

  /** Percentages that scale their amounts by `c` add up to the sum of the
      amounts scaled by `c`. */
  lemma {:induction false} TotalPercentageScaled(w: seq<ServiceCost>, a: seq<real>, c: real)
    requires ScaledBy(w, a, c)
    ensures TotalPercentage(w) == Sum(a) * c
    decreases |w|
  {
    if w != [] {
      assert ScaledBy(w[1..], a[1..], c) by {
        forall i | 0 <= i < |w| - 1 ensures w[1..][i].percentage == a[1..][i] * c {
          assert w[1..][i] == w[i + 1] && a[1..][i] == a[i + 1];
        }
      }
      TotalPercentageScaled(w[1..], a[1..], c);
      SumFirst(a);
      Distribute(a[0], Sum(a[1..]), c);
    }
  }

  /** With a positive total, the percentages of all services add up to 100. */
  lemma WithPercentagesScaled(m: ServiceMap)
    requires ValidMap(m) && Sum(Amounts(m)) > 0.0
    ensures TotalPercentage(WithPercentages(m, Sum(Amounts(m)))) == 100.0
  {
    var a := Amounts(m);
    var total := Sum(a);
    var w := WithPercentages(m, total);
    var c := 100.0 / total;
    PercentagesAsFactor(m, total);
    TotalPercentageScaled(w, a, c);
    assert total * c == 100.0;
  }

  /** With at most ten services and a positive total there is no "Others"
      entry and the percentages add up to 100. */
  lemma PercentagesSumTo100(m: ServiceMap)
    requires ValidMap(m) && |m.keys| <= 10 && Sum(Amounts(m)) > 0.0
    ensures |Breakdown(m)| == |m.keys|
    ensures TotalPercentage(Breakdown(m)) == 100.0
  {
    var w := WithPercentages(m, Sum(Amounts(m)));
    assert Breakdown(m) == Named(m) == SortDesc(w)[..|m.keys|] == SortDesc(w);
    TotalPercentageSorted(w);
    WithPercentagesScaled(m);
  }

  /** The amounts of a list of entries. */
  function AmountsOf(s: seq<ServiceCost>): (a: seq<real>)
    ensures |a| == |s|
  {
    seq(|s|, i requires 0 <= i < |s| => s[i].amount)
  }

  /** When the map's insertion order is already by non-increasing amount, the
      named entries are the first ten services, "Others" is the sum of the
      services ranked 11th and below, and with a positive total the
      percentages of the whole breakdown add up to 100. */
  lemma OthersRankedWhenSorted(m: ServiceMap)
    requires ValidMap(m) && |m.keys| > 10
    requires NonIncreasing(WithPercentages(m, Sum(Amounts(m))))
    ensures Named(m) == WithPercentages(m, Sum(Amounts(m)))[..10]
    ensures OthersAmount(m) == Sum(AmountsOf(SortDesc(WithPercentages(m, Sum(Amounts(m))))[10..]))
    ensures Sum(Amounts(m)) > 0.0 && OthersAmount(m) > 0.0 ==> TotalPercentage(Breakdown(m)) == 100.0
  {
    var a := Amounts(m);
    var total := Sum(a);
    var w := WithPercentages(m, total);
    SortDescOfSorted(w);
    assert AmountsOf(w[10..]) == a[10..];
    if total > 0.0 && OthersAmount(m) > 0.0 {
      var others := OthersAmount(m);
      var x := ServiceCost(OthersName, others, Percentage(others, total));
      assert Breakdown(m) == w[..10] + [x];
      TotalPercentageAppend(w[..10], [x]);
      assert TotalPercentage([x]) == x.percentage;
      TotalPercentageSplit(w, 10);
      WithPercentagesScaled(m);
      TailPercentage(m);
    }
  }

  /** The percentages of the entries from insertion position 10 on add up to
      the percentage of their sum. */
  lemma TailPercentage(m: ServiceMap)
    requires ValidMap(m) && |m.keys| > 10 && Sum(Amounts(m)) > 0.0
    ensures TotalPercentage(WithPercentages(m, Sum(Amounts(m)))[10..])
         == Percentage(Sum(Amounts(m)[10..]), Sum(Amounts(m)))
  {
    var total := Sum(Amounts(m));
    TailAsFactor(m, total);
    FactorIsPercentage(TotalPercentage(WithPercentages(m, total)[10..]), Sum(Amounts(m)[10..]), total);
  }

  /** The percentages from insertion position 10 on add up to the sum of
      their amounts scaled by `100 / total`. */
  lemma TailAsFactor(m: ServiceMap, total: real)
    requires ValidMap(m) && |m.keys| > 10 && total > 0.0
    ensures TotalPercentage(WithPercentages(m, total)[10..]) == Sum(Amounts(m)[10..]) * (100.0 / total)
  {
    PercentagesAsFactor(m, total);
    TailScaled(WithPercentages(m, total), Amounts(m), 100.0 / total);
  }

  /** When every percentage scales its amount by `c`, so do the percentages
      from position 10 on. */
  lemma TailScaled(w: seq<ServiceCost>, a: seq<real>, c: real)
    requires ScaledBy(w, a, c) && |w| >= 10
    ensures TotalPercentage(w[10..]) == Sum(a[10..]) * c
  {
    assert ScaledBy(w[10..], a[10..], c) by {
      forall i | 0 <= i < |w| - 10 ensures w[10..][i].percentage == a[10..][i] * c {
        assert w[10..][i] == w[10 + i] && a[10..][i] == a[10 + i];
      }
    }
    TotalPercentageScaled(w[10..], a[10..], c);
  }

  lemma FactorIsPercentage(x: real, amount: real, total: real)
    requires total > 0.0 && x == amount * (100.0 / total)
    ensures x == Percentage(amount, total)
  {
    PercentageAsFactor(amount, total);
  }

  /** As written, "Others" sums insertion positions 10 and later, not the
      services ranked 11th and below: when the eleventh service inserted is
      the largest, it is listed first by name and also makes up "Others". */
  lemma OthersDoubleCounts(m: ServiceMap)
    requires ValidMap(m) && |m.keys| == 11
    requires Amounts(m)[10] > 0.0
    requires forall i :: 0 <= i < 10 ==> Amounts(m)[i] < Amounts(m)[10]
    ensures |Breakdown(m)| == 11
    ensures Breakdown(m)[0].service == m.keys[10]
    ensures Breakdown(m)[10].service == OthersName
    ensures Breakdown(m)[10].amount == Breakdown(m)[0].amount
  {
    var a := Amounts(m);
    var w := WithPercentages(m, Sum(a));
    var sorted := SortDesc(w);
    assert forall i :: 0 <= i < |w| ==> w[i].amount == a[i];
    assert a[10..] == [a[10]];
    SumSingleton(a[10]);
    assert w[10] in multiset(sorted);
    var j :| 0 <= j < |sorted| && sorted[j] == w[10];
    assert sorted[0].amount >= w[10].amount;
    assert sorted[0] in multiset(w);
    var k :| 0 <= k < |w| && w[k] == sorted[0];
    assert w[k].amount >= a[10];
    assert k == 10;
    assert Breakdown(m)[0] == Named(m)[0] == sorted[0];
  }

  /** The "Others" percentage as the source computes it, without the guard
      the named entries have: `None` stands for the non-finite number that
      division by a zero total gives. */
  function OthersPercentageAsWritten(others: real, total: real): (p: Option<real>)
    ensures p.None? <==> total == 0.0
    ensures p.Some? ==> p.value * total == others * 100.0
    ensures total < 0.0 < others ==> p.Some? && p.value < 0.0
  {
    if total == 0.0 then None
    else
      assert total < 0.0 < others ==> others / total < 0.0;
      Some((others / total) * 100.0)
  }

  /** With credits the total can be 0 while the values from insertion
      position 10 on are positive: "Others" is then listed, and its
      percentage as written is not a finite number, where the guarded one is
      0. */
  lemma OthersPercentageDividesByZero(m: ServiceMap)
    requires ValidMap(m) && Sum(Amounts(m)) == 0.0 && OthersAmount(m) > 0.0
    ensures |Breakdown(m)| == NamedCount(m) + 1
    ensures OthersPercentageAsWritten(OthersAmount(m), Sum(Amounts(m))).None?
    ensures Breakdown(m)[|Breakdown(m)| - 1].percentage == 0.0
  {
  }

  /** With credits the total can also be negative while "Others" is
      positive: the unguarded percentage is then a negative number, where the
      guarded one is 0. */
  lemma OthersPercentageNegativeTotal(m: ServiceMap)
    requires ValidMap(m) && Sum(Amounts(m)) < 0.0 && OthersAmount(m) > 0.0
    ensures |Breakdown(m)| == NamedCount(m) + 1
    ensures var p := OthersPercentageAsWritten(OthersAmount(m), Sum(Amounts(m)));
      p.Some? && p.value < 0.0
    ensures Breakdown(m)[|Breakdown(m)| - 1].percentage == 0.0
  {
  }

  /** Such a map: a credit of 5 on the first service inserted, a charge of 5
      on the eleventh, nothing on the others. */
  function CreditMap(): ServiceMap {
    var keys := ["A", "B", "C", "D", "E", "F", "G", "H", "I", "J", "K"];
    ServiceMap(keys, map s | s in keys :: if s == "A" then -5.0 else if s == "K" then 5.0 else 0.0)
  }

  lemma CreditMapValid()
    ensures ValidMap(CreditMap())
  {
    var m := CreditMap();
    assert forall s :: s in m.totals <==> s in m.keys;
  }

  lemma CreditMapAmounts()
    ensures ValidMap(CreditMap())
    ensures Amounts(CreditMap()) == [-5.0, 0.0, 0.0, 0.0, 0.0, 0.0, 0.0, 0.0, 0.0, 0.0, 5.0]
  {
    CreditMapValid();
    var m := CreditMap();
    var a := Amounts(m);
    var e := [-5.0, 0.0, 0.0, 0.0, 0.0, 0.0, 0.0, 0.0, 0.0, 0.0, 5.0];
    forall i | 0 <= i < 11 ensures a[i] == e[i] {
      assert a[i] == m.totals[m.keys[i]];
    }
  }

  lemma CreditMapSums()
    ensures Sum([-5.0, 0.0, 0.0, 0.0, 0.0, 0.0, 0.0, 0.0, 0.0, 0.0, 5.0]) == 0.0
    ensures Sum([-5.0, 0.0, 0.0, 0.0, 0.0, 0.0, 0.0, 0.0, 0.0, 0.0, 5.0][10..]) == 5.0
  {
    var a := [-5.0, 0.0, 0.0, 0.0, 0.0, 0.0, 0.0, 0.0, 0.0, 0.0, 5.0];
    assert a[..1][..0] == a[..0];
    assert Sum(a[..1]) == -5.0;
    assert a[..2][..1] == a[..1];
    assert Sum(a[..2]) == -5.0;
    assert a[..3][..2] == a[..2];
    assert Sum(a[..3]) == -5.0;
    assert a[..4][..3] == a[..3];
    assert Sum(a[..4]) == -5.0;
    assert a[..5][..4] == a[..4];
    assert Sum(a[..5]) == -5.0;
    assert a[..6][..5] == a[..5];
    assert Sum(a[..6]) == -5.0;
    assert a[..7][..6] == a[..6];
    assert Sum(a[..7]) == -5.0;
    assert a[..8][..7] == a[..7];
    assert Sum(a[..8]) == -5.0;
    assert a[..9][..8] == a[..8];
    assert Sum(a[..9]) == -5.0;
    assert a[..10][..9] == a[..9];
    assert Sum(a[..10]) == -5.0;
    assert a[..11][..10] == a[..10];
    assert Sum(a[..11]) == 0.0;
    assert a[..11] == a;
    assert a[10..] == [5.0];
    SumSingleton(5.0);
  }

  /** The total is 0, "Others" is 5, and the unguarded percentage divides by
      zero. */
  lemma CreditExample()
    ensures ValidMap(CreditMap())
    ensures Sum(Amounts(CreditMap())) == 0.0 && OthersAmount(CreditMap()) == 5.0
    ensures OthersPercentageAsWritten(OthersAmount(CreditMap()), Sum(Amounts(CreditMap()))).None?
    ensures Breakdown(CreditMap())[10] == ServiceCost(OthersName, 5.0, 0.0)
  {
    CreditMapAmounts();
    CreditMapSums();
  }

  // ---------------------------------------------------------------------
  // getCostAndUsage

  /** What a successful cost query reduces to: the monthly entries, the
      breakdown of the service map, its total and the first month's currency. */
  function CostReport(results: seq<ResultByTime>): (r: CostExplorerResponse)
    ensures |r.monthlyCosts| == |results|
    ensures forall k :: 0 <= k < |results| ==> r.monthlyCosts[k] == ToMonthlyCost(results[k])
    ensures r.totalCost == Sum(GroupCosts(AllGroups(results)))
    ensures r.currency == if |results| > 0 then OrElse(results[0].totalUnit, "USD") else "USD"
    ensures r.serviceBreakdown == Breakdown(Accumulate(AllGroups(results)))
  {
    var monthly := MonthlyCostsOf(results);
    var m := Accumulate(AllGroups(results));
    AccumulateSum(AllGroups(results));
    CostExplorerResponse(monthly, Breakdown(m), Sum(Amounts(m)),
      if |monthly| > 0 && monthly[0].currency != "" then monthly[0].currency else "USD")
  }

  /** The requested period of a cost query: the given dates, or one year ago
      up to today. */
  function CostWindow(startDate: Option<string>, endDate: Option<string>, today: string, yearAgo: string): TimePeriod {
    TimePeriod(OrElse(startDate, yearAgo), OrElse(endDate, today))
  }

  /** `getCostAndUsage`: `query` is the outcome of the `GetCostAndUsage` call
      for a period (its `ResultsByTime`, absent being the empty list); `today`
      and `yearAgo` are the clock's dates. A failed call becomes an error
      prefixed "Failed to fetch cost data: ". */
  method GetCostAndUsage(startDate: Option<string>, endDate: Option<string>, today: string, yearAgo: string,
                         query: TimePeriod -> Settled<seq<ResultByTime>>)
    returns (r: Result<CostExplorerResponse, string>)
    ensures var outcome := query(CostWindow(startDate, endDate, today, yearAgo));
      && (outcome.Fulfilled? ==> r == Success(CostReport(outcome.value)))
      && (outcome.Rejected? ==> r == Failure(CostErrorPrefix + MessageOf(outcome.reason)))
  {
    var window := CostWindow(startDate, endDate, today, yearAgo);
    var outcome := query(window);
    match outcome {
      case Rejected(e) =>
        r := Failure(CostErrorPrefix + MessageOf(e));
      case Fulfilled(results) =>
        var monthlyCosts, serviceMap := AccumulateBuckets(results);
        var totalCost := Sum(Amounts(serviceMap));
        var serviceBreakdown := Breakdown(serviceMap);
        var currency := if |monthlyCosts| > 0 && monthlyCosts[0].currency != "" then monthlyCosts[0].currency else "USD";
        r := Success(CostExplorerResponse(monthlyCosts, serviceBreakdown, totalCost, currency));
    }
  }

  // ---------------------------------------------------------------------
  // getCostForecast

  function ToForecastData(f: ForecastResult): ForecastData {
    ForecastData(OrElse(f.start, ""), OrElse(f.meanValue, "0"))
  }

  /** The requested period of a forecast: the given dates, or today up to 90
      days ahead. */
  function ForecastWindow(startDate: Option<string>, endDate: Option<string>, today: string, in90Days: string): TimePeriod {
    TimePeriod(OrElse(startDate, today), OrElse(endDate, in90Days))
  }

  /** The actual costs are queried for the forecast's own period, whenever the
      clock's dates are non-empty. */
  lemma ForecastAndActualShareWindow(startDate: Option<string>, endDate: Option<string>, today: string, in90Days: string, yearAgo: string)
    requires today != "" && in90Days != ""
    ensures var w := ForecastWindow(startDate, endDate, today, in90Days);
      CostWindow(Some(w.start), Some(w.end), today, yearAgo) == w
  {
  }

  /** `getCostForecast`: one forecast point per forecast result, in order, and
      the monthly costs of a cost query over the same period. Either failure
      becomes an error prefixed "Failed to fetch forecast: "; a failed cost
      query carries its own prefix inside. */
  method GetCostForecast(startDate: Option<string>, endDate: Option<string>, today: string, in90Days: string, yearAgo: string,
                         forecastQuery: TimePeriod -> Settled<seq<ForecastResult>>,
                         costQuery: TimePeriod -> Settled<seq<ResultByTime>>)
    returns (r: Result<ForecastResponse, string>)
    ensures var w := ForecastWindow(startDate, endDate, today, in90Days);
      var fo := forecastQuery(w);
      var co := costQuery(CostWindow(Some(w.start), Some(w.end), today, yearAgo));
      && (r.Success? <==> fo.Fulfilled? && co.Fulfilled?)
      && (fo.Rejected? ==> r == Failure(ForecastErrorPrefix + MessageOf(fo.reason)))
      && (fo.Fulfilled? && co.Rejected? ==>
            r == Failure(ForecastErrorPrefix + (CostErrorPrefix + MessageOf(co.reason))))
      && (r.Success? ==>
            && |r.value.forecast| == |fo.value|
            && (forall k :: 0 <= k < |fo.value| ==> r.value.forecast[k] == ToForecastData(fo.value[k]))
            && r.value.actual == CostReport(co.value).monthlyCosts)
  {
    var w := ForecastWindow(startDate, endDate, today, in90Days);
    var outcome := forecastQuery(w);
    if outcome.Rejected? {
      return Failure(ForecastErrorPrefix + MessageOf(outcome.reason));
    }
    var results := outcome.value;
    var forecast: seq<ForecastData> := [];
    var i := 0;
    while i < |results|
      invariant 0 <= i <= |results|
      invariant |forecast| == i
      invariant forall k :: 0 <= k < i ==> forecast[k] == ToForecastData(results[k])
    {
      forecast := forecast + [ToForecastData(results[i])];
      i := i + 1;
    }
    var actual := GetCostAndUsage(Some(w.start), Some(w.end), today, yearAgo, costQuery);
    match actual {
      case Failure(message) =>
        r := Failure(ForecastErrorPrefix + message);
      case Success(report) =>
        r := Success(ForecastResponse(forecast, report.monthlyCosts));
    }
  }

  // ---------------------------------------------------------------------
  // getRightsizingRecommendations

  function CurrentCost(rec: RightsizingRec): real {
    if rec.current.Some? then rec.current.value.monthlyCost.GetOr(0.0) else 0.0
  }

  /** The first target's cost; with no target, the current cost. */
  function TargetCost(rec: RightsizingRec): real {
    if |rec.targets| > 0 then rec.targets[0].monthlyCost.GetOr(0.0) else CurrentCost(rec)
  }

  /** Monthly savings of a recommendation; none without a target instance. */
  function Savings(rec: RightsizingRec): (s: real)
    ensures |rec.targets| == 0 ==> s == 0.0
    ensures s + TargetCost(rec) == CurrentCost(rec)
  {
    CurrentCost(rec) - TargetCost(rec)
  }

  /** High above 100, medium above 50, low otherwise. */
  function PriorityOf(savings: real): (p: Priority)
    ensures p == High <==> savings > 100.0
    ensures p == Medium <==> 50.0 < savings <= 100.0
    ensures p == Low <==> savings <= 50.0
  {
    if savings > 100.0 then High else if savings > 50.0 then Medium else Low
  }

  /** The recommendation record of a kept provider entry; `nowMs` is the
      clock reading used for an id when the account id is missing. */
  function ToRecommendation(rec: RightsizingRec, nowMs: int): (r: Recommendation)
    ensures r.potentialSavings == Savings(rec) && r.priority == PriorityOf(Savings(rec))
    ensures r.recType == Rightsizing && r.service == "EC2"
    ensures rec.accountId.Some? && rec.accountId.value != "" ==> r.id == rec.accountId.value
    ensures (rec.accountId.None? || rec.accountId.value == "") ==> r.id == "rec-" + IntToString(nowMs)
    ensures r.resourceId == if rec.current.Some? then rec.current.value.instanceName else None
    ensures "Rightsize " <= r.title && "Consider downsizing from " <= r.description
  {
    var name := if rec.current.Some? then rec.current.value.instanceName else None;
    var currentType := if rec.current.Some? then rec.current.value.instanceType else None;
    var targetType := if |rec.targets| > 0 then rec.targets[0].instanceType else None;
    Recommendation(
      OrElse(rec.accountId, "rec-" + IntToString(nowMs)),
      Rightsizing,
      "Rightsize " + OrElse(name, "Instance"),
      "Consider downsizing from " + Render(currentType) + " to " + OrElse(targetType, "smaller instance"),
      Savings(rec),
      "EC2",
      name,
      PriorityOf(Savings(rec)))
  }

  /** The provider entries with positive savings, converted, in order. */
  function Kept(recs: seq<RightsizingRec>, nowMs: int): (k: seq<Recommendation>)
    ensures |k| <= |recs|
    ensures forall i :: 0 <= i < |k| ==>
      && k[i].potentialSavings > 0.0
      && k[i].priority == PriorityOf(k[i].potentialSavings)
      && k[i].recType == Rightsizing && k[i].service == "EC2"
  {
    if recs == [] then []
    else
      var rec := recs[|recs| - 1];
      Kept(recs[..|recs| - 1], nowMs) + (if Savings(rec) > 0.0 then [ToRecommendation(rec, nowMs)] else [])
  }

  /** An entry is kept exactly when its savings are positive; one without a
      target instance never is. */
  lemma KeptStep(recs: seq<RightsizingRec>, rec: RightsizingRec, nowMs: int)
    ensures Savings(rec) > 0.0 ==> Kept(recs + [rec], nowMs) == Kept(recs, nowMs) + [ToRecommendation(rec, nowMs)]
    ensures Savings(rec) <= 0.0 ==> Kept(recs + [rec], nowMs) == Kept(recs, nowMs)
    ensures |rec.targets| == 0 ==> Kept(recs + [rec], nowMs) == Kept(recs, nowMs)
  {
    assert (recs + [rec])[..|recs|] == recs;
  }

  lemma KeptPrefixStep(recs: seq<RightsizingRec>, i: nat, nowMs: int)
    requires i < |recs|
    ensures Kept(recs[..i + 1], nowMs)
         == Kept(recs[..i], nowMs) + (if Savings(recs[i]) > 0.0 then [ToRecommendation(recs[i], nowMs)] else [])
  {
    assert recs[..i + 1][..i] == recs[..i];
  }

  function SavingsOf(k: seq<Recommendation>): (a: seq<real>)
    ensures |a| == |k|
  {
    seq(|k|, i requires 0 <= i < |k| => k[i].potentialSavings)
  }

  /** Every kept entry saves something, so their total is never negative. */
  lemma KeptTotalNonNegative(recs: seq<RightsizingRec>, nowMs: int)
    ensures Sum(SavingsOf(Kept(recs, nowMs))) >= 0.0
  {
    var a := SavingsOf(Kept(recs, nowMs));
    assert forall i :: 0 <= i < |a| ==> a[i] >= 0.0;
    SumNonNegative(a);
  }

  /** `getRightsizingRecommendations`: the kept entries and the sum of their
      savings, which is never negative; any provider failure gives an empty
      list and a total of 0. */
  method GetRightsizingRecommendations(outcome: Settled<seq<RightsizingRec>>, nowMs: int) returns (r: RecommendationsResponse)
    ensures outcome.Rejected? ==> r == RecommendationsResponse([], 0.0)
    ensures outcome.Fulfilled? ==> r.recommendations == Kept(outcome.value, nowMs)
    ensures r.totalPotentialSavings == Sum(SavingsOf(r.recommendations))
    ensures r.totalPotentialSavings >= 0.0
  {
    if outcome.Rejected? {
      assert SavingsOf([]) == [];
      return RecommendationsResponse([], 0.0);
    }
    var recs := outcome.value;
    var recommendations: seq<Recommendation> := [];
    var i := 0;
    while i < |recs|
      invariant 0 <= i <= |recs|
      invariant recommendations == Kept(recs[..i], nowMs)
    {
      var rec := recs[i];
      KeptPrefixStep(recs, i, nowMs);
      if Savings(rec) > 0.0 {
        recommendations := recommendations + [ToRecommendation(rec, nowMs)];
      }
      i := i + 1;
    }
    assert recs[..i] == recs;
    var total := Sum(SavingsOf(recommendations));
    KeptTotalNonNegative(recs, nowMs);
    r := RecommendationsResponse(recommendations, total);
  }
}
