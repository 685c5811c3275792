/** The read-only bundling analyses of processing/order_bundler.py over an
    order and the catalog: MOQ bundles with a redistribution plan, category
    bundles, bulk-tier suggestions, and a summary. A category is the first
    three characters of a SKU. */
module OrderBundler {
  import opened Wrappers
  import opened Text
  import opened OrderedMaps
  import opened Models
  import opened CatalogCsv

  /** An item below its product's MOQ, with the shortfall MOQ - quantity. */
  datatype Violation = Violation(sku: string, quantity: int, product: Product, shortfall: int)

  /** Why a redistribution entry suggests its quantity. */
  datatype Reason = HighestMoq | RemainingShare {
    function Text(): string {
      match this
      case HighestMoq => "Prioritize meeting highest MOQ requirement"
      case RemainingShare => "Distribute remaining quantity efficiently"
    }
  }

  datatype Redistribution = Redistribution(sku: string, current: int, suggested: int, reason: Reason)

  /** A `moq_bundle` record; its fixed benefit line is `Benefit()`. */
  datatype MoqBundle = MoqBundle(
    category: string,
    items: seq<string>,
    currentTotal: int,
    suggestedRedistribution: seq<Redistribution>)
  {
    function Benefit(): string { "Meet MOQ requirements by redistributing quantities" }
  }

  /** A `category_bundle` record; its name, suggestion and benefit lines are
      derived from its category and items. */
  datatype CategoryBundle = CategoryBundle(
    category: string,
    items: seq<string>,
    totalQuantity: int)
  {
    function Name(): string { CategoryName(category) }
    function Suggestion(): string {
      "You're ordering " + NatToString(|items|) + " different " + Name() + " items"
    }
    function Benefit(): string { "Potential bulk discounts and shipping efficiency" }
  }

  /** A `bulk_optimization` record; its fixed benefit line is `Benefit()`. */
  datatype BulkOptimization = BulkOptimization(
    sku: string,
    currentQuantity: int,
    suggestedQuantity: int,
    additionalUnits: int)
  {
    function Benefit(): string { "Better bulk pricing and reduced ordering frequency" }
  }

  datatype Summary = Summary(
    totalItems: nat,
    invalidItems: nat,
    categoriesRepresented: nat,
    bundlingPotential: string)

  datatype BundleReport = BundleReport(
    moqBundles: seq<MoqBundle>,
    categoryBundles: seq<CategoryBundle>,
    bulkDiscounts: seq<BulkOptimization>,
    summary: Summary)

  function Min(a: int, b: int): int { if a <= b then a else b }
  function Max(a: int, b: int): int { if a >= b then a else b }

  /** `sku[:3]`. */
  function Category(sku: string): string { Take(sku, 3) }

  function ItemCategory(item: OrderItem): string { Category(item.sku) }

  function ViolationCategory(v: Violation): string { Category(v.sku) }

  function ItemSku(item: OrderItem): string { item.sku }

  function ViolationSku(v: Violation): string { v.sku }

  function ItemQuantity(item: OrderItem): int { item.quantity }

  function ViolationQuantity(v: Violation): int { v.quantity }

  /** `sum(amount(x) for x in xs)`. */
  function Sum<T>(xs: seq<T>, amount: T -> int): int {
    if xs == [] then 0 else amount(xs[0]) + Sum(xs[1..], amount)
  }

  // ---------------------------------------------------------------------
  // MOQ violations

  /** The violation record of one item: for a catalog SKU whose quantity is
      below the product's MOQ; none for an unknown SKU. */
  function MoqViolation(item: OrderItem, catalog: SkuMap): Option<Violation> {
    if item.sku in catalog.values && item.quantity < catalog.values[item.sku].moq
    then Some(Violation(item.sku, item.quantity, catalog.values[item.sku],
                        catalog.values[item.sku].moq - item.quantity))
    else None
  }

  function ViolationOf(catalog: SkuMap): OrderItem -> Option<Violation> {
    (item: OrderItem) => MoqViolation(item, catalog)
  }

  /** The violation records of the items, in item order. */
  function MoqViolations(items: seq<OrderItem>, catalog: SkuMap): (vs: seq<Violation>)
    ensures |vs| <= |items|
  {
    Gather(items, ViolationOf(catalog))
  }

  /** Every record is the violation of one item: a catalog SKU below its MOQ,
      with that product and shortfall MOQ - quantity > 0. The item is the one
      whose predecessors give exactly the records before it, so no item has
      two records. */
  lemma MoqViolationsSound(items: seq<OrderItem>, catalog: SkuMap, j: nat)
    requires j < |MoqViolations(items, catalog)|
    ensures var v := MoqViolations(items, catalog)[j];
      && v.sku in catalog.values
      && v.product == catalog.values[v.sku]
      && v.quantity < v.product.moq
      && v.shortfall == v.product.moq - v.quantity > 0
    ensures exists i ::
      && 0 <= i < |items|
      && |MoqViolations(items[..i], catalog)| == j
      && MoqViolation(items[i], catalog) == Some(MoqViolations(items, catalog)[j])
  {
    GatherFrom(items, ViolationOf(catalog), j);
    var i :| 0 <= i < |items| && |MoqViolations(items[..i], catalog)| == j
      && ViolationOf(catalog)(items[i]) == Some(MoqViolations(items, catalog)[j]);
    assert ViolationOf(catalog)(items[i]) == MoqViolation(items[i], catalog);
  }

  /** No violating item is left out: every item in the catalog and below its
      MOQ has its violation record, right after those of the items before it. */
  lemma MoqViolationsComplete(items: seq<OrderItem>, catalog: SkuMap, i: nat)
    requires i < |items| && items[i].sku in catalog.values
    requires items[i].quantity < catalog.values[items[i].sku].moq
    ensures var vs, before := MoqViolations(items, catalog), MoqViolations(items[..i], catalog);
      && |before| < |vs|
      && vs[|before|] == Violation(items[i].sku, items[i].quantity, catalog.values[items[i].sku],
                                   catalog.values[items[i].sku].moq - items[i].quantity)
  {
    assert ViolationOf(catalog)(items[i]) == MoqViolation(items[i], catalog);
    GatherAt(items, ViolationOf(catalog), i);
  }

  /** The records of the first n items are a prefix of all the records. */
  lemma MoqViolationsPrefix(items: seq<OrderItem>, catalog: SkuMap, n: nat)
    requires n <= |items|
    ensures MoqViolations(items[..n], catalog) <= MoqViolations(items, catalog)
  {
    GatherPrefix(items, ViolationOf(catalog), n);
  }

  /** `max(v["product"]["moq"] for v in violations)`. */
  function MaxMoq(vs: seq<Violation>): (m: int)
    requires |vs| > 0
    ensures forall j :: 0 <= j < |vs| ==> vs[j].product.moq <= m
    ensures exists j :: 0 <= j < |vs| && vs[j].product.moq == m
  {
    if |vs| == 1 then vs[0].product.moq else Max(vs[0].product.moq, MaxMoq(vs[1..]))
  }

  // ---------------------------------------------------------------------
  // The stable descending sort by MOQ and the redistribution plan

  ghost predicate SortedByMoqDesc(s: seq<Violation>) {
    forall i, j :: 0 <= i < j < |s| ==> s[i].product.moq >= s[j].product.moq
  }

  /** Places v before the first element whose MOQ is not above v's, so that v
      precedes the equal-MOQ elements that came after it in the input. */
  function InsertByMoq(v: Violation, s: seq<Violation>): (r: seq<Violation>)
    ensures |r| == |s| + 1
    ensures r[0] == if s == [] || s[0].product.moq <= v.product.moq then v else s[0]
  {
    if s == [] then [v]
    else if s[0].product.moq <= v.product.moq then [v] + s
    else [s[0]] + InsertByMoq(v, s[1..])
  }

  lemma {:induction false} InsertByMoqSorted(v: Violation, s: seq<Violation>)
    requires SortedByMoqDesc(s)
    ensures SortedByMoqDesc(InsertByMoq(v, s))
  {
    if s != [] && s[0].product.moq > v.product.moq {
      InsertByMoqSorted(v, s[1..]);
      InsertByMoqPermutes(v, s[1..]);
      var r := InsertByMoq(v, s);
      forall i, j | 0 <= i < j < |r| ensures r[i].product.moq >= r[j].product.moq {
        if i == 0 {
          assert r[j] in multiset(InsertByMoq(v, s[1..]));
          assert r[j] == v || r[j] in multiset(s[1..]);
        }
      }
    }
  }

  lemma {:induction false} InsertByMoqPermutes(v: Violation, s: seq<Violation>)
    ensures multiset(InsertByMoq(v, s)) == multiset(s) + multiset{v}
  {
    if s != [] && s[0].product.moq > v.product.moq {
      InsertByMoqPermutes(v, s[1..]);
      assert s == [s[0]] + s[1..];
    }
  }

  /** `sorted(violations, key=moq, reverse=True)`: a stable sort, largest MOQ first. */
  function SortByMoqDesc(vs: seq<Violation>): (s: seq<Violation>)
    ensures |s| == |vs|
  {
    if vs == [] then [] else InsertByMoq(vs[0], SortByMoqDesc(vs[1..]))
  }

  /** The sort orders by descending MOQ ... */
  lemma {:induction false} SortByMoqDescSorted(vs: seq<Violation>)
    ensures SortedByMoqDesc(SortByMoqDesc(vs))
  {
    if vs != [] {
      SortByMoqDescSorted(vs[1..]);
      InsertByMoqSorted(vs[0], SortByMoqDesc(vs[1..]));
    }
  }

  /** ... and is a permutation of its input. */
  lemma {:induction false} SortByMoqDescPermutes(vs: seq<Violation>)
    ensures multiset(SortByMoqDesc(vs)) == multiset(vs)
  {
    if vs != [] {
      SortByMoqDescPermutes(vs[1..]);
      InsertByMoqPermutes(vs[0], SortByMoqDesc(vs[1..]));
      assert vs == [vs[0]] + vs[1..];
    }
  }

  /** The violations with MOQ m, in their order in s. */
  function WithMoq(s: seq<Violation>, m: int): (r: seq<Violation>)
    ensures |r| <= |s|
  {
    if s == [] then []
    else (if s[0].product.moq == m then [s[0]] else []) + WithMoq(s[1..], m)
  }

  /** Inserting v puts it before every element with v's MOQ. */
  lemma {:induction false} InsertByMoqWithMoq(v: Violation, s: seq<Violation>, m: int)
    ensures WithMoq(InsertByMoq(v, s), m) == (if v.product.moq == m then [v] else []) + WithMoq(s, m)
  {
    if s != [] && s[0].product.moq > v.product.moq {
      InsertByMoqWithMoq(v, s[1..], m);
      assert InsertByMoq(v, s)[1..] == InsertByMoq(v, s[1..]);
    } else if s != [] {
      assert ([v] + s)[1..] == s;
    }
  }

  /** ... and is stable: the violations with any one MOQ keep their input order. */
  lemma {:induction false} SortByMoqDescStable(vs: seq<Violation>, m: int)
    ensures WithMoq(SortByMoqDesc(vs), m) == WithMoq(vs, m)
  {
    if vs != [] {
      SortByMoqDescStable(vs[1..], m);
      InsertByMoqWithMoq(vs[0], SortByMoqDesc(vs[1..]), m);
    }
  }

  /** The position of the first violation with the largest MOQ. */
  function FirstMaxIndex(vs: seq<Violation>): (i: nat)
    requires |vs| > 0
    ensures i < |vs| && vs[i].product.moq == MaxMoq(vs)
    ensures forall j :: 0 <= j < i ==> vs[j].product.moq < MaxMoq(vs)
  {
    if vs[0].product.moq == MaxMoq(vs) then 0
    else
      assert MaxMoq(vs) == MaxMoq(vs[1..]);
      1 + FirstMaxIndex(vs[1..])
  }

  /** The sort puts first the violation with the largest MOQ, the earliest one on a tie. */
  lemma {:induction false} SortHeadIsFirstMax(vs: seq<Violation>)
    requires |vs| > 0
    ensures SortByMoqDesc(vs)[0] == vs[FirstMaxIndex(vs)]
  {
    if |vs| > 1 {
      var rest := vs[1..];
      SortHeadIsFirstMax(rest);
      SortByMoqDescPermutes(rest);
      var s := SortByMoqDesc(rest);
      assert s[0] in multiset(rest);
      assert s[0].product.moq == MaxMoq(rest) by {
        var k :| 0 <= k < |rest| && rest[k].product.moq == MaxMoq(rest);
        assert rest[k] in multiset(s);
      }
    }
  }

  /** `max(1, remaining // n)`: the even share of the remainder, at least one. */
  function EvenShare(remaining: int, n: int): (share: int)
    requires n > 0
    ensures share >= 1
  {
    Max(1, remaining / n)
  }

  /** The entries for the non-primary violations: each gets the even share of
      the remainder, capped at its own stock. */
  function SpreadEntries(others: seq<Violation>, perItem: int): (r: seq<Redistribution>)
    ensures |r| == |others|
    ensures forall k :: 0 <= k < |others| ==>
      r[k] == Redistribution(others[k].sku, others[k].quantity, Min(perItem, others[k].product.stock), RemainingShare)
  {
    seq(|others|, k requires 0 <= k < |others| =>
      Redistribution(others[k].sku, others[k].quantity, Min(perItem, others[k].product.stock), RemainingShare))
  }

  /** The entries after the primary one: nothing when no quantity remains,
      otherwise one per remaining violation. */
  function Spread(others: seq<Violation>, remaining: int): (r: seq<Redistribution>)
    ensures |r| == if |others| > 0 && remaining > 0 then |others| else 0
  {
    if |others| > 0 && remaining > 0 then SpreadEntries(others, EvenShare(remaining, |others|)) else []
  }

  /** The plan for violations already sorted by descending MOQ, given their total quantity. */
  function PlanFromSorted(sorted: seq<Violation>, total: int): seq<Redistribution>
    requires |sorted| > 0
  {
    var primary := sorted[0];
    if total < primary.product.moq then []
    else
      [Redistribution(primary.sku, primary.quantity, primary.product.moq, HighestMoq)]
        + Spread(sorted[1..], total - primary.product.moq)
  }

  /** The entries of a plan built from a sorted list, one by one. */
  lemma PlanFromSortedEntries(sorted: seq<Violation>, total: int)
    requires |sorted| > 0 && total >= sorted[0].product.moq
    ensures var r, remaining := PlanFromSorted(sorted, total), total - sorted[0].product.moq;
      && |r| == (if remaining > 0 && |sorted| > 1 then |sorted| else 1)
      && r[0] == Redistribution(sorted[0].sku, sorted[0].quantity, sorted[0].product.moq, HighestMoq)
      && forall k :: 1 <= k < |r| ==>
           r[k] == Redistribution(sorted[k].sku, sorted[k].quantity,
                                  Min(EvenShare(remaining, |sorted| - 1), sorted[k].product.stock), RemainingShare)
  {
    var remaining := total - sorted[0].product.moq;
    var head := [Redistribution(sorted[0].sku, sorted[0].quantity, sorted[0].product.moq, HighestMoq)];
    var tail := Spread(sorted[1..], remaining);
    assert PlanFromSorted(sorted, total) == head + tail;
    forall k | 1 <= k < |head + tail|
      ensures (head + tail)[k] == Redistribution(sorted[k].sku, sorted[k].quantity,
                              Min(EvenShare(remaining, |sorted| - 1), sorted[k].product.stock), RemainingShare)
    {
      assert (head + tail)[k] == tail[k - 1];
      assert sorted[1..][k - 1] == sorted[k];
    }
  }

  /** What `_suggest_redistribution` returns for one category's violations. */
  function RedistributionPlan(vs: seq<Violation>): seq<Redistribution> {
    if |vs| == 0 then [] else PlanFromSorted(SortByMoqDesc(vs), Sum(vs, ViolationQuantity))
  }

  /** The plan is empty unless the quantities cover the largest MOQ. Its first
      entry raises the first violation with the largest MOQ to exactly that
      MOQ, whatever the stock. When nothing remains beyond that MOQ it is the
      only entry; otherwise every other violation follows, in sorted order,
      with the share max(1, remaining div (n - 1)) capped at its stock. */
  lemma RedistributionPlanShape(vs: seq<Violation>)
    ensures |vs| == 0 || Sum(vs, ViolationQuantity) < MaxMoq(vs) ==> RedistributionPlan(vs) == []
    ensures |vs| > 0 && Sum(vs, ViolationQuantity) >= MaxMoq(vs) ==>
      var r, top, remaining := RedistributionPlan(vs), vs[FirstMaxIndex(vs)], Sum(vs, ViolationQuantity) - MaxMoq(vs);
      var sorted := SortByMoqDesc(vs);
      && |r| == (if remaining > 0 && |vs| > 1 then |vs| else 1)
      && r[0] == Redistribution(top.sku, top.quantity, MaxMoq(vs), HighestMoq)
      && forall k :: 1 <= k < |r| ==>
           r[k] == Redistribution(sorted[k].sku, sorted[k].quantity,
                                  Min(EvenShare(remaining, |vs| - 1), sorted[k].product.stock), RemainingShare)
  {
    if |vs| > 0 {
      SortHeadIsFirstMax(vs);
      if Sum(vs, ViolationQuantity) >= MaxMoq(vs) {
        PlanFromSortedEntries(SortByMoqDesc(vs), Sum(vs, ViolationQuantity));
      }
    }
  }

  /** `_suggest_redistribution`: the plan, built entry by entry. An empty list
      of violations yields an empty plan (the source's caught IndexError). */
  method SuggestRedistribution(violations: seq<Violation>) returns (r: seq<Redistribution>)
    ensures r == RedistributionPlan(violations)
  {
    r := [];
    if |violations| == 0 {
      return;
    }
    var sorted := SortByMoqDesc(violations);
    var primary := sorted[0];
    var totalAvailable := Sum(violations, ViolationQuantity);
    var primaryMoq := primary.product.moq;
    if totalAvailable >= primaryMoq {
      var remaining := totalAvailable - primaryMoq;
      r := [Redistribution(primary.sku, primary.quantity, primaryMoq, HighestMoq)];
      var others := sorted[1..];
      if |others| > 0 && remaining > 0 {
        var perItem := EvenShare(remaining, |others|);
        ghost var first := r;
        for k := 0 to |others|
          invariant r == first + SpreadEntries(others[..k], perItem)
        {
          var v := others[k];
          assert others[..k + 1] == others[..k] + [v];
          r := r + [Redistribution(v.sku, v.quantity, Min(perItem, v.product.stock), RemainingShare)];
        }
        assert others[..|others|] == others;
      }
    }
  }

  // ---------------------------------------------------------------------
  // MOQ bundles

  /** The record for one category's violations: only for two or more
      violations whose quantities together reach the largest of their MOQs. */
  function MoqBundleFor(category: string, group: seq<Violation>): (b: Option<MoqBundle>)
    ensures b.Some? <==> |group| > 1 && Sum(group, ViolationQuantity) >= MaxMoq(group)
    ensures b.Some? ==>
      && b.value.category == category
      && b.value.items == KeysOf(group, ViolationSku)
      && b.value.currentTotal == Sum(group, ViolationQuantity) >= MaxMoq(group)
      && b.value.suggestedRedistribution == RedistributionPlan(group)
  {
    if |group| > 1 && Sum(group, ViolationQuantity) >= MaxMoq(group) then
      Some(MoqBundle(category, KeysOf(group, ViolationSku), Sum(group, ViolationQuantity), RedistributionPlan(group)))
    else None
  }

  /** The categories of the violations, in first-occurrence order: the keys
      of `category_groups`. */
  function ViolationCategories(vs: seq<Violation>): seq<string> {
    Dedup(KeysOf(vs, ViolationCategory))
  }

  /** What `_suggest_moq_bundles` returns. */
  function MoqBundles(items: seq<OrderItem>, catalog: SkuMap): seq<MoqBundle> {
    var vs := MoqViolations(items, catalog);
    Collect(vs, ViolationCategory, ViolationCategories(vs), MoqBundleFor)
  }

  /** A category has a bundle exactly when it has two or more violations whose
      quantities reach their largest MOQ: the record built from that
      category's violations in order (`MoqBundlesOrder` adds that there is
      only one). */
  lemma MoqBundlesExact(items: seq<OrderItem>, catalog: SkuMap, category: string)
    ensures var vs := MoqViolations(items, catalog);
      var g := GroupOf(vs, ViolationCategory, category);
      && (forall b :: b in MoqBundles(items, catalog) && b.category == category ==> MoqBundleFor(category, g) == Some(b))
      && (|g| > 1 && Sum(g, ViolationQuantity) >= MaxMoq(g) ==> MoqBundleFor(category, g).value in MoqBundles(items, catalog))
  {
    var vs := MoqViolations(items, catalog);
    var cats := ViolationCategories(vs);
    var g := GroupOf(vs, ViolationCategory, category);
    forall b | b in MoqBundles(items, catalog) && b.category == category
      ensures MoqBundleFor(category, g) == Some(b)
    {
      CollectSound(vs, ViolationCategory, cats, MoqBundleFor, b);
    }
    if |g| > 1 {
      GroupOfEmpty(vs, ViolationCategory, category);
      var i :| 0 <= i < |cats| && cats[i] == category;
      if Sum(g, ViolationQuantity) >= MaxMoq(g) {
        CollectComplete(vs, ViolationCategory, cats, MoqBundleFor, i);
      }
    }
  }

  /** The bundles follow the first-occurrence order of their categories
      among the violations, so no category has two bundles. */
  lemma MoqBundlesOrder(items: seq<OrderItem>, catalog: SkuMap, j1: nat, j2: nat)
    requires j1 < j2 < |MoqBundles(items, catalog)|
    ensures var r, cats := MoqBundles(items, catalog), ViolationCategories(MoqViolations(items, catalog));
      exists i1, i2 ::
        && 0 <= i1 < i2 < |cats|
        && r[j1].category == cats[i1]
        && r[j2].category == cats[i2]
    ensures MoqBundles(items, catalog)[j1].category != MoqBundles(items, catalog)[j2].category
  {
    var vs := MoqViolations(items, catalog);
    var r, cats := MoqBundles(items, catalog), ViolationCategories(vs);
    CollectOrder(vs, ViolationCategory, cats, MoqBundleFor, j1, j2);
    var i1, i2 :|
      && 0 <= i1 < i2 < |cats|
      && MoqBundleFor(cats[i1], GroupOf(vs, ViolationCategory, cats[i1])) == Some(r[j1])
      && MoqBundleFor(cats[i2], GroupOf(vs, ViolationCategory, cats[i2])) == Some(r[j2]);
  }

  /** The first loop of `_suggest_moq_bundles`: the violation records, in item order. */
  method FindMoqViolations(items: seq<OrderItem>, catalog: SkuMap) returns (violations: seq<Violation>)
    ensures violations == MoqViolations(items, catalog)
  {
    violations := [];
    for i := 0 to |items|
      invariant violations == MoqViolations(items[..i], catalog)
    {
      var item := items[i];
      GatherSnoc(items, ViolationOf(catalog), i);
      assert ViolationOf(catalog)(item) == MoqViolation(item, catalog);
      var product := GetProductDetails(catalog, item.sku);
      if product.Some? && item.quantity < product.value.moq {
        violations := violations + [Violation(item.sku, item.quantity, product.value, product.value.moq - item.quantity)];
      }
    }
    assert items[..|items|] == items;
  }

  /** `_suggest_moq_bundles`: collect the violations, group them by category,
      and emit a bundle with its redistribution plan per qualifying group. */
  method SuggestMoqBundles(items: seq<OrderItem>, catalog: SkuMap) returns (r: seq<MoqBundle>)
    ensures r == MoqBundles(items, catalog)
  {
    var violations := FindMoqViolations(items, catalog);
    if |violations| == 0 {
      return [];
    }
    r := BundleViolationGroups(violations);
  }

  /** The second half of `_suggest_moq_bundles`: the grouping loop and the
      loop over the groups. */
  method BundleViolationGroups(violations: seq<Violation>) returns (r: seq<MoqBundle>)
    ensures r == Collect(violations, ViolationCategory, ViolationCategories(violations), MoqBundleFor)
  {
    var groups := GroupBy(violations, ViolationCategory);
    r := [];
    for i := 0 to |groups.keys|
      invariant r == Collect(violations, ViolationCategory, groups.keys[..i], MoqBundleFor)
    {
      var category := groups.keys[i];
      var group := groups.values[category];
      PrefixSnoc(groups.keys, i);
      CollectSnoc(violations, ViolationCategory, groups.keys[..i], MoqBundleFor, category);
      if |group| > 1 {
        var totalQuantity := Sum(group, ViolationQuantity);
        var maxMoq := MaxMoq(group);
        if totalQuantity >= maxMoq {
          var plan := SuggestRedistribution(group);
          r := r + [MoqBundle(category, KeysOf(group, ViolationSku), totalQuantity, plan)];
        }
      }
    }
    assert groups.keys[..|groups.keys|] == groups.keys;
  }

  // ---------------------------------------------------------------------
  // Category bundles

  /** The category names of `_get_category_name`. */
  const CategoryNames: map<string, string> := map[
    "DSK" := "Desk",
    "CHR" := "Chair",
    "DTB" := "Dining Table",
    "DCH" := "Dining Chair",
    "BSF" := "Bookshelf",
    "SFA" := "Sofa",
    "CFT" := "Coffee Table",
    "TVS" := "TV Stand"]

  /** `_get_category_name`: the table's name, or the code itself when the
      table has none. No table name equals its code, so the result is the
      code exactly when the code is not in the table. */
  function CategoryName(code: string): (name: string)
    ensures code in CategoryNames ==> name == CategoryNames[code]
    ensures name == code <==> code !in CategoryNames
  {
    if code in CategoryNames then CategoryNames[code] else code
  }

  /** The record for one category's items: only for two or more items,
      whatever their validity. */
  function CategoryBundleFor(category: string, group: seq<OrderItem>): (b: Option<CategoryBundle>)
    ensures b.Some? <==> |group| > 1
    ensures b.Some? ==>
      && b.value.category == category
      && b.value.items == KeysOf(group, ItemSku)
      && b.value.totalQuantity == Sum(group, ItemQuantity)
  {
    if |group| > 1 then Some(CategoryBundle(category, KeysOf(group, ItemSku), Sum(group, ItemQuantity))) else None
  }

  /** The categories of the items, in first-occurrence order. */
  function ItemCategories(items: seq<OrderItem>): seq<string> {
    Dedup(KeysOf(items, ItemCategory))
  }

  /** What `_suggest_category_bundles` returns. */
  function CategoryBundles(items: seq<OrderItem>): seq<CategoryBundle> {
    Collect(items, ItemCategory, ItemCategories(items), CategoryBundleFor)
  }

  /** A category has a bundle exactly when two or more items share it: the
      record built from those items in order (`CategoryBundlesOrder` adds
      that there is only one). */
  lemma CategoryBundlesExact(items: seq<OrderItem>, category: string)
    ensures var g := GroupOf(items, ItemCategory, category);
      && (forall b :: b in CategoryBundles(items) && b.category == category ==> CategoryBundleFor(category, g) == Some(b))
      && (|g| > 1 ==> CategoryBundleFor(category, g).value in CategoryBundles(items))
  {
    var cats := ItemCategories(items);
    var g := GroupOf(items, ItemCategory, category);
    forall b | b in CategoryBundles(items) && b.category == category
      ensures CategoryBundleFor(category, g) == Some(b)
    {
      CollectSound(items, ItemCategory, cats, CategoryBundleFor, b);
    }
    if |g| > 1 {
      GroupOfEmpty(items, ItemCategory, category);
      var i :| 0 <= i < |cats| && cats[i] == category;
      CollectComplete(items, ItemCategory, cats, CategoryBundleFor, i);
    }
  }

  /** The bundles follow the first-occurrence order of their categories
      among the items, so no category has two bundles. */
  lemma CategoryBundlesOrder(items: seq<OrderItem>, j1: nat, j2: nat)
    requires j1 < j2 < |CategoryBundles(items)|
    ensures var r, cats := CategoryBundles(items), ItemCategories(items);
      exists i1, i2 ::
        && 0 <= i1 < i2 < |cats|
        && r[j1].category == cats[i1]
        && r[j2].category == cats[i2]
    ensures CategoryBundles(items)[j1].category != CategoryBundles(items)[j2].category
  {
    var r, cats := CategoryBundles(items), ItemCategories(items);
    CollectOrder(items, ItemCategory, cats, CategoryBundleFor, j1, j2);
    var i1, i2 :|
      && 0 <= i1 < i2 < |cats|
      && CategoryBundleFor(cats[i1], GroupOf(items, ItemCategory, cats[i1])) == Some(r[j1])
      && CategoryBundleFor(cats[i2], GroupOf(items, ItemCategory, cats[i2])) == Some(r[j2]);
  }

  /** `_suggest_category_bundles`: group all items by category and emit a
      bundle for each category with more than one item. */
  method SuggestCategoryBundles(items: seq<OrderItem>) returns (r: seq<CategoryBundle>)
    ensures r == CategoryBundles(items)
  {
    var groups := GroupBy(items, ItemCategory);
    r := [];
    for i := 0 to |groups.keys|
      invariant r == Collect(items, ItemCategory, groups.keys[..i], CategoryBundleFor)
    {
      var category := groups.keys[i];
      var group := groups.values[category];
      PrefixSnoc(groups.keys, i);
      CollectSnoc(items, ItemCategory, groups.keys[..i], CategoryBundleFor, category);
      if |group| > 1 {
        var totalQuantity := Sum(group, ItemQuantity);
        r := r + [CategoryBundle(category, KeysOf(group, ItemSku), totalQuantity)];
      }
    }
    assert groups.keys[..|groups.keys|] == groups.keys;
  }

  // ---------------------------------------------------------------------
  // Bulk-tier suggestions

  const BulkTiers: seq<int> := [5, 10, 25, 50]

  /** The tier loop as written: the first tier above q that the stock covers
      decides; it is suggested when the increase is at most half of q, which
      is the source's percentage test `(t - q) / q * 100 <= 50` for q > 0. */
  function BulkScan(q: int, stock: int, tiers: seq<int>): Option<int> {
    if tiers == [] then None
    else if tiers[0] > q && tiers[0] <= stock then
      if 2 * (tiers[0] - q) <= q then Some(tiers[0]) else None
    else BulkScan(q, stock, tiers[1..])
  }

  /** The first tier above q. */
  function FirstAbove(q: int, tiers: seq<int>): (t: Option<int>)
    ensures t.Some? <==> exists i :: 0 <= i < |tiers| && tiers[i] > q
    ensures t.Some? ==> t.value in tiers && t.value > q
  {
    if tiers == [] then None
    else if tiers[0] > q then Some(tiers[0])
    else
      assert forall i :: 1 <= i < |tiers| ==> tiers[i] == tiers[1..][i - 1];
      FirstAbove(q, tiers[1..])
  }

  ghost predicate Ascending(tiers: seq<int>) {
    forall i, j :: 0 <= i < j < |tiers| ==> tiers[i] < tiers[j]
  }

  /** In an ascending list the first tier above q is the smallest one. */
  lemma {:induction false} FirstAboveIsSmallest(q: int, tiers: seq<int>)
    requires Ascending(tiers) && FirstAbove(q, tiers).Some?
    ensures forall u :: u in tiers && u > q ==> FirstAbove(q, tiers).value <= u
  {
    if tiers[0] <= q {
      FirstAboveIsSmallest(q, tiers[1..]);
      forall u | u in tiers && u > q ensures FirstAbove(q, tiers).value <= u {
        assert u in tiers[1..];
      }
    }
  }

  /** Over ascending tiers the scan suggests exactly the smallest tier above
      q, and only when the stock covers it and it adds at most half of q: a
      larger tier is never suggested in its place. */
  lemma {:induction false} BulkScanIsSmallestTier(q: int, stock: int, tiers: seq<int>)
    requires Ascending(tiers)
    ensures BulkScan(q, stock, tiers) ==
      match FirstAbove(q, tiers)
      case None => None
      case Some(t) => if t <= stock && 2 * (t - q) <= q then Some(t) else None
  {
    if tiers != [] && !(tiers[0] > q && tiers[0] <= stock) {
      BulkScanIsSmallestTier(q, stock, tiers[1..]);
      if tiers[0] > q {
        BulkScanNone(q, stock, tiers[1..]);
      }
    }
  }

  /** Once every tier is above the stock, the scan finds nothing. */
  lemma {:induction false} BulkScanNone(q: int, stock: int, tiers: seq<int>)
    requires forall i :: 0 <= i < |tiers| ==> tiers[i] > stock
    ensures BulkScan(q, stock, tiers) == None
  {
    if tiers != [] {
      BulkScanNone(q, stock, tiers[1..]);
    }
  }

  /** The suggestion for one item, if any: none for an unknown SKU. */
  function BulkFor(item: OrderItem, catalog: SkuMap): Option<BulkOptimization> {
    match GetProductDetails(catalog, item.sku)
    case None => None
    case Some(p) =>
      match BulkScan(item.quantity, p.stock, BulkTiers)
      case None => None
      case Some(t) => Some(BulkOptimization(item.sku, item.quantity, t, t - item.quantity))
  }

  function BulkOf(catalog: SkuMap): OrderItem -> Option<BulkOptimization> {
    (item: OrderItem) => BulkFor(item, catalog)
  }

  /** What `_suggest_bulk_optimizations` returns: the items' suggestions, in item order. */
  function BulkOptimizations(items: seq<OrderItem>, catalog: SkuMap): (r: seq<BulkOptimization>)
    ensures |r| <= |items|
  {
    Gather(items, BulkOf(catalog))
  }

  /** Every suggestion is the suggestion of one item: for a catalog SKU,
      raising the quantity to a tier the stock covers, by at most half of the
      current quantity. The item is the one whose predecessors give exactly
      the suggestions before it, so no item has two. */
  lemma BulkOptimizationsSound(items: seq<OrderItem>, catalog: SkuMap, j: nat)
    requires j < |BulkOptimizations(items, catalog)|
    ensures var b := BulkOptimizations(items, catalog)[j];
      && b.sku in catalog.values
      && b.suggestedQuantity in BulkTiers
      && b.currentQuantity < b.suggestedQuantity <= catalog.values[b.sku].stock
      && b.additionalUnits == b.suggestedQuantity - b.currentQuantity
      && 2 * b.additionalUnits <= b.currentQuantity
    ensures exists i ::
      && 0 <= i < |items|
      && |BulkOptimizations(items[..i], catalog)| == j
      && BulkFor(items[i], catalog) == Some(BulkOptimizations(items, catalog)[j])
  {
    GatherFrom(items, BulkOf(catalog), j);
    var i :| 0 <= i < |items| && |BulkOptimizations(items[..i], catalog)| == j
      && BulkOf(catalog)(items[i]) == Some(BulkOptimizations(items, catalog)[j]);
    assert BulkOf(catalog)(items[i]) == BulkFor(items[i], catalog);
    BulkForSound(items[i], catalog);
  }

  /** Every item that has a suggestion gets it, right after those of the
      items before it. */
  lemma BulkOptimizationsComplete(items: seq<OrderItem>, catalog: SkuMap, i: nat)
    requires i < |items| && BulkFor(items[i], catalog).Some?
    ensures var r, before := BulkOptimizations(items, catalog), BulkOptimizations(items[..i], catalog);
      |before| < |r| && r[|before|] == BulkFor(items[i], catalog).value
  {
    assert BulkOf(catalog)(items[i]) == BulkFor(items[i], catalog);
    GatherAt(items, BulkOf(catalog), i);
  }

  /** The suggestions for the first n items are a prefix of all of them. */
  lemma BulkOptimizationsPrefix(items: seq<OrderItem>, catalog: SkuMap, n: nat)
    requires n <= |items|
    ensures BulkOptimizations(items[..n], catalog) <= BulkOptimizations(items, catalog)
  {
    GatherPrefix(items, BulkOf(catalog), n);
  }

  lemma BulkScanSound(q: int, stock: int, tiers: seq<int>)
    ensures BulkScan(q, stock, tiers).Some? ==>
      var t := BulkScan(q, stock, tiers).value;
      t in tiers && q < t <= stock && 2 * (t - q) <= q
  {
  }

  lemma BulkForSound(item: OrderItem, catalog: SkuMap)
    ensures BulkFor(item, catalog).Some? ==>
      var b := BulkFor(item, catalog).value;
      && b.sku == item.sku && b.sku in catalog.values
      && b.currentQuantity == item.quantity
      && b.suggestedQuantity in BulkTiers
      && b.currentQuantity < b.suggestedQuantity <= catalog.values[b.sku].stock
      && b.additionalUnits == b.suggestedQuantity - b.currentQuantity
      && 2 * b.additionalUnits <= b.currentQuantity
  {
    if item.sku in catalog.values {
      BulkScanSound(item.quantity, catalog.values[item.sku].stock, BulkTiers);
    }
  }

  /** An item gets a suggestion exactly when its SKU is in the catalog and the
      smallest tier above its quantity is covered by the stock and adds at
      most half of the quantity; the suggestion is that tier. */
  lemma BulkForExact(item: OrderItem, catalog: SkuMap)
    ensures BulkFor(item, catalog).Some? <==>
      && item.sku in catalog.values
      && FirstAbove(item.quantity, BulkTiers).Some?
      && FirstAbove(item.quantity, BulkTiers).value <= catalog.values[item.sku].stock
      && 2 * (FirstAbove(item.quantity, BulkTiers).value - item.quantity) <= item.quantity
    ensures BulkFor(item, catalog).Some? ==>
      BulkFor(item, catalog).value.suggestedQuantity == FirstAbove(item.quantity, BulkTiers).value
  {
    if item.sku in catalog.values {
      BulkScanIsSmallestTier(item.quantity, catalog.values[item.sku].stock, BulkTiers);
    }
  }

  /** `_suggest_bulk_optimizations`: for each catalog item, scan the tiers
      and stop at the first one above the quantity that the stock covers. */
  method SuggestBulkOptimizations(items: seq<OrderItem>, catalog: SkuMap) returns (r: seq<BulkOptimization>)
    ensures r == BulkOptimizations(items, catalog)
  {
    r := [];
    for i := 0 to |items|
      invariant r == BulkOptimizations(items[..i], catalog)
    {
      var item := items[i];
      GatherSnoc(items, BulkOf(catalog), i);
      assert BulkOf(catalog)(item) == BulkFor(item, catalog);
      var product := GetProductDetails(catalog, item.sku);
      if product.None? {
        continue;
      }
      var currentQty := item.quantity;
      var stock := product.value.stock;
      var j := 0;
      while j < |BulkTiers|
        invariant 0 <= j <= |BulkTiers|
        invariant BulkScan(currentQty, stock, BulkTiers[j..]) == BulkScan(currentQty, stock, BulkTiers)
      {
        var bulkQty := BulkTiers[j];
        if bulkQty > currentQty && bulkQty <= stock {
          if 2 * (bulkQty - currentQty) <= currentQty {
            r := r + [BulkOptimization(item.sku, currentQty, bulkQty, bulkQty - currentQty)];
          }
          break;
        }
        assert BulkTiers[j..][1..] == BulkTiers[j + 1..];
        j := j + 1;
      }
    }
    assert items[..|items|] == items;
  }

  // ---------------------------------------------------------------------
  // Summary and the whole analysis

  /** `sum(1 for item in items if not item.valid)`: none exactly when every item is valid. */
  function InvalidCount(items: seq<OrderItem>): (n: nat)
    reads items
    ensures n <= |items|
    ensures n == 0 <==> forall i :: 0 <= i < |items| ==> items[i].valid
  {
    if items == [] then 0
    else
      var p := items[..|items| - 1];
      assert forall i :: 0 <= i < |p| ==> p[i] == items[i];
      InvalidCount(p) + (if items[|items| - 1].valid then 0 else 1)
  }

  /** What `_create_bundle_summary` returns. */
  function BundleSummary(items: seq<OrderItem>): (s: Summary)
    reads items
    ensures s.totalItems == |items|
    ensures s.invalidItems <= s.totalItems
    ensures s.categoriesRepresented <= s.totalItems
    ensures |items| > 0 ==> s.categoriesRepresented > 0
  {
    var categories := |ItemCategories(items)|;
    assert |items| > 0 ==> ItemCategory(items[0]) in KeysOf(items, ItemCategory);
    Summary(|items|, InvalidCount(items), categories, if categories < |items| then "High" else "Low")
  }

  /** The bundling potential is "High" exactly when two items share a category. */
  lemma SummaryPotentialHigh(items: seq<OrderItem>)
    ensures BundleSummary(items).bundlingPotential == "High" <==>
      exists i, j :: 0 <= i < j < |items| && ItemCategory(items[i]) == ItemCategory(items[j])
  {
    var ks := KeysOf(items, ItemCategory);
    DedupLength(ks);
    if exists i, j :: 0 <= i < j < |items| && ItemCategory(items[i]) == ItemCategory(items[j]) {
      var i, j :| 0 <= i < j < |items| && ItemCategory(items[i]) == ItemCategory(items[j]);
      assert ks[i] == ks[j];
    }
  }

  /** `_create_bundle_summary`: count the invalid items, then count the items
      per category in a dictionary whose size is the number of categories. */
  method CreateBundleSummary(items: seq<OrderItem>) returns (s: Summary)
    ensures s == BundleSummary(items)
  {
    var totalItems := |items|;
    var invalidItems := 0;
    for i := 0 to |items|
      invariant invalidItems == InvalidCount(items[..i])
    {
      assert items[..i + 1][..i] == items[..i];
      if !items[i].valid {
        invalidItems := invalidItems + 1;
      }
    }
    assert items[..|items|] == items;
    var categories := CountBy(items, ItemCategory);
    var represented := |categories.keys|;
    s := Summary(totalItems, invalidItems, represented, if represented < totalItems then "High" else "Low");
  }

  /** `analyze_and_suggest_bundles`: the four analyses of one order. The
      method has no modifies clause, so it changes no item of the order. */
  method AnalyzeAndSuggestBundles(order: Order, catalog: SkuMap) returns (r: BundleReport)
    ensures r.moqBundles == MoqBundles(order.items, catalog)
    ensures r.categoryBundles == CategoryBundles(order.items)
    ensures r.bulkDiscounts == BulkOptimizations(order.items, catalog)
    ensures r.summary == BundleSummary(order.items)
  {
    var moqBundles := SuggestMoqBundles(order.items, catalog);
    var categoryBundles := SuggestCategoryBundles(order.items);
    var bulkDiscounts := SuggestBulkOptimizations(order.items, catalog);
    var summary := CreateBundleSummary(order.items);
    r := BundleReport(moqBundles, categoryBundles, bulkDiscounts, summary);
  }
}
