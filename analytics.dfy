/** The admin statistics page (src/pages/adminstrator/pages/Analytics.tsx):
    product counts per category, built in a dictionary that starts with
    five fallback categories at 0; the number of distinct categories; and
    the five most recent orders as activity lines. */
module Analytics {
  import opened ListOps

  /** The `name, category` columns of a product ("" when the category is
      null or empty). */
  datatype ProductSummary = ProductSummary(name: string, category: string)

  /** The `created_at, full_name, order_items` columns of an order, with the
      items reduced to their names. */
  datatype OrderSummary = OrderSummary(createdAt: string, fullName: string, itemNames: seq<string>)

  datatype Activity = Activity(userName: string, productName: string, date: string)

  /** The bucket of products without a category. */
  const Uncategorised: string := "Non catégorisé"
  /** The categories of `fallbackCategoryData`, each shown even at 0. */
  const FallbackCategories: seq<string> := ["Maquillage", "Parfum", "Soin", "Cheveux", "Non catégorisé"]
  const RecentCount: nat := 5

  /** `p.category || 'Non catégorisé'`. */
  function Bucket(p: ProductSummary): string {
    if p.category != "" then p.category else Uncategorised
  }

  /** How many products fall in bucket `k`. */
  function Occurrences(products: seq<ProductSummary>, k: string): (r: nat)
    ensures r <= |products|
  {
    if products == [] then 0
    else Occurrences(products[..|products| - 1], k) + (if Bucket(products[|products| - 1]) == k then 1 else 0)
  }

  /** The buckets the products fall in. */
  ghost function Buckets(products: seq<ProductSummary>): set<string> {
    if products == [] then {} else Buckets(products[..|products| - 1]) + {Bucket(products[|products| - 1])}
  }

  /** The sum of the counts of the listed keys. */
  function SumOver(keys: seq<string>, counts: map<string, nat>): nat
    requires forall i :: 0 <= i < |keys| ==> keys[i] in counts
  {
    if keys == [] then 0 else SumOver(keys[..|keys| - 1], counts) + counts[keys[|keys| - 1]]
  }

  ghost predicate Distinct(keys: seq<string>) {
    forall i, j :: 0 <= i < j < |keys| ==> keys[i] != keys[j]
  }

  /** Changing the count of a key that is not listed leaves the sum alone. */
  lemma {:induction false} SumOverOther(keys: seq<string>, counts: map<string, nat>, k: string, v: nat)
    requires forall i :: 0 <= i < |keys| ==> keys[i] in counts && keys[i] != k
    ensures SumOver(keys, counts[k := v]) == SumOver(keys, counts)
  {
    if keys != [] {
      SumOverOther(keys[..|keys| - 1], counts, k, v);
    }
  }

  /** Raising the count of a key listed once raises the sum by as much. */
  lemma {:induction false} SumOverBump(keys: seq<string>, counts: map<string, nat>, k: string)
    requires forall i :: 0 <= i < |keys| ==> keys[i] in counts
    requires Distinct(keys) && k in keys
    ensures SumOver(keys, counts[k := counts[k] + 1]) == SumOver(keys, counts) + 1
  {
    var n := |keys| - 1;
    var init := keys[..n];
    if keys[n] == k {
      SumOverOther(init, counts, k, counts[k] + 1);
    } else {
      assert k in init by {
        var j :| 0 <= j < |keys| && keys[j] == k;
        assert init[j] == k;
      }
      SumOverBump(init, counts, k);
    }
  }

  /** The `categoryCounts` dictionary: its entries and the order in which
      its keys were first set, which `Object.entries` follows for the chart. */
  datatype Dict = Dict(counts: map<string, nat>, keys: seq<string>)

  /** `categoryCounts[name] = 0` for each name in turn. */
  function Zeroed(names: seq<string>): Dict {
    if names == [] then Dict(map[], [])
    else
      var d := Zeroed(names[..|names| - 1]);
      var name := names[|names| - 1];
      Dict(d.counts[name := 0], if name in d.counts then d.keys else d.keys + [name])
  }

  /** `categoryCounts[c] = (categoryCounts[c] || 0) + 1`. */
  function Tally(d: Dict, c: string): Dict {
    if c in d.counts then Dict(d.counts[c := d.counts[c] + 1], d.keys)
    else Dict(d.counts[c := 1], d.keys + [c])
  }

  /** The dictionary after the fallback loop and the loop over `products`. */
  function CountAll(products: seq<ProductSummary>): Dict {
    if products == [] then Zeroed(FallbackCategories)
    else Tally(CountAll(products[..|products| - 1]), Bucket(products[|products| - 1]))
  }

  /** The keys listed are the keys of the map, each once. */
  ghost predicate WellFormed(d: Dict) {
    (forall k :: k in d.counts <==> k in d.keys) && Distinct(d.keys)
  }

  lemma {:induction false} ZeroedSpec(names: seq<string>)
    requires Distinct(names)
    ensures var d := Zeroed(names);
      && d.keys == names && WellFormed(d)
      && (forall k :: k in d.counts ==> d.counts[k] == 0)
      && SumOver(d.keys, d.counts) == 0
  {
    if names != [] {
      var init := names[..|names| - 1];
      var name := names[|names| - 1];
      assert Distinct(init);
      ZeroedSpec(init);
      assert name !in init by {
        forall j | 0 <= j < |init| ensures init[j] != name {
          assert init[j] == names[j];
        }
      }
      SumOverOther(init, Zeroed(init).counts, name, 0);
      assert init + [name] == names;
    }
  }

  lemma FallbackDistinct()
    ensures Distinct(FallbackCategories)
  {
  }

  lemma AppendDistinct(keys: seq<string>, c: string)
    requires Distinct(keys) && c !in keys
    ensures Distinct(keys + [c])
  {
    var ks := keys + [c];
    forall i, j | 0 <= i < j < |ks| ensures ks[i] != ks[j] {
      if j == |keys| {
        assert ks[i] == keys[i] && ks[j] == c;
      } else {
        assert ks[i] == keys[i] && ks[j] == keys[j];
      }
    }
  }

  lemma TallyWellFormed(d: Dict, c: string)
    requires WellFormed(d)
    ensures WellFormed(Tally(d, c))
    ensures SumOver(Tally(d, c).keys, Tally(d, c).counts) == SumOver(d.keys, d.counts) + 1
    ensures |Tally(d, c).keys| >= |d.keys| && Tally(d, c).keys[..|d.keys|] == d.keys
  {
    if c in d.counts {
      SumOverBump(d.keys, d.counts, c);
    } else {
      AppendDistinct(d.keys, c);
      SumOverOther(d.keys, d.counts, c, 1);
      var t := Tally(d, c);
      assert t.keys == d.keys + [c] && t.counts == d.counts[c := 1];
      assert SumOver(t.keys, t.counts) == SumOver(d.keys, d.counts[c := 1]) + 1 by {
        assert t.keys[..|t.keys| - 1] == d.keys;
      }
      assert t.keys[..|d.keys|] == d.keys;
    }
  }

  /** The dictionary is well formed and its counts add up to the number of
      products. */
  lemma {:induction false} CountAllShape(products: seq<ProductSummary>)
    ensures WellFormed(CountAll(products))
    ensures SumOver(CountAll(products).keys, CountAll(products).counts) == |products|
  {
    if products == [] {
      FallbackDistinct();
      ZeroedSpec(FallbackCategories);
    } else {
      var init := products[..|products| - 1];
      CountAllShape(init);
      TallyWellFormed(CountAll(init), Bucket(products[|products| - 1]));
    }
  }

  /** The chart starts with the five fallback categories, in their order. */
  lemma {:induction false} CountAllPrefix(products: seq<ProductSummary>)
    ensures |CountAll(products).keys| >= |FallbackCategories|
    ensures CountAll(products).keys[..|FallbackCategories|] == FallbackCategories
  {
    if products == [] {
      FallbackDistinct();
      ZeroedSpec(FallbackCategories);
    } else {
      var init := products[..|products| - 1];
      CountAllPrefix(init);
      var d := CountAll(init);
      PrefixKept(d.keys, CountAll(products).keys, Bucket(products[|products| - 1]), |FallbackCategories|);
    }
  }

  lemma PrefixKept(keys: seq<string>, keys': seq<string>, c: string, n: nat)
    requires keys' == keys || keys' == keys + [c]
    requires n <= |keys|
    ensures |keys'| >= n && keys'[..n] == keys[..n]
  {
  }

  /** The keys are the fallback categories plus the buckets of the products. */
  lemma {:induction false} CountAllKeys(products: seq<ProductSummary>)
    ensures forall k :: k in CountAll(products).counts <==> k in FallbackCategories || k in Buckets(products)
  {
    if products == [] {
      FallbackDistinct();
      ZeroedSpec(FallbackCategories);
    } else {
      CountAllKeys(products[..|products| - 1]);
    }
  }

  /** Each key counts exactly the products in its bucket. */
  lemma {:induction false} CountAllCounts(products: seq<ProductSummary>)
    ensures forall k :: k in CountAll(products).counts ==> CountAll(products).counts[k] == Occurrences(products, k)
  {
    if products == [] {
      FallbackDistinct();
      ZeroedSpec(FallbackCategories);
    } else {
      var init := products[..|products| - 1];
      CountAllCounts(init);
      var c := Bucket(products[|products| - 1]);
      if c !in CountAll(init).counts {
        CountAllKeys(init);
        OccurrencesAbsent(init, c);
      }
    }
  }

  /** The counting loops of lines 49-54. */
  method CountCategories(products: seq<ProductSummary>) returns (counts: map<string, nat>, keys: seq<string>)
    ensures Dict(counts, keys) == CountAll(products)
    ensures forall k :: k in counts <==> k in keys
    ensures Distinct(keys)
    ensures |keys| >= |FallbackCategories| && keys[..|FallbackCategories|] == FallbackCategories
    ensures forall k :: k in counts <==> k in FallbackCategories || k in Buckets(products)
    ensures forall k :: k in counts ==> counts[k] == Occurrences(products, k)
    ensures SumOver(keys, counts) == |products|
  {
    counts := map[];
    keys := [];
    for f := 0 to |FallbackCategories|
      invariant Dict(counts, keys) == Zeroed(FallbackCategories[..f])
    {
      var name := FallbackCategories[f];
      assert FallbackCategories[..f + 1][..f] == FallbackCategories[..f];
      if name !in counts {
        keys := keys + [name];
      }
      counts := counts[name := 0];
    }
    assert FallbackCategories[..|FallbackCategories|] == FallbackCategories;
    for i := 0 to |products|
      invariant Dict(counts, keys) == CountAll(products[..i])
    {
      var category := Bucket(products[i]);
      assert products[..i + 1][..i] == products[..i];
      if category !in counts {
        keys := keys + [category];
      }
      counts := counts[category := (if category in counts then counts[category] else 0) + 1];
    }
    assert products[..|products|] == products;
    CountAllShape(products);
    CountAllPrefix(products);
    CountAllKeys(products);
    CountAllCounts(products);
  }

  /** Every product's bucket is one of the buckets, and so a key of the
      histogram. */
  lemma {:induction false} BucketIn(products: seq<ProductSummary>, j: nat)
    requires j < |products|
    ensures Bucket(products[j]) in Buckets(products)
    ensures Bucket(products[j]) in CountAll(products).counts
  {
    var init := products[..|products| - 1];
    if j < |init| {
      BucketIn(init, j);
      assert init[j] == products[j];
    }
    CountAllKeys(products);
  }

  /** A bucket no product falls in is counted 0 times. */
  lemma {:induction false} OccurrencesAbsent(products: seq<ProductSummary>, k: string)
    requires k !in Buckets(products)
    ensures Occurrences(products, k) == 0
  {
    if products != [] {
      OccurrencesAbsent(products[..|products| - 1], k);
    }
  }

  /** `new Set(products.map(p => p.category).filter(Boolean))`. */
  ghost function DistinctCategories(products: seq<ProductSummary>): set<string> {
    set i | 0 <= i < |products| && products[i].category != "" :: products[i].category
  }

  /** `totalCategories`: uncategorised products are not a category, and
      every counted category is a non-empty bucket of the chart. */
  lemma TotalCategoriesSpec(products: seq<ProductSummary>)
    ensures "" !in DistinctCategories(products)
    ensures DistinctCategories(products) <= Buckets(products)
    ensures |DistinctCategories(products)| <= |products|
  {
    var d := DistinctCategories(products);
    forall c | c in d ensures c in Buckets(products) {
      var j :| 0 <= j < |products| && products[j].category != "" && c == products[j].category;
      BucketIn(products, j);
    }
    CardinalityAtMostLength(products);
  }

  lemma {:induction false} CardinalityAtMostLength(products: seq<ProductSummary>)
    ensures |DistinctCategories(products)| <= |products|
  {
    if products != [] {
      var init := products[..|products| - 1];
      CardinalityAtMostLength(init);
      var last := products[|products| - 1];
      var extra: set<string> := if last.category != "" then {last.category} else {};
      assert DistinctCategories(products) <= DistinctCategories(init) + extra by {
        forall c | c in DistinctCategories(products) ensures c in DistinctCategories(init) + extra {
          var j :| 0 <= j < |products| && products[j].category != "" && c == products[j].category;
          if j < |init| { assert init[j] == products[j]; }
        }
      }
      assert |DistinctCategories(init) + extra| <= |DistinctCategories(init)| + |extra|;
      SubsetCardinality(DistinctCategories(products), DistinctCategories(init) + extra);
    }
  }

  lemma SubsetCardinality(a: set<string>, b: set<string>)
    requires a <= b
    ensures |a| <= |b|
  {
    assert b == a + (b - a);
  }

  /** `order.order_items[0]?.name || 'un produit'`. */
  function ActivityOf(o: OrderSummary): (r: Activity)
    ensures r.userName == o.fullName && r.date == o.createdAt
    ensures r.productName != ""
    ensures r.productName == "un produit" || (|o.itemNames| > 0 && r.productName == o.itemNames[0])
  {
    Activity(o.fullName, if |o.itemNames| > 0 && o.itemNames[0] != "" then o.itemNames[0] else "un produit", o.createdAt)
  }

  /** `orders.slice(0, 5).map(...)`: at most five entries, the first orders
      in fetched order, each naming its customer and first item. */
  function RecentActivities(orders: seq<OrderSummary>): (r: seq<Activity>)
    ensures |r| == if |orders| < RecentCount then |orders| else RecentCount
    ensures forall i :: 0 <= i < |r| ==>
      && r[i].userName == orders[i].fullName && r[i].date == orders[i].createdAt
      && (|orders[i].itemNames| > 0 && orders[i].itemNames[0] != "" ==> r[i].productName == orders[i].itemNames[0])
      && (|orders[i].itemNames| == 0 || orders[i].itemNames[0] == "" ==> r[i].productName == "un produit")
  {
    SliceWindow(orders, 0, RecentCount);
    Map(Slice(orders, 0, RecentCount), ActivityOf)
  }
}
