/** Derived views shared by several pages: totals, per-kind selections and mean performance. */
module Portfolio {
  import opened Wrappers
  import opened Seqs
  import opened Assets

  /** The sum of `value` over the collection. */
  function TotalValue(assets: seq<Asset>): real {
    SumBy(assets, ValueOf)
  }

  /** The total wealth of nothing is zero; without negative values it is non-negative and at
      least the value of every single asset. */
  lemma TotalValueBounds(assets: seq<Asset>)
    ensures |assets| == 0 ==> TotalValue(assets) == 0.0
    ensures (forall i :: 0 <= i < |assets| ==> assets[i].value >= 0.0) ==>
      TotalValue(assets) >= 0.0 && forall i :: 0 <= i < |assets| ==> assets[i].value <= TotalValue(assets)
  {
    SumByBounds(assets, ValueOf);
  }

  /** The assets of one kind, in collection order. */
  function OfType(assets: seq<Asset>, t: AssetType): (r: seq<Asset>)
    ensures forall i :: 0 <= i < |r| ==> r[i] in assets && r[i].assetType == t
    ensures forall i :: 0 <= i < |assets| && assets[i].assetType == t ==> assets[i] in r
  {
    Filter(assets, (a: Asset) => a.assetType == t)
  }

  /** The sum of `value` over the assets whose kind is in `ts`. */
  function SumOfTypes(assets: seq<Asset>, ts: set<AssetType>): real {
    TotalValue(Filter(assets, (a: Asset) => a.assetType in ts))
  }

  lemma {:induction false} TotalValueAppend(s: seq<Asset>, t: seq<Asset>)
    ensures TotalValue(s + t) == TotalValue(s) + TotalValue(t)
  {
    SumByAppend(s, t, ValueOf);
  }

  /** Unfolds `SumOfTypes` by one element. */
  lemma SumOfTypesCons(assets: seq<Asset>, ts: set<AssetType>)
    requires |assets| > 0
    ensures SumOfTypes(assets, ts)
         == (if assets[0].assetType in ts then assets[0].value else 0.0) + SumOfTypes(assets[1..], ts)
  {
    var p := (a: Asset) => a.assetType in ts;
    if p(assets[0]) {
      var f := Filter(assets[1..], p);
      assert ([assets[0]] + f)[1..] == f;
    }
  }

  /** Sums over disjoint sets of kinds add up to the sum over their union. */
  lemma {:induction false} SumOfTypesUnion(assets: seq<Asset>, ts: set<AssetType>, us: set<AssetType>)
    requires ts !! us
    ensures SumOfTypes(assets, ts) + SumOfTypes(assets, us) == SumOfTypes(assets, ts + us)
  {
    if |assets| > 0 {
      SumOfTypesCons(assets, ts);
      SumOfTypesCons(assets, us);
      SumOfTypesCons(assets, ts + us);
      SumOfTypesUnion(assets[1..], ts, us);
    }
  }

  /** Summing over every kind is the total value. */
  lemma {:induction false} SumOfAllTypes(assets: seq<Asset>)
    ensures SumOfTypes(assets, set t: AssetType | t in AllAssetTypes) == TotalValue(assets)
  {
    var all := set t: AssetType | t in AllAssetTypes;
    AssetTypesAreEleven();
    FilterKeepsAll(assets, (a: Asset) => a.assetType in all);
  }

  /** The sum of `value` over the assets of one kind. */
  function TotalOfType(assets: seq<Asset>, t: AssetType): real {
    TotalValue(OfType(assets, t))
  }

  /** Selecting one kind is summing over the singleton set of that kind. */
  lemma TotalOfTypeIsSumOfTypes(assets: seq<Asset>, t: AssetType)
    ensures TotalOfType(assets, t) == SumOfTypes(assets, {t})
  {
    var ts := {t};
    FilterSamePredicate(assets, (a: Asset) => a.assetType == t, (a: Asset) => a.assetType in ts);
  }

  /** Filters by predicates that agree on the sequence coincide. */
  lemma {:induction false} FilterSamePredicate<T>(s: seq<T>, p: T -> bool, q: T -> bool)
    requires forall i :: 0 <= i < |s| ==> p(s[i]) == q(s[i])
    ensures Filter(s, p) == Filter(s, q)
  {
    if |s| > 0 {
      FilterSamePredicate(s[1..], p, q);
    }
  }

  /** Appending one asset adds its value to the total of its own kind and nothing to the others. */
  lemma TotalOfTypeAppend(assets: seq<Asset>, a: Asset, t: AssetType)
    ensures TotalOfType(assets + [a], t) == TotalOfType(assets, t) + (if a.assetType == t then a.value else 0.0)
  {
    var p := (x: Asset) => x.assetType == t;
    FilterAppend(assets, [a], p);
    TotalValueAppend(Filter(assets, p), Filter([a], p));
    assert [a][1..] == [];
    assert Filter([a], p) == if a.assetType == t then [a] else [];
    assert SumBy([a], ValueOf) == ValueOf(a) + SumBy([a][1..], ValueOf);
  }

  /** Appending one asset extends the per-kind selection by it exactly when it has that kind. */
  lemma OfTypeAppend(assets: seq<Asset>, a: Asset, t: AssetType)
    ensures OfType(assets + [a], t) == OfType(assets, t) + (if a.assetType == t then [a] else [])
  {
    var p := (x: Asset) => x.assetType == t;
    FilterAppend(assets, [a], p);
    assert [a][1..] == [];
    assert Filter([a], p) == if a.assetType == t then [a] else [];
  }

  function PerformanceOf(a: Asset): real { Num(a.performance) }

  /** The arithmetic mean of `performance` (absent read as 0), or 0 for an empty collection. */
  function AveragePerformance(assets: seq<Asset>): (r: real)
    ensures |assets| == 0 ==> r == 0.0
    ensures |assets| > 0 ==> r * (|assets| as real) == SumBy(assets, PerformanceOf)
  {
    if |assets| > 0 then SumBy(assets, PerformanceOf) / (|assets| as real) else 0.0
  }

  /** The candidate with its kind overridden (`{...asset, type: t}`). */
  function ForceType(candidate: Asset, t: AssetType): (r: Asset)
    ensures r.assetType == t
    ensures r.(assetType := candidate.assetType) == candidate
  {
    candidate.(assetType := t)
  }

  /** The figures a per-kind page shows above its list: how many assets, their total value and
      their mean performance. */
  datatype PageSummary = PageSummary(count: nat, totalValue: real, avgPerformance: real)

  function Summarize(assets: seq<Asset>): (r: PageSummary)
    ensures r.count == |assets|
    ensures r.totalValue == SumBy(assets, ValueOf)
    ensures r.count == 0 ==> r.totalValue == 0.0 && r.avgPerformance == 0.0
    ensures r.count > 0 ==> r.avgPerformance * (r.count as real) == SumBy(assets, PerformanceOf)
  {
    PageSummary(|assets|, TotalValue(assets), AveragePerformance(assets))
  }
}
