/** The dashboard's derived views (`src/pages/Dashboard.tsx`): the category filter, the total, the
    allocation buckets and the three most valuable assets. */
module Dashboard {
  import opened Wrappers
  import opened Seqs
  import opened StableSort
  import opened Assets
  import opened Portfolio

  /** The category selected in the net-worth chart. */
  datatype CategoryFilter = All | AssetsOnly | Liabilities | Savings | Investments

  /** A main or secondary residence. */
  predicate IsResidence(a: Asset) {
    a.assetType == RealEstate && (a.usageType == Some(Main) || a.usageType == Some(Secondary))
  }

  /** What the dashboard counts as a liability: residences, bank and savings accounts. */
  predicate IsLiability(a: Asset) {
    IsResidence(a) || a.assetType == BankAccount || a.assetType == SavingsAccount
  }

  /** Whether the filter `f` keeps `a`: the liabilities filter keeps exactly the liabilities, the
      assets filter exactly the rest, and the other filters keep everything. */
  function Keeps(f: CategoryFilter, a: Asset): (r: bool)
    ensures f == Liabilities ==> (r <==> IsLiability(a))
    ensures f == AssetsOnly ==> (r <==> !IsLiability(a))
    ensures f == All || f == Savings || f == Investments ==> r
  {
    match f
    case All => true
    case AssetsOnly =>
      if a.assetType == RealEstate then !(a.usageType == Some(Main) || a.usageType == Some(Secondary))
      else a.assetType != BankAccount && a.assetType != SavingsAccount
    case Liabilities =>
      if a.assetType == RealEstate then a.usageType == Some(Main) || a.usageType == Some(Secondary)
      else a.assetType == BankAccount || a.assetType == SavingsAccount
    case _ => true
  }

  /** `filteredAssets`: the assets the filter keeps, in collection order. */
  function FilterAssets(assets: seq<Asset>, f: CategoryFilter): (r: seq<Asset>)
    ensures forall i :: 0 <= i < |r| ==> r[i] in assets && Keeps(f, r[i])
    ensures forall i :: 0 <= i < |assets| && Keeps(f, assets[i]) ==> assets[i] in r
  {
    Filter(assets, (a: Asset) => Keeps(f, a))
  }

  /** The `all` filter is the identity. */
  lemma FilterAllIsIdentity(assets: seq<Asset>)
    ensures FilterAssets(assets, All) == assets
  {
    FilterKeepsAll(assets, (a: Asset) => Keeps(All, a));
  }

  /** The assets and liabilities views split the total value between them. */
  lemma AssetsPlusLiabilitiesIsTotal(assets: seq<Asset>)
    ensures TotalValue(FilterAssets(assets, AssetsOnly)) + TotalValue(FilterAssets(assets, Liabilities))
         == TotalValue(assets)
  {
    assert forall i :: 0 <= i < |assets| ==> Keeps(Liabilities, assets[i]) == !Keeps(AssetsOnly, assets[i]);
    SumByPartition(assets, ValueOf, (a: Asset) => Keeps(AssetsOnly, a), (a: Asset) => Keeps(Liabilities, a));
  }

  /** The dashboard's allocation: seven buckets, bank and savings accounts folded into `cash`. */
  datatype Allocation = Allocation(
    stocks: real, realEstate: real, crypto: real, cash: real, bonds: real, commodities: real, other: real)

  /** The kinds summed into the `cash` bucket. */
  const CashKinds: set<AssetType> := {Cash, BankAccount, SavingsAccount}

  /** `currentAllocation`: each bucket sums the values of its kinds among the filtered assets. The
      buckets account for every value except investment and crypto accounts, which belong to no
      bucket; the cash bucket is the cash, bank and savings totals together. */
  function CurrentAllocation(filtered: seq<Asset>): (r: Allocation)
    ensures BucketSum(r) == TotalValue(filtered) - SumOfTypes(filtered, UnbucketedKinds)
    ensures r.cash
         == TotalOfType(filtered, Cash) + TotalOfType(filtered, BankAccount) + TotalOfType(filtered, SavingsAccount)
    ensures r.stocks == SumOfTypes(filtered, {Stock}) && r.realEstate == SumOfTypes(filtered, {RealEstate})
    ensures r.crypto == SumOfTypes(filtered, {Crypto}) && r.bonds == SumOfTypes(filtered, {Bonds})
    ensures r.commodities == SumOfTypes(filtered, {Commodities}) && r.other == SumOfTypes(filtered, {Other})
  {
    SingleKindBuckets(filtered);
    CashBucketSplit(filtered);
    BucketSumIsBucketedKinds(filtered);
    SumOfTypesUnion(filtered, BucketedKinds, UnbucketedKinds);
    AssetTypesAreEleven();
    assert BucketedKinds + UnbucketedKinds == set t: AssetType | t in AllAssetTypes;
    SumOfAllTypes(filtered);
    Allocation(
      TotalOfType(filtered, Stock),
      TotalOfType(filtered, RealEstate),
      TotalOfType(filtered, Crypto),
      SumOfTypes(filtered, CashKinds),
      TotalOfType(filtered, Bonds),
      TotalOfType(filtered, Commodities),
      TotalOfType(filtered, Other))
  }

  function BucketSum(a: Allocation): real {
    a.stocks + a.realEstate + a.crypto + a.cash + a.bonds + a.commodities + a.other
  }

  /** The kinds that feed some bucket, and the two that feed none. */
  const BucketedKinds: set<AssetType> :=
    {Stock, RealEstate, Crypto, Cash, BankAccount, SavingsAccount, Bonds, Commodities, Other}
  const UnbucketedKinds: set<AssetType> := {InvestmentAccount, CryptoAccount}

  /** Each bucket other than cash is the sum over its one kind. */
  lemma SingleKindBuckets(f: seq<Asset>)
    ensures TotalOfType(f, Stock) == SumOfTypes(f, {Stock})
    ensures TotalOfType(f, RealEstate) == SumOfTypes(f, {RealEstate})
    ensures TotalOfType(f, Crypto) == SumOfTypes(f, {Crypto})
    ensures TotalOfType(f, Bonds) == SumOfTypes(f, {Bonds})
    ensures TotalOfType(f, Commodities) == SumOfTypes(f, {Commodities})
    ensures TotalOfType(f, Other) == SumOfTypes(f, {Other})
  {
    TotalOfTypeIsSumOfTypes(f, Stock);
    TotalOfTypeIsSumOfTypes(f, RealEstate);
    TotalOfTypeIsSumOfTypes(f, Crypto);
    TotalOfTypeIsSumOfTypes(f, Bonds);
    TotalOfTypeIsSumOfTypes(f, Commodities);
    TotalOfTypeIsSumOfTypes(f, Other);
  }

  /** The cash bucket is the cash, bank-account and savings-account totals together. */
  lemma CashBucketSplit(f: seq<Asset>)
    ensures SumOfTypes(f, CashKinds)
         == TotalOfType(f, Cash) + TotalOfType(f, BankAccount) + TotalOfType(f, SavingsAccount)
  {
    TotalOfTypeIsSumOfTypes(f, Cash);
    TotalOfTypeIsSumOfTypes(f, BankAccount);
    TotalOfTypeIsSumOfTypes(f, SavingsAccount);
    SumOfTypesUnion(f, {Cash}, {BankAccount});
    assert {Cash} + {BankAccount} == {Cash, BankAccount};
    SumOfTypesUnion(f, {Cash, BankAccount}, {SavingsAccount});
    assert {Cash, BankAccount} + {SavingsAccount} == CashKinds;
  }

  /** The seven buckets together sum the bucketed kinds. */
  lemma BucketSumIsBucketedKinds(f: seq<Asset>)
    ensures TotalOfType(f, Stock) + TotalOfType(f, RealEstate) + TotalOfType(f, Crypto)
          + SumOfTypes(f, CashKinds) + TotalOfType(f, Bonds) + TotalOfType(f, Commodities)
          + TotalOfType(f, Other)
         == SumOfTypes(f, BucketedKinds)
  {
    ThreeKinds(f, Stock, RealEstate, Crypto);
    ThreeKinds(f, Bonds, Commodities, Other);
    BucketKindSets();
    ThreeSets(f, {Stock, RealEstate, Crypto}, CashKinds, {Bonds, Commodities, Other});
  }

  /** The bucketed kinds split into the three single-kind buckets before cash, cash's kinds, and
      the three after. */
  lemma BucketKindSets()
    ensures {Stock, RealEstate, Crypto} !! CashKinds
    ensures {Stock, RealEstate, Crypto} !! {Bonds, Commodities, Other}
    ensures CashKinds !! {Bonds, Commodities, Other}
    ensures {Stock, RealEstate, Crypto} + CashKinds + {Bonds, Commodities, Other} == BucketedKinds
  {
  }

  /** Sums over three pairwise disjoint sets of kinds add up to the sum over their union. */
  lemma ThreeSets(f: seq<Asset>, a: set<AssetType>, b: set<AssetType>, c: set<AssetType>)
    requires a !! b && a !! c && b !! c
    ensures SumOfTypes(f, a) + SumOfTypes(f, b) + SumOfTypes(f, c) == SumOfTypes(f, a + b + c)
  {
    SumOfTypesUnion(f, a, b);
    SumOfTypesUnion(f, a + b, c);
  }

  /** Three distinct kinds' totals add up to the sum over the three. */
  lemma ThreeKinds(f: seq<Asset>, a: AssetType, b: AssetType, c: AssetType)
    requires a != b && b != c && a != c
    ensures TotalOfType(f, a) + TotalOfType(f, b) + TotalOfType(f, c) == SumOfTypes(f, {a, b, c})
  {
    TotalOfTypeIsSumOfTypes(f, a);
    TotalOfTypeIsSumOfTypes(f, b);
    TotalOfTypeIsSumOfTypes(f, c);
    ThreeSets(f, {a}, {b}, {c});
    assert {a} + {b} + {c} == {a, b, c};
  }


  /** The sort key that puts larger values first. */
  function NegatedValue(a: Asset): real { -a.value }

  function Min(a: nat, b: nat): nat { if a < b then a else b }

  /** Largest value first and, among equal values, earlier position in the filtered list first. */
  predicate Descending(r: seq<(nat, Asset)>) {
    forall i, j :: 0 <= i < j < |r| ==>
      r[i].1.value > r[j].1.value || (r[i].1.value == r[j].1.value && r[i].0 < r[j].0)
  }

  /** Sorting by the negated value orders by value, largest first, ties by position. */
  lemma SortedByNegatedValue(r: seq<(nat, Asset)>)
    requires Sorted(NegatedValue, r)
    requires forall i, j :: 0 <= i < j < |r| ==> r[i].0 != r[j].0
    ensures Descending(r)
  {
    forall i, j | 0 <= i < j < |r|
      ensures r[i].1.value > r[j].1.value || (r[i].1.value == r[j].1.value && r[i].0 < r[j].0)
    {
      assert NotAfter(NegatedValue, r[i], r[j]);
    }
  }

  /** The ranked entry `e` goes ahead of the asset `a` at position `x`: a larger value, or an
      equal value and an earlier position. */
  predicate Outranks(e: (nat, Asset), x: nat, a: Asset) {
    e.1.value > a.value || (e.1.value == a.value && e.0 < x)
  }

  /** The three most valuable filtered assets, tagged with their position in `filtered`
      (a stable sort of a copy by descending value, cut to three). Every position left out is
      outranked by each kept entry, so a tie at the cut keeps the earliest positions. */
  function TopRanked(filtered: seq<Asset>): (r: seq<(nat, Asset)>)
    ensures |r| == Min(3, |filtered|)
    ensures Positions(filtered, r)
    ensures Descending(r)
    ensures multiset(Untag(r)) <= multiset(filtered)
    ensures forall x :: 0 <= x < |filtered| ==>
      (exists i :: 0 <= i < |r| && r[i].0 == x) || forall i :: 0 <= i < |r| ==> Outranks(r[i], x, filtered[x])
  {
    var r := SortedPrefix(filtered, NegatedValue, 3);
    SortedByNegatedValue(r);
    CutKeepsEarliest(filtered, r);
    r
  }

  lemma CutKeepsEarliest(filtered: seq<Asset>, r: seq<(nat, Asset)>)
    requires r == SortedPrefix(filtered, NegatedValue, 3)
    ensures forall x :: 0 <= x < |filtered| ==>
      (exists i :: 0 <= i < |r| && r[i].0 == x) || forall i :: 0 <= i < |r| ==> Outranks(r[i], x, filtered[x])
  {
    forall x | 0 <= x < |filtered|
      ensures (exists i :: 0 <= i < |r| && r[i].0 == x) || forall i :: 0 <= i < |r| ==> Outranks(r[i], x, filtered[x])
    {
      SortedPrefixKeepsEarliest(filtered, NegatedValue, 3, x);
    }
  }

  /** `topAssets`: at most three assets, largest first, each drawn from the filtered list and
      none shown more often than it occurs there. */
  function TopAssets(filtered: seq<Asset>): (r: seq<Asset>)
    ensures |r| == Min(3, |filtered|)
    ensures forall i, j :: 0 <= i < j < |r| ==> r[i].value >= r[j].value
    ensures forall i :: 0 <= i < |r| ==> r[i] in filtered
    ensures multiset(r) <= multiset(filtered)
    ensures forall i :: 0 <= i < |r| ==> r[i] == TopRanked(filtered)[i].1
  {
    var t := TopRanked(filtered);
    UntagDescending(t);
    UntagDrawn(filtered, t);
    Untag(t)
  }

  lemma UntagDescending(t: seq<(nat, Asset)>)
    requires Descending(t)
    ensures forall i, j :: 0 <= i < j < |Untag(t)| ==> Untag(t)[i].value >= Untag(t)[j].value
  {
    var r := Untag(t);
    forall i, j | 0 <= i < j < |r| ensures r[i].value >= r[j].value {
      assert r[i] == t[i].1 && r[j] == t[j].1;
    }
  }

  lemma UntagDrawn(filtered: seq<Asset>, t: seq<(nat, Asset)>)
    requires Positions(filtered, t)
    ensures forall i :: 0 <= i < |Untag(t)| ==> Untag(t)[i] in filtered
  {
    var r := Untag(t);
    forall i | 0 <= i < |r| ensures r[i] in filtered {
      assert r[i] == filtered[t[i].0];
    }
  }

  /** No filtered asset left out of the top list is worth more than any asset in it, and one
      whose position is left out is worth less than each shown asset, or as much as one that comes
      earlier in the filtered list. */
  lemma TopAssetsAreLargest(filtered: seq<Asset>, k: nat)
    requires k < |filtered|
    ensures filtered[k] in TopAssets(filtered)
         || forall i :: 0 <= i < |TopAssets(filtered)| ==> TopAssets(filtered)[i].value >= filtered[k].value
    ensures (exists i :: 0 <= i < |TopRanked(filtered)| && TopRanked(filtered)[i].0 == k)
         || forall i :: 0 <= i < |TopAssets(filtered)| ==>
              TopAssets(filtered)[i].value > filtered[k].value
              || (TopAssets(filtered)[i].value == filtered[k].value && TopRanked(filtered)[i].0 < k)
  {
    var top := SortedPrefix(filtered, NegatedValue, 3);
    assert TopAssets(filtered) == Untag(top);
    SortedPrefixIsLeast(filtered, NegatedValue, 3, k);
    ShownOutrankUnranked(filtered, k);
  }

  /** A position the ranking leaves out is outranked by every shown asset. */
  lemma ShownOutrankUnranked(filtered: seq<Asset>, k: nat)
    requires k < |filtered|
    ensures (exists i :: 0 <= i < |TopRanked(filtered)| && TopRanked(filtered)[i].0 == k)
         || forall i :: 0 <= i < |TopAssets(filtered)| ==>
              TopAssets(filtered)[i].value > filtered[k].value
              || (TopAssets(filtered)[i].value == filtered[k].value && TopRanked(filtered)[i].0 < k)
  {
    var t := TopRanked(filtered);
    var r := TopAssets(filtered);
    if !(exists i :: 0 <= i < |t| && t[i].0 == k) {
      forall i | 0 <= i < |r|
        ensures r[i].value > filtered[k].value || (r[i].value == filtered[k].value && t[i].0 < k)
      {
        assert r[i] == t[i].1;
        assert Outranks(t[i], k, filtered[k]);
      }
    }
  }
}
