/** The crypto page: the summary above the holdings (count, total, mean performance) and the add
    handler. */
module CryptoPage {
  import opened Seqs
  import opened Assets
  import opened Portfolio
  import Ledger

  /** The page's list: the ledger's crypto rows, in ledger order. */
  function Holdings(assets: seq<Asset>): (r: seq<Asset>)
    ensures forall i :: 0 <= i < |r| ==> r[i].assetType == Crypto && r[i] in assets
    ensures forall i :: 0 <= i < |assets| && assets[i].assetType == Crypto ==> assets[i] in r
  {
    OfType(assets, Crypto)
  }

  /** `handleAddAsset`: whatever the form chose, the asset sent to the ledger is a crypto holding. */
  function HandleAddAsset(candidate: Asset): (r: Asset)
    ensures r.assetType == Crypto
    ensures r.(assetType := candidate.assetType) == candidate
  {
    ForceType(candidate, Crypto)
  }

  /** Adding a holding from the page raises the displayed count by one and the total by its value,
      and the new row (with the ledger's fresh id) is listed last. */
  lemma AddedHoldingShown(assets: seq<Asset>, candidate: Asset, freshId: string, txId: string, now: int)
    requires IsFreshId(assets, freshId)
    ensures var r := Ledger.AddAsset(assets, HandleAddAsset(candidate), freshId, txId, now);
      var before := Summarize(Holdings(assets));
      var after := Summarize(Holdings(r.assets));
      && after.count == before.count + 1
      && after.totalValue == before.totalValue + candidate.value
      && Holdings(r.assets)[|Holdings(r.assets)| - 1].id == freshId
  {
    var c := HandleAddAsset(candidate);
    var r := Ledger.AddAsset(assets, c, freshId, txId, now);
    Ledger.AddedToKindView(assets, c, freshId, txId, now);
    SumByAppend(Holdings(assets), [r.asset], ValueOf);
    assert SumBy([r.asset], ValueOf) == r.asset.value + SumBy([r.asset][1..], ValueOf);
    assert [r.asset][1..] == [];
  }

  /** With every holding at the same performance, the page shows that performance as the mean. */
  lemma UniformPerformanceIsMean(holdings: seq<Asset>, p: real)
    requires |holdings| > 0
    requires forall i :: 0 <= i < |holdings| ==> PerformanceOf(holdings[i]) == p
    ensures Summarize(holdings).avgPerformance == p
  {
    UniformSum(holdings, p);
  }

  lemma {:induction false} UniformSum(s: seq<Asset>, p: real)
    requires forall i :: 0 <= i < |s| ==> PerformanceOf(s[i]) == p
    ensures SumBy(s, PerformanceOf) == (|s| as real) * p
  {
    if |s| > 0 {
      UniformSum(s[1..], p);
    }
  }
}
