/** The real-estate page: the summary above the list of properties and the add handler. */
module RealEstatePage {
  import opened Seqs
  import opened Assets
  import opened Portfolio
  import Ledger

  /** The page's list: the ledger's real-estate rows, in ledger order. */
  function Properties(assets: seq<Asset>): (r: seq<Asset>)
    ensures forall i :: 0 <= i < |r| ==> r[i].assetType == RealEstate && r[i] in assets
    ensures forall i :: 0 <= i < |assets| && assets[i].assetType == RealEstate ==> assets[i] in r
  {
    OfType(assets, RealEstate)
  }

  /** `handleAddProperty`: whatever the form chose, the asset sent to the ledger is real estate. */
  function HandleAddProperty(candidate: Asset): (r: Asset)
    ensures r.assetType == RealEstate
    ensures r.(assetType := candidate.assetType) == candidate
  {
    ForceType(candidate, RealEstate)
  }

  /** Adding a property from the page shows one more property, and the page's total grows by
      exactly its value. */
  lemma AddedPropertyShown(assets: seq<Asset>, candidate: Asset, freshId: string, txId: string, now: int)
    requires IsFreshId(assets, freshId)
    ensures var r := Ledger.AddAsset(assets, HandleAddProperty(candidate), freshId, txId, now);
      && Properties(r.assets) == Properties(assets) + [r.asset]
      && Summarize(Properties(r.assets)).count == Summarize(Properties(assets)).count + 1
      && Summarize(Properties(r.assets)).totalValue
           == Summarize(Properties(assets)).totalValue + candidate.value
  {
    var c := HandleAddProperty(candidate);
    var r := Ledger.AddAsset(assets, c, freshId, txId, now);
    Ledger.AddedToKindView(assets, c, freshId, txId, now);
    SumByAppend(Properties(assets), [r.asset], ValueOf);
    assert SumBy([r.asset], ValueOf) == r.asset.value + SumBy([r.asset][1..], ValueOf);
    assert [r.asset][1..] == [];
  }
}
