/** The crypto details dialog (`src/components/assets/CryptoDetailsDialog.tsx`): the current unit
    price, the performance shown, the name of the holding account, and the delete confirmation. */
module CryptoDetails {
  import opened Wrappers
  import opened Assets
  import Ledger

  /** The quantity when it is present and positive (`crypto.quantity && crypto.quantity > 0`). */
  predicate HasQuantity(a: Asset) {
    a.quantity.Some? && a.quantity.value > 0.0
  }

  /** `currentPrice`: value per unit when a positive quantity is known, else the purchase price
      (or 0 without one). */
  function CurrentPrice(a: Asset): (r: real)
    ensures HasQuantity(a) ==> r * a.quantity.value == a.value
    ensures !HasQuantity(a) ==> r == Num(a.purchasePrice)
  {
    if HasQuantity(a) then a.value / a.quantity.value else Num(a.purchasePrice)
  }

  /** `performance`: a stored non-zero performance wins; otherwise the percentage change from the
      purchase price to the current price when both are non-zero; otherwise 0. */
  function Performance(a: Asset): (r: real)
    ensures a.performance.Some? && a.performance.value != 0.0 ==> r == a.performance.value
    ensures Num(a.performance) == 0.0 && Num(a.purchasePrice) != 0.0 && CurrentPrice(a) != 0.0 ==>
      r * a.purchasePrice.value == (CurrentPrice(a) - a.purchasePrice.value) * 100.0
    ensures Num(a.performance) == 0.0 && (Num(a.purchasePrice) == 0.0 || CurrentPrice(a) == 0.0) ==> r == 0.0
  {
    if a.performance.Some? && a.performance.value != 0.0 then a.performance.value
    else if a.purchasePrice.Some? && a.purchasePrice.value != 0.0 && CurrentPrice(a) != 0.0 then
      (CurrentPrice(a) - a.purchasePrice.value) / a.purchasePrice.value * 100.0
    else 0.0
  }

  /** A holding worth exactly its purchase cost shows its purchase price and no performance. */
  lemma AtCostShowsNoGain(a: Asset)
    requires HasQuantity(a) && a.purchasePrice.Some? && a.purchasePrice.value != 0.0
    requires a.value == a.quantity.value * a.purchasePrice.value
    requires Num(a.performance) == 0.0
    ensures CurrentPrice(a) == a.purchasePrice.value
    ensures Performance(a) == 0.0
  {
    var q := a.quantity.value;
    var p := CurrentPrice(a);
    assert p * q == a.purchasePrice.value * q;
    assert (p - a.purchasePrice.value) * q == 0.0;
  }

  /** Without a stored performance, a current price above a positive purchase price is a gain. */
  lemma RiseShowsGain(a: Asset)
    requires Num(a.performance) == 0.0
    requires a.purchasePrice.Some? && a.purchasePrice.value > 0.0
    requires CurrentPrice(a) > a.purchasePrice.value
    ensures Performance(a) > 0.0
  {
    var r := Performance(a);
    assert r * a.purchasePrice.value == (CurrentPrice(a) - a.purchasePrice.value) * 100.0;
    assert r * a.purchasePrice.value > 0.0;
  }

  /** An asset that can hold crypto: a crypto account or an investment account. */
  predicate IsHolder(a: Asset, id: string) {
    a.id == id && (a.assetType == CryptoAccount || a.assetType == InvestmentAccount)
  }

  /** The first account in `assets` (from `from` on) with the given id (`find`). */
  function FindAccount(assets: seq<Asset>, id: string, from: nat): (r: Option<nat>)
    requires from <= |assets|
    ensures r.Some? ==> from <= r.value < |assets| && IsHolder(assets[r.value], id)
    ensures r.Some? ==> forall j :: from <= j < r.value ==> !IsHolder(assets[j], id)
    ensures r.None? <==> forall j :: from <= j < |assets| ==> !IsHolder(assets[j], id)
    decreases |assets| - from
  {
    if from == |assets| then None
    else if IsHolder(assets[from], id) then Some(from)
    else FindAccount(assets, id, from + 1)
  }

  /** `getAccountName`: a personal wallet without an account id; the account's name when it is
      found among the assets; otherwise `Compte <id>`. It never fails. */
  function AccountName(crypto: Asset, assets: seq<Asset>): (r: string)
    ensures !Truthy(crypto.cryptoAccountId) ==> r == "Portefeuille personnel"
    ensures Truthy(crypto.cryptoAccountId) && (exists k :: 0 <= k < |assets| && IsHolder(assets[k], crypto.cryptoAccountId.value)) ==>
      exists k :: 0 <= k < |assets| && IsHolder(assets[k], crypto.cryptoAccountId.value) && r == assets[k].name
        && forall j :: 0 <= j < k ==> !IsHolder(assets[j], crypto.cryptoAccountId.value)
    ensures Truthy(crypto.cryptoAccountId) && (forall k :: 0 <= k < |assets| ==> !IsHolder(assets[k], crypto.cryptoAccountId.value)) ==>
      r == "Compte " + crypto.cryptoAccountId.value
  {
    if !Truthy(crypto.cryptoAccountId) then "Portefeuille personnel"
    else
      match FindAccount(assets, crypto.cryptoAccountId.value, 0)
      case Some(k) => assets[k].name
      case None => "Compte " + crypto.cryptoAccountId.value
  }

  /** Deleting the holding account through the ledger does not break the dialog: the crypto
      then names its account `Compte <id>`. */
  lemma DeletedAccountFallsBack(crypto: Asset, assets: seq<Asset>)
    requires Truthy(crypto.cryptoAccountId)
    ensures AccountName(crypto, Ledger.DeleteAsset(assets, crypto.cryptoAccountId.value))
         == "Compte " + crypto.cryptoAccountId.value
  {
  }

  /** The outcome of confirming a delete: the id handed to `onDeleteCrypto` and whether the
      dialogs close. */
  datatype DeleteOutcome = DeleteOutcome(deleted: Option<string>, closed: bool)

  /** `handleConfirmDelete`: only with a handler is the id passed on and the dialogs closed. */
  function ConfirmDelete(crypto: Asset, hasOnDelete: bool): (r: DeleteOutcome)
    ensures r.deleted.Some? <==> hasOnDelete
    ensures r.deleted.Some? ==> r.deleted.value == crypto.id
    ensures r.closed <==> r.deleted.Some?
  {
    if hasOnDelete then DeleteOutcome(Some(crypto.id), true) else DeleteOutcome(None, false)
  }
}
