/** The asset ledger of `src/pages/Index.tsx`: adding an asset (with stock stacking), patching or
    replacing an asset by id, deleting by id, and the total wealth of the collection.

    The collection is an immutable sequence replaced by each operation. Identifiers and timestamps,
    which the application draws from the clock, are parameters. */
module Ledger {
  import opened Wrappers
  import opened Seqs
  import opened Assets
  import opened Portfolio

  /** A candidate that may be stacked: a stock with a non-empty ticker and investment account. */
  predicate Stackable(c: Asset) {
    c.assetType == Stock && Truthy(c.ticker) && Truthy(c.investmentAccountId)
  }

  /** `a` is a holding that the purchase `c` stacks onto: a stock with exactly the same ticker
      (case-sensitive) in the same investment account. */
  predicate SameHolding(a: Asset, c: Asset) {
    a.assetType == Stock && a.ticker == c.ticker && a.investmentAccountId == c.investmentAccountId
  }

  /** Adding `c` to `assets` takes the stacking path. */
  predicate IsStack(assets: seq<Asset>, c: Asset) {
    Stackable(c) && exists k :: 0 <= k < |assets| && SameHolding(assets[k], c)
  }

  /** The first position at or after `from` holding what `c` stacks onto (`findIndex`). */
  function FindHolding(assets: seq<Asset>, c: Asset, from: nat): (r: Option<nat>)
    requires from <= |assets|
    ensures r.Some? ==> from <= r.value < |assets| && SameHolding(assets[r.value], c)
    ensures r.Some? ==> forall j :: from <= j < r.value ==> !SameHolding(assets[j], c)
    ensures r.None? <==> forall j :: from <= j < |assets| ==> !SameHolding(assets[j], c)
    decreases |assets| - from
  {
    if from == |assets| then None
    else if SameHolding(assets[from], c) then Some(from)
    else FindHolding(assets, c, from + 1)
  }

  /** The position of the holding a stacking purchase merges into. */
  function HoldingIndex(assets: seq<Asset>, c: Asset): (k: nat)
    requires IsStack(assets, c)
    ensures k < |assets| && SameHolding(assets[k], c)
    ensures forall j :: 0 <= j < k ==> !SameHolding(assets[j], c)
  {
    FindHolding(assets, c, 0).value
  }

  /** The transaction recording the purchase `c`: its total is quantity times price, an absent
      quantity or price counting as zero. Like the application, it sets no `kind`. */
  function PurchaseTx(c: Asset, txId: string, now: int): (r: Transaction)
    ensures r.id == txId && r.date == now
    ensures r.quantity == Num(c.quantity) && r.price == Num(c.purchasePrice)
    ensures r.total == r.quantity * r.price
    ensures r.kind.None? && r.performance.None?
  {
    Transaction(txId, now, Num(c.quantity), Num(c.purchasePrice),
                Num(c.quantity) * Num(c.purchasePrice), None, None)
  }

  /** The transactions of `a`, an absent list read as empty. */
  function TxsOf(a: Asset): seq<Transaction> {
    a.transactions.GetOr([])
  }

  /** The combined quantity after stacking `c` onto `existing`. */
  function StackedQuantity(existing: Asset, c: Asset): real {
    Num(existing.quantity) + Num(c.quantity)
  }

  /** Merges the purchase `c` into `existing`: quantities and values add up, the purchase price
      becomes the weighted average, one transaction is appended, and nothing else changes. */
  function Stack(existing: Asset, c: Asset, txId: string, now: int): (r: Asset)
    requires StackedQuantity(existing, c) != 0.0
    ensures r.quantity == Some(Num(existing.quantity) + Num(c.quantity))
    ensures r.value == existing.value + Num(c.quantity) * Num(c.purchasePrice)
    ensures r.purchasePrice.Some? && r.purchasePrice.value * r.quantity.value == r.value
    ensures r.transactions == Some(TxsOf(existing) + [PurchaseTx(c, txId, now)])
    ensures r.(quantity := existing.quantity, value := existing.value,
               purchasePrice := existing.purchasePrice, transactions := existing.transactions) == existing
  {
    var q := StackedQuantity(existing, c);
    var v := existing.value + Num(c.quantity) * Num(c.purchasePrice);
    existing.(quantity := Some(q), value := v, purchasePrice := Some(v / q),
              transactions := Some(TxsOf(existing) + [PurchaseTx(c, txId, now)]))
  }

  function AssetId(a: Asset): string { a.id }

  /** The weighted average is defined: stacking `c` does not bring the holding to quantity zero. */
  predicate StackDefined(assets: seq<Asset>, c: Asset) {
    IsStack(assets, c) ==> StackedQuantity(assets[HoldingIndex(assets, c)], c) != 0.0
  }

  /** The new row built by the insert path: the candidate with the fresh id and the creation time,
      a stock seeded with its first transaction and anything else keeping its own. */
  function Seeded(c: Asset, freshId: string, txId: string, now: int): (r: Asset)
    ensures r.id == freshId && r.createdAt == Some(now)
    ensures r.(id := c.id, createdAt := c.createdAt, transactions := c.transactions) == c
    ensures c.assetType == Stock ==> r.transactions == Some([PurchaseTx(c, txId, now)])
    ensures c.assetType != Stock ==> r.transactions == c.transactions
  {
    var a := c.(id := freshId, createdAt := Some(now));
    if a.assetType == Stock then a.(transactions := Some([PurchaseTx(c, txId, now)])) else a
  }

  /** The collection after an add, and the asset the add returns. */
  datatype Added = Added(assets: seq<Asset>, asset: Asset)

  /** `addAsset`: a stackable purchase of a held stock is merged into the first such holding
      (every row sharing that holding's id is replaced); anything else is appended as a new row. */
  function AddAsset(assets: seq<Asset>, c: Asset, freshId: string, txId: string, now: int): (r: Added)
    requires IsFreshId(assets, freshId)
    requires StackDefined(assets, c)
    ensures IsStack(assets, c) <==> |r.assets| == |assets|
    ensures IsStack(assets, c) ==>
      var k := HoldingIndex(assets, c);
      && r.asset == Stack(assets[k], c, txId, now)
      && forall i :: 0 <= i < |assets| ==>
           r.assets[i] == if assets[i].id == assets[k].id then r.asset else assets[i]
    ensures !IsStack(assets, c) ==> r.assets == assets + [r.asset] && r.asset == Seeded(c, freshId, txId, now)
  {
    if IsStack(assets, c) then
      var existing := assets[HoldingIndex(assets, c)];
      var updated := Stack(existing, c, txId, now);
      Added(ReplaceKeyed(assets, AssetId, existing.id, updated), updated)
    else
      var a := Seeded(c, freshId, txId, now);
      Added(assets + [a], a)
  }

  /** Adding keeps identifiers unique: a stack keeps the holding's id, an insert uses a fresh one. */
  lemma AddPreservesUniqueIds(assets: seq<Asset>, c: Asset, freshId: string, txId: string, now: int)
    requires IsFreshId(assets, freshId) && StackDefined(assets, c)
    requires IdsUnique(assets)
    ensures IdsUnique(AddAsset(assets, c, freshId, txId, now).assets)
  {
    var r := AddAsset(assets, c, freshId, txId, now);
    if IsStack(assets, c) {
      assert forall i :: 0 <= i < |assets| ==> r.assets[i].id == assets[i].id;
    } else {
      assert forall i :: 0 <= i < |assets| ==> r.assets[i] == assets[i];
    }
  }

  /** With unique ids a stack rewrites exactly the matched row, in place. */
  lemma StackRewritesOneRow(assets: seq<Asset>, c: Asset, freshId: string, txId: string, now: int)
    requires IsFreshId(assets, freshId) && StackDefined(assets, c)
    requires IdsUnique(assets) && IsStack(assets, c)
    ensures AddAsset(assets, c, freshId, txId, now).assets
         == assets[HoldingIndex(assets, c) := AddAsset(assets, c, freshId, txId, now).asset]
  {
  }

  /** A stack adds the purchase cost to the total wealth; an insert adds the new row's value. */
  lemma AddAssetTotalWealth(assets: seq<Asset>, c: Asset, freshId: string, txId: string, now: int)
    requires IsFreshId(assets, freshId) && StackDefined(assets, c)
    requires IdsUnique(assets)
    ensures IsStack(assets, c) ==>
      TotalValue(AddAsset(assets, c, freshId, txId, now).assets)
        == TotalValue(assets) + Num(c.quantity) * Num(c.purchasePrice)
    ensures !IsStack(assets, c) ==>
      TotalValue(AddAsset(assets, c, freshId, txId, now).assets) == TotalValue(assets) + c.value
  {
    if IsStack(assets, c) {
      StackTotalWealth(assets, c, freshId, txId, now);
    } else {
      var a := AddAsset(assets, c, freshId, txId, now).asset;
      TotalValueAppend(assets, [a]);
      assert SumBy([a], ValueOf) == ValueOf(a) + SumBy([a][1..], ValueOf);
    }
  }

  /** Rewriting one row moves the total by the change of that row's value. */
  lemma RowUpdateTotal(assets: seq<Asset>, k: nat, x: Asset)
    requires k < |assets|
    ensures TotalValue(assets[k := x]) == TotalValue(assets) - assets[k].value + x.value
  {
    SumByUpdate(assets, k, x, ValueOf);
  }

  lemma StackTotalWealth(assets: seq<Asset>, c: Asset, freshId: string, txId: string, now: int)
    requires IsFreshId(assets, freshId) && StackDefined(assets, c)
    requires IdsUnique(assets) && IsStack(assets, c)
    ensures TotalValue(AddAsset(assets, c, freshId, txId, now).assets)
         == TotalValue(assets) + Num(c.quantity) * Num(c.purchasePrice)
  {
    var k := HoldingIndex(assets, c);
    var x := Stack(assets[k], c, txId, now);
    StackInPlace(assets, c, freshId, txId, now);
    assert AddAsset(assets, c, freshId, txId, now).assets == assets[k := x];
    assert x.value == assets[k].value + Num(c.quantity) * Num(c.purchasePrice);
    RowUpdateTotal(assets, k, x);
  }

  /** A purchase of any kind other than a stock is never merged: the view of its own kind gains
      exactly the new row, carrying the purchase's value. */
  lemma AddedToKindView(assets: seq<Asset>, c: Asset, freshId: string, txId: string, now: int)
    requires IsFreshId(assets, freshId)
    requires c.assetType != Stock
    ensures var r := AddAsset(assets, c, freshId, txId, now);
      && OfType(r.assets, c.assetType) == OfType(assets, c.assetType) + [r.asset]
      && r.asset.value == c.value
      && r.asset.id == freshId
  {
    var r := AddAsset(assets, c, freshId, txId, now);
    assert r.assets == assets + [r.asset];
    OfTypeAppend(assets, r.asset, c.assetType);
  }

  /** After a stack the same holding is still the first match, so later purchases keep stacking
      onto it. */
  lemma RestackFindsSameHolding(assets: seq<Asset>, c: Asset, c': Asset, freshId: string, txId: string, now: int)
    requires IsFreshId(assets, freshId) && StackDefined(assets, c)
    requires IdsUnique(assets) && IsStack(assets, c)
    requires Stackable(c') && c'.ticker == c.ticker && c'.investmentAccountId == c.investmentAccountId
    ensures IsStack(AddAsset(assets, c, freshId, txId, now).assets, c')
    ensures HoldingIndex(AddAsset(assets, c, freshId, txId, now).assets, c') == HoldingIndex(assets, c)
  {
    var k := HoldingIndex(assets, c);
    StackInPlace(assets, c, freshId, txId, now);
    RewriteKeepsHolding(assets, c, c', Stack(assets[k], c, txId, now));
  }

  /** Rewriting the matched holding's row with a holding of the same stock and account leaves it
      the first match for every purchase of that stock in that account. */
  lemma RewriteKeepsHolding(assets: seq<Asset>, c: Asset, c': Asset, x: Asset)
    requires IsStack(assets, c) && SameHolding(x, c)
    requires Stackable(c') && c'.ticker == c.ticker && c'.investmentAccountId == c.investmentAccountId
    ensures IsStack(assets[HoldingIndex(assets, c) := x], c')
    ensures HoldingIndex(assets[HoldingIndex(assets, c) := x], c') == HoldingIndex(assets, c)
  {
    var k := HoldingIndex(assets, c);
    var r := assets[k := x];
    assert SameHolding(r[k], c');
    assert forall j :: 0 <= j < k ==> r[j] == assets[j] && !SameHolding(r[j], c');
  }

  // ---------------------------------------------------------------- updates

  /** The fields of a `Partial<Asset>`: `None` means the key is absent from the patch. */
  datatype Patch = Patch(
    id: Option<string>,
    name: Option<string>,
    assetType: Option<AssetType>,
    value: Option<real>,
    performance: Option<real>,
    purchasePrice: Option<real>,
    quantity: Option<real>,
    ticker: Option<string>,
    investmentAccountId: Option<string>,
    cryptoAccountId: Option<string>,
    transactions: Option<seq<Transaction>>,
    accountType: Option<AccountType>,
    usageType: Option<UsageType>,
    createdAt: Option<int>)

  const EmptyPatch: Patch :=
    Patch(None, None, None, None, None, None, None, None, None, None, None, None, None, None)

  function Pick<T>(current: Option<T>, given: Option<T>): Option<T> {
    if given.Some? then given else current
  }

  /** `{...a, ...p}`: fields present in the patch win, absent ones keep the asset's. */
  function ApplyPatch(a: Asset, p: Patch): (r: Asset)
    ensures p == EmptyPatch ==> r == a
    ensures p.id.Some? ==> r.id == p.id.value
    ensures p.id.None? ==> r.id == a.id
    ensures p.name.Some? ==> r.name == p.name.value
    ensures p.name.None? ==> r.name == a.name
    ensures p.assetType.Some? ==> r.assetType == p.assetType.value
    ensures p.assetType.None? ==> r.assetType == a.assetType
    ensures p.value.Some? ==> r.value == p.value.value
    ensures p.value.None? ==> r.value == a.value
    ensures p.performance.Some? ==> r.performance == p.performance
    ensures p.performance.None? ==> r.performance == a.performance
    ensures p.purchasePrice.Some? ==> r.purchasePrice == p.purchasePrice
    ensures p.purchasePrice.None? ==> r.purchasePrice == a.purchasePrice
    ensures p.quantity.Some? ==> r.quantity == p.quantity
    ensures p.quantity.None? ==> r.quantity == a.quantity
    ensures p.ticker.Some? ==> r.ticker == p.ticker
    ensures p.ticker.None? ==> r.ticker == a.ticker
    ensures p.investmentAccountId.Some? ==> r.investmentAccountId == p.investmentAccountId
    ensures p.investmentAccountId.None? ==> r.investmentAccountId == a.investmentAccountId
    ensures p.cryptoAccountId.Some? ==> r.cryptoAccountId == p.cryptoAccountId
    ensures p.cryptoAccountId.None? ==> r.cryptoAccountId == a.cryptoAccountId
    ensures p.transactions.Some? ==> r.transactions == p.transactions
    ensures p.transactions.None? ==> r.transactions == a.transactions
    ensures p.accountType.Some? ==> r.accountType == p.accountType
    ensures p.accountType.None? ==> r.accountType == a.accountType
    ensures p.usageType.Some? ==> r.usageType == p.usageType
    ensures p.usageType.None? ==> r.usageType == a.usageType
    ensures p.createdAt.Some? ==> r.createdAt == p.createdAt
    ensures p.createdAt.None? ==> r.createdAt == a.createdAt
  {
    Asset(
      p.id.GetOr(a.id), p.name.GetOr(a.name), p.assetType.GetOr(a.assetType), p.value.GetOr(a.value),
      Pick(a.performance, p.performance), Pick(a.purchasePrice, p.purchasePrice),
      Pick(a.quantity, p.quantity), Pick(a.ticker, p.ticker),
      Pick(a.investmentAccountId, p.investmentAccountId), Pick(a.cryptoAccountId, p.cryptoAccountId),
      Pick(a.transactions, p.transactions), Pick(a.accountType, p.accountType),
      Pick(a.usageType, p.usageType), Pick(a.createdAt, p.createdAt))
  }

  /** An empty patch changes nothing, and applying a patch twice is applying it once. */
  lemma ApplyPatchLaws(a: Asset, p: Patch)
    ensures ApplyPatch(a, EmptyPatch) == a
    ensures ApplyPatch(ApplyPatch(a, p), p) == ApplyPatch(a, p)
  {
  }

  /** `updateAsset(id, patch)`: every asset with that id is merged with the patch; nothing else
      changes, and an unknown id changes nothing at all. */
  function PatchAsset(assets: seq<Asset>, id: string, p: Patch): (r: seq<Asset>)
    ensures |r| == |assets|
    ensures forall i :: 0 <= i < |r| ==> r[i] == if assets[i].id == id then ApplyPatch(assets[i], p) else assets[i]
    ensures IsFreshId(assets, id) ==> r == assets
  {
    seq(|assets|, i requires 0 <= i < |assets| => if assets[i].id == id then ApplyPatch(assets[i], p) else assets[i])
  }

  /** `updateAsset(asset)`: every asset with the same id is replaced wholesale; the new asset is
      in the result exactly when its id was present, and an unknown id changes nothing. */
  function ReplaceAsset(assets: seq<Asset>, b: Asset): (r: seq<Asset>)
    ensures |r| == |assets|
    ensures IsFreshId(assets, b.id) ==> r == assets
    ensures b in r <==> !IsFreshId(assets, b.id)
    ensures forall i :: 0 <= i < |r| && assets[i].id != b.id ==> r[i] == assets[i]
  {
    var r := ReplaceKeyed(assets, AssetId, b.id, b);
    assert b in r ==> exists i :: 0 <= i < |r| && r[i] == b;
    r
  }

  /** The two call shapes of `updateAsset`; the patch is absent when the second argument is. */
  datatype UpdateRequest = ById(id: string, patch: Option<Patch>) | Whole(asset: Asset)

  /** `updateAsset` dispatching on the shape of its arguments; an id without a patch is a no-op. */
  function UpdateAsset(assets: seq<Asset>, req: UpdateRequest): (r: seq<Asset>)
    ensures req.ById? && req.patch.None? ==> r == assets
    ensures req.ById? && IsFreshId(assets, req.id) ==> r == assets
    ensures req.Whole? ==> r == ReplaceAsset(assets, req.asset)
    ensures req.ById? && req.patch.Some? ==> r == PatchAsset(assets, req.id, req.patch.value)
  {
    match req
    case ById(id, Some(p)) => PatchAsset(assets, id, p)
    case ById(_, None) => assets
    case Whole(b) => ReplaceAsset(assets, b)
  }

  /** A patch that does not set `id` keeps identifiers unique. */
  lemma PatchPreservesUniqueIds(assets: seq<Asset>, id: string, p: Patch)
    requires IdsUnique(assets) && p.id.None?
    ensures IdsUnique(PatchAsset(assets, id, p))
  {
    var r := PatchAsset(assets, id, p);
    assert forall i :: 0 <= i < |r| ==> r[i].id == assets[i].id;
  }

  /** Replacing a whole asset keeps identifiers unique: every row keeps its id. */
  lemma ReplacePreservesUniqueIds(assets: seq<Asset>, b: Asset)
    requires IdsUnique(assets)
    ensures IdsUnique(ReplaceAsset(assets, b))
  {
    var r := ReplaceAsset(assets, b);
    assert forall i :: 0 <= i < |r| ==> AssetId(r[i]) == AssetId(assets[i]);
  }

  /** Every update that does not set `id` through a patch keeps identifiers unique. */
  lemma UpdatePreservesUniqueIds(assets: seq<Asset>, req: UpdateRequest)
    requires IdsUnique(assets)
    requires req.ById? && req.patch.Some? ==> req.patch.value.id.None?
    ensures IdsUnique(UpdateAsset(assets, req))
  {
    match req
    case ById(id, Some(p)) => PatchPreservesUniqueIds(assets, id, p);
    case ById(_, None) =>
    case Whole(b) => ReplacePreservesUniqueIds(assets, b);
  }

  // ---------------------------------------------------------------- deletion

  /** `deleteAsset`: every asset with that id is removed, the rest keep their order. Nothing that
      refers to the removed asset (through `investmentAccountId` or `cryptoAccountId`) is touched. */
  function DeleteAsset(assets: seq<Asset>, id: string): (r: seq<Asset>)
    ensures |r| <= |assets|
    ensures forall i :: 0 <= i < |r| ==> r[i].id != id && r[i] in assets
    ensures forall i :: 0 <= i < |assets| && assets[i].id != id ==> assets[i] in r
  {
    Filter(assets, (a: Asset) => a.id != id)
  }

  /** Deleting keeps identifiers unique. */
  lemma DeletePreservesUniqueIds(assets: seq<Asset>, id: string)
    requires IdsUnique(assets)
    ensures IdsUnique(DeleteAsset(assets, id))
  {
    FilterKeepsDistinct(assets, (a: Asset) => a.id != id, AssetId);
  }

  /** Deleting keeps every row with another id exactly as often as it occurs, and repeats nothing. */
  lemma DeleteKeepsCounts(assets: seq<Asset>, id: string)
    ensures multiset(DeleteAsset(assets, id)) <= multiset(assets)
    ensures forall a :: a in assets && a.id != id ==> multiset(DeleteAsset(assets, id))[a] == multiset(assets)[a]
  {
    FilterCounts(assets, (a: Asset) => a.id != id);
  }

  /** Deleting an unknown id changes nothing. */
  lemma DeleteUnknownIsNoOp(assets: seq<Asset>, id: string)
    requires IsFreshId(assets, id)
    ensures DeleteAsset(assets, id) == assets
  {
    FilterKeepsAll(assets, (a: Asset) => a.id != id);
  }

  /** With unique ids, deleting the id of row `k` removes exactly that row. */
  lemma DeleteRemovesOneRow(assets: seq<Asset>, k: nat)
    requires IdsUnique(assets) && k < |assets|
    ensures DeleteAsset(assets, assets[k].id) == assets[..k] + assets[k + 1..]
  {
    var id := assets[k].id;
    var p := (a: Asset) => a.id != id;
    assert assets == assets[..k] + ([assets[k]] + assets[k + 1..]);
    FilterAppend(assets[..k], [assets[k]] + assets[k + 1..], p);
    FilterAppend([assets[k]], assets[k + 1..], p);
    FilterKeepsAll(assets[..k], p);
    FilterKeepsAll(assets[k + 1..], p);
    assert Filter([assets[k]], p) == [];
  }

  /** Deleting takes exactly the values of the removed rows off the total wealth. */
  lemma DeleteTotalWealth(assets: seq<Asset>, id: string)
    ensures TotalValue(DeleteAsset(assets, id))
         == TotalValue(assets) - TotalValue(Filter(assets, (a: Asset) => a.id == id))
  {
    SumByPartition(assets, ValueOf, (a: Asset) => a.id == id, (a: Asset) => a.id != id);
  }

  // ---------------------------------------------------------------- repeated stacking

  function QuantityOf(a: Asset): real { Num(a.quantity) }

  function CostOf(a: Asset): real { Num(a.quantity) * Num(a.purchasePrice) }

  /** A run of purchases the holding `h` can absorb one after another: no quantity is negative and
      the first purchase already leaves the holding with a positive quantity, so every weighted
      average along the way is defined. */
  predicate RunDefined(h: Asset, ps: seq<Asset>) {
    && Num(h.quantity) >= 0.0
    && (forall i :: 0 <= i < |ps| ==> Num(ps[i].quantity) >= 0.0)
    && (|ps| > 0 ==> Num(h.quantity) + Num(ps[0].quantity) > 0.0)
  }

  /** A holding after stacking each purchase of `ps` in turn, the `i`-th recorded under the
      transaction id and time `stamps[i]`. */
  function StackAll(h: Asset, ps: seq<Asset>, stamps: seq<(string, int)>): (r: Asset)
    requires |stamps| == |ps| && RunDefined(h, ps)
    ensures Num(r.quantity) == Num(h.quantity) + SumBy(ps, QuantityOf)
    ensures r.value == h.value + SumBy(ps, CostOf)
    ensures |ps| > 0 ==> r.purchasePrice.Some? && r.purchasePrice.value * Num(r.quantity) == r.value
    ensures |TxsOf(r)| == |TxsOf(h)| + |ps|
    ensures TxsOf(r)[..|TxsOf(h)|] == TxsOf(h)
    ensures forall i :: 0 <= i < |ps| ==>
      TxsOf(r)[|TxsOf(h)| + i] == PurchaseTx(ps[i], stamps[i].0, stamps[i].1)
    ensures r.(quantity := h.quantity, value := h.value,
               purchasePrice := h.purchasePrice, transactions := h.transactions) == h
    decreases |ps|
  {
    if |ps| == 0 then h
    else
      var h' := Stack(h, ps[0], stamps[0].0, stamps[0].1);
      var r := StackAll(h', ps[1..], stamps[1..]);
      StackAllTransactions(h, h', r, ps, stamps);
      r
  }

  /** The transaction bookkeeping of one step of `StackAll`. */
  lemma StackAllTransactions(h: Asset, h': Asset, r: Asset, ps: seq<Asset>, stamps: seq<(string, int)>)
    requires |stamps| == |ps| > 0
    requires TxsOf(h') == TxsOf(h) + [PurchaseTx(ps[0], stamps[0].0, stamps[0].1)]
    requires |TxsOf(r)| == |TxsOf(h')| + |ps| - 1
    requires TxsOf(r)[..|TxsOf(h')|] == TxsOf(h')
    requires forall i :: 0 <= i < |ps| - 1 ==>
      TxsOf(r)[|TxsOf(h')| + i] == PurchaseTx(ps[1..][i], stamps[1..][i].0, stamps[1..][i].1)
    ensures TxsOf(r)[..|TxsOf(h)|] == TxsOf(h)
    ensures forall i :: 0 <= i < |ps| ==>
      TxsOf(r)[|TxsOf(h)| + i] == PurchaseTx(ps[i], stamps[i].0, stamps[i].1)
  {
    var n := |TxsOf(h)|;
    assert TxsOf(r)[..n] == TxsOf(r)[..|TxsOf(h')|][..n];
    assert TxsOf(r)[n] == TxsOf(r)[..|TxsOf(h')|][n];
    forall i | 1 <= i < |ps| ensures TxsOf(r)[n + i] == PurchaseTx(ps[i], stamps[i].0, stamps[i].1) {
      assert ps[1..][i - 1] == ps[i] && stamps[1..][i - 1] == stamps[i];
    }
  }

  /** All purchases of `ps` are stackable and of the same ticker in the same account. */
  predicate OneHolding(ps: seq<Asset>) {
    forall i :: 0 <= i < |ps| ==>
      Stackable(ps[i]) && ps[i].ticker == ps[0].ticker && ps[i].investmentAccountId == ps[0].investmentAccountId
  }

  /** `addAsset` called once for each purchase of a run on one held stock, the `i`-th call at
      `stamps[i]`: the collection ends with the holding's row replaced by `StackAll` of the run
      and every other row as it was. */
  function AddEach(assets: seq<Asset>, ps: seq<Asset>, freshId: string, stamps: seq<(string, int)>): (r: seq<Asset>)
    requires |stamps| == |ps|
    requires IdsUnique(assets) && IsFreshId(assets, freshId)
    requires |ps| > 0 ==>
      IsStack(assets, ps[0]) && OneHolding(ps) && RunDefined(assets[HoldingIndex(assets, ps[0])], ps)
    ensures |ps| == 0 ==> r == assets
    ensures |ps| > 0 ==>
      var k := HoldingIndex(assets, ps[0]);
      r == assets[k := StackAll(assets[k], ps, stamps)]
    decreases |ps|
  {
    if |ps| == 0 then assets
    else
      var next := AddAsset(assets, ps[0], freshId, stamps[0].0, stamps[0].1).assets;
      AddEachStep(assets, ps, freshId, stamps);
      AddEach(next, ps[1..], freshId, stamps[1..])
  }

  /** One purchase of the run: it rewrites the holding's row in place, and the rest of the run
      still stacks onto the same row. */
  lemma AddEachStep(assets: seq<Asset>, ps: seq<Asset>, freshId: string, stamps: seq<(string, int)>)
    requires |stamps| == |ps| > 0
    requires IdsUnique(assets) && IsFreshId(assets, freshId)
    requires IsStack(assets, ps[0]) && OneHolding(ps) && RunDefined(assets[HoldingIndex(assets, ps[0])], ps)
    ensures StackDefined(assets, ps[0])
    ensures var k := HoldingIndex(assets, ps[0]);
      var next := AddAsset(assets, ps[0], freshId, stamps[0].0, stamps[0].1).assets;
      && IdsUnique(next) && IsFreshId(next, freshId)
      && (|ps| > 1 ==>
            IsStack(next, ps[1]) && HoldingIndex(next, ps[1]) == k
            && OneHolding(ps[1..]) && RunDefined(next[k], ps[1..])
            && next[k := StackAll(next[k], ps[1..], stamps[1..])] == assets[k := StackAll(assets[k], ps, stamps)])
      && (|ps| == 1 ==> next == assets[k := StackAll(assets[k], ps, stamps)])
  {
    var k := HoldingIndex(assets, ps[0]);
    RunTailDefined(assets[k], ps, stamps);
    StackInPlace(assets, ps[0], freshId, stamps[0].0, stamps[0].1);
    if |ps| > 1 {
      RunStepHolding(assets, ps, stamps);
      RunStepRow(assets, ps, stamps);
    }
  }

  /** After the first purchase of a run the next one finds the same holding. */
  lemma RunStepHolding(assets: seq<Asset>, ps: seq<Asset>, stamps: seq<(string, int)>)
    requires |stamps| == |ps| > 1
    requires IsStack(assets, ps[0]) && OneHolding(ps) && RunDefined(assets[HoldingIndex(assets, ps[0])], ps)
    ensures var k := HoldingIndex(assets, ps[0]);
      var next := assets[k := Stack(assets[k], ps[0], stamps[0].0, stamps[0].1)];
      IsStack(next, ps[1]) && HoldingIndex(next, ps[1]) == k
  {
    var k := HoldingIndex(assets, ps[0]);
    RunTailDefined(assets[k], ps, stamps);
    RewriteKeepsHolding(assets, ps[0], ps[1], Stack(assets[k], ps[0], stamps[0].0, stamps[0].1));
  }

  /** After the first purchase of a run, stacking the rest onto the row gives the row that
      stacking the whole run gives. */
  lemma RunStepRow(assets: seq<Asset>, ps: seq<Asset>, stamps: seq<(string, int)>)
    requires |stamps| == |ps| > 1
    requires IsStack(assets, ps[0]) && OneHolding(ps) && RunDefined(assets[HoldingIndex(assets, ps[0])], ps)
    ensures OneHolding(ps[1..])
    ensures var k := HoldingIndex(assets, ps[0]);
      RunDefined(Stack(assets[k], ps[0], stamps[0].0, stamps[0].1), ps[1..])
    ensures var k := HoldingIndex(assets, ps[0]);
      var next := assets[k := Stack(assets[k], ps[0], stamps[0].0, stamps[0].1)];
      next[k := StackAll(next[k], ps[1..], stamps[1..])] == assets[k := StackAll(assets[k], ps, stamps)]
  {
    var k := HoldingIndex(assets, ps[0]);
    RunTailDefined(assets[k], ps, stamps);
    RunTail(assets[k], ps, stamps);
  }

  /** After the first purchase of a run, the rest is a run of one holding on the stacked holding. */
  lemma RunTailDefined(h: Asset, ps: seq<Asset>, stamps: seq<(string, int)>)
    requires |stamps| == |ps| > 0 && RunDefined(h, ps) && OneHolding(ps)
    ensures StackedQuantity(h, ps[0]) != 0.0
    ensures OneHolding(ps[1..])
    ensures RunDefined(Stack(h, ps[0], stamps[0].0, stamps[0].1), ps[1..])
  {
    assert forall i :: 0 <= i < |ps| - 1 ==> ps[1..][i] == ps[i + 1];
  }

  /** Stacking a whole run is stacking its first purchase and then the rest. */
  lemma RunTail(h: Asset, ps: seq<Asset>, stamps: seq<(string, int)>)
    requires |stamps| == |ps| > 0 && RunDefined(h, ps) && OneHolding(ps)
    ensures StackedQuantity(h, ps[0]) != 0.0
    ensures var h' := Stack(h, ps[0], stamps[0].0, stamps[0].1);
      RunDefined(h', ps[1..]) && StackAll(h, ps, stamps) == StackAll(h', ps[1..], stamps[1..])
  {
    RunTailDefined(h, ps, stamps);
  }

  /** A stack onto a holding with unique ids: the holding's row becomes `Stack` of it, and the ids,
      hence their uniqueness and the freshness of `freshId`, stay as they were. */
  lemma StackInPlace(assets: seq<Asset>, c: Asset, freshId: string, txId: string, now: int)
    requires IdsUnique(assets) && IsFreshId(assets, freshId) && IsStack(assets, c)
    requires StackedQuantity(assets[HoldingIndex(assets, c)], c) != 0.0
    ensures var k := HoldingIndex(assets, c);
      var next := AddAsset(assets, c, freshId, txId, now).assets;
      && next == assets[k := Stack(assets[k], c, txId, now)]
      && IdsUnique(next) && IsFreshId(next, freshId)
  {
    var next := AddAsset(assets, c, freshId, txId, now).assets;
    StackRewritesOneRow(assets, c, freshId, txId, now);
    AddPreservesUniqueIds(assets, c, freshId, txId, now);
    assert forall i :: 0 <= i < |next| ==> next[i].id == assets[i].id;
  }
}
