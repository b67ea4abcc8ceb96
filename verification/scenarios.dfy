/** Worked ledger histories: a first purchase, a stacked second purchase, a purchase of the same
    ticker in another account, and the deletion of an account a stock still refers to. */
module Scenarios {
  import opened Wrappers
  import opened Assets
  import opened Ledger

  /** A stock purchase as the form submits it: its value is quantity times price. */
  function Buy(ticker: string, account: string, quantity: real, price: real): Asset {
    Asset("", ticker, Stock, quantity * price, None, Some(price), Some(quantity), Some(ticker),
          Some(account), None, None, None, None, None)
  }

  function AfterFirst(): Added {
    AddAsset([], Buy("AAPL", "acc1", 10.0, 100.0), "s1", "t1", 1)
  }

  /** A first purchase opens a holding with one transaction. */
  lemma FirstPurchaseOpensHolding()
    ensures var r := AfterFirst();
      && r.assets == [r.asset]
      && r.asset.id == "s1"
      && r.asset.quantity == Some(10.0)
      && r.asset.value == 1000.0
      && r.asset.purchasePrice == Some(100.0)
      && |TxsOf(r.asset)| == 1
  {
    assert !IsStack([], Buy("AAPL", "acc1", 10.0, 100.0));
  }

  function AfterSecond(): Added {
    FirstPurchaseOpensHolding();
    AddAsset(AfterFirst().assets, Buy("AAPL", "acc1", 5.0, 130.0), "s2", "t2", 2)
  }

  /** A second purchase of the same ticker in the same account is merged: 15 shares worth 1650
      at an average price of 110, with two transactions, under the original id. */
  lemma SecondPurchaseStacks()
    ensures var r := AfterSecond();
      && |r.assets| == 1
      && r.assets[0] == r.asset
      && r.asset.id == "s1"
      && r.asset.quantity == Some(15.0)
      && r.asset.value == 1650.0
      && r.asset.purchasePrice == Some(110.0)
      && |TxsOf(r.asset)| == 2
  {
    FirstPurchaseOpensHolding();
    var before := AfterFirst().assets;
    var c := Buy("AAPL", "acc1", 5.0, 130.0);
    assert SameHolding(before[0], c);
    assert IsStack(before, c);
    assert HoldingIndex(before, c) == 0;
    var r := AfterSecond();
    var s := Stack(before[0], c, "t2", 2);
    assert r.asset == s;
    assert s.quantity == Some(15.0) && s.value == 1650.0;
    assert s.purchasePrice.value * 15.0 == 1650.0;
  }

  function AfterThird(): Added {
    SecondPurchaseStacks();
    var before := AfterSecond().assets;
    var c := Buy("AAPL", "acc2", 2.0, 90.0);
    assert !SameHolding(before[0], c);
    assert !IsStack(before, c);
    AddAsset(before, c, "s3", "t3", 3)
  }

  /** The same ticker bought in another account opens a second, separate holding and leaves the
      first untouched. */
  lemma OtherAccountDoesNotStack()
    ensures var r := AfterThird();
      && |r.assets| == 2
      && r.assets[0] == AfterSecond().asset
      && r.asset.id == "s3"
      && r.asset.quantity == Some(2.0)
      && r.asset.value == 180.0
      && |TxsOf(r.asset)| == 1
  {
    SecondPurchaseStacks();
    var before := AfterSecond().assets;
    var c := Buy("AAPL", "acc2", 2.0, 90.0);
    assert !SameHolding(before[0], c);
    assert !IsStack(before, c);
  }

  /** An investment account and a stock held in it. */
  function AccountAndStock(): seq<Asset> {
    [Asset("acc1", "PEA", InvestmentAccount, 0.0, None, None, None, None, None, None, None,
           Some(PEA), None, Some(0)),
     AfterFirst().asset.(investmentAccountId := Some("acc1"))]
  }

  /** Deleting the account keeps the stock, whose account reference then resolves to nothing. */
  lemma DeletingAccountOrphansStock()
    ensures var r := DeleteAsset(AccountAndStock(), "acc1");
      && r == [AccountAndStock()[1]]
      && r[0].investmentAccountId == Some("acc1")
      && forall i :: 0 <= i < |r| ==> r[i].id != "acc1"
  {
    FirstPurchaseOpensHolding();
    var s := AccountAndStock();
    assert s[1].id == "s1";
    DeleteRemovesOneRow(s, 0);
  }
}
