/** The stock fields of the asset form (`src/components/assets/form/StockFormFields.tsx`): the
    "already owned" warning, the owned-quantity hint, adding an investment account from the form,
    and selecting that account once it appears. Lower-casing and trimming are modelled on ASCII. */
module StockForm {
  import opened Wrappers
  import opened Seqs
  import opened Assets
  import opened Portfolio
  import Ledger

  function LowerChar(c: char): char {
    if 'A' <= c <= 'Z' then (c as int - 'A' as int + 'a' as int) as char else c
  }

  /** `toLowerCase` on ASCII letters. */
  function Lower(s: string): (r: string)
    ensures |r| == |s|
    ensures forall i :: 0 <= i < |s| ==> r[i] == LowerChar(s[i])
    ensures forall i :: 0 <= i < |s| ==> !('A' <= r[i] <= 'Z')
  {
    seq(|s|, i requires 0 <= i < |s| => LowerChar(s[i]))
  }

  /** Lower-casing twice is lower-casing once. */
  lemma LowerIdempotent(s: string)
    ensures Lower(Lower(s)) == Lower(s)
  {
  }

  /** `stock` is reported as already held: the same name up to case, in the selected account. */
  predicate NameMatches(stock: Asset, ticker: string, accountId: string) {
    Lower(stock.name) == Lower(ticker) && stock.investmentAccountId == Some(accountId)
  }

  /** The stocks the form warns about: none unless a ticker and an account are given. */
  function MatchingStocks(ticker: string, accountId: string, existing: seq<Asset>): (r: seq<Asset>)
    ensures |ticker| == 0 || |accountId| == 0 || |existing| == 0 ==> r == []
    ensures forall i :: 0 <= i < |r| ==> r[i] in existing && NameMatches(r[i], ticker, accountId)
    ensures |ticker| > 0 && |accountId| > 0 ==>
      forall i :: 0 <= i < |existing| && NameMatches(existing[i], ticker, accountId) ==> existing[i] in r
  {
    if |ticker| > 0 && |accountId| > 0 && |existing| > 0 then
      Filter(existing, (s: Asset) => NameMatches(s, ticker, accountId))
    else []
  }

  function QuantityOf(a: Asset): real { Num(a.quantity) }

  /** The quantity shown as already owned: matching quantities summed, an absent one read as 0;
      nothing matching owns nothing, and without negative quantities it is at least each one. */
  function OwnedQuantity(matching: seq<Asset>): (r: real)
    ensures |matching| == 0 ==> r == 0.0
    ensures (forall i :: 0 <= i < |matching| ==> Num(matching[i].quantity) >= 0.0) ==>
      r >= 0.0 && forall i :: 0 <= i < |matching| ==> Num(matching[i].quantity) <= r
  {
    SumByBounds(matching, QuantityOf);
    SumBy(matching, QuantityOf)
  }

  /** Each further match adds its quantity to the owned total. */
  lemma OwnedQuantityAppend(matching: seq<Asset>, s: Asset)
    ensures OwnedQuantity(matching + [s]) == OwnedQuantity(matching) + Num(s.quantity)
  {
    SumByAppend(matching, [s], QuantityOf);
    assert [s][1..] == [];
  }

  /** A held stock named and tickered `AAPL` and a purchase typed `aapl`: the form warns (names
      are compared lower-cased) but the ledger does not stack (tickers are compared exactly). */
  lemma WarnsWithoutStacking()
    ensures var held := Asset("1", "AAPL", Stock, 100.0, None, Some(100.0), Some(1.0), Some("AAPL"),
                              Some("acc"), None, None, None, None, None);
            var bought := Asset("", "aapl", Stock, 0.0, None, Some(150.0), Some(2.0), Some("aapl"),
                                Some("acc"), None, None, None, None, None);
            && MatchingStocks("aapl", "acc", [held]) == [held]
            && !Ledger.IsStack([held], bought)
  {
    var held := Asset("1", "AAPL", Stock, 100.0, None, Some(100.0), Some(1.0), Some("AAPL"),
                      Some("acc"), None, None, None, None, None);
    var bought := Asset("", "aapl", Stock, 0.0, None, Some(150.0), Some(2.0), Some("aapl"),
                        Some("acc"), None, None, None, None, None);
    assert Lower("AAPL") == Lower("aapl");
    assert Filter([held], (s: Asset) => NameMatches(s, "aapl", "acc")) == [held];
    assert !Ledger.SameHolding(held, bought);
  }

  /** The ledger stacks onto a holding of the same ticker whose name differs, with no warning. */
  lemma StacksWithoutWarning()
    ensures var held := Asset("1", "Apple Inc.", Stock, 100.0, None, Some(100.0), Some(1.0), Some("AAPL"),
                              Some("acc"), None, None, None, None, None);
            var bought := Asset("", "Apple", Stock, 0.0, None, Some(150.0), Some(2.0), Some("AAPL"),
                                Some("acc"), None, None, None, None, None);
            && MatchingStocks("AAPL", "acc", [held]) == []
            && Ledger.IsStack([held], bought)
  {
    var held := Asset("1", "Apple Inc.", Stock, 100.0, None, Some(100.0), Some(1.0), Some("AAPL"),
                      Some("acc"), None, None, None, None, None);
    assert Lower("Apple Inc.")[1] != Lower("AAPL")[1];
    assert Filter([held], (s: Asset) => NameMatches(s, "AAPL", "acc")) == [];
  }

  predicate IsSpace(c: char) {
    c == ' ' || c == '\t' || c == '\n' || c == '\r'
  }

  /** The number of leading white-space characters. */
  function LeadingSpaces(s: string): (k: nat)
    ensures k <= |s|
    ensures forall i :: 0 <= i < k ==> IsSpace(s[i])
    ensures k < |s| ==> !IsSpace(s[k])
  {
    if |s| == 0 || !IsSpace(s[0]) then 0 else 1 + LeadingSpaces(s[1..])
  }

  /** The number of trailing white-space characters. */
  function TrailingSpaces(s: string): (k: nat)
    ensures k <= |s|
    ensures forall i :: |s| - k <= i < |s| ==> IsSpace(s[i])
    ensures k < |s| ==> !IsSpace(s[|s| - k - 1])
  {
    if |s| == 0 || !IsSpace(s[|s| - 1]) then 0 else 1 + TrailingSpaces(s[..|s| - 1])
  }

  /** `trim`: the text without its leading and trailing white space. */
  function Trim(s: string): (r: string)
    ensures |r| <= |s|
    ensures |r| > 0 ==> !IsSpace(r[0]) && !IsSpace(r[|r| - 1])
    ensures |r| == 0 <==> forall i :: 0 <= i < |s| ==> IsSpace(s[i])
    ensures LeadingSpaces(s) + |r| <= |s|
    ensures forall i :: 0 <= i < |r| ==> r[i] == s[LeadingSpaces(s) + i]
    ensures forall i :: LeadingSpaces(s) + |r| <= i < |s| ==> IsSpace(s[i])
  {
    var t := s[LeadingSpaces(s)..];
    var r := t[..|t| - TrailingSpaces(t)];
    assert |r| == 0 ==> forall i :: 0 <= i < |s| ==> IsSpace(s[i]) by {
      if |r| == 0 {
        assert LeadingSpaces(s) == |s|;
      }
    }
    r
  }

  /** Trimming twice is trimming once. */
  lemma TrimIdempotent(s: string)
    ensures Trim(Trim(s)) == Trim(s)
  {
    var r := Trim(s);
    if |r| > 0 {
      assert LeadingSpaces(r) == 0;
      assert TrailingSpaces(r[0..]) == 0;
      assert r[0..] == r;
      assert r[..|r|] == r;
    }
  }

  /** The investment account created from the form: the trimmed name, no value, no performance. */
  function NewAccount(name: string, accountType: AccountType): (r: Asset)
    ensures r.assetType == InvestmentAccount && r.value == 0.0 && r.performance == Some(0.0)
    ensures r.name == Trim(name) && r.accountType == Some(accountType)
  {
    Asset("", Trim(name), InvestmentAccount, 0.0, Some(0.0), None, None, None, None, None, None,
          Some(accountType), None, None)
  }

  /** The account picker: the selected account, whether an added account is awaited, the name
      typed into the new-account dialog, and whether that dialog is open. */
  datatype Picker = Picker(accountId: string, pending: bool, newAccountName: string, dialogOpen: bool)

  /** The outcome of `handleAddAccount`: the account handed to `onAddAccount`, if any, and the picker. */
  datatype AddOutcome = AddOutcome(sent: Option<Asset>, picker: Picker)

  /** `handleAddAccount`. `returned` is what `onAddAccount` answers: with a non-empty id the account
      is selected and the dialog closes; otherwise the picker waits for the account to appear. */
  function HandleAddAccount(p: Picker, hasCallback: bool, accountType: AccountType, returned: Option<Asset>): (r: AddOutcome)
    ensures r.sent.Some? <==> hasCallback && |Trim(p.newAccountName)| > 0
    ensures r.sent.None? ==> r.picker == p
    ensures r.sent.Some? ==> r.sent.value == NewAccount(p.newAccountName, accountType) && r.picker.newAccountName == ""
    ensures r.sent.Some? && returned.Some? && |returned.value.id| > 0 ==>
      r.picker == p.(accountId := returned.value.id, newAccountName := "", dialogOpen := false)
    ensures r.sent.Some? && !(returned.Some? && |returned.value.id| > 0) ==>
      r.picker == p.(pending := true, newAccountName := "")
  {
    if hasCallback && |Trim(p.newAccountName)| > 0 then
      var sent := NewAccount(p.newAccountName, accountType);
      var cleared := p.(newAccountName := "");
      if returned.Some? && |returned.value.id| > 0 then
        AddOutcome(Some(sent), cleared.(accountId := returned.value.id, dialogOpen := false))
      else
        AddOutcome(Some(sent), cleared.(pending := true))
    else AddOutcome(None, p)
  }

  /** The pending-selection effect: while waiting and once accounts exist, selects the last one. */
  function PendingSelection(p: Picker, accounts: seq<Asset>): (r: Picker)
    ensures p.pending && |accounts| > 0 ==>
      r == p.(accountId := accounts[|accounts| - 1].id, pending := false, dialogOpen := false)
    ensures !(p.pending && |accounts| > 0) ==> r == p
    ensures !r.pending || r == p
  {
    if p.pending && |accounts| > 0 then
      p.(accountId := accounts[|accounts| - 1].id, pending := false, dialogOpen := false)
    else p
  }

  /** An account added through the ledger is inserted, never stacked, and once the investment
      accounts are listed the waiting picker selects it. */
  lemma AddedAccountIsSelected(assets: seq<Asset>, p: Picker, accountType: AccountType,
                               freshId: string, txId: string, now: int)
    requires IsFreshId(assets, freshId)
    requires p.pending
    ensures Ledger.StackDefined(assets, NewAccount(p.newAccountName, accountType))
    ensures var added := Ledger.AddAsset(assets, NewAccount(p.newAccountName, accountType), freshId, txId, now);
            && added.assets == assets + [added.asset]
            && added.asset.id == freshId
            && PendingSelection(p, OfType(added.assets, InvestmentAccount)).accountId == freshId
  {
    var c := NewAccount(p.newAccountName, accountType);
    assert !Ledger.Stackable(c);
    var added := Ledger.AddAsset(assets, c, freshId, txId, now);
    var a := added.asset;
    FilterAppend(assets, [a], (x: Asset) => x.assetType == InvestmentAccount);
    assert Filter([a], (x: Asset) => x.assetType == InvestmentAccount) == [a];
  }
}
