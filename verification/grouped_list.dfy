/** The grouped asset list (`src/components/assets/GroupedAssetsList.tsx`): which asset kinds get
    a section, in which order, each section's total, the expand/collapse state, the section names
    and navigation targets, and the delete confirmation. Sections are keyed by asset kind; the
    source reads the kinds as their string tags (`TypeName`). */
module GroupedList {
  import opened Wrappers
  import opened Seqs
  import opened StableSort
  import opened Assets
  import opened Portfolio
  import Ledger

  /** `groupedAssets`: the assets of each kind, in the order the kinds were first inserted. */
  type Groups = seq<(AssetType, seq<Asset>)>

  predicate IsAccountKind(t: AssetType) {
    t == InvestmentAccount || t == CryptoAccount
  }

  /** Whether a kind keeps its section: the account kinds are hidden on request. */
  predicate KeepsSection(hideAccounts: bool, t: AssetType) {
    !hideAccounts || !IsAccountKind(t)
  }

  /** `filteredTypes`: with `hideAccounts`, the investment-account and crypto-account kinds are dropped. */
  function FilteredTypes(keys: seq<AssetType>, hideAccounts: bool): (r: seq<AssetType>)
    ensures hideAccounts ==> forall i :: 0 <= i < |r| ==> r[i] in keys && !IsAccountKind(r[i])
    ensures hideAccounts ==> forall i :: 0 <= i < |keys| && !IsAccountKind(keys[i]) ==> keys[i] in r
  {
    Filter(keys, (t: AssetType) => KeepsSection(hideAccounts, t))
  }

  /** Without the flag every key is kept, in order. */
  lemma FilteredTypesKeepsAll(keys: seq<AssetType>)
    ensures FilteredTypes(keys, false) == keys
  {
    FilterKeepsAll(keys, (t: AssetType) => KeepsSection(false, t));
  }

  /** The display rank of a kind: bank accounts first, other ninth, the account kinds last (10). */
  function Rank(t: AssetType): (r: nat)
    ensures 1 <= r <= 10
    ensures r == 10 <==> IsAccountKind(t)
  {
    match t
    case BankAccount => 1
    case SavingsAccount => 2
    case RealEstate => 3
    case Stock => 4
    case Crypto => 5
    case Bonds => 6
    case Cash => 7
    case Commodities => 8
    case Other => 9
    case InvestmentAccount => 10
    case CryptoAccount => 10
  }

  /** Only the two account kinds share a rank. */
  lemma RanksDistinguishKinds(s: AssetType, t: AssetType)
    requires s != t && Rank(s) == Rank(t)
    ensures IsAccountKind(s) && IsAccountKind(t)
  {
  }

  function RankKey(t: AssetType): real { Rank(t) as real }

  /** `orderedTypes`: the filtered kinds stably sorted by rank. */
  function OrderedTypes(filtered: seq<AssetType>): (r: seq<AssetType>)
    ensures |r| == |filtered|
    ensures multiset(r) == multiset(filtered)
    ensures forall i, j :: 0 <= i < j < |r| ==> Rank(r[i]) <= Rank(r[j])
  {
    var s := SortStable(filtered, RankKey);
    var r := Untag(s);
    assert forall i, j :: 0 <= i < j < |r| ==> Rank(r[i]) <= Rank(r[j]) by {
      forall i, j | 0 <= i < j < |r| ensures Rank(r[i]) <= Rank(r[j]) {
        assert NotAfter(RankKey, s[i], s[j]);
      }
    }
    r
  }

  /** Kinds of equal rank keep the order they had among the filtered keys. */
  lemma OrderedTypesKeepsTies(filtered: seq<AssetType>, i: nat, j: nat)
    requires i < j < |filtered|
    ensures Rank(SortStable(filtered, RankKey)[i].1) == Rank(SortStable(filtered, RankKey)[j].1) ==>
      SortStable(filtered, RankKey)[i].0 < SortStable(filtered, RankKey)[j].0
    ensures OrderedTypes(filtered)[i] == filtered[SortStable(filtered, RankKey)[i].0]
  {
    SortStableKeepsTies(filtered, RankKey, i, j);
  }

  /** The assets grouped under kind `t`, if the kind is a key. */
  function Lookup(groups: Groups, t: AssetType): (r: Option<seq<Asset>>)
    ensures r.None? <==> forall i :: 0 <= i < |groups| ==> groups[i].0 != t
    ensures r.Some? ==> exists i :: 0 <= i < |groups| && groups[i] == (t, r.value)
  {
    if |groups| == 0 then None
    else if groups[0].0 == t then Some(groups[0].1)
    else
      var r := Lookup(groups[1..], t);
      assert forall i :: 1 <= i < |groups| ==> groups[i] == groups[1..][i - 1];
      r
  }

  /** A section's total, or nothing when the kind has no assets (the section is not rendered). */
  function SectionTotal(groups: Groups, t: AssetType): (r: Option<real>)
    ensures r.Some? <==> Lookup(groups, t).Some? && |Lookup(groups, t).value| > 0
    ensures r.Some? ==> r.value == TotalValue(Lookup(groups, t).value)
  {
    match Lookup(groups, t)
    case None => None
    case Some(assets) => if |assets| == 0 then None else Some(TotalValue(assets))
  }

  /** A section of non-negative values has a non-negative total. */
  lemma SectionTotalNonNegative(groups: Groups, t: AssetType)
    requires SectionTotal(groups, t).Some?
    requires forall k :: 0 <= k < |Lookup(groups, t).value| ==> Lookup(groups, t).value[k].value >= 0.0
    ensures SectionTotal(groups, t).value >= 0.0
  {
    SumByNonNegative(Lookup(groups, t).value, ValueOf);
  }

  /** Whether a section is expanded: a missing key reads as collapsed. */
  predicate Expanded(sections: map<string, bool>, key: string) {
    key in sections && sections[key]
  }

  /** The initially expanded sections. */
  const InitialSections: map<string, bool> :=
    map["bank-account" := true, "savings-account" := true, "real-estate" := true,
        "stock" := true, "crypto" := true]

  /** Exactly the bank, savings, real-estate, stock and crypto sections start expanded. */
  lemma InitiallyExpanded(t: AssetType)
    ensures Expanded(InitialSections, TypeName(t))
        <==> t in {BankAccount, SavingsAccount, RealEstate, Stock, Crypto}
  {
    match t
    case Stock =>
    case Crypto =>
    case RealEstate =>
    case Cash => assert TypeName(t) !in InitialSections;
    case Bonds => assert TypeName(t) !in InitialSections;
    case Commodities => assert TypeName(t) !in InitialSections;
    case Other => assert TypeName(t) !in InitialSections;
    case BankAccount =>
    case SavingsAccount =>
    case InvestmentAccount => assert TypeName(t) !in InitialSections;
    case CryptoAccount => assert TypeName(t) !in InitialSections;
  }

  /** `toggleSection`: flips the key's state (a missing key becomes expanded); other keys keep theirs. */
  function ToggleSection(sections: map<string, bool>, key: string): (r: map<string, bool>)
    ensures r.Keys == sections.Keys + {key}
    ensures Expanded(r, key) == !Expanded(sections, key)
    ensures forall k :: k in sections && k != key ==> r[k] == sections[k]
  {
    sections[key := !(key in sections && sections[key])]
  }

  /** Toggling a section twice restores whether it is expanded, and touches no other section. */
  lemma ToggleTwice(sections: map<string, bool>, key: string, other: string)
    ensures Expanded(ToggleSection(ToggleSection(sections, key), key), key) == Expanded(sections, key)
    ensures other != key ==>
      Expanded(ToggleSection(ToggleSection(sections, key), key), other) == Expanded(sections, other)
  {
  }

  /** `getSectionName`: the section heading of a kind, with a catch-all for the rest. */
  function SectionName(t: AssetType): (r: string)
    ensures r == "Autres actifs" <==> t in {Other, InvestmentAccount, CryptoAccount}
  {
    match t
    case BankAccount => "Comptes bancaires"
    case SavingsAccount => "Livrets d'épargne"
    case RealEstate => "Immobilier"
    case Stock => "Actions"
    case Crypto => "Cryptomonnaies"
    case Bonds => "Obligations"
    case Cash => "Liquidités"
    case Commodities => "Matières premières"
    case _ => "Autres actifs"
  }

  /** `getNavigationTarget`: the page a section links to; kinds without a page go to `assets`. */
  function NavigationTarget(t: AssetType): (r: string)
    ensures r == "assets" <==> t !in {BankAccount, SavingsAccount, RealEstate, Stock, Crypto}
  {
    match t
    case BankAccount => "bank-accounts"
    case SavingsAccount => "savings-accounts"
    case RealEstate => "real-estate"
    case Stock => "stocks"
    case Crypto => "crypto"
    case _ => "assets"
  }

  /** The outcome of confirming a delete: the id handed to `onDelete`, and the asset still pending. */
  datatype Confirmation = Confirmation(deleted: Option<string>, pending: Option<Asset>)

  /** `handleConfirmDelete`: only with both a pending asset and a handler is the id passed on and
      the pending asset cleared; otherwise nothing happens. */
  function ConfirmDelete(pending: Option<Asset>, hasOnDelete: bool): (r: Confirmation)
    ensures r.deleted.Some? <==> pending.Some? && hasOnDelete
    ensures r.deleted.Some? ==> r.deleted.value == pending.value.id && r.pending.None?
    ensures r.deleted.None? ==> r.pending == pending
  {
    if pending.Some? && hasOnDelete then Confirmation(Some(pending.value.id), None)
    else Confirmation(None, pending)
  }

  /** A confirmed delete, carried out by the ledger, leaves no asset with the confirmed id. */
  lemma ConfirmedDeleteRemoves(assets: seq<Asset>, pending: Asset)
    ensures ConfirmDelete(Some(pending), true).deleted == Some(pending.id)
    ensures forall i :: 0 <= i < |Ledger.DeleteAsset(assets, pending.id)| ==>
      Ledger.DeleteAsset(assets, pending.id)[i].id != pending.id
  {
  }
}
