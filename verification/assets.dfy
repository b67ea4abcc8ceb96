/** The data model of the application: asset kinds, transactions, assets and the declared
    allocation record, plus the two JavaScript value idioms the code relies on. */
module Assets {
  import opened Wrappers

  /** The eleven kinds of asset. */
  datatype AssetType =
    | Stock | Crypto | RealEstate | Cash | Bonds | Commodities | Other
    | BankAccount | SavingsAccount | InvestmentAccount | CryptoAccount

  /** Every asset kind, in declaration order. */
  const AllAssetTypes: seq<AssetType> :=
    [Stock, Crypto, RealEstate, Cash, Bonds, Commodities, Other,
     BankAccount, SavingsAccount, InvestmentAccount, CryptoAccount]

  /** The string tag the application stores for a kind. */
  function TypeName(t: AssetType): string {
    match t
    case Stock => "stock"
    case Crypto => "crypto"
    case RealEstate => "real-estate"
    case Cash => "cash"
    case Bonds => "bonds"
    case Commodities => "commodities"
    case Other => "other"
    case BankAccount => "bank-account"
    case SavingsAccount => "savings-account"
    case InvestmentAccount => "investment-account"
    case CryptoAccount => "crypto-account"
  }

  /** There are exactly eleven kinds, each with its own tag. */
  lemma AssetTypesAreEleven()
    ensures |AllAssetTypes| == 11
    ensures forall t :: t in AllAssetTypes
    ensures forall i, j :: 0 <= i < j < |AllAssetTypes| ==> TypeName(AllAssetTypes[i]) != TypeName(AllAssetTypes[j])
  {
    forall t: AssetType ensures t in AllAssetTypes {
      match t
      case Stock => assert AllAssetTypes[0] == t;
      case Crypto => assert AllAssetTypes[1] == t;
      case RealEstate => assert AllAssetTypes[2] == t;
      case Cash => assert AllAssetTypes[3] == t;
      case Bonds => assert AllAssetTypes[4] == t;
      case Commodities => assert AllAssetTypes[5] == t;
      case Other => assert AllAssetTypes[6] == t;
      case BankAccount => assert AllAssetTypes[7] == t;
      case SavingsAccount => assert AllAssetTypes[8] == t;
      case InvestmentAccount => assert AllAssetTypes[9] == t;
      case CryptoAccount => assert AllAssetTypes[10] == t;
    }
  }

  datatype TxKind = Buy | Sell

  /** One buy or sell event. The declared type requires `kind`, but transactions built by the
      ledger carry none, so it is optional here; `performance` is optional in the declaration. */
  datatype Transaction = Transaction(
    id: string,
    date: int,
    quantity: real,
    price: real,
    total: real,
    kind: Option<TxKind>,
    performance: Option<real>)

  datatype UsageType = Main | Secondary | Rental

  datatype AccountType = PEA | CTO | AssuranceVie | PER | OtherAccount

  /** An asset: `id`, `name`, `assetType` and `value` are required, everything else optional.
      `ticker` is read by the ledger although the declared record does not list it. */
  datatype Asset = Asset(
    id: string,
    name: string,
    assetType: AssetType,
    value: real,
    performance: Option<real>,
    purchasePrice: Option<real>,
    quantity: Option<real>,
    ticker: Option<string>,
    investmentAccountId: Option<string>,
    cryptoAccountId: Option<string>,
    transactions: Option<seq<Transaction>>,
    accountType: Option<AccountType>,
    usageType: Option<UsageType>,
    createdAt: Option<int>)

  /** The declared allocation record: eight buckets, bank and savings accounts kept apart. */
  datatype AssetAllocation = AssetAllocation(
    stocks: real,
    realEstate: real,
    crypto: real,
    bankAccounts: real,
    savingsAccounts: real,
    bonds: real,
    commodities: real,
    other: real)

  /** JavaScript `x || 0` on an optional number: an absent (or zero) number reads as zero. */
  function Num(o: Option<real>): (r: real)
    ensures o.None? ==> r == 0.0
    ensures o.Some? ==> r == o.value
  {
    match o
    case Some(x) => x
    case None => 0.0
  }

  /** JavaScript truthiness of an optional string: present and non-empty. */
  predicate Truthy(o: Option<string>) {
    o.Some? && |o.value| > 0
  }

  /** No two assets of the collection share an identifier. */
  predicate IdsUnique(assets: seq<Asset>) {
    forall i, j :: 0 <= i < j < |assets| ==> assets[i].id != assets[j].id
  }

  /** `id` is not used by any asset of the collection. */
  predicate IsFreshId(assets: seq<Asset>, id: string) {
    forall i :: 0 <= i < |assets| ==> assets[i].id != id
  }

  function ValueOf(a: Asset): real { a.value }
}
