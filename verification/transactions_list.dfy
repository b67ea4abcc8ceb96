/** The transaction history (`src/components/assets/CryptoTransactionsList.tsx`): a copy of the
    transactions sorted newest first, each labelled as a purchase or a sale, with an optional
    performance line. Dates are timestamps. */
module TransactionsList {
  import opened Wrappers
  import opened StableSort
  import opened Assets
  import Ledger

  /** The sort key that puts later dates first. */
  function NegatedDate(t: Transaction): real { -(t.date as real) }

  /** `sortedTransactions`: the same transactions, newest first; equal dates keep their order. */
  function SortNewestFirst(txs: seq<Transaction>): (r: seq<Transaction>)
    ensures |r| == |txs|
    ensures multiset(r) == multiset(txs)
    ensures forall i, j :: 0 <= i < j < |r| ==> r[i].date >= r[j].date
  {
    var s := SortStable(txs, NegatedDate);
    var r := Untag(s);
    assert forall i, j :: 0 <= i < j < |r| ==> r[i].date >= r[j].date by {
      forall i, j | 0 <= i < j < |r| ensures r[i].date >= r[j].date {
        assert NotAfter(NegatedDate, s[i], s[j]);
      }
    }
    r
  }

  /** Stability: the transaction shown at `i` is the input transaction at the sort's position
      tag, and two shown transactions with the same date keep their input order. */
  lemma SortNewestFirstKeepsTies(txs: seq<Transaction>, i: nat, j: nat)
    requires i < j < |txs|
    ensures SortNewestFirst(txs)[i] == txs[SortStable(txs, NegatedDate)[i].0]
    ensures SortNewestFirst(txs)[i].date == SortNewestFirst(txs)[j].date ==>
      SortStable(txs, NegatedDate)[i].0 < SortStable(txs, NegatedDate)[j].0
  {
    SortStableKeepsTies(txs, NegatedDate, i, j);
  }

  /** A purchase dated after every earlier transaction is shown first. */
  lemma LatestShownFirst(earlier: seq<Transaction>, t: Transaction)
    requires forall i :: 0 <= i < |earlier| ==> earlier[i].date < t.date
    ensures SortNewestFirst(earlier + [t])[0] == t
  {
    var s := earlier + [t];
    NewestAtHead(SortNewestFirst(s), earlier, t);
  }

  /** In any newest-first arrangement of `earlier + [t]`, a strictly latest `t` comes first. */
  lemma NewestAtHead(r: seq<Transaction>, earlier: seq<Transaction>, t: Transaction)
    requires multiset(r) == multiset(earlier + [t])
    requires forall i, j :: 0 <= i < j < |r| ==> r[i].date >= r[j].date
    requires forall i :: 0 <= i < |earlier| ==> earlier[i].date < t.date
    ensures |r| > 0 && r[0] == t
  {
    assert t in multiset(r);
    var j :| 0 <= j < |r| && r[j] == t;
    assert r[0].date >= t.date;
    assert r[0] in multiset(earlier + [t]);
    assert r[0] !in earlier;
  }

  /** The label of a transaction: `Achat` exactly for a purchase, `Vente` for anything else. */
  function Label(t: Transaction): (r: string)
    ensures r == "Achat" <==> t.kind == Some(Buy)
    ensures r == "Vente" <==> t.kind != Some(Buy)
  {
    if t.kind == Some(Buy) then "Achat" else "Vente"
  }

  /** A purchase recorded by the ledger carries no kind, so the history would label it a sale. */
  lemma LedgerPurchaseLabelledSale(c: Asset, txId: string, now: int)
    ensures Label(Ledger.PurchaseTx(c, txId, now)) == "Vente"
  {
  }

  /** The performance line: present exactly when the transaction has a performance, with whether
      it is drawn as a rise (non-negative). */
  function PerformanceLine(t: Transaction): (r: Option<(real, bool)>)
    ensures r.Some? <==> t.performance.Some?
    ensures r.Some? ==> r.value.0 == t.performance.value && (r.value.1 <==> t.performance.value >= 0.0)
  {
    match t.performance
    case None => None
    case Some(p) => Some((p, p >= 0.0))
  }
}
