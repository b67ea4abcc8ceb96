/** The allocation card (`src/components/dashboard/AssetAllocation.tsx`): which entries are
    charted, the chart and legend labels, the zero-guarded percentages and the card title. */
module AllocationView {
  import opened Seqs
  import opened Assets
  import opened Dashboard

  /** One `[key, value]` pair of `Object.entries(allocation)`. */
  type Entry = (string, real)

  /** The entries of the dashboard's allocation object, in the order its keys are written. */
  function DashboardEntries(d: Allocation): seq<Entry> {
    [("stocks", d.stocks), ("realEstate", d.realEstate), ("crypto", d.crypto), ("cash", d.cash),
     ("bonds", d.bonds), ("commodities", d.commodities), ("other", d.other)]
  }

  /** The entries of the declared allocation record, in declaration order. */
  function DeclaredEntries(a: AssetAllocation): seq<Entry> {
    [("stocks", a.stocks), ("realEstate", a.realEstate), ("crypto", a.crypto),
     ("bankAccounts", a.bankAccounts), ("savingsAccounts", a.savingsAccounts), ("bonds", a.bonds),
     ("commodities", a.commodities), ("other", a.other)]
  }

  /** The card skips the `commodities` and `other` entries. */
  predicate Charted(e: Entry) {
    e.0 != "commodities" && e.0 != "other"
  }

  /** `filteredAllocation`: every entry except `commodities` and `other`, with its value. */
  function ChartEntries(entries: seq<Entry>): (r: seq<Entry>)
    ensures forall i :: 0 <= i < |r| ==> r[i] in entries && r[i].0 != "commodities" && r[i].0 != "other"
    ensures forall i :: 0 <= i < |entries| && Charted(entries[i]) ==> entries[i] in r
  {
    Filter(entries, Charted)
  }

  /** The keys the card knows a label for. */
  const KnownKeys: set<string> := {"stocks", "realEstate", "crypto", "bankAccounts", "savingsAccounts", "bonds"}

  /** The chart label of a key; an unknown key is its own label. */
  function ChartLabel(key: string): (r: string)
    ensures key !in KnownKeys ==> r == key
    ensures key in KnownKeys ==> r != key
  {
    match key
    case "stocks" => "Actions"
    case "realEstate" => "Immobilier"
    case "crypto" => "Cryptomonnaies"
    case "bankAccounts" => "Comptes bancaires"
    case "savingsAccounts" => "Livrets d'épargne"
    case "bonds" => "Obligations"
    case _ => key
  }

  /** The legend label of a key; an unknown key is its own label. */
  function LegendLabel(key: string): (r: string)
    ensures key !in KnownKeys ==> r == key
    ensures key in KnownKeys ==> r != key
  {
    match key
    case "stocks" => "Actions"
    case "realEstate" => "Immobilier"
    case "crypto" => "Crypto"
    case "bankAccounts" => "Comptes"
    case "savingsAccounts" => "Livrets"
    case "bonds" => "Obligations"
    case _ => key
  }

  /** The chart and the legend name a key alike except for crypto, bank and savings accounts, which
      the legend abbreviates; within each, distinct known keys get distinct labels. */
  lemma LabelsAgreeExceptAbbreviated(key: string, other: string)
    ensures ChartLabel(key) != LegendLabel(key) <==> key in {"crypto", "bankAccounts", "savingsAccounts"}
    ensures key in KnownKeys && other in KnownKeys && key != other ==>
      ChartLabel(key) != ChartLabel(other) && LegendLabel(key) != LegendLabel(other)
  {
  }

  /** The share of `value` in `total`, in percent; zero when the total is not positive. */
  function Percent(value: real, total: real): (r: real)
    ensures total <= 0.0 ==> r == 0.0
    ensures total > 0.0 ==> r * total == value * 100.0
  {
    if total > 0.0 then value / total * 100.0 else 0.0
  }

  /** A share of a positive total that lies between zero and the total is between 0 and 100 %. */
  lemma PercentBounds(value: real, total: real)
    requires total > 0.0 && 0.0 <= value <= total
    ensures 0.0 <= Percent(value, total) <= 100.0
  {
    var p := Percent(value, total);
    assert p * total == value * 100.0;
    assert p * total <= 100.0 * total;
    assert (p - 100.0) * total <= 0.0;
  }

  datatype LegendItem = LegendItem(key: string, caption: string, percent: real)

  function ItemOf(e: Entry, total: real): LegendItem {
    LegendItem(e.0, LegendLabel(e.0), Percent(e.1, total))
  }

  /** The legend items of some charted entries, in order: zero-valued entries produce none and
      every other entry has its item. */
  function LegendOf(chart: seq<Entry>, total: real): (r: seq<LegendItem>)
    ensures |r| <= |chart|
    ensures forall j :: 0 <= j < |chart| && chart[j].1 != 0.0 ==> ItemOf(chart[j], total) in r
  {
    if |chart| == 0 then []
    else
      assert forall j :: 1 <= j < |chart| ==> chart[j] == chart[1..][j - 1];
      if chart[0].1 != 0.0 then [ItemOf(chart[0], total)] + LegendOf(chart[1..], total)
      else LegendOf(chart[1..], total)
  }

  /** Every legend item is the item of a non-zero entry, and every non-zero entry has its item. */
  lemma {:induction false} LegendItems(chart: seq<Entry>, total: real)
    ensures forall i :: 0 <= i < |LegendOf(chart, total)| ==>
      exists j :: 0 <= j < |chart| && chart[j].1 != 0.0 && LegendOf(chart, total)[i] == ItemOf(chart[j], total)
    ensures forall j :: 0 <= j < |chart| && chart[j].1 != 0.0 ==> ItemOf(chart[j], total) in LegendOf(chart, total)
  {
    if |chart| > 0 {
      var tail := chart[1..];
      LegendItems(tail, total);
      var r := LegendOf(chart, total);
      var rest := LegendOf(tail, total);
      var head := if chart[0].1 != 0.0 then [ItemOf(chart[0], total)] else [];
      assert r == head + rest;
      forall i | 0 <= i < |r|
        ensures exists j :: 0 <= j < |chart| && chart[j].1 != 0.0 && r[i] == ItemOf(chart[j], total)
      {
        if i < |head| {
          assert chart[0].1 != 0.0 && r[i] == ItemOf(chart[0], total);
        } else {
          assert r[i] == rest[i - |head|];
          var j :| 0 <= j < |tail| && tail[j].1 != 0.0 && rest[i - |head|] == ItemOf(tail[j], total);
          assert chart[j + 1] == tail[j];
          assert chart[j + 1].1 != 0.0 && r[i] == ItemOf(chart[j + 1], total);
        }
      }
    } else {
      assert LegendOf(chart, total) == [];
    }
  }

  /** The legend of an allocation object: an item for every charted entry with a non-zero value
      and for nothing else. */
  function Legend(entries: seq<Entry>, total: real): (r: seq<LegendItem>)
    ensures forall i :: 0 <= i < |r| ==>
      exists e :: e in entries && Charted(e) && e.1 != 0.0 && r[i] == ItemOf(e, total)
    ensures forall e :: e in entries && Charted(e) && e.1 != 0.0 ==> ItemOf(e, total) in r
  {
    LegendOfCharted(entries, total);
    LegendOf(ChartEntries(entries), total)
  }

  lemma LegendOfCharted(entries: seq<Entry>, total: real)
    ensures var r := LegendOf(ChartEntries(entries), total);
      && (forall i :: 0 <= i < |r| ==>
            exists e :: e in entries && Charted(e) && e.1 != 0.0 && r[i] == ItemOf(e, total))
      && (forall e :: e in entries && Charted(e) && e.1 != 0.0 ==> ItemOf(e, total) in r)
  {
    var chart := ChartEntries(entries);
    var r := LegendOf(chart, total);
    LegendItems(chart, total);
    forall i | 0 <= i < |r|
      ensures exists e :: e in entries && Charted(e) && e.1 != 0.0 && r[i] == ItemOf(e, total)
    {
      var j :| 0 <= j < |chart| && chart[j].1 != 0.0 && r[i] == ItemOf(chart[j], total);
      assert chart[j] in entries && Charted(chart[j]);
    }
    forall e | e in entries && Charted(e) && e.1 != 0.0 ensures ItemOf(e, total) in r {
      var k :| 0 <= k < |entries| && entries[k] == e;
      var j :| 0 <= j < |chart| && chart[j] == e;
    }
  }

  /** The legend items an entry contributes: none when its value is zero. */
  function Shown(e: Entry, total: real): (r: seq<LegendItem>)
    ensures e.1 == 0.0 <==> r == []
    ensures e.1 != 0.0 ==> r == [LegendItem(e.0, LegendLabel(e.0), Percent(e.1, total))]
  {
    if e.1 != 0.0 then [ItemOf(e, total)] else []
  }

  /** The dashboard's legend lists the non-zero stocks, real-estate, crypto, cash and bonds
      buckets in that order. */
  lemma DashboardLegend(d: Allocation, total: real)
    ensures Legend(DashboardEntries(d), total)
         == Shown(("stocks", d.stocks), total) + Shown(("realEstate", d.realEstate), total)
          + Shown(("crypto", d.crypto), total) + Shown(("cash", d.cash), total)
          + Shown(("bonds", d.bonds), total)
  {
    DashboardChart(d);
    var e := DashboardEntries(d);
    assert e[..5] == [e[0], e[1], e[2], e[3], e[4]];
    LegendOfFive(e[0], e[1], e[2], e[3], e[4], total);
  }

  lemma LegendOfFive(x0: Entry, x1: Entry, x2: Entry, x3: Entry, x4: Entry, total: real)
    ensures LegendOf([x0, x1, x2, x3, x4], total)
         == Shown(x0, total) + Shown(x1, total) + Shown(x2, total) + Shown(x3, total) + Shown(x4, total)
  {
    assert [x0, x1, x2, x3, x4] == [x0] + [x1] + [x2] + [x3] + [x4];
    LegendAppend([x0] + [x1] + [x2] + [x3], [x4], total);
    LegendAppend([x0] + [x1] + [x2], [x3], total);
    LegendAppend([x0] + [x1], [x2], total);
    LegendAppend([x0], [x1], total);
    LegendSingle(x0, total);
    LegendSingle(x1, total);
    LegendSingle(x2, total);
    LegendSingle(x3, total);
    LegendSingle(x4, total);
  }

  /** The dashboard's `cash` bucket is a key the card has no label for: it is shown as `cash`. */
  lemma CashBucketUnlabelled()
    ensures ChartLabel("cash") == "cash" && LegendLabel("cash") == "cash"
  {
    assert "cash" !in KnownKeys;
  }

  /** The dashboard's chart shows its first five buckets: commodities and other are dropped. */
  lemma DashboardChart(d: Allocation)
    ensures ChartEntries(DashboardEntries(d)) == DashboardEntries(d)[..5]
  {
    var e := DashboardEntries(d);
    var kept := e[..5];
    assert e == kept + e[5..];
    FilterAppend(kept, e[5..], Charted);
    FilterKeepsAll(kept, Charted);
    FilterKeepsNone(e[5..], Charted);
  }

  /** The legend of two runs of entries is the legend of the first followed by that of the second. */
  lemma {:induction false} LegendAppend(a: seq<Entry>, b: seq<Entry>, total: real)
    ensures LegendOf(a + b, total) == LegendOf(a, total) + LegendOf(b, total)
  {
    if |a| == 0 {
      assert a + b == b;
    } else {
      assert (a + b)[1..] == a[1..] + b;
      LegendAppend(a[1..], b, total);
    }
  }

  /** A single entry contributes its item exactly when its value is not zero. */
  lemma LegendSingle(x: Entry, total: real)
    ensures LegendOf([x], total) == Shown(x, total)
  {
    assert [x][1..] == [];
  }

  /** The card title depends on the selected category alone. */
  function Title(c: CategoryFilter): (r: string)
    ensures c == Savings <==> r == "Répartition de mon épargne"
    ensures c == Investments <==> r == "Répartition des placements"
    ensures c != Savings && c != Investments <==> r == "Allocation d'actifs"
  {
    if c == Savings then "Répartition de mon épargne"
    else if c == Investments then "Répartition des placements"
    else "Allocation d'actifs"
  }
}
