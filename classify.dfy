/** Classification of the combined orders into lines with an unusable SKU,
    lines with no warehouse, and the normal lines that go on picking lists. */
module Classify {
  import opened Cells
  import opened Reconcile
  import Seqs

  /** The one catalogue status under which a SKU may be ordered by a station. */
  const Orderable := "油站可订"

  /** The SKU's catalogue status is missing or is not exactly the orderable marker. */
  predicate SkuInvalid(l: Line)
  {
    l.status.Missing? || l.status != Text(Orderable)
  }

  /** The site join left the line without a warehouse. */
  predicate SiteInvalid(l: Line)
  {
    l.warehouse.Missing?
  }

  predicate IsNormal(l: Line)
  {
    !SkuInvalid(l) && !SiteInvalid(l)
  }

  predicate Flagged(l: Line)
  {
    SkuInvalid(l) || SiteInvalid(l)
  }

  /** The abnormal-SKU report. */
  function AbnormalSku(orders: seq<Line>): (r: seq<Line>)
    ensures forall l :: l in r <==> l in orders && (l.status == Missing || l.status != Text(Orderable))
  {
    Seqs.FilterMembers(orders, SkuInvalid);
    Seqs.Filter(orders, SkuInvalid)
  }

  /** The abnormal-site report; which lines it holds does not depend on
      their SKU status. */
  function AbnormalSite(orders: seq<Line>): (r: seq<Line>)
    ensures forall l :: l in r <==> l in orders && l.warehouse == Missing
  {
    Seqs.FilterMembers(orders, SiteInvalid);
    Seqs.Filter(orders, SiteInvalid)
  }

  /** The normal orders: lines in neither report. Each has a warehouse and
      the orderable status. */
  function NormalOrders(orders: seq<Line>): (r: seq<Line>)
    ensures forall l :: l in r <==> l in orders && l !in AbnormalSku(orders) && l !in AbnormalSite(orders)
    ensures forall l :: l in r ==> l.warehouse != Missing && l.status == Text(Orderable)
  {
    Seqs.FilterMembers(orders, IsNormal);
    Seqs.Filter(orders, IsNormal)
  }

  /** Each of the three selections is exactly the lines of the combined
      orders that meet its condition, in their order in the combined orders. */
  lemma ClassificationKeepsOrder(orders: seq<Line>)
    ensures var ps := Seqs.Positions(orders, SkuInvalid);
      |AbnormalSku(orders)| == |ps| && forall k :: 0 <= k < |ps| ==> AbnormalSku(orders)[k] == orders[ps[k]]
    ensures var ps := Seqs.Positions(orders, SiteInvalid);
      |AbnormalSite(orders)| == |ps| && forall k :: 0 <= k < |ps| ==> AbnormalSite(orders)[k] == orders[ps[k]]
    ensures var ps := Seqs.Positions(orders, IsNormal);
      |NormalOrders(orders)| == |ps| && forall k :: 0 <= k < |ps| ==> NormalOrders(orders)[k] == orders[ps[k]]
  {
    Seqs.FilterIsSubsequence(orders, SkuInvalid);
    Seqs.FilterIsSubsequence(orders, SiteInvalid);
    Seqs.FilterIsSubsequence(orders, IsNormal);
  }

  /** Normal lines and flagged lines (in either report) split the combined
      orders: every line is in exactly one of the two, as often as it occurs. */
  lemma NormalAndFlaggedPartition(orders: seq<Line>)
    ensures multiset(NormalOrders(orders)) + multiset(Seqs.Filter(orders, Flagged)) == multiset(orders)
    ensures |NormalOrders(orders)| + |Seqs.Filter(orders, Flagged)| == |orders|
    ensures forall l :: l in Seqs.Filter(orders, Flagged) <==> l in AbnormalSku(orders) || l in AbnormalSite(orders)
  {
    Seqs.FilterPartition(orders, IsNormal, Flagged);
    Seqs.FilterMembers(orders, Flagged);
  }

  // ---------------------------------------------------------------------
  // The normal orders as the source computes them: the combined frame's
  // row labels 0..n-1, the abnormal-SKU labels dropped, then the
  // abnormal-site labels dropped. `drop` raises `KeyError` for a label the
  // frame no longer has.

  /** A row of a frame with its index label. */
  datatype Labelled = Labelled(rowLabel: nat, line: Line)

  /** `drop` found labels that are not in the frame. */
  datatype KeyError = KeyError(notFound: set<nat>)

  /** The combined orders with their default index 0..n-1. */
  function Indexed(orders: seq<Line>): (r: seq<Labelled>)
    ensures |r| == |orders|
    ensures forall i :: 0 <= i < |r| ==> r[i] == Labelled(i, orders[i])
  {
    seq(|orders|, i requires 0 <= i < |orders| => Labelled(i, orders[i]))
  }

  /** The lines of labelled rows, labels dropped. */
  function Unlabel(rows: seq<Labelled>): (r: seq<Line>)
    ensures |r| == |rows|
    ensures forall i :: 0 <= i < |r| ==> r[i] == rows[i].line
    decreases |rows|
  {
    if rows == [] then [] else Unlabel(rows[..|rows| - 1]) + [rows[|rows| - 1].line]
  }

  /** The index labels of the lines that meet `p` (`frame[mask].index`). */
  function LabelsWhere(orders: seq<Line>, p: Line -> bool): set<nat>
  {
    set i | 0 <= i < |orders| && p(orders[i])
  }

  function Labels(rows: seq<Labelled>): set<nat>
  {
    set r | r in rows :: r.rowLabel
  }

  function NotIn(labels: set<nat>): Labelled -> bool
  {
    (r: Labelled) => r.rowLabel !in labels
  }

  /** `DataFrame.drop(labels)`: fails when some label is not in the frame,
      otherwise keeps the other rows in order. */
  function Drop(rows: seq<Labelled>, labels: set<nat>): (r: Result<seq<Labelled>, KeyError>)
    ensures r.Err? <==> !(labels <= Labels(rows))
    ensures r.Ok? ==> forall x :: x in r.value <==> x in rows && x.rowLabel !in labels
  {
    Seqs.FilterMembers(rows, NotIn(labels));
    if labels <= Labels(rows) then Ok(Seqs.Filter(rows, NotIn(labels)))
    else Err(KeyError(labels - Labels(rows)))
  }

  /** The normal orders as written: drop the abnormal-SKU labels, then drop
      the abnormal-site labels. */
  function NormalAsWritten(orders: seq<Line>): Result<seq<Line>, KeyError>
  {
    var skuLabels := LabelsWhere(orders, SkuInvalid);
    var siteLabels := LabelsWhere(orders, SiteInvalid);
    match Drop(Indexed(orders), skuLabels)
    case Err(e) => Err(e)
    case Ok(rest) =>
      match Drop(rest, siteLabels)
      case Err(e) => Err(e)
      case Ok(kept) => Ok(Unlabel(kept))
  }

  /** Some line fails both the SKU and the site check. */
  predicate FailsBoth(orders: seq<Line>)
  {
    exists i :: 0 <= i < |orders| && SkuInvalid(orders[i]) && SiteInvalid(orders[i])
  }

  /** The double drop raises exactly when some line fails both checks: that
      line's label is gone after the first drop. */
  lemma NormalAsWrittenRaises(orders: seq<Line>)
    ensures NormalAsWritten(orders).Err? <==> FailsBoth(orders)
  {
    var skuLabels := LabelsWhere(orders, SkuInvalid);
    var siteLabels := LabelsWhere(orders, SiteInvalid);
    var ix := Indexed(orders);
    assert skuLabels <= Labels(ix) by {
      forall i | i in skuLabels ensures i in Labels(ix) {
        assert ix[i] in ix;
      }
    }
    var rest := Seqs.Filter(ix, NotIn(skuLabels));
    Seqs.FilterMembers(ix, NotIn(skuLabels));
    if FailsBoth(orders) {
      var i :| 0 <= i < |orders| && SkuInvalid(orders[i]) && SiteInvalid(orders[i]);
      assert i in siteLabels;
      assert i !in Labels(rest);
    } else {
      forall i | i in siteLabels ensures i in Labels(rest) {
        assert ix[i] in rest;
      }
    }
  }

  /** Selecting labelled rows by a condition on their labels that mirrors a
      condition on their lines selects the same lines. */
  lemma {:induction false} UnlabelFilter(orders: seq<Line>, q: Labelled -> bool, p: Line -> bool)
    requires forall i :: 0 <= i < |orders| ==> q(Labelled(i, orders[i])) == p(orders[i])
    ensures Unlabel(Seqs.Filter(Indexed(orders), q)) == Seqs.Filter(orders, p)
    decreases |orders|
  {
    if orders != [] {
      var n := |orders| - 1;
      var o' := orders[..n];
      var ix, ix' := Indexed(orders), Indexed(o');
      assert ix[..n] == ix';
      UnlabelFilter(o', q, p);
      var x := ix[n];
      var f' := Seqs.Filter(ix', q);
      if q(x) {
        calc {
          Unlabel(Seqs.Filter(ix, q));
          Unlabel(f' + [x]);
          { UnlabelSnoc(f', x); }
          Unlabel(f') + [orders[n]];
          Seqs.Filter(orders, p);
        }
      } else {
        calc {
          Unlabel(Seqs.Filter(ix, q));
          Unlabel(f');
          Seqs.Filter(orders, p);
        }
      }
    }
  }

  lemma UnlabelSnoc(rows: seq<Labelled>, x: Labelled)
    ensures Unlabel(rows + [x]) == Unlabel(rows) + [x.line]
  {
    assert (rows + [x])[..|rows|] == rows;
  }

  /** When no line fails both checks, the double drop succeeds and yields
      exactly the normal orders. */
  lemma NormalAsWrittenAgrees(orders: seq<Line>)
    requires !FailsBoth(orders)
    ensures NormalAsWritten(orders) == Ok(NormalOrders(orders))
  {
    NormalAsWrittenRaises(orders);
    var skuLabels := LabelsWhere(orders, SkuInvalid);
    var siteLabels := LabelsWhere(orders, SiteInvalid);
    var ix := Indexed(orders);
    var both := (r: Labelled) => NotIn(skuLabels)(r) && NotIn(siteLabels)(r);
    Seqs.FilterTwice(ix, NotIn(skuLabels), NotIn(siteLabels), both);
    UnlabelFilter(orders, both, IsNormal);
  }

  /** A single web line for an unknown site and an unknown SKU fails both
      checks, so the double drop raises instead of reporting it. */
  lemma DoubleFailureRaises()
    ensures NormalAsWritten([Line(Web, "X9", Text("S9"), Int(1), Missing, Missing, Missing)]).Err?
  {
    NormalAsWrittenRaises([Line(Web, "X9", Text("S9"), Int(1), Missing, Missing, Missing)]);
  }
}
