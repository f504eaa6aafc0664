/** Splitting the normal orders into one picking list per warehouse. */
module Grouping {
  import opened Cells
  import opened Reconcile
  import Seqs

  /** The warehouse column of the frame. */
  function WarehouseColumn(lines: seq<Line>): (c: seq<Cell>)
    ensures |c| == |lines|
    ensures forall k :: 0 <= k < |lines| ==> c[k] == lines[k].warehouse
  {
    seq(|lines|, k requires 0 <= k < |lines| => lines[k].warehouse)
  }

  /** The distinct warehouses of `lines`, missing values left out, in order
      of first appearance (`column.dropna().unique()`). */
  function Warehouses(lines: seq<Line>): (ws: seq<Cell>)
    ensures forall i, j :: 0 <= i < j < |ws| ==> ws[i] != ws[j]
    ensures forall w :: w in ws <==> w != Missing && w in WarehouseColumn(lines)
    decreases |lines|
  {
    if lines == [] then []
    else
      var n := |lines| - 1;
      var prev := Warehouses(lines[..n]);
      var w := lines[n].warehouse;
      assert WarehouseColumn(lines) == WarehouseColumn(lines[..n]) + [w];
      if w == Missing || w in prev then prev else prev + [w]
  }

  /** The position of the first line of warehouse `w`. */
  function FirstAt(lines: seq<Line>, w: Cell): (k: nat)
    requires w in WarehouseColumn(lines)
    ensures k < |lines| && lines[k].warehouse == w
    ensures forall k' :: 0 <= k' < k ==> lines[k'].warehouse != w
    decreases |lines|
  {
    var n := |lines| - 1;
    assert WarehouseColumn(lines) == WarehouseColumn(lines[..n]) + [lines[n].warehouse];
    if w in WarehouseColumn(lines[..n]) then FirstAt(lines[..n], w) else n
  }

  /** Warehouses are listed in order of first appearance: a warehouse whose
      first line comes earlier is listed earlier. */
  lemma {:induction false} WarehousesInFirstAppearanceOrder(lines: seq<Line>)
    ensures forall i, j :: 0 <= i < j < |Warehouses(lines)| ==>
              FirstAt(lines, Warehouses(lines)[i]) < FirstAt(lines, Warehouses(lines)[j])
    decreases |lines|
  {
    if lines != [] {
      var n := |lines| - 1;
      var prefix := lines[..n];
      WarehousesInFirstAppearanceOrder(prefix);
      var ws, prev := Warehouses(lines), Warehouses(prefix);
      assert WarehouseColumn(lines) == WarehouseColumn(prefix) + [lines[n].warehouse];
      forall i, j | 0 <= i < j < |ws| ensures FirstAt(lines, ws[i]) < FirstAt(lines, ws[j])
      {
        assert ws[i] == prev[i] && prev[i] in prev;
        if j < |prev| {
          assert ws[j] == prev[j] && prev[j] in prev;
        } else {
          assert ws[j] !in WarehouseColumn(prefix);
        }
      }
    }
  }

  function HasWarehouse(w: Cell): Line -> bool
  {
    (l: Line) => l.warehouse == w
  }

  /** The lines of one warehouse, in order (`frame[frame["仓库"] == w]`). */
  function Group(lines: seq<Line>, w: Cell): seq<Line>
  {
    Seqs.Filter(lines, HasWarehouse(w))
  }

  /** One downloadable picking list: a warehouse and its lines. */
  datatype PickingList = PickingList(warehouse: Cell, lines: seq<Line>)

  /** One picking list per warehouse of `ws`, in the order of `ws`. */
  function ListsFor(lines: seq<Line>, ws: seq<Cell>): seq<PickingList>
    decreases |ws|
  {
    if ws == [] then [] else [PickingList(ws[0], Group(lines, ws[0]))] + ListsFor(lines, ws[1..])
  }

  /** List i is for warehouse i and holds that warehouse's lines. */
  lemma {:induction false} ListsForSpec(lines: seq<Line>, ws: seq<Cell>)
    ensures |ListsFor(lines, ws)| == |ws|
    ensures forall i :: 0 <= i < |ws| ==>
              ListsFor(lines, ws)[i] == PickingList(ws[i], Seqs.Filter(lines, HasWarehouse(ws[i])))
    decreases |ws|
  {
    if ws != [] {
      ListsForSpec(lines, ws[1..]);
    }
  }

  /** The picking lists of the normal orders. */
  function PickingLists(lines: seq<Line>): seq<PickingList>
  {
    ListsFor(lines, Warehouses(lines))
  }

  /** All lines of a sequence of picking lists, list after list. */
  function Flatten(lists: seq<PickingList>): seq<Line>
    decreases |lists|
  {
    if lists == [] then [] else lists[0].lines + Flatten(lists[1..])
  }

  /** There is one picking list per distinct warehouse of the lines, and
      one for no other warehouse. */
  lemma PickingListsCover(lines: seq<Line>)
    ensures forall i, j :: 0 <= i < j < |PickingLists(lines)| ==>
              PickingLists(lines)[i].warehouse != PickingLists(lines)[j].warehouse
    ensures forall w :: w != Missing && w in WarehouseColumn(lines) <==>
              exists i :: 0 <= i < |PickingLists(lines)| && PickingLists(lines)[i].warehouse == w
  {
    var ws := Warehouses(lines);
    var ps := PickingLists(lines);
    ListsForSpec(lines, ws);
    forall i | 0 <= i < |ps| ensures ps[i].warehouse in ws
    {
      assert ps[i].warehouse == ws[i];
    }
    forall w | w != Missing && w in WarehouseColumn(lines)
      ensures exists i :: 0 <= i < |ps| && ps[i].warehouse == w
    {
      assert w in ws;
      var i :| 0 <= i < |ws| && ws[i] == w;
      assert ps[i].warehouse == w;
    }
  }

  /** Each picking list holds exactly the lines of its warehouse, in their
      order, and none is empty. */
  lemma PickingListsContents(lines: seq<Line>)
    ensures forall i :: 0 <= i < |PickingLists(lines)| ==>
              PickingLists(lines)[i].lines != [] &&
              PickingLists(lines)[i].lines == Seqs.Filter(lines, HasWarehouse(PickingLists(lines)[i].warehouse)) &&
              forall l :: l in PickingLists(lines)[i].lines <==> l in lines && l.warehouse == PickingLists(lines)[i].warehouse
  {
    var ws := Warehouses(lines);
    var ps := PickingLists(lines);
    ListsForSpec(lines, ws);
    forall i | 0 <= i < |ps|
      ensures ps[i].lines != []
      ensures forall l :: l in ps[i].lines <==> l in lines && l.warehouse == ps[i].warehouse
    {
      Seqs.FilterMembers(lines, HasWarehouse(ws[i]));
      assert ws[i] in ws;
      var k := FirstAt(lines, ws[i]);
      assert lines[k] in ps[i].lines;
    }
  }

  /** The flattened lists are the first warehouse's lines, then the rest. */
  lemma FlattenCons(lines: seq<Line>, ws: seq<Cell>)
    requires ws != []
    ensures Flatten(ListsFor(lines, ws)) == Group(lines, ws[0]) + Flatten(ListsFor(lines, ws[1..]))
  {
    assert ListsFor(lines, ws)[1..] == ListsFor(lines, ws[1..]);
  }

  lemma GroupSnoc(lines: seq<Line>, w: Cell)
    requires lines != []
    ensures var n := |lines| - 1;
              Group(lines, w) == Group(lines[..n], w) + if lines[n].warehouse == w then [lines[n]] else []
  {
  }

  /** Adding one line to the input adds it once to the flattened lists for
      distinct warehouses `ws` if its warehouse is among them. */
  lemma {:induction false} FlattenSnoc(lines: seq<Line>, ws: seq<Cell>)
    requires lines != []
    requires forall i, j :: 0 <= i < j < |ws| ==> ws[i] != ws[j]
    ensures lines[|lines| - 1].warehouse in ws ==>
              multiset(Flatten(ListsFor(lines, ws))) ==
              multiset(Flatten(ListsFor(lines[..|lines| - 1], ws))) + multiset{lines[|lines| - 1]}
    ensures lines[|lines| - 1].warehouse !in ws ==>
              multiset(Flatten(ListsFor(lines, ws))) == multiset(Flatten(ListsFor(lines[..|lines| - 1], ws)))
    decreases |ws|
  {
    var n := |lines| - 1;
    var prefix, x := lines[..n], lines[n];
    if ws == [] {
      assert Flatten(ListsFor(lines, ws)) == [] == Flatten(ListsFor(prefix, ws));
    } else {
      var w, rest := ws[0], ws[1..];
      FlattenCons(lines, ws);
      FlattenCons(prefix, ws);
      GroupSnoc(lines, w);
      FlattenSnoc(lines, rest);
      var a, b := Group(prefix, w), Flatten(ListsFor(prefix, rest));
      var fl := Flatten(ListsFor(lines, rest));
      if x.warehouse == w {
        assert x.warehouse !in rest;
        MultisetShift(a, [x], fl, b, []);
      } else if x.warehouse in rest {
        MultisetShift(a, [], fl, b, [x]);
      } else {
        MultisetShift(a, [], fl, b, []);
      }
    }
  }

  /** Multiset bookkeeping for one step of `FlattenSnoc`. */
  lemma MultisetShift<T>(a: seq<T>, here: seq<T>, later: seq<T>, b: seq<T>, extra: seq<T>)
    requires multiset(later) == multiset(b) + multiset(extra)
    ensures multiset((a + here) + later) == multiset(a + b) + multiset(here) + multiset(extra)
  {
  }

  function InWarehouses(ws: seq<Cell>): Line -> bool
  {
    (l: Line) => l.warehouse in ws
  }

  /** For distinct warehouses `ws`, the flattened lists hold every line
      whose warehouse is among them exactly as often as the input does, and
      nothing else. */
  lemma {:induction false} FlattenSelects(lines: seq<Line>, ws: seq<Cell>)
    requires forall i, j :: 0 <= i < j < |ws| ==> ws[i] != ws[j]
    ensures multiset(Flatten(ListsFor(lines, ws))) == multiset(Seqs.Filter(lines, InWarehouses(ws)))
    decreases |lines|
  {
    if lines == [] {
      FlattenEmpty(ws);
    } else {
      var n := |lines| - 1;
      var prefix, x := lines[..n], lines[n];
      var tail := if x.warehouse in ws then [x] else [];
      calc {
        multiset(Flatten(ListsFor(lines, ws)));
        { FlattenSnoc(lines, ws); }
        multiset(Flatten(ListsFor(prefix, ws))) + multiset(tail);
        { FlattenSelects(prefix, ws); }
        multiset(Seqs.Filter(prefix, InWarehouses(ws))) + multiset(tail);
        multiset(Seqs.Filter(prefix, InWarehouses(ws)) + tail);
        multiset(Seqs.Filter(lines, InWarehouses(ws)));
      }
    }
  }

  lemma {:induction false} FlattenEmpty(ws: seq<Cell>)
    ensures Flatten(ListsFor([], ws)) == []
    decreases |ws|
  {
    if ws != [] {
      FlattenEmpty(ws[1..]);
      assert ListsFor([], ws)[1..] == ListsFor([], ws[1..]);
    }
  }

  /** The picking lists of lines that all have a warehouse partition them:
      together they hold every line exactly as often as the input does. */
  lemma PickingListsPartition(lines: seq<Line>)
    requires forall k :: 0 <= k < |lines| ==> lines[k].warehouse != Missing
    ensures multiset(Flatten(PickingLists(lines))) == multiset(lines)
    ensures |Flatten(PickingLists(lines))| == |lines|
  {
    var ws := Warehouses(lines);
    forall k | 0 <= k < |lines| ensures InWarehouses(ws)(lines[k]) {
      assert WarehouseColumn(lines)[k] == lines[k].warehouse;
    }
    FlattenSelects(lines, ws);
    Seqs.FilterAll(lines, InWarehouses(ws));
    assert |multiset(Flatten(PickingLists(lines)))| == |multiset(lines)|;
  }
}
